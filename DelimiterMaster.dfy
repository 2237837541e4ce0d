/** The master lister of lib/algos/list/delimiterMaster.js: lists one current
    entry per object, replacing a placeholder-for-deletion (PHD) master by the
    version record that follows it and skipping every other version record. */
module DelimiterMaster {
  import opened Wrappers
  import opened Strings
  import opened CompositeKey
  import opened Versioning
  import opened DelimiterBase
  import opened ObjectStream

  /** A listed object: `{ key, value }`. */
  datatype Entry = Entry(key: string, value: string)

  /** The state `filter` changes: the `PHD` slot and the accumulator's
      `Contents`, `keys` and `NextMarker`. */
  datatype Listing = Listing(phd: Option<string>, contents: seq<Entry>, keys: nat, nextMarker: Option<string>)

  /** What `filter` does with one record. */
  datatype Route =
    | Skip                                   // a version that resolves no pending PHD
    | Hold                                   // a PHD master: its key becomes pending
    | ToPrefix(key: string, index: nat)      // grouped by `addCommonPrefix`
    | ToContents(key: string, value: string) // listed by `addContents`

  /** The branch `filter` takes for `(key, value)` while `phd` is pending. */
  function Classify(cfg: Config, phd: Option<string>, key: string, value: string): (r: Route)
    ensures r.Skip? <==> Split(cfg.sep, key).Suffixed? && phd != Some(Split(cfg.sep, key).name)
    ensures r.Hold? <==> Split(cfg.sep, key).Bare? && IsPHD(cfg.json, value)
    ensures (r.ToPrefix? || r.ToContents?) ==> r.key == Split(cfg.sep, key).name
    ensures (r.ToPrefix? || r.ToContents?) && Split(cfg.sep, key).Suffixed? ==> phd == Some(r.key)
    ensures r.ToContents? ==> r.value == value
    ensures r.ToPrefix? ==>
      && IsSet(cfg.delimiter)
      && BaseIndex(cfg.prefix) <= r.index
      && Occurs(r.key, cfg.delimiter.value, r.index)
      && (forall k :: BaseIndex(cfg.prefix) <= k < r.index ==> !Occurs(r.key, cfg.delimiter.value, k))
    ensures r.ToContents? && IsSet(cfg.delimiter) ==>
      forall k :: BaseIndex(cfg.prefix) <= k ==> !Occurs(r.key, cfg.delimiter.value, k)
  {
    var parts := Split(cfg.sep, key);
    if parts.Suffixed? && phd != Some(parts.name) then Skip
    else if parts.Bare? && IsPHD(cfg.json, value) then Hold
    else if IsSet(cfg.delimiter) && IndexOf(parts.name, cfg.delimiter.value, BaseIndex(cfg.prefix)) >= 0 then
      ToPrefix(parts.name, IndexOf(parts.name, cfg.delimiter.value, BaseIndex(cfg.prefix)))
    else ToContents(parts.name, value)
  }

  /** `addContents(key, value)` on the listing state. */
  function Append(cfg: Config, st: Listing, key: string, value: string): (Listing, bool) {
    if st.keys >= cfg.maxKeys then (st, false)
    else (st.(contents := st.contents + [Entry(key, value)], keys := st.keys + 1,
              nextMarker := Some(key + [cfg.sep])), true)
  }

  /** `filter({ key, value })` on the listing state, for a record that does
      not reach `addCommonPrefix`. */
  function Step(cfg: Config, st: Listing, key: string, value: string): (r: (Listing, bool))
    requires !Classify(cfg, st.phd, key, value).ToPrefix?
    ensures r.0.contents == st.contents || r.0.contents == st.contents + [Entry(Split(cfg.sep, key).name, value)]
    ensures r.0.keys - st.keys == |r.0.contents| - |st.contents|
    ensures r.0.contents != st.contents ==> st.keys < cfg.maxKeys && r.0.nextMarker == Some(Split(cfg.sep, key).name + [cfg.sep])
    ensures r.0.contents == st.contents ==> r.0.nextMarker == st.nextMarker
    ensures !r.1 ==> st.keys >= cfg.maxKeys && r.0.contents == st.contents
  {
    match Classify(cfg, st.phd, key, value)
    case Skip => (st, true)
    case Hold => (st.(phd := Some(key)), true)
    case ToContents(k, v) => Append(cfg, st.(phd := None), k, v)
  }

  class DelimiterMaster {
    const acc: Delimiter<Entry>
    const sep: char
    const json: Json
    var PHD: Option<string>

    constructor (prefix: Option<string>, delimiter: Option<string>, maxKeys: nat, marker: Option<string>,
                 sep: char, json: Json)
      ensures fresh(acc)
      ensures acc.prefix == prefix && acc.delimiter == delimiter && acc.maxKeys == maxKeys
      ensures this.sep == sep && this.json == json
      ensures acc.CommonPrefixes == [] && acc.Contents == [] && !acc.IsTruncated && acc.keys == 0
      ensures acc.NextMarker == marker && PHD == None
    {
      acc := new Delimiter(prefix, delimiter, maxKeys, marker);
      this.sep := sep;
      this.json := json;
      PHD := None;
    }

    function Cfg(): Config {
      Config(sep, json, acc.prefix, acc.delimiter, acc.maxKeys)
    }

    function State(): Listing
      reads this, acc
    {
      Listing(PHD, acc.Contents, acc.keys, acc.NextMarker)
    }

    /** `addContents(key, value)`: nothing changes once the page is full;
        otherwise one entry is listed, the marker becomes `key + VID_SEP`
        and one more key is counted. */
    method AddContents(key: string, value: string) returns (cont: bool)
      modifies acc
      ensures cont == !old(acc.ReachedMaxKeys())
      ensures !cont ==> unchanged(acc)
      ensures cont ==>
        && acc.Contents == old(acc.Contents) + [Entry(key, value)]
        && acc.NextMarker == Some(key + [sep])
        && acc.keys == old(acc.keys) + 1
        && acc.CommonPrefixes == old(acc.CommonPrefixes)
        && acc.IsTruncated == old(acc.IsTruncated)
    {
      if acc.ReachedMaxKeys() {
        return false;
      }
      acc.Contents := acc.Contents + [Entry(key, value)];
      acc.NextMarker := Some(key + [sep]);
      acc.keys := acc.keys + 1;
      return true;
    }

    /** `filter({ key, value })`. */
    method Filter(key: string, value: string) returns (cont: bool)
      modifies this, acc
      ensures Classify(Cfg(), old(PHD), key, value).ToPrefix? ==> PHD == None && acc.Contents == old(acc.Contents)
      ensures !Classify(Cfg(), old(PHD), key, value).ToPrefix? ==>
        && (State(), cont) == Step(Cfg(), old(State()), key, value)
        && acc.CommonPrefixes == old(acc.CommonPrefixes) && acc.IsTruncated == old(acc.IsTruncated)
    {
      ghost var st0 := State();
      var k := key;
      var versionIdIndex := IndexOf(key, [sep], 0);
      if versionIdIndex >= 0 {
        k := key[..versionIdIndex];
        if PHD != Some(k) {
          SkipPath(Cfg(), st0, key, value);
          return true;
        }
      } else if IsPHD(json, value) {
        HoldPath(Cfg(), st0, key, value);
        PHD := Some(key);
        return true;
      }
      PHD := None;
      if IsSet(acc.delimiter) {
        var baseIndex := BaseIndex(acc.prefix);
        var delimiterIndex := IndexOf(k, acc.delimiter.value, baseIndex);
        if delimiterIndex >= 0 {
          PrefixPath(Cfg(), st0, key, value);
          cont := acc.AddCommonPrefix(k, delimiterIndex);
          return;
        }
      }
      ContentsPath(Cfg(), st0, key, value);
      ghost var st1 := State();
      cont := AddContents(k, value);
      assert (State(), cont) == Append(Cfg(), st1, k, value);
    }
  }

  // The four branches of `filter`, one lemma each, in the terms the code
  // tests: the position of `VID_SEP`, the pending key, `isPHD` and the
  // position of the delimiter.

  lemma SkipPath(cfg: Config, st: Listing, key: string, value: string)
    requires IndexOf(key, [cfg.sep], 0) >= 0 && st.phd != Some(key[..IndexOf(key, [cfg.sep], 0)])
    ensures Classify(cfg, st.phd, key, value).Skip?
    ensures Step(cfg, st, key, value) == (st, true)
  {
    IndexOfChar(key, cfg.sep);
  }

  lemma HoldPath(cfg: Config, st: Listing, key: string, value: string)
    requires IndexOf(key, [cfg.sep], 0) < 0 && IsPHD(cfg.json, value)
    ensures Classify(cfg, st.phd, key, value).Hold?
    ensures Step(cfg, st, key, value) == (st.(phd := Some(key)), true)
  {
    IndexOfChar(key, cfg.sep);
  }

  /** The key `filter` goes on with: the part before `VID_SEP`, if any. */
  function Stem(cfg: Config, key: string): string {
    Split(cfg.sep, key).name
  }

  /** Neither skipped nor held. */
  predicate Passes(cfg: Config, st: Listing, key: string, value: string) {
    var i := IndexOf(key, [cfg.sep], 0);
    if i >= 0 then st.phd == Some(key[..i]) else !IsPHD(cfg.json, value)
  }

  lemma PrefixPath(cfg: Config, st: Listing, key: string, value: string)
    requires Passes(cfg, st, key, value)
    requires IsSet(cfg.delimiter) && IndexOf(Stem(cfg, key), cfg.delimiter.value, BaseIndex(cfg.prefix)) >= 0
    ensures Classify(cfg, st.phd, key, value).ToPrefix?
  {
    IndexOfChar(key, cfg.sep);
  }

  lemma ContentsPath(cfg: Config, st: Listing, key: string, value: string)
    requires Passes(cfg, st, key, value)
    requires !IsSet(cfg.delimiter) || IndexOf(Stem(cfg, key), cfg.delimiter.value, BaseIndex(cfg.prefix)) < 0
    ensures Classify(cfg, st.phd, key, value) == ToContents(Stem(cfg, key), value)
    ensures Step(cfg, st, key, value) == Append(cfg, st.(phd := None), Stem(cfg, key), value)
  {
    IndexOfChar(key, cfg.sep);
  }

  // ---------------------------------------------------------------------
  // A whole listing: the caller feeds records until `filter` returns false.
  // ---------------------------------------------------------------------

  /** The state right after construction. */
  function Initial(marker: Option<string>): Listing {
    Listing(None, [], 0, marker)
  }

  /** Feeds `records` to `filter` in order, stopping at the first false;
      the final state and whether the caller would go on. */
  function Run(cfg: Config, st: Listing, records: seq<Record>): (Listing, bool)
    requires !IsSet(cfg.delimiter)
    decreases |records|
  {
    if records == [] then (st, true)
    else
      var next := Step(cfg, st, records[0].key, records[0].value);
      if next.1 then Run(cfg, next.0, records[1..]) else next
  }

  lemma {:induction false} RunAppend(cfg: Config, st: Listing, a: seq<Record>, b: seq<Record>)
    requires !IsSet(cfg.delimiter)
    ensures Run(cfg, st, a + b) ==
      var first := Run(cfg, st, a); if first.1 then Run(cfg, first.0, b) else first
    decreases |a|
  {
    if a == [] {
      assert a + b == b;
    } else {
      assert (a + b)[0] == a[0];
      assert (a + b)[1..] == a[1..] + b;
      var next := Step(cfg, st, a[0].key, a[0].value);
      if next.1 {
        RunAppend(cfg, next.0, a[1..], b);
      }
    }
  }

  /** The entry that the listing promises for one object: a master that is
      not a placeholder is listed with its value; a placeholder master is
      replaced by the object's first version; an object without a master, or
      whose placeholder no version follows, is not listed. */
  function Current(json: Json, obj: ObjectRecords): seq<Entry> {
    match obj.master
    case None => []
    case Some(m) =>
      if !IsPHD(json, m) then [Entry(obj.name, m)]
      else if obj.versions != [] then [Entry(obj.name, obj.versions[0].value)]
      else []
  }

  function CurrentEntries(json: Json, objs: seq<ObjectRecords>): seq<Entry> {
    if objs == [] then [] else Current(json, objs[0]) + CurrentEntries(json, objs[1..])
  }

  /** `st` lists the first `maxKeys` entries of `expected`, counts them and
      marks the last one. */
  predicate Tracks(cfg: Config, st: Listing, expected: seq<Entry>) {
    && st.contents == Take(expected, cfg.maxKeys)
    && st.keys == |st.contents|
    && (st.contents != [] ==> st.nextMarker == Some(st.contents[|st.contents| - 1].key + [cfg.sep]))
  }

  lemma {:induction false} AppendTracks(cfg: Config, st: Listing, expected: seq<Entry>, key: string, value: string)
    requires Tracks(cfg, st, expected)
    ensures var next := Append(cfg, st, key, value);
      && Tracks(cfg, next.0, expected + [Entry(key, value)])
      && next.0.phd == st.phd
      && (!next.1 ==> |next.0.contents| == cfg.maxKeys)
      && (next.1 <==> |expected| < cfg.maxKeys)
  {
    TakeSnoc(expected, Entry(key, value), cfg.maxKeys);
  }

  /** The versions of an object whose key is not pending change nothing. */
  lemma {:induction false} SkipsVersions(cfg: Config, st: Listing, name: string, versions: seq<VersionRecord>)
    requires !IsSet(cfg.delimiter) && cfg.sep !in name && st.phd != Some(name)
    ensures Run(cfg, st, VersionRecords(cfg.sep, name, versions)) == (st, true)
    decreases |versions|
  {
    if versions != [] {
      SplitJoin(cfg.sep, name, versions[0].versionId);
      SkipsVersions(cfg, st, name, versions[1..]);
    }
  }

  /** The outcome one object's records must have: its current entry is
      listed (or the page fills up), and no other key is left pending. */
  predicate ListedObject(cfg: Config, st: Listing, expected: seq<Entry>, obj: ObjectRecords, r: (Listing, bool)) {
    && Tracks(cfg, r.0, expected + Current(cfg.json, obj))
    && (!r.1 ==> |r.0.contents| == cfg.maxKeys)
    && (|expected| <= cfg.maxKeys ==> (r.1 <==> |expected + Current(cfg.json, obj)| <= cfg.maxKeys))
    && (r.1 ==> r.0.phd == st.phd || r.0.phd == None || r.0.phd == Some(obj.name))
  }

  lemma RunOne(cfg: Config, st: Listing, key: string, value: string)
    requires !IsSet(cfg.delimiter)
    ensures Run(cfg, st, [Record(key, value)]) == Step(cfg, st, key, value)
  {
    assert [Record(key, value)][1..] == [];
  }

  /** A master that is not a placeholder is listed; its versions are skipped. */
  lemma {:induction false} ListsPlainMaster(cfg: Config, st: Listing, expected: seq<Entry>, name: string, m: string, versions: seq<VersionRecord>)
    requires !IsSet(cfg.delimiter) && cfg.sep !in name && st.phd != Some(name)
    requires Tracks(cfg, st, expected) && !IsPHD(cfg.json, m)
    ensures var r := Run(cfg, st, [Record(name, m)] + VersionRecords(cfg.sep, name, versions));
      && Tracks(cfg, r.0, expected + [Entry(name, m)])
      && (!r.1 ==> |r.0.contents| == cfg.maxKeys)
      && (r.1 <==> |expected| < cfg.maxKeys)
      && (r.1 ==> r.0.phd == None)
  {
    SplitBare(cfg.sep, name);
    RunAppend(cfg, st, [Record(name, m)], VersionRecords(cfg.sep, name, versions));
    RunOne(cfg, st, name, m);
    var listed := Step(cfg, st, name, m);
    assert listed == Append(cfg, st.(phd := None), name, m);
    AppendTracks(cfg, st.(phd := None), expected, name, m);
    if listed.1 {
      SkipsVersions(cfg, listed.0, name, versions);
    }
  }

  /** A placeholder master is replaced by the first version that follows it;
      the later versions are skipped. */
  lemma {:induction false} ListsResolvedPlaceholder(cfg: Config, st: Listing, expected: seq<Entry>, name: string, m: string, versions: seq<VersionRecord>)
    requires !IsSet(cfg.delimiter) && cfg.sep !in name && st.phd != Some(name)
    requires Tracks(cfg, st, expected) && IsPHD(cfg.json, m) && versions != []
    ensures var r := Run(cfg, st, [Record(name, m)] + VersionRecords(cfg.sep, name, versions));
      && Tracks(cfg, r.0, expected + [Entry(name, versions[0].value)])
      && (!r.1 ==> |r.0.contents| == cfg.maxKeys)
      && (r.1 <==> |expected| < cfg.maxKeys)
      && (r.1 ==> r.0.phd == None)
  {
    SplitBare(cfg.sep, name);
    var v := versions[0];
    var first := [Record(Join(cfg.sep, name, v.versionId), v.value)];
    var rest := VersionRecords(cfg.sep, name, versions[1..]);
    assert [Record(name, m)] + VersionRecords(cfg.sep, name, versions) == [Record(name, m)] + (first + rest);
    RunAppend(cfg, st, [Record(name, m)], first + rest);
    RunOne(cfg, st, name, m);
    var held := st.(phd := Some(name));
    assert Step(cfg, st, name, m) == (held, true);
    RunAppend(cfg, held, first, rest);
    RunOne(cfg, held, Join(cfg.sep, name, v.versionId), v.value);
    SplitJoin(cfg.sep, name, v.versionId);
    var resolved := Step(cfg, held, Join(cfg.sep, name, v.versionId), v.value);
    assert resolved == Append(cfg, st.(phd := None), name, v.value);
    AppendTracks(cfg, st.(phd := None), expected, name, v.value);
    if resolved.1 {
      SkipsVersions(cfg, resolved.0, name, versions[1..]);
    }
  }

  /** A placeholder master with no version after it lists nothing and leaves
      its own key pending. */
  lemma {:induction false} HoldsLonePlaceholder(cfg: Config, st: Listing, name: string, m: string)
    requires !IsSet(cfg.delimiter) && cfg.sep !in name && IsPHD(cfg.json, m)
    ensures Run(cfg, st, [Record(name, m)]) == (st.(phd := Some(name)), true)
  {
    SplitBare(cfg.sep, name);
    RunOne(cfg, st, name, m);
  }

  /** The records of one object list exactly its current entry. */
  lemma {:induction false} ListsObject(cfg: Config, st: Listing, expected: seq<Entry>, obj: ObjectRecords)
    requires !IsSet(cfg.delimiter) && cfg.sep !in obj.name && st.phd != Some(obj.name)
    requires Tracks(cfg, st, expected)
    ensures ListedObject(cfg, st, expected, obj, Run(cfg, st, ObjectStreamOf(cfg.sep, obj)))
  {
    var versions := VersionRecords(cfg.sep, obj.name, obj.versions);
    match obj.master
    case None =>
      assert ObjectStreamOf(cfg.sep, obj) == versions;
      SkipsVersions(cfg, st, obj.name, obj.versions);
      assert expected + [] == expected;
    case Some(m) =>
      assert ObjectStreamOf(cfg.sep, obj) == [Record(obj.name, m)] + versions;
      if !IsPHD(cfg.json, m) {
        ListsPlainMaster(cfg, st, expected, obj.name, m, obj.versions);
      } else if obj.versions != [] {
        ListsResolvedPlaceholder(cfg, st, expected, obj.name, m, obj.versions);
      } else {
        assert versions == [];
        assert [Record(obj.name, m)] + versions == [Record(obj.name, m)];
        HoldsLonePlaceholder(cfg, st, obj.name, m);
        assert expected + [] == expected;
      }
  }

  lemma {:induction false} ListsObjects(cfg: Config, st: Listing, expected: seq<Entry>, objs: seq<ObjectRecords>)
    requires !IsSet(cfg.delimiter) && WellFormed(cfg.sep, objs)
    requires forall i :: 0 <= i < |objs| ==> st.phd != Some(objs[i].name)
    requires Tracks(cfg, st, expected)
    ensures var r := Run(cfg, st, Records(cfg.sep, objs));
      && Tracks(cfg, r.0, expected + CurrentEntries(cfg.json, objs))
      && (!r.1 ==> |r.0.contents| == cfg.maxKeys)
      && (|expected| <= cfg.maxKeys ==> (r.1 <==> |expected + CurrentEntries(cfg.json, objs)| <= cfg.maxKeys))
    decreases |objs|
  {
    if objs == [] {
      assert expected + [] == expected;
    } else {
      WellFormedTail(cfg.sep, objs);
      var obj, tail := objs[0], objs[1..];
      var here, later := Current(cfg.json, obj), CurrentEntries(cfg.json, tail);
      assert Records(cfg.sep, objs) == ObjectStreamOf(cfg.sep, obj) + Records(cfg.sep, tail);
      assert CurrentEntries(cfg.json, objs) == here + later;
      assert expected + (here + later) == (expected + here) + later;
      RunAppend(cfg, st, ObjectStreamOf(cfg.sep, obj), Records(cfg.sep, tail));
      var mid := Run(cfg, st, ObjectStreamOf(cfg.sep, obj));
      assert ListedObject(cfg, st, expected, obj, mid) by {
        ListsObject(cfg, st, expected, obj);
      }
      if mid.1 {
        assert forall i :: 0 <= i < |tail| ==> mid.0.phd != Some(tail[i].name) by {
          forall i | 0 <= i < |tail| ensures mid.0.phd != Some(tail[i].name) {
            assert tail[i] == objs[i + 1];
          }
        }
        ListsObjects(cfg, mid.0, expected + here, tail);
      } else {
        TakeFull(expected + here, later, cfg.maxKeys);
      }
    }
  }

  /** Without a delimiter, a listing of a well-formed stream holds the first
      `maxKeys` current entries, one per object, counts them, marks the last
      one with `key + VID_SEP`, and stops exactly when there are more current
      entries than fit on the page. */
  lemma ListsCurrentEntries(cfg: Config, marker: Option<string>, objs: seq<ObjectRecords>)
    requires !IsSet(cfg.delimiter) && WellFormed(cfg.sep, objs)
    ensures var r := Run(cfg, Initial(marker), Records(cfg.sep, objs));
      && r.0.contents == Take(CurrentEntries(cfg.json, objs), cfg.maxKeys)
      && r.0.keys == |r.0.contents|
      && (r.0.contents != [] ==> r.0.nextMarker == Some(r.0.contents[|r.0.contents| - 1].key + [cfg.sep]))
      && (!r.1 ==> |r.0.contents| == cfg.maxKeys)
      && (r.1 <==> |CurrentEntries(cfg.json, objs)| <= cfg.maxKeys)
  {
    ListsObjects(cfg, Initial(marker), [], objs);
    assert [] + CurrentEntries(cfg.json, objs) == CurrentEntries(cfg.json, objs);
  }

  /** A one-key page over two listable objects `a` and `b`: `a` is listed,
      the marker is `a` followed by `VID_SEP`, and `b` stops the iteration. */
  lemma StopsOnFullPage(cfg: Config, marker: Option<string>)
    requires !IsSet(cfg.delimiter) && cfg.maxKeys == 1 && cfg.sep != 'a' && cfg.sep != 'b'
    ensures var r := Run(cfg, Initial(marker), Records(cfg.sep, [ObjectRecords("a", Some("{}"), []), ObjectRecords("b", Some("{}"), [])]));
      && r.0.contents == [Entry("a", "{}")]
      && r.0.nextMarker == Some("a" + [cfg.sep])
      && !r.1
  {
    var objs := [ObjectRecords("a", Some("{}"), []), ObjectRecords("b", Some("{}"), [])];
    var records := [Record("a", "{}"), Record("b", "{}")];
    assert Records(cfg.sep, objs) == records by {
      assert Records(cfg.sep, objs[1..][1..]) == [];
    }
    SplitBare(cfg.sep, "a");
    SplitBare(cfg.sep, "b");
    var st1 := Listing(None, [Entry("a", "{}")], 1, Some("a" + [cfg.sep]));
    assert !IsPHD(cfg.json, "{}") by {
      assert |"{}"| == 2;
    }
    assert Classify(cfg, None, "a", "{}") == ToContents("a", "{}");
    assert Initial(marker).contents + [Entry("a", "{}")] == [Entry("a", "{}")];
    assert Step(cfg, Initial(marker), "a", "{}") == (st1, true);
    assert Step(cfg, st1, "b", "{}") == (st1, false);
  }
}
