/** The all-versions lister of lib/algos/list/delimiterVersions.js: lists
    every version record of every object, and an object's master record only
    when no version of that object follows it. */
module DelimiterVersions {
  import opened Wrappers
  import opened Strings
  import opened CompositeKey
  import opened Versioning
  import opened DelimiterBase
  import opened ObjectStream

  /** A listed version: `{ key, versionId, value }`; `versionId` is
      `undefined` for a master record. */
  datatype VEntry = VEntry(key: string, versionId: Option<string>, value: string)

  /** The object returned by `result()`. */
  datatype VersionsPage = VersionsPage(
    CommonPrefixes: seq<string>, Versions: seq<VEntry>, IsTruncated: bool,
    NextMarker: Option<string>, NextVersionIdMarker: Option<string>, Delimiter: Option<string>)

  /** The state `filter` changes: the `masterVersion` slot and the
      accumulator's `Contents`, `keys`, `NextMarker` and `NextVersionIdMarker`. */
  datatype VListing = VListing(
    master: Option<Record>, contents: seq<VEntry>, keys: nat,
    nextMarker: Option<string>, nextVersionIdMarker: Option<string>)

  /** `nextDelimiter(key, delimiter, index)`: the first occurrence of a
      (non-empty) delimiter at or after `index`, or -1. */
  function NextDelimiter(key: string, delimiter: string, index: nat): (r: int)
    requires delimiter != ""
    ensures r == -1 || (index <= r && Occurs(key, delimiter, r))
    ensures r == -1 <==> forall k :: index <= k ==> !Occurs(key, delimiter, k)
    ensures r >= 0 ==> forall k :: index <= k < r ==> !Occurs(key, delimiter, k)
  {
    IndexOf(key, delimiter, index)
  }

  /** What `_filter` does with an entry. */
  datatype Outcome =
    | Dropped          // outside the prefix
    | Grouped(index: nat) // handed to `addCommonPrefix`
    | Listed           // handed to `addContents`

  /** The branch `_filter` takes for `key`. */
  function Route(cfg: Config, key: string): (r: Outcome)
    ensures r.Dropped? <==> IsSet(cfg.prefix) && !(cfg.prefix.value <= key)
    ensures r.Grouped? <==>
      && !r.Dropped?
      && IsSet(cfg.delimiter)
      && exists k :: BaseIndex(cfg.prefix) <= k && Occurs(key, cfg.delimiter.value, k)
    ensures r.Grouped? ==>
      && BaseIndex(cfg.prefix) <= r.index
      && Occurs(key, cfg.delimiter.value, r.index)
      && forall k :: BaseIndex(cfg.prefix) <= k < r.index ==> !Occurs(key, cfg.delimiter.value, k)
  {
    if IsSet(cfg.prefix) && !(cfg.prefix.value <= key) then Dropped
    else if IsSet(cfg.delimiter) && NextDelimiter(key, cfg.delimiter.value, BaseIndex(cfg.prefix)) != -1 then
      Grouped(NextDelimiter(key, cfg.delimiter.value, BaseIndex(cfg.prefix)))
    else Listed
  }

  /** `addContents(key, versionId, value)` on the listing state. */
  function Add(cfg: Config, st: VListing, e: VEntry): (VListing, bool) {
    if st.keys >= cfg.maxKeys then (st, false)
    else (st.(contents := st.contents + [e], keys := st.keys + 1,
              nextMarker := Some(e.key), nextVersionIdMarker := e.versionId), true)
  }

  /** `_filter(entry)` on the listing state, for an entry that does not reach
      `addCommonPrefix`: drops it outside the prefix, lists it otherwise. */
  function Dispatch(cfg: Config, st: VListing, e: VEntry): (r: (VListing, bool))
    requires !Route(cfg, e.key).Grouped?
    ensures r.0.master == st.master
    ensures r.0.contents == st.contents || (Route(cfg, e.key).Listed? && r.0.contents == st.contents + [e])
    ensures r.0.keys - st.keys == |r.0.contents| - |st.contents|
    ensures r.0.contents != st.contents ==>
      st.keys < cfg.maxKeys && r.0.nextMarker == Some(e.key) && r.0.nextVersionIdMarker == e.versionId
    ensures r.0.contents == st.contents ==> r.0 == st
    ensures !r.1 <==> Route(cfg, e.key).Listed? && st.keys >= cfg.maxKeys
  {
    if Route(cfg, e.key).Dropped? then (st, true) else Add(cfg, st, e)
  }

  /** The entry a buffered master record is listed as. */
  function MasterEntry(rec: Record): VEntry {
    VEntry(rec.key, None, rec.value)
  }

  /** The buffered master reaches `_filter` without being grouped. */
  predicate FlushDefined(cfg: Config, st: VListing) {
    st.master.Some? ==> !Route(cfg, st.master.value.key).Grouped?
  }

  /** `_filter(this.masterVersion)` followed by emptying the slot. */
  function Flush(cfg: Config, st: VListing): (r: (VListing, bool))
    requires FlushDefined(cfg, st)
    ensures r.0.master.None?
    ensures st.master.None? ==> r == (st, true)
  {
    if st.master.None? then (st, true)
    else
      var f := Dispatch(cfg, st, MasterEntry(st.master.value));
      (f.0.(master := None), f.1)
  }

  /** The buffer on a version record of `name`: a master of another object
      is listed (what that returns is ignored), one of the same object is
      discarded. */
  function Settle(cfg: Config, st: VListing, name: string): (r: VListing)
    requires st.master.Some? && st.master.value.key != name ==> FlushDefined(cfg, st)
    ensures r.master.None?
  {
    if st.master.Some? && st.master.value.key != name then Flush(cfg, st).0 else st.(master := None)
  }

  /** The records `filter` can take without reaching `addCommonPrefix`. */
  predicate StepDefined(cfg: Config, st: VListing, key: string) {
    match Split(cfg.sep, key)
    case Bare(_) => true
    case Suffixed(name, _) =>
      && !Route(cfg, name).Grouped?
      && (st.master.Some? && st.master.value.key != name ==> FlushDefined(cfg, st))
  }

  /** `filter({ key, value })` on the listing state, as written. A version
      record first lists a buffered master of another object (ignoring what
      that returns) or discards one of its own object, then goes through
      `_filter`. A bare master record is buffered, or clears the buffer when
      it is a placeholder, and in both cases replaces what was buffered. */
  function Step(cfg: Config, st: VListing, key: string, value: string): (r: (VListing, bool))
    requires StepDefined(cfg, st, key)
    ensures Split(cfg.sep, key).Bare? ==>
      && r == (st.(master := if IsPHD(cfg.json, value) then None else Some(Record(key, value))), true)
    ensures Split(cfg.sep, key).Suffixed? ==>
      && r.0.master.None?
      && st.contents <= r.0.contents
      && |r.0.contents| <= |st.contents| + 2
      && r.0.keys - st.keys == |r.0.contents| - |st.contents|
      && (!r.1 ==> r.0.keys >= cfg.maxKeys)
  {
    match Split(cfg.sep, key)
    case Bare(_) =>
      if IsPHD(cfg.json, value) then (st.(master := None), true)
      else (st.(master := Some(Record(key, value))), true)
    case Suffixed(name, versionId) =>
      Dispatch(cfg, Settle(cfg, st, name), VEntry(name, Some(versionId), value))
  }

  /** The same step in which a bare master record first lists the master it
      replaces in the buffer (the behaviour the listing evidently intends:
      an object whose only record is its master is listed). */
  function FixedStep(cfg: Config, st: VListing, key: string, value: string): (r: (VListing, bool))
    requires StepDefined(cfg, st, key) && FlushDefined(cfg, st)
    ensures Split(cfg.sep, key).Bare? ==>
      && r.1
      && (r.0.master.Some? <==> !IsPHD(cfg.json, value))
      && (r.0.master.Some? ==> r.0.master.value == Record(key, value))
      && r.0.contents == Flush(cfg, st).0.contents
    ensures Split(cfg.sep, key).Suffixed? ==> r == Step(cfg, st, key, value)
  {
    match Split(cfg.sep, key)
    case Bare(_) =>
      var flushed := Flush(cfg, st).0;
      if IsPHD(cfg.json, value) then (flushed, true)
      else (flushed.(master := Some(Record(key, value))), true)
    case Suffixed(_, _) => Step(cfg, st, key, value)
  }

  class DelimiterVersions {
    const acc: Delimiter<VEntry>
    const sep: char
    const json: Json
    var masterVersion: Option<Record>
    var NextVersionIdMarker: Option<string>

    constructor (prefix: Option<string>, delimiter: Option<string>, maxKeys: nat, marker: Option<string>,
                 sep: char, json: Json)
      ensures fresh(acc)
      ensures acc.prefix == prefix && acc.delimiter == delimiter && acc.maxKeys == maxKeys
      ensures this.sep == sep && this.json == json
      ensures acc.CommonPrefixes == [] && acc.Contents == [] && !acc.IsTruncated && acc.keys == 0
      ensures acc.NextMarker == marker && masterVersion == None && NextVersionIdMarker == None
    {
      acc := new Delimiter(prefix, delimiter, maxKeys, marker);
      this.sep := sep;
      this.json := json;
      masterVersion := None;
      NextVersionIdMarker := None;
    }

    function Cfg(): Config {
      Config(sep, json, acc.prefix, acc.delimiter, acc.maxKeys)
    }

    function State(): VListing
      reads this, acc
    {
      VListing(masterVersion, acc.Contents, acc.keys, acc.NextMarker, NextVersionIdMarker)
    }

    /** `addContents(key, versionId, value)`: nothing changes once the page is
        full; otherwise the entry is listed, both markers point at it and one
        more key is counted. */
    method AddContents(key: string, versionId: Option<string>, value: string) returns (cont: bool)
      modifies this, acc
      ensures cont == !old(acc.ReachedMaxKeys())
      ensures !cont ==> unchanged(this) && unchanged(acc)
      ensures cont ==>
        && acc.Contents == old(acc.Contents) + [VEntry(key, versionId, value)]
        && acc.NextMarker == Some(key) && NextVersionIdMarker == versionId
        && acc.keys == old(acc.keys) + 1
      ensures masterVersion == old(masterVersion)
      ensures acc.CommonPrefixes == old(acc.CommonPrefixes) && acc.IsTruncated == old(acc.IsTruncated)
      ensures (State(), cont) == Add(Cfg(), old(State()), VEntry(key, versionId, value))
    {
      if acc.ReachedMaxKeys() {
        return false;
      }
      acc.Contents := acc.Contents + [VEntry(key, versionId, value)];
      acc.NextMarker := Some(key);
      NextVersionIdMarker := versionId;
      acc.keys := acc.keys + 1;
      return true;
    }

    /** `_filter({ key, versionId, value })`. */
    method FilterEntry(e: VEntry) returns (cont: bool)
      modifies this, acc
      ensures masterVersion == old(masterVersion)
      ensures Route(Cfg(), e.key).Dropped? ==> cont && unchanged(this) && unchanged(acc)
      ensures Route(Cfg(), e.key).Grouped? ==>
        acc.Contents == old(acc.Contents) && NextVersionIdMarker == old(NextVersionIdMarker)
      ensures !Route(Cfg(), e.key).Grouped? ==>
        && (State(), cont) == Dispatch(Cfg(), old(State()), e)
        && acc.CommonPrefixes == old(acc.CommonPrefixes) && acc.IsTruncated == old(acc.IsTruncated)
    {
      if IsSet(acc.prefix) && !(acc.prefix.value <= e.key) {
        return true;
      }
      if IsSet(acc.delimiter) {
        var baseIndex := BaseIndex(acc.prefix);
        var delimiterIndex := NextDelimiter(e.key, acc.delimiter.value, baseIndex);
        if delimiterIndex == -1 {
          cont := AddContents(e.key, e.versionId, e.value);
          return;
        }
        cont := acc.AddCommonPrefix(e.key, delimiterIndex);
        return;
      }
      cont := AddContents(e.key, e.versionId, e.value);
    }

    /** `filter({ key, value })`. */
    method Filter(key: string, value: string) returns (cont: bool)
      modifies this, acc
      ensures Split(sep, key).Bare? ==>
        && cont && unchanged(acc) && NextVersionIdMarker == old(NextVersionIdMarker)
        && masterVersion == (if IsPHD(json, value) then None else Some(Record(key, value)))
      ensures Split(sep, key).Suffixed? ==> masterVersion == None && old(acc.Contents) <= acc.Contents
      ensures StepDefined(Cfg(), old(State()), key) ==> (State(), cont) == Step(Cfg(), old(State()), key, value)
      ensures StepDefined(Cfg(), old(State()), key) ==>
        acc.CommonPrefixes == old(acc.CommonPrefixes) && acc.IsTruncated == old(acc.IsTruncated)
    {
      ghost var st0 := State();
      var versionIdIndex := IndexOf(key, [sep], 0);
      if versionIdIndex >= 0 {
        var k := key[..versionIdIndex];
        var versionId := key[versionIdIndex + 1..];
        VersionPath(Cfg(), st0, key, value);
        if masterVersion.Some? {
          if masterVersion.value.key != k {
            var _ := FilterEntry(MasterEntry(masterVersion.value));
          }
          masterVersion := None;
        }
        assert StepDefined(Cfg(), st0, key) ==> State() == Settle(Cfg(), st0, k);
        cont := FilterEntry(VEntry(k, Some(versionId), value));
        return;
      } else if IsPHD(json, value) {
        MasterPath(Cfg(), st0, key, value);
        masterVersion := None;
        return true;
      } else {
        MasterPath(Cfg(), st0, key, value);
        masterVersion := Some(Record(key, value));
        return true;
      }
    }

    /** `result()`: the page; the continuation markers only on a truncated
        page, and `NextMarker` only when a delimiter is used. */
    function Result(): (r: VersionsPage)
      reads this, acc
      ensures r.CommonPrefixes == acc.CommonPrefixes && r.Versions == acc.Contents
      ensures r.IsTruncated == acc.IsTruncated && r.Delimiter == acc.delimiter
      ensures r.NextMarker.Some? ==> acc.IsTruncated && IsSet(acc.delimiter)
      ensures acc.IsTruncated && IsSet(acc.delimiter) ==> r.NextMarker == acc.NextMarker
      ensures r.NextVersionIdMarker.Some? ==> acc.IsTruncated
      ensures acc.IsTruncated ==> r.NextVersionIdMarker == NextVersionIdMarker
    {
      VersionsPage(acc.CommonPrefixes, acc.Contents, acc.IsTruncated,
                   if acc.IsTruncated && IsSet(acc.delimiter) then acc.NextMarker else None,
                   if acc.IsTruncated then NextVersionIdMarker else None,
                   acc.delimiter)
    }
  }

  // The two branches of `filter`, in the terms the code tests.

  lemma VersionPath(cfg: Config, st: VListing, key: string, value: string)
    requires IndexOf(key, [cfg.sep], 0) >= 0
    ensures var i := IndexOf(key, [cfg.sep], 0);
      && Split(cfg.sep, key) == Suffixed(key[..i], key[i + 1..])
      && (StepDefined(cfg, st, key) ==>
            Step(cfg, st, key, value) ==
            Dispatch(cfg, Settle(cfg, st, key[..i]), VEntry(key[..i], Some(key[i + 1..]), value)))
  {
    IndexOfChar(key, cfg.sep);
  }

  lemma MasterPath(cfg: Config, st: VListing, key: string, value: string)
    requires IndexOf(key, [cfg.sep], 0) < 0
    ensures Split(cfg.sep, key) == Bare(key)
  {
    IndexOfChar(key, cfg.sep);
  }

  // ---------------------------------------------------------------------
  // A whole listing: the caller feeds records until `filter` returns false.
  // ---------------------------------------------------------------------

  /** Which `filter` a listing runs: the one in the source, or the one in
      which a bare master record lists the master it replaces. */
  datatype Variant = AsWritten | Corrected

  /** The state right after construction. */
  function Initial(marker: Option<string>): VListing {
    VListing(None, [], 0, marker, None)
  }

  function Next(v: Variant, cfg: Config, st: VListing, key: string, value: string): (VListing, bool)
    requires !IsSet(cfg.delimiter)
  {
    if v.AsWritten? then Step(cfg, st, key, value) else FixedStep(cfg, st, key, value)
  }

  /** Feeds `records` to `filter` in order, stopping at the first false. */
  function Run(v: Variant, cfg: Config, st: VListing, records: seq<Record>): (VListing, bool)
    requires !IsSet(cfg.delimiter)
    decreases |records|
  {
    if records == [] then (st, true)
    else
      var next := Next(v, cfg, st, records[0].key, records[0].value);
      if next.1 then Run(v, cfg, next.0, records[1..]) else next
  }

  /** The end of the stream: a master still buffered is listed
      (`_filter(this.masterVersion)`), unless the iteration already stopped. */
  function Finish(cfg: Config, r: (VListing, bool)): (VListing, bool)
    requires !IsSet(cfg.delimiter)
  {
    if r.1 then Flush(cfg, r.0) else r
  }

  lemma {:induction false} RunAppend(v: Variant, cfg: Config, st: VListing, a: seq<Record>, b: seq<Record>)
    requires !IsSet(cfg.delimiter)
    ensures Run(v, cfg, st, a + b) ==
      var first := Run(v, cfg, st, a); if first.1 then Run(v, cfg, first.0, b) else first
    decreases |a|
  {
    if a == [] {
      assert a + b == b;
    } else {
      assert (a + b)[0] == a[0];
      assert (a + b)[1..] == a[1..] + b;
      var next := Next(v, cfg, st, a[0].key, a[0].value);
      if next.1 {
        RunAppend(v, cfg, next.0, a[1..], b);
      }
    }
  }

  lemma RunOne(v: Variant, cfg: Config, st: VListing, key: string, value: string)
    requires !IsSet(cfg.delimiter)
    ensures Run(v, cfg, st, [Record(key, value)]) == Next(v, cfg, st, key, value)
  {
    assert [Record(key, value)][1..] == [];
  }

  /** `e`, unless `_filter` drops it for lying outside the prefix. */
  function Admit(cfg: Config, e: VEntry): seq<VEntry> {
    if Route(cfg, e.key).Dropped? then [] else [e]
  }

  /** The entries of an object's version records. */
  function VersionEntries(cfg: Config, name: string, versions: seq<VersionRecord>): seq<VEntry> {
    if versions == [] then []
    else Admit(cfg, VEntry(name, Some(versions[0].versionId), versions[0].value))
         + VersionEntries(cfg, name, versions[1..])
  }

  /** What an all-versions listing promises for one object: each of its
      versions; an object without versions is listed by its master record
      (with no version id) unless that is a placeholder. */
  function ObjectVersions(cfg: Config, obj: ObjectRecords): seq<VEntry> {
    if obj.versions != [] then VersionEntries(cfg, obj.name, obj.versions)
    else match obj.master
      case None => []
      case Some(m) => if IsPHD(cfg.json, m) then [] else Admit(cfg, VEntry(obj.name, None, m))
  }

  function AllVersions(cfg: Config, objs: seq<ObjectRecords>): seq<VEntry> {
    if objs == [] then [] else ObjectVersions(cfg, objs[0]) + AllVersions(cfg, objs[1..])
  }

  /** What the buffered master contributes once it is listed. */
  function Pending(cfg: Config, st: VListing): seq<VEntry> {
    if st.master.Some? then Admit(cfg, MasterEntry(st.master.value)) else []
  }

  /** `st` lists the first `maxKeys` entries of `listed`, counts them and
      points both markers at the last one. */
  predicate Tracks(cfg: Config, st: VListing, listed: seq<VEntry>) {
    && st.contents == Take(listed, cfg.maxKeys)
    && st.keys == |st.contents|
    && (st.contents != [] ==>
          && st.nextMarker == Some(st.contents[|st.contents| - 1].key)
          && st.nextVersionIdMarker == st.contents[|st.contents| - 1].versionId)
  }

  lemma {:induction false} DispatchTracks(cfg: Config, st: VListing, listed: seq<VEntry>, e: VEntry)
    requires !IsSet(cfg.delimiter) && Tracks(cfg, st, listed)
    ensures var r := Dispatch(cfg, st, e);
      && Tracks(cfg, r.0, listed + Admit(cfg, e))
      && (!r.1 ==> |r.0.contents| == cfg.maxKeys)
  {
    if Route(cfg, e.key).Dropped? {
      assert listed + [] == listed;
    } else {
      TakeSnoc(listed, e, cfg.maxKeys);
    }
  }

  lemma {:induction false} FlushTracks(cfg: Config, st: VListing, listed: seq<VEntry>)
    requires !IsSet(cfg.delimiter) && Tracks(cfg, st, listed)
    ensures var r := Flush(cfg, st);
      && Tracks(cfg, r.0, listed + Pending(cfg, st))
      && (!r.1 ==> |r.0.contents| == cfg.maxKeys)
  {
    if st.master.None? {
      assert listed + [] == listed;
    } else {
      DispatchTracks(cfg, st, listed, MasterEntry(st.master.value));
    }
  }

  /** What `Settle` lists: a buffered master of another object. */
  function Settled(cfg: Config, st: VListing, name: string): seq<VEntry> {
    if st.master.Some? && st.master.value.key != name then Pending(cfg, st) else []
  }

  /** One version record: what was buffered is settled, then the version
      goes through `_filter`. */
  lemma {:induction false} VersionStep(cfg: Config, st: VListing, listed: seq<VEntry>, e: VEntry)
    requires !IsSet(cfg.delimiter) && Tracks(cfg, st, listed)
    ensures var r := Dispatch(cfg, Settle(cfg, st, e.key), e);
      && Tracks(cfg, r.0, listed + Settled(cfg, st, e.key) + Admit(cfg, e))
      && r.0.master.None?
      && (!r.1 ==> |r.0.contents| == cfg.maxKeys)
  {
    if st.master.Some? && st.master.value.key != e.key {
      FlushTracks(cfg, st, listed);
      DispatchTracks(cfg, Flush(cfg, st).0, listed + Pending(cfg, st), e);
    } else {
      assert listed + [] == listed;
      DispatchTracks(cfg, st.(master := None), listed, e);
    }
  }

  /** With nothing buffered, an object's version records list its versions. */
  lemma {:induction false} ListsVersions(v: Variant, cfg: Config, st: VListing, listed: seq<VEntry>,
                                         name: string, versions: seq<VersionRecord>)
    requires !IsSet(cfg.delimiter) && cfg.sep !in name && Tracks(cfg, st, listed) && st.master.None?
    ensures var r := Run(v, cfg, st, VersionRecords(cfg.sep, name, versions));
      && Tracks(cfg, r.0, listed + VersionEntries(cfg, name, versions))
      && r.0.master.None?
      && (!r.1 ==> |r.0.contents| == cfg.maxKeys)
    decreases |versions|, 1
  {
    if versions == [] {
      assert listed + [] == listed;
    } else {
      ListsVersionsAfter(v, cfg, st, listed, name, versions);
      assert listed + [] == listed;
    }
  }

  /** The first version record of an object, then the rest of them. */
  lemma {:induction false} ListsVersionsAfter(v: Variant, cfg: Config, st: VListing, listed: seq<VEntry>,
                                              name: string, versions: seq<VersionRecord>)
    requires !IsSet(cfg.delimiter) && cfg.sep !in name && Tracks(cfg, st, listed) && versions != []
    ensures var r := Run(v, cfg, st, VersionRecords(cfg.sep, name, versions));
      && Tracks(cfg, r.0, listed + Settled(cfg, st, name) + VersionEntries(cfg, name, versions))
      && r.0.master.None?
      && (!r.1 ==> |r.0.contents| == cfg.maxKeys)
    decreases |versions|, 0
  {
    var vr := versions[0];
    var e := VEntry(name, Some(vr.versionId), vr.value);
    var next := Dispatch(cfg, Settle(cfg, st, name), e);
    RunVersions(v, cfg, st, name, versions);
    VersionStep(cfg, st, listed, e);
    EntriesCons(cfg, listed + Settled(cfg, st, name), name, versions);
    ListsRemainingVersions(v, cfg, next, listed + Settled(cfg, st, name) + Admit(cfg, e), name, versions[1..]);
  }

  lemma EntriesCons(cfg: Config, listed: seq<VEntry>, name: string, versions: seq<VersionRecord>)
    requires versions != []
    ensures listed + VersionEntries(cfg, name, versions)
         == (listed + Admit(cfg, VEntry(name, Some(versions[0].versionId), versions[0].value)))
            + VersionEntries(cfg, name, versions[1..])
  {
  }

  /** The remaining version records, unless the iteration already stopped. */
  lemma {:induction false} ListsRemainingVersions(v: Variant, cfg: Config, p: (VListing, bool), listed: seq<VEntry>,
                                                  name: string, versions: seq<VersionRecord>)
    requires !IsSet(cfg.delimiter) && cfg.sep !in name && Tracks(cfg, p.0, listed) && p.0.master.None?
    requires !p.1 ==> |p.0.contents| == cfg.maxKeys
    ensures var r := if p.1 then Run(v, cfg, p.0, VersionRecords(cfg.sep, name, versions)) else p;
      && Tracks(cfg, r.0, listed + VersionEntries(cfg, name, versions))
      && r.0.master.None?
      && (!r.1 ==> |r.0.contents| == cfg.maxKeys)
    decreases |versions|, 2
  {
    if p.1 {
      ListsVersions(v, cfg, p.0, listed, name, versions);
    } else {
      TakeFull(listed, VersionEntries(cfg, name, versions), cfg.maxKeys);
    }
  }

  /** Either variant takes an object's first version record by settling the
      buffer and filtering the version. */
  lemma RunVersions(v: Variant, cfg: Config, st: VListing, name: string, versions: seq<VersionRecord>)
    requires !IsSet(cfg.delimiter) && cfg.sep !in name && versions != []
    ensures var next := Dispatch(cfg, Settle(cfg, st, name), VEntry(name, Some(versions[0].versionId), versions[0].value));
      Run(v, cfg, st, VersionRecords(cfg.sep, name, versions)) ==
        if next.1 then Run(v, cfg, next.0, VersionRecords(cfg.sep, name, versions[1..])) else next
  {
    var vr := versions[0];
    var first := [Record(Join(cfg.sep, name, vr.versionId), vr.value)];
    var rest := VersionRecords(cfg.sep, name, versions[1..]);
    assert VersionRecords(cfg.sep, name, versions) == first + rest;
    RunAppend(v, cfg, st, first, rest);
    RunOne(v, cfg, st, first[0].key, first[0].value);
    SplitJoin(cfg.sep, name, vr.versionId);
  }

  /** An object the corrected listing leaves buffered: a master record that
      is not a placeholder and no version after it. */
  predicate Buffers(cfg: Config, obj: ObjectRecords) {
    obj.versions == [] && obj.master.Some? && !IsPHD(cfg.json, obj.master.value)
  }

  /** The outcome one object's records must have in the corrected listing:
      what was buffered and this object's versions are listed (this object's
      sole master stays buffered), or the page fills up. */
  predicate ListedObject(cfg: Config, st: VListing, listed: seq<VEntry>, obj: ObjectRecords, r: (VListing, bool)) {
    var all := listed + Pending(cfg, st) + ObjectVersions(cfg, obj);
    && (!r.1 ==> Tracks(cfg, r.0, all) && |r.0.contents| == cfg.maxKeys)
    && (r.1 && Buffers(cfg, obj) ==>
          Tracks(cfg, r.0, listed + Pending(cfg, st)) && r.0.master == Some(Record(obj.name, obj.master.value)))
    && (r.1 && !Buffers(cfg, obj) ==> Tracks(cfg, r.0, all) && r.0.master.None?)
  }

  /** A bare master record in the corrected listing. */
  lemma {:induction false} MasterStep(cfg: Config, st: VListing, listed: seq<VEntry>, name: string, m: string)
    requires !IsSet(cfg.delimiter) && cfg.sep !in name && Tracks(cfg, st, listed)
    ensures var r := FixedStep(cfg, st, name, m);
      && r.1
      && Tracks(cfg, r.0, listed + Pending(cfg, st))
      && r.0.master == (if IsPHD(cfg.json, m) then None else Some(Record(name, m)))
  {
    SplitBare(cfg.sep, name);
    FlushTracks(cfg, st, listed);
  }

  /** An object with a master record: the master goes through a bare step,
      then the versions follow. */
  lemma {:induction false} ListsMasterAndVersions(cfg: Config, st: VListing, listed: seq<VEntry>,
                                                  name: string, m: string, versions: seq<VersionRecord>)
    requires !IsSet(cfg.delimiter) && cfg.sep !in name && Tracks(cfg, st, listed)
    ensures var r := Run(Corrected, cfg, st, [Record(name, m)] + VersionRecords(cfg.sep, name, versions));
      var obj := ObjectRecords(name, Some(m), versions);
      ListedObject(cfg, st, listed, obj, r)
  {
    var obj := ObjectRecords(name, Some(m), versions);
    var head := [Record(name, m)];
    var tail := VersionRecords(cfg.sep, name, versions);
    RunAppend(Corrected, cfg, st, head, tail);
    RunOne(Corrected, cfg, st, name, m);
    MasterStep(cfg, st, listed, name, m);
    var held := FixedStep(cfg, st, name, m).0;
    assert listed + Pending(cfg, st) + [] == listed + Pending(cfg, st);
    if versions == [] {
      assert tail == [];
      assert Run(Corrected, cfg, held, tail) == (held, true);
    } else {
      ListsVersionsAfter(Corrected, cfg, held, listed + Pending(cfg, st), name, versions);
    }
  }

  lemma {:induction false} ListsObject(cfg: Config, st: VListing, listed: seq<VEntry>, obj: ObjectRecords)
    requires !IsSet(cfg.delimiter) && cfg.sep !in obj.name && Tracks(cfg, st, listed)
    requires obj.master.Some? || obj.versions != []
    requires st.master.Some? ==> st.master.value.key != obj.name
    ensures ListedObject(cfg, st, listed, obj, Run(Corrected, cfg, st, ObjectStreamOf(cfg.sep, obj)))
  {
    var versions := VersionRecords(cfg.sep, obj.name, obj.versions);
    match obj.master
    case None =>
      assert ObjectStreamOf(cfg.sep, obj) == versions;
      ListsVersionsAfter(Corrected, cfg, st, listed, obj.name, obj.versions);
    case Some(m) =>
      assert ObjectStreamOf(cfg.sep, obj) == [Record(obj.name, m)] + versions;
      ListsMasterAndVersions(cfg, st, listed, obj.name, m, obj.versions);
  }

  lemma {:induction false} ListsObjects(cfg: Config, st: VListing, listed: seq<VEntry>, objs: seq<ObjectRecords>)
    requires !IsSet(cfg.delimiter) && WellFormed(cfg.sep, objs) && Tracks(cfg, st, listed)
    requires forall i :: 0 <= i < |objs| ==> st.master.Some? ==> st.master.value.key != objs[i].name
    ensures var r := Finish(cfg, Run(Corrected, cfg, st, Records(cfg.sep, objs)));
      && Tracks(cfg, r.0, listed + Pending(cfg, st) + AllVersions(cfg, objs))
      && (!r.1 ==> |r.0.contents| == cfg.maxKeys)
    decreases |objs|, 1
  {
    if objs == [] {
      FlushTracks(cfg, st, listed);
      assert listed + Pending(cfg, st) + [] == listed + Pending(cfg, st);
    } else {
      WellFormedTail(cfg.sep, objs);
      var obj := objs[0];
      AllVersionsCons(cfg, listed + Pending(cfg, st), objs);
      RunAppend(Corrected, cfg, st, ObjectStreamOf(cfg.sep, obj), Records(cfg.sep, objs[1..]));
      var mid := Run(Corrected, cfg, st, ObjectStreamOf(cfg.sep, obj));
      ListsObject(cfg, st, listed, obj);
      if !mid.1 {
        TakeFull(listed + Pending(cfg, st) + ObjectVersions(cfg, obj), AllVersions(cfg, objs[1..]), cfg.maxKeys);
      } else {
        ListsRest(cfg, st, listed, objs, mid.0);
      }
    }
  }

  lemma AllVersionsCons(cfg: Config, listed: seq<VEntry>, objs: seq<ObjectRecords>)
    requires objs != []
    ensures listed + AllVersions(cfg, objs) == (listed + ObjectVersions(cfg, objs[0])) + AllVersions(cfg, objs[1..])
  {
  }

  /** The objects after the first one, from the state it leaves. */
  lemma {:induction false} ListsRest(cfg: Config, st: VListing, listed: seq<VEntry>, objs: seq<ObjectRecords>, mid: VListing)
    requires !IsSet(cfg.delimiter) && WellFormed(cfg.sep, objs) && objs != []
    requires ListedObject(cfg, st, listed, objs[0], (mid, true))
    requires forall i :: 0 <= i < |objs| ==> st.master.Some? ==> st.master.value.key != objs[i].name
    ensures var r := Finish(cfg, Run(Corrected, cfg, mid, Records(cfg.sep, objs[1..])));
      && Tracks(cfg, r.0, listed + Pending(cfg, st) + ObjectVersions(cfg, objs[0]) + AllVersions(cfg, objs[1..]))
      && (!r.1 ==> |r.0.contents| == cfg.maxKeys)
    decreases |objs| - 1, 2
  {
    var obj, tail := objs[0], objs[1..];
    WellFormedTail(cfg.sep, objs);
    forall i | 0 <= i < |tail| ensures mid.master.Some? ==> mid.master.value.key != tail[i].name {
      assert tail[i] == objs[i + 1];
    }
    var all := listed + Pending(cfg, st) + ObjectVersions(cfg, obj);
    if Buffers(cfg, obj) {
      assert Pending(cfg, mid) == ObjectVersions(cfg, obj);
      ListsObjects(cfg, mid, listed + Pending(cfg, st), tail);
    } else {
      assert all + [] == all;
      ListsObjects(cfg, mid, all, tail);
    }
  }

  /** Without a delimiter, the corrected listing of a well-formed stream,
      finished by listing what is still buffered, holds the first `maxKeys`
      versions of the objects under the prefix, counts them, points both
      markers at the last one, and stops only on a full page. */
  lemma ListsEveryVersion(cfg: Config, marker: Option<string>, objs: seq<ObjectRecords>)
    requires !IsSet(cfg.delimiter) && WellFormed(cfg.sep, objs)
    ensures var r := Finish(cfg, Run(Corrected, cfg, Initial(marker), Records(cfg.sep, objs)));
      && r.0.contents == Take(AllVersions(cfg, objs), cfg.maxKeys)
      && r.0.keys == |r.0.contents|
      && (r.0.contents != [] ==>
            && r.0.nextMarker == Some(r.0.contents[|r.0.contents| - 1].key)
            && r.0.nextVersionIdMarker == r.0.contents[|r.0.contents| - 1].versionId)
      && (!r.1 ==> |r.0.contents| == cfg.maxKeys)
  {
    ListsObjects(cfg, Initial(marker), [], objs);
    assert [] + [] + AllVersions(cfg, objs) == AllVersions(cfg, objs);
  }

  /** Version records are taken alike by both variants, and after at least
      one of them nothing is buffered. */
  lemma {:induction false} SameOnVersions(cfg: Config, st: VListing, name: string, versions: seq<VersionRecord>)
    requires !IsSet(cfg.delimiter) && cfg.sep !in name
    ensures Run(AsWritten, cfg, st, VersionRecords(cfg.sep, name, versions))
         == Run(Corrected, cfg, st, VersionRecords(cfg.sep, name, versions))
    ensures versions != [] ==> Run(AsWritten, cfg, st, VersionRecords(cfg.sep, name, versions)).0.master.None?
    decreases |versions|
  {
    if versions != [] {
      var next := Dispatch(cfg, Settle(cfg, st, name), VEntry(name, Some(versions[0].versionId), versions[0].value));
      RunVersions(AsWritten, cfg, st, name, versions);
      RunVersions(Corrected, cfg, st, name, versions);
      if next.1 {
        SameOnVersions(cfg, next.0, name, versions[1..]);
        if versions[1..] == [] {
          assert VersionRecords(cfg.sep, name, versions[1..]) == [];
        }
      }
    }
  }

  /** With nothing buffered, the records of an object that has versions are
      taken alike by both variants, and leave nothing buffered. */
  lemma {:induction false} SameOnObject(cfg: Config, st: VListing, obj: ObjectRecords)
    requires !IsSet(cfg.delimiter) && cfg.sep !in obj.name && st.master.None? && obj.versions != []
    ensures Run(AsWritten, cfg, st, ObjectStreamOf(cfg.sep, obj)) == Run(Corrected, cfg, st, ObjectStreamOf(cfg.sep, obj))
    ensures Run(AsWritten, cfg, st, ObjectStreamOf(cfg.sep, obj)).0.master.None?
  {
    var versions := VersionRecords(cfg.sep, obj.name, obj.versions);
    match obj.master
    case None =>
      assert ObjectStreamOf(cfg.sep, obj) == versions;
      SameOnVersions(cfg, st, obj.name, obj.versions);
    case Some(m) =>
      assert ObjectStreamOf(cfg.sep, obj) == [Record(obj.name, m)] + versions;
      SplitBare(cfg.sep, obj.name);
      RunAppend(AsWritten, cfg, st, [Record(obj.name, m)], versions);
      RunAppend(Corrected, cfg, st, [Record(obj.name, m)], versions);
      RunOne(AsWritten, cfg, st, obj.name, m);
      RunOne(Corrected, cfg, st, obj.name, m);
      assert Flush(cfg, st) == (st, true);
      var held := Step(cfg, st, obj.name, m);
      assert FixedStep(cfg, st, obj.name, m) == held && held.1;
      SameOnVersions(cfg, held.0, obj.name, obj.versions);
  }

  /** When every object has at least one version record, the source's
      `filter` and the corrected one list the same, and nothing is left
      buffered at the end, so the final flush changes nothing. */
  lemma {:induction false} AsWrittenAgrees(cfg: Config, st: VListing, objs: seq<ObjectRecords>)
    requires !IsSet(cfg.delimiter) && WellFormed(cfg.sep, objs) && st.master.None?
    requires forall i :: 0 <= i < |objs| ==> objs[i].versions != []
    ensures Run(AsWritten, cfg, st, Records(cfg.sep, objs)) == Run(Corrected, cfg, st, Records(cfg.sep, objs))
    ensures Run(AsWritten, cfg, st, Records(cfg.sep, objs)).0.master.None?
    ensures Finish(cfg, Run(AsWritten, cfg, st, Records(cfg.sep, objs))) == Run(AsWritten, cfg, st, Records(cfg.sep, objs))
    decreases |objs|
  {
    if objs != [] {
      WellFormedTail(cfg.sep, objs);
      var head, rest := ObjectStreamOf(cfg.sep, objs[0]), Records(cfg.sep, objs[1..]);
      assert Records(cfg.sep, objs) == head + rest;
      RunAppend(AsWritten, cfg, st, head, rest);
      RunAppend(Corrected, cfg, st, head, rest);
      SameOnObject(cfg, st, objs[0]);
      var mid := Run(AsWritten, cfg, st, head);
      if mid.1 {
        forall i | 0 <= i < |objs[1..]| ensures objs[1..][i].versions != [] {
          assert objs[1..][i] == objs[i + 1];
        }
        AsWrittenAgrees(cfg, mid.0, objs[1..]);
      }
    }
    var r := Run(AsWritten, cfg, st, Records(cfg.sep, objs));
    if r.1 {
      assert Flush(cfg, r.0) == r;
    }
  }

  /** An object's version records, with nothing buffered but possibly its
      own master: they stop exactly when their entries do not all fit on a
      page that still had room. */
  lemma {:induction false} VersionsStopExactly(v: Variant, cfg: Config, st: VListing, listed: seq<VEntry>,
                                               name: string, versions: seq<VersionRecord>)
    requires !IsSet(cfg.delimiter) && cfg.sep !in name && Tracks(cfg, st, listed) && |listed| <= cfg.maxKeys
    requires st.master.Some? ==> st.master.value.key == name
    ensures Run(v, cfg, st, VersionRecords(cfg.sep, name, versions)).1
            <==> |listed + VersionEntries(cfg, name, versions)| <= cfg.maxKeys
    decreases |versions|
  {
    if versions == [] {
      assert listed + [] == listed;
    } else {
      var e := VEntry(name, Some(versions[0].versionId), versions[0].value);
      var cleared := st.(master := None);
      assert Settle(cfg, st, name) == cleared;
      var next := Dispatch(cfg, cleared, e);
      RunVersions(v, cfg, st, name, versions);
      DispatchTracks(cfg, cleared, listed, e);
      EntriesCons(cfg, listed, name, versions);
      if next.1 {
        VersionsStopExactly(v, cfg, next.0, listed + Admit(cfg, e), name, versions[1..]);
      }
    }
  }

  /** With nothing buffered, the source takes the records of an object that
      has a version: it lists its versions, leaves nothing buffered, and
      stops exactly when they do not all fit on a page that still had room. */
  lemma {:induction false} ObjectStopsExactly(cfg: Config, st: VListing, listed: seq<VEntry>, obj: ObjectRecords)
    requires !IsSet(cfg.delimiter) && cfg.sep !in obj.name && obj.versions != []
    requires Tracks(cfg, st, listed) && |listed| <= cfg.maxKeys && st.master.None?
    ensures var r := Run(AsWritten, cfg, st, ObjectStreamOf(cfg.sep, obj));
      && Tracks(cfg, r.0, listed + ObjectVersions(cfg, obj))
      && r.0.master.None?
      && (r.1 <==> |listed + ObjectVersions(cfg, obj)| <= cfg.maxKeys)
  {
    var versions := VersionRecords(cfg.sep, obj.name, obj.versions);
    var held := st;
    match obj.master {
      case None =>
        assert ObjectStreamOf(cfg.sep, obj) == versions;
      case Some(m) =>
        assert ObjectStreamOf(cfg.sep, obj) == [Record(obj.name, m)] + versions;
        SplitBare(cfg.sep, obj.name);
        RunAppend(AsWritten, cfg, st, [Record(obj.name, m)], versions);
        RunOne(AsWritten, cfg, st, obj.name, m);
        held := Step(cfg, st, obj.name, m).0;
    }
    assert Run(AsWritten, cfg, st, ObjectStreamOf(cfg.sep, obj)) == Run(AsWritten, cfg, held, versions);
    assert Settled(cfg, held, obj.name) == [];
    assert listed + [] == listed;
    ListsVersionsAfter(AsWritten, cfg, held, listed, obj.name, obj.versions);
    VersionsStopExactly(AsWritten, cfg, held, listed, obj.name, obj.versions);
  }

  /** The source over objects that all have a version record stops exactly
      when their versions do not all fit on a page that still had room. */
  lemma {:induction false} ObjectsStopExactly(cfg: Config, st: VListing, listed: seq<VEntry>, objs: seq<ObjectRecords>)
    requires !IsSet(cfg.delimiter) && WellFormed(cfg.sep, objs)
    requires forall i :: 0 <= i < |objs| ==> objs[i].versions != []
    requires Tracks(cfg, st, listed) && |listed| <= cfg.maxKeys && st.master.None?
    ensures Run(AsWritten, cfg, st, Records(cfg.sep, objs)).1 <==> |listed + AllVersions(cfg, objs)| <= cfg.maxKeys
    decreases |objs|
  {
    if objs == [] {
      assert listed + [] == listed;
    } else {
      WellFormedTail(cfg.sep, objs);
      var head, rest := ObjectStreamOf(cfg.sep, objs[0]), Records(cfg.sep, objs[1..]);
      assert Records(cfg.sep, objs) == head + rest;
      RunAppend(AsWritten, cfg, st, head, rest);
      AllVersionsCons(cfg, listed, objs);
      ObjectStopsExactly(cfg, st, listed, objs[0]);
      var mid := Run(AsWritten, cfg, st, head);
      if mid.1 {
        forall i | 0 <= i < |objs[1..]| ensures objs[1..][i].versions != [] {
          assert objs[1..][i] == objs[i + 1];
        }
        ObjectsStopExactly(cfg, mid.0, listed + ObjectVersions(cfg, objs[0]), objs[1..]);
      }
    }
  }

  /** The source itself, without a delimiter and when every object has a
      version record: the listing holds the first `maxKeys` versions under
      the prefix, counts them, points both markers at the last one, stops
      exactly when there are more than `maxKeys` such versions, and leaves
      nothing buffered. */
  lemma AsWrittenListsEveryVersion(cfg: Config, marker: Option<string>, objs: seq<ObjectRecords>)
    requires !IsSet(cfg.delimiter) && WellFormed(cfg.sep, objs)
    requires forall i :: 0 <= i < |objs| ==> objs[i].versions != []
    ensures var r := Run(AsWritten, cfg, Initial(marker), Records(cfg.sep, objs));
      && r.0.master.None?
      && r.0.contents == Take(AllVersions(cfg, objs), cfg.maxKeys)
      && r.0.keys == |r.0.contents|
      && (r.0.contents != [] ==>
            && r.0.nextMarker == Some(r.0.contents[|r.0.contents| - 1].key)
            && r.0.nextVersionIdMarker == r.0.contents[|r.0.contents| - 1].versionId)
      && (!r.1 ==> |r.0.contents| == cfg.maxKeys)
      && (r.1 <==> |AllVersions(cfg, objs)| <= cfg.maxKeys)
  {
    AsWrittenAgrees(cfg, Initial(marker), objs);
    ObjectsStopExactly(cfg, Initial(marker), [], objs);
    assert [] + AllVersions(cfg, objs) == AllVersions(cfg, objs);
    ListsEveryVersion(cfg, marker, objs);
    var r := Run(AsWritten, cfg, Initial(marker), Records(cfg.sep, objs));
    assert Finish(cfg, Run(Corrected, cfg, Initial(marker), Records(cfg.sep, objs))) == r;
  }

  /** Two objects whose only records are their masters, `x` then `y`: the
      source's `filter` overwrites the buffered `x` with `y`, so even after
      the final flush only `y` is listed, while the listing promises both. */
  lemma AsWrittenLosesSoleMaster(cfg: Config)
    requires !IsSet(cfg.prefix) && !IsSet(cfg.delimiter) && cfg.maxKeys >= 2
    requires cfg.sep != 'x' && cfg.sep != 'y'
    ensures var objs := [ObjectRecords("x", Some("{}"), []), ObjectRecords("y", Some("{}"), [])];
      && WellFormed(cfg.sep, objs)
      && AllVersions(cfg, objs) == [VEntry("x", None, "{}"), VEntry("y", None, "{}")]
      && Finish(cfg, Run(AsWritten, cfg, Initial(None), Records(cfg.sep, objs))).0.contents
         == [VEntry("y", None, "{}")]
      && Finish(cfg, Run(Corrected, cfg, Initial(None), Records(cfg.sep, objs))).0.contents
         == AllVersions(cfg, objs)
  {
    var objs := [ObjectRecords("x", Some("{}"), []), ObjectRecords("y", Some("{}"), [])];
    SplitBare(cfg.sep, "x");
    SplitBare(cfg.sep, "y");
    var records := [Record("x", "{}"), Record("y", "{}")];
    assert Records(cfg.sep, objs) == records by {
      assert Records(cfg.sep, objs[1..][1..]) == [];
    }
    assert AllVersions(cfg, objs) == [VEntry("x", None, "{}"), VEntry("y", None, "{}")] by {
      assert AllVersions(cfg, objs[1..][1..]) == [];
    }
    var st0 := Initial(None);
    var st1 := st0.(master := Some(Record("x", "{}")));
    var st2 := st0.(master := Some(Record("y", "{}")));
    assert Step(cfg, st0, "x", "{}") == (st1, true);
    assert Step(cfg, st1, "y", "{}") == (st2, true);
    assert records[1..][1..] == [];
    assert Run(AsWritten, cfg, st0, records) == (st2, true);
    assert Flush(cfg, st2).0.contents == [VEntry("y", None, "{}")];
    ListsEveryVersion(cfg, None, objs);
  }

  /** The source has no end-of-stream hook: an object whose only record is
      its master stays in the buffer when it comes last, and is not listed. */
  lemma AsWrittenKeepsTrailingMaster(cfg: Config)
    requires !IsSet(cfg.delimiter) && cfg.sep != 'x'
    ensures var r := Run(AsWritten, cfg, Initial(None), Records(cfg.sep, [ObjectRecords("x", Some("{}"), [])]));
      && r.1 && r.0.contents == [] && r.0.master == Some(Record("x", "{}"))
  {
    var objs := [ObjectRecords("x", Some("{}"), [])];
    SplitBare(cfg.sep, "x");
    assert Records(cfg.sep, objs) == [Record("x", "{}")] by {
      assert Records(cfg.sep, objs[1..]) == [];
    }
    RunOne(AsWritten, cfg, Initial(None), "x", "{}");
  }
  /** The stream of the example below: `p0` with one version, `p1` with only
      its master, `q` with one version. */
  function SwallowObjects(): seq<ObjectRecords> {
    [ObjectRecords("p0", None, [VersionRecord("v", "{}")]),
     ObjectRecords("p1", Some("{}"), []),
     ObjectRecords("q", None, [VersionRecord("v", "{}")])]
  }

  lemma SwallowRecords(cfg: Config)
    requires cfg.sep !in "p0q1"
    ensures WellFormed(cfg.sep, SwallowObjects())
    ensures Records(cfg.sep, SwallowObjects())
         == [Record(Join(cfg.sep, "p0", "v"), "{}"), Record("p1", "{}"), Record(Join(cfg.sep, "q", "v"), "{}")]
  {
    var objs := SwallowObjects();
    var o0, o1, o2 := objs[0], objs[1], objs[2];
    var k0 := Join(cfg.sep, "p0", "v");
    var k2 := Join(cfg.sep, "q", "v");
    assert ObjectStreamOf(cfg.sep, o0) == [Record(k0, "{}")];
    assert ObjectStreamOf(cfg.sep, o1) == [Record("p1", "{}")];
    assert ObjectStreamOf(cfg.sep, o2) == [Record(k2, "{}")];
    assert objs[1..] == [o1, o2] && objs[1..][1..] == [o2];
    assert Records(cfg.sep, [o2]) == [Record(k2, "{}")] by {
      assert Records(cfg.sep, [o2][1..]) == [];
    }
  }

  lemma SwallowVersions(cfg: Config)
    requires cfg.prefix == Some("p")
    ensures AllVersions(cfg, SwallowObjects()) == [VEntry("p0", Some("v"), "{}"), VEntry("p1", None, "{}")]
  {
    var objs := SwallowObjects();
    assert Route(cfg, "q").Dropped? by {
      assert "q"[0] != "p"[0];
    }
    assert ObjectVersions(cfg, objs[2]) == [] by {
      assert VersionEntries(cfg, "q", objs[2].versions[1..]) == [];
    }
    assert ObjectVersions(cfg, objs[0]) == [VEntry("p0", Some("v"), "{}")] by {
      assert VersionEntries(cfg, "p0", objs[0].versions[1..]) == [];
    }
    assert objs[1..][1..] == [objs[2]];
    assert AllVersions(cfg, [objs[2]]) == [] by {
      assert AllVersions(cfg, [objs[2]][1..]) == [];
    }
  }

  /** The flush of the buffered master in `filter` ignores what `_filter` returns. On a one-key page
      under the prefix `p`, with `p0`'s version listed first, the buffered
      master `p1` is refused when `q`'s version arrives, and `q` lies outside
      the prefix: both variants go on with a full page that lacks `p1`, so the
      stop that a full page should signal is lost. */
  lemma SwallowsRefusedFlush(v: Variant, cfg: Config)
    requires cfg.prefix == Some("p") && !IsSet(cfg.delimiter) && cfg.maxKeys == 1
    requires cfg.sep !in "p0q1"
    ensures WellFormed(cfg.sep, SwallowObjects())
    ensures AllVersions(cfg, SwallowObjects()) == [VEntry("p0", Some("v"), "{}"), VEntry("p1", None, "{}")]
    ensures var r := Finish(cfg, Run(v, cfg, Initial(None), Records(cfg.sep, SwallowObjects())));
      r.1 && r.0.contents == [VEntry("p0", Some("v"), "{}")]
  {
    assert cfg.sep !in "p0" && cfg.sep !in "p1" && cfg.sep !in "q" by {
      assert forall c :: c in "p0" || c in "p1" || c in "q" ==> c in "p0q1";
    }
    SwallowRecords(cfg);
    SwallowVersions(cfg);
    var k0 := Join(cfg.sep, "p0", "v");
    var k2 := Join(cfg.sep, "q", "v");
    var st0 := Initial(None);
    var st1 := VListing(None, [VEntry("p0", Some("v"), "{}")], 1, Some("p0"), Some("v"));
    var st2 := st1.(master := Some(Record("p1", "{}")));
    SwallowSteps(v, cfg);
    var r1, r2 := Record("p1", "{}"), Record(k2, "{}");
    var records := [Record(k0, "{}"), r1, r2];
    assert records[1..] == [r1, r2] && [r1, r2][1..] == [r2] && [r2][1..] == [];
    assert Run(v, cfg, st2, [r2]) == Run(v, cfg, st1, []);
    assert Run(v, cfg, st1, [r1, r2]) == Run(v, cfg, st2, [r2]);
    assert Run(v, cfg, st0, records) == Run(v, cfg, st1, [r1, r2]);
    assert Flush(cfg, st1) == (st1, true);
  }

  /** The three steps of the example, one record at a time. */
  lemma SwallowSteps(v: Variant, cfg: Config)
    requires cfg.prefix == Some("p") && !IsSet(cfg.delimiter) && cfg.maxKeys == 1
    requires cfg.sep !in "p0" && cfg.sep !in "p1" && cfg.sep !in "q"
    ensures var st1 := VListing(None, [VEntry("p0", Some("v"), "{}")], 1, Some("p0"), Some("v"));
      && Next(v, cfg, Initial(None), Join(cfg.sep, "p0", "v"), "{}") == (st1, true)
      && Next(v, cfg, st1, "p1", "{}") == (st1.(master := Some(Record("p1", "{}"))), true)
      && Next(v, cfg, st1.(master := Some(Record("p1", "{}"))), Join(cfg.sep, "q", "v"), "{}") == (st1, true)
  {
    var st1 := VListing(None, [VEntry("p0", Some("v"), "{}")], 1, Some("p0"), Some("v"));
    SwallowFirst(v, cfg);
    SplitBare(cfg.sep, "p1");
    assert Flush(cfg, st1) == (st1, true);
    SwallowLast(v, cfg, st1);
  }

  lemma SwallowFirst(v: Variant, cfg: Config)
    requires cfg.prefix == Some("p") && !IsSet(cfg.delimiter) && cfg.maxKeys == 1 && cfg.sep !in "p0"
    ensures Next(v, cfg, Initial(None), Join(cfg.sep, "p0", "v"), "{}")
         == (VListing(None, [VEntry("p0", Some("v"), "{}")], 1, Some("p0"), Some("v")), true)
  {
    SplitJoin(cfg.sep, "p0", "v");
    var e := VEntry("p0", Some("v"), "{}");
    assert "p" <= "p0";
    assert Route(cfg, "p0").Listed?;
    assert Settle(cfg, Initial(None), "p0") == Initial(None);
    assert [] + [e] == [e];
    assert Dispatch(cfg, Initial(None), e) == (VListing(None, [e], 1, Some("p0"), Some("v")), true);
  }

  lemma SwallowLast(v: Variant, cfg: Config, st1: VListing)
    requires cfg.prefix == Some("p") && !IsSet(cfg.delimiter) && cfg.maxKeys == 1 && cfg.sep !in "q"
    requires st1.master.None? && st1.keys == 1
    ensures Next(v, cfg, st1.(master := Some(Record("p1", "{}"))), Join(cfg.sep, "q", "v"), "{}") == (st1, true)
  {
    SplitJoin(cfg.sep, "q", "v");
    var st2 := st1.(master := Some(Record("p1", "{}")));
    assert "p" <= "p1";
    assert Route(cfg, "p1").Listed?;
    assert Route(cfg, "q").Dropped? by {
      assert "q"[0] != "p"[0];
    }
    assert Flush(cfg, st2) == (st1, false);
    assert Settle(cfg, st2, "q") == st1;
  }
}
