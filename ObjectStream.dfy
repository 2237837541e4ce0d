/** The ordered record stream a listing consumes, described object by object:
    each object contributes its master record (if any) followed by its version
    records, which is the order the store's key order guarantees. */
module ObjectStream {
  import opened Wrappers
  import opened CompositeKey

  /** One `(key, value)` pair yielded by the store. */
  datatype Record = Record(key: string, value: string)

  /** One explicit version of an object. */
  datatype VersionRecord = VersionRecord(versionId: string, value: string)

  /** All records of one object. */
  datatype ObjectRecords = ObjectRecords(name: string, master: Option<string>, versions: seq<VersionRecord>)

  function VersionRecords(sep: char, name: string, versions: seq<VersionRecord>): (r: seq<Record>)
    ensures |r| == |versions|
  {
    if versions == [] then []
    else [Record(Join(sep, name, versions[0].versionId), versions[0].value)]
         + VersionRecords(sep, name, versions[1..])
  }

  function ObjectStreamOf(sep: char, obj: ObjectRecords): seq<Record> {
    (if obj.master.Some? then [Record(obj.name, obj.master.value)] else [])
    + VersionRecords(sep, obj.name, obj.versions)
  }

  /** The records of the objects, in order. */
  function Records(sep: char, objs: seq<ObjectRecords>): seq<Record> {
    if objs == [] then [] else ObjectStreamOf(sep, objs[0]) + Records(sep, objs[1..])
  }

  /** What the listers rely on: object keys never contain the separator,
      each object has at least one record, and each object appears once (the
      store yields keys in ascending order). */
  predicate WellFormed(sep: char, objs: seq<ObjectRecords>) {
    && (forall i :: 0 <= i < |objs| ==> sep !in objs[i].name)
    && (forall i :: 0 <= i < |objs| ==> objs[i].master.Some? || objs[i].versions != [])
    && (forall i, j :: 0 <= i < j < |objs| ==> objs[i].name != objs[j].name)
  }

  /** The first object of a well-formed stream, and the rest of it. */
  lemma WellFormedTail(sep: char, objs: seq<ObjectRecords>)
    requires WellFormed(sep, objs) && objs != []
    ensures sep !in objs[0].name
    ensures objs[0].master.Some? || objs[0].versions != []
    ensures WellFormed(sep, objs[1..])
    ensures forall i :: 0 <= i < |objs[1..]| ==> objs[1..][i].name != objs[0].name
  {
  }

  /** The first `n` elements of `s`, or all of them. */
  function Take<T>(s: seq<T>, n: nat): (r: seq<T>)
    ensures |r| <= n && r <= s
    ensures |s| <= n ==> r == s
    ensures n <= |s| ==> |r| == n
  {
    if |s| <= n then s else s[..n]
  }

  /** Appending one element to a page that still has room adds it; a full
      page stays as it is. */
  lemma {:induction false} TakeSnoc<T>(s: seq<T>, x: T, n: nat)
    ensures Take(s + [x], n) == if |s| < n then s + [x] else Take(s, n)
  {
    if |s| >= n {
      assert (s + [x])[..n] == s[..n];
    }
  }

  /** Once `n` elements are taken, what follows does not matter. */
  lemma {:induction false} TakeFull<T>(s: seq<T>, t: seq<T>, n: nat)
    requires n <= |s|
    ensures Take(s + t, n) == Take(s, n)
  {
    assert (s + t)[..n] == s[..n];
  }
}
