/** Composite keys of the metadata store: an object key, optionally followed
    by the version separator and a version id (lib/algos/list/delimiterVersions.js
    and lib/algos/list/delimiterMaster.js split keys the same way). */
module CompositeKey {
  import opened Strings

  /** A key without the separator is a master record's key; one with it names
      an explicit version of the object. */
  datatype Parts = Bare(name: string) | Suffixed(name: string, versionId: string)

  /** The key of an explicit version of object `name`. */
  function Join(sep: char, name: string, versionId: string): string {
    name + [sep] + versionId
  }

  /** Splits `key` at the first occurrence of `sep`: the object key is what
      precedes it, the version id what follows it. */
  function Split(sep: char, key: string): (r: Parts)
    ensures r.Bare? <==> sep !in key
    ensures r.Bare? ==> r.name == key
    ensures r.Suffixed? ==>
      && |r.name| < |key| && key[|r.name|] == sep && sep !in r.name
      && r.name == key[..|r.name|] && r.versionId == key[|r.name| + 1..]
  {
    IndexOfChar(key, sep);
    var i := IndexOf(key, [sep], 0);
    if i < 0 then Bare(key) else Suffixed(key[..i], key[i + 1..])
  }

  /** A version's key is its object key, the separator and its version id. */
  lemma SplitIsJoin(sep: char, key: string)
    requires Split(sep, key).Suffixed?
    ensures key == Join(sep, Split(sep, key).name, Split(sep, key).versionId)
  {
    var p := Split(sep, key);
    assert key == key[..|p.name|] + [sep] + key[|p.name| + 1..];
  }

  /** Splitting the key of a version recovers the object key and the version id,
      as long as the object key does not contain the separator. */
  lemma {:induction false} SplitJoin(sep: char, name: string, versionId: string)
    requires sep !in name
    ensures Split(sep, Join(sep, name, versionId)) == Suffixed(name, versionId)
  {
    var key := Join(sep, name, versionId);
    assert key[|name|] == sep;
    var p := Split(sep, key);
    assert p.Suffixed?;
    var n := p.name;
    if |n| < |name| {
      assert false;
    } else if |n| > |name| {
      assert false;
    }
    assert n == key[..|name|] == name;
    assert p.versionId == key[|name| + 1..] == versionId;
  }

  /** A key without the separator is a master record's key. */
  lemma SplitBare(sep: char, name: string)
    requires sep !in name
    ensures Split(sep, name) == Bare(name)
  {
  }
}
