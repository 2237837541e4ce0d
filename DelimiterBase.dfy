/** The listing accumulator both listers build on: the `Delimiter` base class
    (lib/algos/list/delimiter.js is not part of this model). Only what the two
    listers use is modelled, and `AddCommonPrefix` is left abstract. */
module DelimiterBase {
  import opened Wrappers
  import opened Versioning

  /** The parameters of one listing: the version separator `VID_SEP`, the
      JSON library, and the base class's prefix, delimiter and page size. */
  datatype Config = Config(sep: char, json: Json, prefix: Option<string>, delimiter: Option<string>, maxKeys: nat)

  /** A request parameter is truthy: given and not the empty string. */
  predicate IsSet(p: Option<string>) {
    p.Some? && p.value != ""
  }

  /** Where the listers start searching for the delimiter:
      `this.prefix ? this.prefix.length : 0`. */
  function BaseIndex(prefix: Option<string>): (r: nat)
    ensures IsSet(prefix) ==> r == |prefix.value|
    ensures !IsSet(prefix) ==> r == 0
  {
    if IsSet(prefix) then |prefix.value| else 0
  }

  /** The page being built: common prefixes, listed entries of type `E`,
      the count of listed keys, the truncation flag and the continuation
      marker, under an immutable prefix, delimiter and page size. */
  class Delimiter<E> {
    const prefix: Option<string>
    const delimiter: Option<string>
    const maxKeys: nat
    var CommonPrefixes: seq<string>
    var Contents: seq<E>
    var IsTruncated: bool
    var NextMarker: Option<string>
    var keys: nat

    constructor (prefix: Option<string>, delimiter: Option<string>, maxKeys: nat, marker: Option<string>)
      ensures this.prefix == prefix && this.delimiter == delimiter && this.maxKeys == maxKeys
      ensures CommonPrefixes == [] && Contents == [] && !IsTruncated && keys == 0
      ensures NextMarker == marker
    {
      this.prefix := prefix;
      this.delimiter := delimiter;
      this.maxKeys := maxKeys;
      CommonPrefixes := [];
      Contents := [];
      IsTruncated := false;
      NextMarker := marker;
      keys := 0;
    }

    /** `_reachedMaxKeys()`. */
    predicate ReachedMaxKeys()
      reads this
    {
      keys >= maxKeys
    }

    /** `addCommonPrefix(key, delimiterIndex)`: groups `key` under the part of
        it that ends with the delimiter found at `delimiterIndex`, and says
        whether the iteration should continue. How it groups, counts and
        truncates is not modelled: it may change the prefixes, the count, the
        truncation flag and the marker, and leaves the listed entries alone. */
    method AddCommonPrefix(key: string, delimiterIndex: nat) returns (cont: bool)
      modifies this
      ensures Contents == old(Contents)
    {
      CommonPrefixes := *;
      keys := *;
      IsTruncated := *;
      NextMarker := *;
      cont := *;
    }
  }
}
