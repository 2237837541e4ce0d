# Versioned listing engine, modelled in Dafny

This project models the listing core of an S3-style metadata store for
versioned buckets. The store yields an ordered stream of `(key, value)`
records. A master record has a bare object key. A version record has the
object key, the separator `VID_SEP` and a version id. A lister takes the
stream one record at a time and builds one page.

- `DelimiterMaster` (lib/algos/list/delimiterMaster.js) lists one current
  entry per object. A placeholder-for-deletion (PHD) master is replaced by
  the version record that follows it. Every other version record is skipped.
- `DelimiterVersions` (lib/algos/list/delimiterVersions.js) lists every
  version. It keeps a bare master in a one-record buffer until it knows
  whether version records of that object follow.
- `Version` (lib/versioning/utils.js) is the decoded metadata of a value: its
  attributes, flag getters and setters, and the cheap `isPHD` test.

Module layout:

- `Strings` holds `indexOf`.
- `CompositeKey` splits a key at the first `VID_SEP`.
- `Versioning` holds `Version` and `isPHD`.
- `DelimiterBase` is the page accumulator the listers share.
- `ObjectStream` describes a record stream object by object.
- `DelimiterMaster` and `DelimiterVersions` are the listers.

Each lister is written two ways:

- A class whose methods update the fields in place, as the source does.
- A pure step function on a snapshot of those fields. Each method's
  `ensures` ties the new state to the step function.

Whole-stream theorems are proved about the step functions. A listing is
run over a well-formed stream: object keys without `VID_SEP`, each object
once, and each object with at least one record.

Both listing theorems are proved only without a delimiter, because
grouping belongs to the abstract base class.

- The master lister lists the first `maxKeys` current entries, one per
  object.
- A corrected all-versions lister lists the first `maxKeys` versions.
- When every object has at least one version record, the source's
  all-versions lister lists exactly what the corrected one lists, and it
  needs no final flush (`DelimiterVersions.AsWrittenAgrees`).

In these places the listers' code departs from what a listing would be
expected to do, and the model follows the code:

- The master lister does not test for a full page before it looks at a
  record. Only `addContents` does. On a full page, a skipped version or a
  placeholder still returns true (`DelimiterMaster.Step`).
- The all-versions lister has no end-of-stream flush. A master still
  buffered when the stream ends is not listed
  (`DelimiterVersions.AsWrittenKeepsTrailingMaster`).
- A bare master replaces or clears the buffered master without listing it.
  Take two objects that each have only a master record, with no version
  record between them. The first is never listed, even after a final
  flush. The second is listed only by a final flush, or by a later version
  record of another object (see Findings).
- When a version record flushes the buffered master, the all-versions
  lister ignores what `_filter` returns. If the page is already full, that
  master is refused. The iteration still goes on whenever the version
  record itself is dropped for lying outside the prefix
  (`DelimiterVersions.SwallowsRefusedFlush`).

## Model

| member | source | states |
|---|---|---|
| Strings.IndexOf | lib/algos/list/delimiterMaster.js:70 | `key.indexOf(pattern, from)`: -1 exactly when the pattern occurs nowhere at or after `from`; otherwise the first position at or after `from` where it occurs |
| Strings.IndexOfChar | lib/algos/list/delimiterVersions.js:74 | searching for one character gives -1 exactly when it is absent, otherwise its first position |
| CompositeKey.Split | lib/algos/list/delimiterVersions.js:74-77 | a key without `VID_SEP` is a bare key; otherwise the object key is the part before the first `VID_SEP` (which holds none) and the version id is everything after it |
| CompositeKey.SplitIsJoin | lib/algos/list/delimiterVersions.js:74-77 | a suffixed key is exactly its object key, `VID_SEP` and its version id |
| CompositeKey.SplitJoin | lib/algos/list/delimiterMaster.js:53-56 | joining an object key without `VID_SEP` to any version id splits back into the same two parts |
| CompositeKey.SplitBare | lib/algos/list/delimiterMaster.js:53-54 | a key without `VID_SEP` is bare |
| Versioning.Parse | lib/versioning/utils.js:18-30 | `from` of an undefined or empty value gives the empty version without parsing; otherwise it throws exactly when parsing throws, and keeps the fields of a parsed object |
| Versioning.IsPHD | lib/versioning/utils.js:38-50 | false whenever the length is not 48; false when parsing throws; true exactly when the length is 48, the text parses to an object and its `isPHD` field is present and truthy |
| Versioning.Version.constructor | lib/versioning/utils.js:18-20 | the version keeps the object's fields, or none for a missing value |
| Versioning.Version.From | lib/versioning/utils.js:28-30 | gives no version exactly where parsing throws; otherwise a new version holding the parsed attributes |
| Versioning.Version.IsPHDVersion | lib/versioning/utils.js:57-59 | false when the `isPHD` attribute is absent; true exactly when `isPHD` is present and truthy |
| Versioning.Version.GetAttr | lib/versioning/utils.js:79-81 | undefined exactly when the attribute is absent, otherwise its value |
| Versioning.Version.SetAttr | lib/versioning/utils.js:68-71 | afterwards `getattr` of that attribute gives the new value, every other attribute reads as before, and the same object is returned |
| Versioning.Version.IsNullVersion | lib/versioning/utils.js:88-90 | the raw `isNull` attribute, undefined when absent |
| Versioning.Version.IsDeleteMarker | lib/versioning/utils.js:97-99 | the raw `isDeleteMarker` attribute, undefined when absent |
| Versioning.Version.GetVersionId | lib/versioning/utils.js:106-108 | the raw `versionId` attribute, undefined when absent |
| Versioning.Version.SetVersionId | lib/versioning/utils.js:116-119 | afterwards `getVersionId` gives the new id, only that attribute changes, and the same object is returned |
| Versioning.Version.SetDeleteMarker | lib/versioning/utils.js:126-129 | afterwards `isDeleteMarker` gives true, only that attribute changes, and the same object is returned |
| Versioning.Version.ToString | lib/versioning/utils.js:146-148 | no contract beyond the abstract `stringify` applied to the attributes |
| Versioning.Version.SetNullVersion | lib/versioning/utils.js:136-139 | afterwards `isNullVersion` gives true, only that attribute changes, and the same object is returned |
| DelimiterBase.BaseIndex | lib/algos/list/delimiterMaster.js:69 | definition only: the prefix length for a non-empty prefix, else 0; what depends on it is stated by `DelimiterMaster.Classify` and `DelimiterVersions.Route` |
| DelimiterBase.Delimiter.ReachedMaxKeys | lib/algos/list/delimiterVersions.js:49-51 | definition only: `_reachedMaxKeys()` is `keys >= maxKeys`; the `AddContents` methods state what it decides |
| DelimiterBase.Delimiter.AddCommonPrefix | lib/algos/list/delimiterVersions.js:109 | abstract: it leaves the listed entries alone and returns whether to continue; nothing else about grouping is promised |
| DelimiterMaster.Classify | lib/algos/list/delimiterMaster.js:50-77 | a version record is skipped exactly when its object key is not the pending PHD key; a bare record is held exactly when it is a PHD; any other record goes on under its object key and with its own value, and only a version that resolves the pending key gets there; it is grouped exactly when a set delimiter occurs at or after the prefix length, at the first such position |
| DelimiterMaster.Step | lib/algos/list/delimiterMaster.js:50-76 | a record lists at most one entry, under its object key, counts what it lists, never lists on a full page, sets the marker to `key + VID_SEP` when it lists, leaves the marker alone otherwise, and stops only on a full page |
| DelimiterMaster.DelimiterMaster.constructor | lib/algos/list/delimiterMaster.js:14-17 | an empty page and no pending PHD |
| DelimiterMaster.DelimiterMaster.AddContents | lib/algos/list/delimiterMaster.js:27-37 | on a full page returns false and changes nothing; otherwise appends exactly `{key, value}`, sets `NextMarker` to `key + VID_SEP`, counts one more key and returns true |
| DelimiterMaster.DelimiterMaster.Filter | lib/algos/list/delimiterMaster.js:50-77 | a record that is not grouped changes the `PHD` slot and the page exactly as `Step` says; a grouped one clears `PHD` and lists nothing |
| DelimiterMaster.SkipPath | lib/algos/list/delimiterMaster.js:54-59 | a version record whose object key is not pending is skipped: true, nothing changes |
| DelimiterMaster.HoldPath | lib/algos/list/delimiterMaster.js:60-63 | a bare PHD record becomes the pending key, lists nothing and returns true |
| DelimiterMaster.PrefixPath | lib/algos/list/delimiterMaster.js:66-74 | a record that passes, with the delimiter at or after the prefix length, is grouped |
| DelimiterMaster.ContentsPath | lib/algos/list/delimiterMaster.js:66-76 | a record that passes, without such a delimiter, clears the pending key and is listed under its object key with its value |
| DelimiterMaster.AppendTracks | lib/algos/list/delimiterMaster.js:27-37 | listing one more entry keeps the page equal to the first `maxKeys` entries expected, with count and marker; it is refused exactly when the entries expected before it already fill the page |
| DelimiterMaster.SkipsVersions | lib/algos/list/delimiterMaster.js:54-59 | the version records of an object that is not pending change nothing |
| DelimiterMaster.ListsPlainMaster | lib/algos/list/delimiterMaster.js:60-76 | a master that is not a PHD is listed with its own value, and its versions are skipped; the iteration stops exactly when the page was already full |
| DelimiterMaster.ListsResolvedPlaceholder | lib/algos/list/delimiterMaster.js:54-76 | a PHD master is replaced by the value of the first version after it, listed under the bare object key; later versions are skipped; the iteration stops exactly when the page was already full |
| DelimiterMaster.HoldsLonePlaceholder | lib/algos/list/delimiterMaster.js:60-63 | a PHD master with no version after it lists nothing and stays pending |
| DelimiterMaster.ListsObject | lib/algos/list/delimiterMaster.js:50-77 | the records of one object list exactly its current entry, leave no other key pending, and stop exactly when that entry does not fit on the page |
| DelimiterMaster.ListsObjects | lib/algos/list/delimiterMaster.js:50-77 | the records of several objects list their current entries in order, up to a full page, and stop exactly when those entries do not all fit |
| DelimiterMaster.ListsCurrentEntries | lib/algos/list/delimiterMaster.js:50-77 | without a delimiter, a listing holds the first `maxKeys` current entries, one per object, counts them, has marker `last key + VID_SEP`, and stops exactly when there are more than `maxKeys` current entries |
| DelimiterMaster.StopsOnFullPage | lib/algos/list/delimiterMaster.js:27-37 | on a one-key page over objects `a` and `b`, only `a` is listed, the marker is `a` + `VID_SEP`, and `b` stops the iteration |
| DelimiterVersions.NextDelimiter | lib/algos/list/delimiterVersions.js:17-19 | -1 exactly when the delimiter occurs nowhere at or after `index`; otherwise the first such position |
| DelimiterVersions.Route | lib/algos/list/delimiterVersions.js:94-112 | dropped exactly when a non-empty prefix does not start the key; otherwise grouped exactly when a set delimiter occurs at or after the prefix length, at the first such position |
| DelimiterVersions.Dispatch | lib/algos/list/delimiterVersions.js:94-112 | `_filter` leaves the buffer alone; it lists the entry or nothing; it lists only an entry under the prefix, and only on a page with room, pointing both markers at it; it stops exactly for such an entry on a full page |
| DelimiterVersions.Flush | lib/algos/list/delimiterVersions.js:78-83 | listing the buffered master empties the buffer; with nothing buffered nothing happens |
| DelimiterVersions.Settle | lib/algos/list/delimiterVersions.js:78-83 | before a version record is filtered, the buffer ends up empty |
| DelimiterVersions.Step | lib/algos/list/delimiterVersions.js:70-92 | a bare non-PHD master is buffered and a bare PHD clears the buffer, both returning true and listing nothing; a version record empties the buffer, keeps what was listed, adds at most two entries, counts them, and stops only on a full page |
| DelimiterVersions.FixedStep | lib/algos/list/delimiterVersions.js:84-90 | the corrected bare-master step: the buffered master is listed first, then the new master is buffered (or not, for a PHD); version records are taken as in `Step` |
| DelimiterVersions.DelimiterVersions.constructor | lib/algos/list/delimiterVersions.js:34-38 | an empty page, an empty buffer and no version marker |
| DelimiterVersions.DelimiterVersions.AddContents | lib/algos/list/delimiterVersions.js:48-57 | on a full page returns false and changes nothing; otherwise appends exactly `{key, versionId, value}`, sets `NextMarker` to `key` and `NextVersionIdMarker` to `versionId`, counts one more key and returns true |
| DelimiterVersions.DelimiterVersions.FilterEntry | lib/algos/list/delimiterVersions.js:94-112 | outside a non-empty prefix returns true and changes nothing; a grouped entry lists nothing; any other entry changes the page as `Dispatch` says |
| DelimiterVersions.DelimiterVersions.Filter | lib/algos/list/delimiterVersions.js:70-92 | a bare non-PHD master is buffered, a bare PHD clears the buffer, both returning true with the page unchanged; a version record empties the buffer and only adds to the list; the page changes as `Step` says; a record that is not grouped leaves the common prefixes and the truncation flag alone |
| DelimiterVersions.DelimiterVersions.Result | lib/algos/list/delimiterVersions.js:120-135 | the page as built; `NextMarker` only when truncated and a delimiter is set, `NextVersionIdMarker` only when truncated, each then equal to the lister's marker |
| DelimiterVersions.VersionPath | lib/algos/list/delimiterVersions.js:74-83 | a key with `VID_SEP` is taken by settling the buffer and filtering `{objectKey, versionId, value}` |
| DelimiterVersions.MasterPath | lib/algos/list/delimiterVersions.js:84-90 | a key without `VID_SEP` is a bare master |
| DelimiterVersions.DispatchTracks | lib/algos/list/delimiterVersions.js:94-112 | filtering an entry keeps the page equal to the first `maxKeys` entries expected, with count and both markers; a refusal means a full page |
| DelimiterVersions.FlushTracks | lib/algos/list/delimiterVersions.js:78-83 | listing the buffered master adds it (when it is under the prefix) to what the page tracks |
| DelimiterVersions.VersionStep | lib/algos/list/delimiterVersions.js:74-91 | a version record lists a buffered master of another object and then itself, and leaves the buffer empty |
| DelimiterVersions.ListsVersions | lib/algos/list/delimiterVersions.js:74-91 | with nothing buffered, an object's version records list every version in order, each with its version id |
| DelimiterVersions.ListsVersionsAfter | lib/algos/list/delimiterVersions.js:74-91 | an object's version records first list a buffered master of another object and discard one of the same object, then list every version |
| DelimiterVersions.ListsRemainingVersions | lib/algos/list/delimiterVersions.js:74-91 | after a stop, the page stays full; otherwise the remaining versions are listed |
| DelimiterVersions.RunVersions | lib/algos/list/delimiterVersions.js:74-91 | the first version record of an object is taken by settling the buffer and filtering the version |
| DelimiterVersions.MasterStep | lib/algos/list/delimiterVersions.js:84-90 | in the corrected step, a bare master lists what was buffered and is buffered itself unless it is a PHD |
| DelimiterVersions.ListsMasterAndVersions | lib/algos/list/delimiterVersions.js:70-92 | in the corrected listing, an object with a master record: a sole non-PHD master stays buffered, otherwise its versions are listed |
| DelimiterVersions.ListsObject | lib/algos/list/delimiterVersions.js:70-92 | in the corrected listing, the records of one object list what was buffered and the object's versions, or leave its sole master buffered |
| DelimiterVersions.ListsObjects | lib/algos/list/delimiterVersions.js:70-92 | in the corrected listing, the records of several objects, ended by a final flush, list all their versions in order, up to a full page |
| DelimiterVersions.ListsRest | lib/algos/list/delimiterVersions.js:70-92 | in the corrected listing, the objects after the first are listed from the state the first one leaves |
| DelimiterVersions.ListsEveryVersion | lib/algos/list/delimiterVersions.js:70-112 | without a delimiter, the corrected listing ended by a final flush holds the first `maxKeys` versions of the objects under the prefix; an object without versions appears as its non-PHD master with no version id; the count is right, both markers point at the last entry, and it stops only on a full page |
| DelimiterVersions.SameOnVersions | lib/algos/list/delimiterVersions.js:74-83 | the source's `filter` and the corrected one take version records alike, and after one of them nothing is buffered |
| DelimiterVersions.SameOnObject | lib/algos/list/delimiterVersions.js:70-92 | with nothing buffered, both take the records of an object that has a version alike, and leave nothing buffered |
| DelimiterVersions.AsWrittenAgrees | lib/algos/list/delimiterVersions.js:70-92 | when every object has a version record, the source's listing equals the corrected one, nothing stays buffered, and a final flush changes nothing |
| DelimiterVersions.VersionsStopExactly | lib/algos/list/delimiterVersions.js:74-83 | an object's version records, with at most its own master buffered, stop exactly when their entries do not all fit on a page that still had room |
| DelimiterVersions.ObjectStopsExactly | lib/algos/list/delimiterVersions.js:70-92 | the source takes an object that has a version: it lists the object's versions, leaves nothing buffered, and stops exactly when they do not all fit |
| DelimiterVersions.ObjectsStopExactly | lib/algos/list/delimiterVersions.js:70-92 | over objects that all have a version record, the source stops exactly when their versions do not all fit |
| DelimiterVersions.AsWrittenListsEveryVersion | lib/algos/list/delimiterVersions.js:70-112 | the source itself, without a delimiter and when every object has a version record, lists the first `maxKeys` versions under the prefix, counts them, points both markers at the last one, stops exactly when there are more than `maxKeys` such versions, and leaves nothing buffered |
| DelimiterVersions.AsWrittenLosesSoleMaster | lib/algos/list/delimiterVersions.js:84-90 | for objects `x` and `y` that each have only a master record, the source's `filter` lists only `y`, even after a final flush, while the corrected listing lists both |
| DelimiterVersions.SwallowsRefusedFlush | lib/algos/list/delimiterVersions.js:78-83 | with prefix `p` and a one-key page: `p0`'s version fills the page, the buffered sole master `p1` is refused when `q`'s version arrives, and `q` is outside the prefix; in both variants the listing goes on, and the page lacks `p1` |
| DelimiterVersions.AsWrittenKeepsTrailingMaster | lib/algos/list/delimiterVersions.js:84-90 | a last object whose only record is its master stays buffered and is not listed |

## Left out

- lib/algos/list/delimiter.js (the `Delimiter` base class) is not part of this model. `DelimiterBase.Delimiter.AddCommonPrefix` is abstract. It may change the common prefixes, the count, the truncation flag and `NextMarker`, and it returns any boolean. It leaves the listed entries alone. Only `AddCommonPrefix` may change `IsTruncated`. Besides it, only the constructor and `_reachedMaxKeys` are modelled. The initial `NextMarker` is a constructor parameter.
- lib/versioning/constants.js is not part of this model. `VID_SEP` is an abstract single character, because the source cuts the version id at the separator index plus one.
- The JSON library is abstract. `parse` gives no value where `JSON.parse` throws, and `stringify` is an uninterpreted function. No round trip is assumed.
- Versioning.Version.constructor: a truthy non-object decoded value (`true`, a number, a string, an array) is kept as is by the source. The model keeps no attributes for it. Such a value has no `isPHD` field in either case.
- Versioning.Version.GetAttr: the attributes are a map. A JavaScript property read also finds names inherited from `Object.prototype` (`constructor`, `toString`, ...), which the model reads as absent.
- Versioning.Version.SetAttr: the attributes are a map. In JavaScript, assigning a non-object to `__proto__` is ignored, so the round trip fails there. Inherited names and `__proto__` are not modelled.
- Versioning.Version.IsPHDVersion: returns the truthiness of `isPHD`. The source returns the attribute itself when it is truthy.
- Versioning.Version.ToString: has no contract beyond calling the abstract `stringify` on the attributes.
- DelimiterMaster.DelimiterMaster.Filter: for a grouped record, states only that `PHD` is cleared and no entry is listed. The rest belongs to the abstract base class.
- DelimiterVersions.DelimiterVersions.Filter: for a record whose object key, or buffered master, is grouped, states only that the buffer empties and entries are only added.
- DelimiterMaster.ListsCurrentEntries: proved only without a delimiter, because grouping is abstract.
- DelimiterVersions.ListsEveryVersion: proved only without a delimiter, because grouping is abstract.
- DelimiterVersions.AsWrittenListsEveryVersion: proved only without a delimiter, because grouping is abstract, and only for streams in which every object has a version record.
- DelimiterVersions.ListsEveryVersion: is about the corrected lister. It includes a final flush of the buffer, which the source does not perform. The as-written behaviour at the end of a stream is `AsWrittenKeepsTrailingMaster`.
- DelimiterVersions.ListsEveryVersion: states that a stop means a full page, but not the converse. The converse does not hold, because a refused flush of the buffered master is ignored (`SwallowsRefusedFlush`).
- The flush at lib/algos/list/delimiterVersions.js:80 ignores what `_filter` returns. `DelimiterVersions.Settle` models that as written.
- Record values are strings and keys are `seq<char>`. Stored values of other types and Unicode details are not modelled.
- lib/multilevel/lib/client.js, lib/multilevel/lib/server.js, lib/storage/metadata/file/server.js and lib/storage/metadata/file/client.js are left out. They are RPC, streams, TCP and database I/O.

## Findings

| source | as written | input that shows it | evidently intended | confidence | as-written member | corrected member |
|---|---|---|---|---|---|---|
| lib/algos/list/delimiterVersions.js:84-90 | a bare master record overwrites (or, for a PHD, clears) a buffered master without listing it | objects `x` then `y`, each with only the master record `{}`, no prefix, no delimiter, `maxKeys` at least 2: only `y` is listed, even after a final flush | the buffered master is listed before it is replaced, as it is before a version record of another object (lines 78-83), so both `x` and `y` are listed; `DelimiterVersions.ListsEveryVersion` proves this for every well-formed stream without a delimiter | not executed | DelimiterVersions.AsWrittenLosesSoleMaster | DelimiterVersions.FixedStep |
