/** The version record of lib/versioning/utils.js: the decoded metadata of one
    stored value, its flags, and the cheap placeholder-for-deletion (PHD) test. */
module Versioning {
  import opened Wrappers

  /** Every PHD value is serialized to exactly this many characters. */
  const PHD_VERSION_LENGTH: nat := 48

  /** The values that JSON text decodes to. */
  datatype JsValue =
    | JsNull
    | JsBool(b: bool)
    | JsNumber(n: real)
    | JsString(s: string)
    | JsArray(items: seq<JsValue>)
    | JsObject(fields: map<string, JsValue>)

  /** JavaScript truthiness of a decoded value. */
  predicate Truthy(v: JsValue) {
    match v
    case JsNull => false
    case JsBool(b) => b
    case JsNumber(n) => n != 0.0
    case JsString(s) => s != ""
    case JsArray(_) => true
    case JsObject(_) => true
  }

  /** The JSON library, left abstract: `parse` yields None where JSON.parse
      throws, `stringify` is JSON.stringify. */
  datatype Json = Json(parse: string -> Option<JsValue>, stringify: JsValue -> string)

  /** The attributes of a version; an absent key reads as `undefined`. */
  type Attributes = map<string, JsValue>

  /** What `new Version(version)` keeps: `version || {}`. */
  function AttributesOf(version: Option<JsValue>): Attributes {
    match version
    case Some(JsObject(fields)) => fields
    case _ => map[]
  }

  /** The attributes of `Version.from(value)`, or None where it throws: an
      undefined or empty value is not parsed and gives the empty version. */
  function Parse(json: Json, value: Option<string>): (r: Option<Attributes>)
    ensures value.None? || value == Some("") ==> r == Some(map[])
    ensures value.Some? && value.value != "" ==> (r.None? <==> json.parse(value.value).None?)
    ensures (value.Some? && value.value != "" && json.parse(value.value).Some?
             && json.parse(value.value).value.JsObject?)
            ==> r == Some(json.parse(value.value).value.fields)
  {
    match value
    case None => Some(AttributesOf(None))
    case Some(text) =>
      if text == "" then Some(AttributesOf(None))
      else match json.parse(text)
        case None => None
        case Some(v) => Some(AttributesOf(Some(v)))
  }

  /** `isPHDVersion()`: the `isPHD` attribute is present and truthy. */
  predicate PhdFlag(attrs: Attributes) {
    "isPHD" in attrs && Truthy(attrs["isPHD"])
  }

  /** `Version.isPHD(value)`: a length check, then a parse whose failure
      yields false instead of an exception. */
  function IsPHD(json: Json, value: string): (r: bool)
    ensures |value| != PHD_VERSION_LENGTH ==> !r
    ensures json.parse(value).None? ==> !r
    ensures r <==> |value| == PHD_VERSION_LENGTH && json.parse(value).Some?
                   && json.parse(value).value.JsObject?
                   && "isPHD" in json.parse(value).value.fields
                   && Truthy(json.parse(value).value.fields["isPHD"])
  {
    if |value| != PHD_VERSION_LENGTH then false
    else match Parse(json, Some(value))
      case None => false
      case Some(attrs) => PhdFlag(attrs)
  }

  class Version {
    var attrs: Attributes

    /** `new Version(version)`. */
    constructor (version: Option<JsValue>)
      ensures attrs == AttributesOf(version)
    {
      attrs := AttributesOf(version);
    }

    /** `Version.from(value)`: None where JSON.parse throws. */
    static method From(json: Json, value: Option<string>) returns (r: Option<Version>)
      ensures r.None? <==> Parse(json, value).None?
      ensures r.Some? ==> fresh(r.value) && r.value.attrs == Parse(json, value).value
    {
      if value.Some? && value.value != "" {
        var parsed := json.parse(value.value);
        if parsed.None? {
          return None;
        }
        var v := new Version(parsed);
        return Some(v);
      }
      var v := new Version(None);
      return Some(v);
    }

    /** `isPHDVersion()`. */
    predicate IsPHDVersion()
      reads this
      ensures "isPHD" !in attrs ==> !IsPHDVersion()
      ensures IsPHDVersion() ==> Truthy(attrs["isPHD"])
      ensures "isPHD" in attrs && Truthy(attrs["isPHD"]) ==> IsPHDVersion()
    {
      PhdFlag(attrs)
    }

    /** `getattr(attr)`: the raw attribute, None for `undefined`. */
    function GetAttr(attr: string): (r: Option<JsValue>)
      reads this
      ensures r.None? <==> attr !in attrs
      ensures r.Some? ==> r.value == attrs[attr]
    {
      if attr in attrs then Some(attrs[attr]) else None
    }

    /** `setattr(attr, value)`: sets one attribute and returns this version. */
    method SetAttr(attr: string, value: JsValue) returns (r: Version)
      modifies this
      ensures r == this
      ensures attrs == old(attrs)[attr := value]
      ensures GetAttr(attr) == Some(value)
      ensures forall a :: a != attr ==> GetAttr(a) == old(GetAttr(a))
    {
      attrs := attrs[attr := value];
      return this;
    }

    /** `isNullVersion()`: the raw `isNull` attribute. */
    function IsNullVersion(): (r: Option<JsValue>)
      reads this
      ensures r.None? <==> "isNull" !in attrs
      ensures r.Some? ==> r.value == attrs["isNull"]
    {
      GetAttr("isNull")
    }

    /** `isDeleteMarker()`: the raw `isDeleteMarker` attribute. */
    function IsDeleteMarker(): (r: Option<JsValue>)
      reads this
      ensures r.None? <==> "isDeleteMarker" !in attrs
      ensures r.Some? ==> r.value == attrs["isDeleteMarker"]
    {
      GetAttr("isDeleteMarker")
    }

    /** `getVersionId()`: the raw `versionId` attribute. */
    function GetVersionId(): (r: Option<JsValue>)
      reads this
      ensures r.None? <==> "versionId" !in attrs
      ensures r.Some? ==> r.value == attrs["versionId"]
    {
      GetAttr("versionId")
    }

    /** `setVersionId(versionId)`. */
    method SetVersionId(versionId: string) returns (r: Version)
      modifies this
      ensures r == this
      ensures attrs == old(attrs)["versionId" := JsString(versionId)]
      ensures GetVersionId() == Some(JsString(versionId))
    {
      attrs := attrs["versionId" := JsString(versionId)];
      return this;
    }

    /** `setDeleteMarker()`. */
    method SetDeleteMarker() returns (r: Version)
      modifies this
      ensures r == this
      ensures attrs == old(attrs)["isDeleteMarker" := JsBool(true)]
      ensures IsDeleteMarker() == Some(JsBool(true))
    {
      attrs := attrs["isDeleteMarker" := JsBool(true)];
      return this;
    }

    /** `setNullVersion()`. */
    method SetNullVersion() returns (r: Version)
      modifies this
      ensures r == this
      ensures attrs == old(attrs)["isNull" := JsBool(true)]
      ensures IsNullVersion() == Some(JsBool(true))
    {
      attrs := attrs["isNull" := JsBool(true)];
      return this;
    }

    /** `toString()`: JSON.stringify of the attributes. */
    function ToString(json: Json): string
      reads this
    {
      json.stringify(JsObject(attrs))
    }
  }
}
