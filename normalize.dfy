/**
 * Turning a parsed document into the transaction bundle sent to the
 * server: `prepareEntryForMedplum` and `toTransactionBundle`.
 *
 * Every prepared entry drops the resource's `id` (the server assigns one)
 * and becomes either a conditional update keyed on the canonical `url`
 * (`PUT ResourceType?url=<encoded url>`, section "Conditional update" of the
 * FHIR R4 RESTful API) or a create (`POST ResourceType`), inside a
 * "transaction" Bundle. `encode` stands for `encodeURIComponent`.
 */
module Normalize {
  import opened Wrappers
  import opened Fhir
  import JsStrings

  /** The entry carries a resource with a truthy `resourceType`. */
  predicate HasResourceType(e: EntryValue) {
    e.resource.Some? && Truthy(e.resource.value.resourceType)
  }

  /** The request target of a conditional update on canonical URL `canonical`. */
  function ConditionalTarget(resourceType: string, canonical: string, encode: string -> string): string {
    resourceType + "?url=" + encode(canonical)
  }

  /** The entry `prepareEntryForMedplum` returns for `e`. */
  function Prepared(e: EntryValue, encode: string -> string): (r: EntryValue)
    // an entry whose resource has no type is passed through untouched
    ensures !HasResourceType(e) ==> r == e
    // otherwise the resource loses its id and keeps every other member
    ensures HasResourceType(e) ==> r.resource == Some(e.resource.value.(id := None))
    // and the request is a conditional PUT exactly when the canonical url is truthy
    ensures HasResourceType(e) ==> r.request.Some? && (r.request.value.verb == "PUT" <==> Truthy(e.resource.value.url))
    ensures HasResourceType(e) && Truthy(e.resource.value.url) ==>
      && r.fullUrl == e.resource.value.url
      && r.request.value.url == Some(ConditionalTarget(e.resource.value.resourceType.value, e.resource.value.url.value, encode))
    ensures HasResourceType(e) && !Truthy(e.resource.value.url) ==>
      && r.fullUrl == None
      && r.request.value == Request("POST", e.resource.value.resourceType)
  {
    if !HasResourceType(e) then e
    else
      var resource := e.resource.value;
      var resourceType := resource.resourceType.value;
      var stripped := resource.(id := None);
      if Truthy(resource.url) then
        EntryValue(resource.url, Some(stripped),
                   Some(Request("PUT", Some(ConditionalTarget(resourceType, resource.url.value, encode)))))
      else
        EntryValue(None, Some(stripped), Some(Request("POST", Some(resourceType))))
  }

  /**
   * `prepareEntryForMedplum`: deletes `id` from the entry's resource object
   * in place and returns the new entry, which shares that object.
   */
  method PrepareEntryForMedplum(entry: Entry, encode: string -> string) returns (r: Entry)
    modifies entry.resource
    ensures r.resource == entry.resource
    ensures EntryView(r) == Prepared(old(EntryView(entry)), encode)
  {
    var resource := entry.resource;
    if resource == null || !Truthy(resource.resourceType) {
      return entry;
    }
    var canonicalUrl := resource.url;
    var resourceType := resource.resourceType.value;
    resource.id := None;
    if Truthy(canonicalUrl) {
      return Entry(canonicalUrl, resource,
                   Some(Request("PUT", Some(ConditionalTarget(resourceType, canonicalUrl.value, encode)))));
    }
    return Entry(None, resource, Some(Request("POST", Some(resourceType))));
  }

  /** Preparing twice is preparing once. */
  lemma PreparedIdempotent(e: EntryValue, encode: string -> string)
    ensures Prepared(Prepared(e, encode), encode) == Prepared(e, encode)
  {
  }

  /** What the caller put in `fullUrl` and `request` is discarded once the resource has a type. */
  lemma PreparedIgnoresRequest(res: ResourceValue, fullUrl: Option<string>, request: Option<Request>, encode: string -> string)
    requires Truthy(res.resourceType)
    ensures Prepared(EntryValue(fullUrl, Some(res), request), encode)
         == Prepared(EntryValue(None, Some(res), None), encode)
  {
  }

  // ----- toTransactionBundle -----

  const UnrecognizedPrefix := "Archivo no reconocido como recurso FHIR: "
  /** The TypeError thrown when the document is JSON `null`. */
  const NullAccessMessage := "Cannot read properties of null (reading 'resourceType')"

  predicate IsTransaction(v: ResourceValue) {
    v.resourceType == Some("Bundle") && v.bundleType == Some("transaction")
  }

  /** `json.entry ?? []` */
  function EntriesOf(v: ResourceValue): seq<EntryValue> {
    if v.entry.Some? then v.entry.value else []
  }

  /** The entry wrapped around a lone resource: `PUT ResourceType/<id or "">`. */
  function SingleEntry(v: ResourceValue): (e: EntryValue)
    requires v.resourceType.Some?
    ensures e.resource == Some(v) && e.fullUrl.None?
    ensures e.request.Some? && e.request.value.verb == "PUT" && e.request.value.url.Some?
    ensures JsStrings.StartsWith(e.request.value.url.value, v.resourceType.value + "/")
    ensures v.id.Some? ==> JsStrings.EndsWith(e.request.value.url.value, "/" + v.id.value)
  {
    EntryValue(None, Some(v),
               Some(Request("PUT", Some(v.resourceType.value + "/" + (if v.id.Some? then v.id.value else "")))))
  }

  function PrepareAll(es: seq<EntryValue>, encode: string -> string): (r: seq<EntryValue>)
    ensures |r| == |es|
    ensures forall k :: 0 <= k < |es| ==> r[k] == Prepared(es[k], encode)
  {
    seq(|es|, k requires 0 <= k < |es| => Prepared(es[k], encode))
  }

  /** A normalized document: the transaction entries and the resource count. */
  datatype NormalizedBundle = NormalizedBundle(entries: seq<EntryValue>, resourceCount: nat)

  /** The bundle `toTransactionBundle` builds from a parsed document, or the error it throws. */
  function NormalizeDocument(doc: JsonDoc, filePath: string, encode: string -> string): (r: Result<NormalizedBundle, string>)
    // accepted exactly when the document is an object with a truthy resourceType
    ensures r.Ok? <==> doc.ObjectDoc? && Truthy(doc.obj.resourceType)
    ensures r.Ok? ==> r.value.resourceCount == |r.value.entries|
    // a transaction Bundle: one prepared entry per input entry, in order
    ensures r.Ok? && IsTransaction(doc.obj) ==>
      && |r.value.entries| == |EntriesOf(doc.obj)|
      && forall k :: 0 <= k < |r.value.entries| ==> r.value.entries[k] == Prepared(EntriesOf(doc.obj)[k], encode)
    // any other typed object: exactly one entry, the object itself without its id
    ensures r.Ok? && !IsTransaction(doc.obj) ==>
      && |r.value.entries| == 1
      && r.value.entries[0] == Prepared(EntryValue(None, Some(doc.obj), None), encode)
      && r.value.entries[0].resource == Some(doc.obj.(id := None))
    // JSON `null`: reading `resourceType` throws a TypeError
    ensures doc.NullDoc? ==> r == Err(NullAccessMessage)
    // any other document: the "not recognized" error naming the file
    ensures doc.NonObjectDoc? || (doc.ObjectDoc? && !Truthy(doc.obj.resourceType)) ==>
      r == Err(UnrecognizedPrefix + filePath)
  {
    match doc
    case NullDoc => Err(NullAccessMessage)
    case NonObjectDoc => Err(UnrecognizedPrefix + filePath)
    case ObjectDoc(v) =>
      if IsTransaction(v) then
        var entries := PrepareAll(EntriesOf(v), encode);
        Ok(NormalizedBundle(entries, |entries|))
      else if Truthy(v.resourceType) then
        PreparedIgnoresRequest(v, None, SingleEntry(v).request, encode);
        Ok(NormalizedBundle([Prepared(SingleEntry(v), encode)], 1))
      else
        Err(UnrecognizedPrefix + filePath)
  }

  /** A transaction bundle of entries whose resource objects were just created and prepared. */
  datatype Bundle = Bundle(entry: seq<Entry>, resourceCount: nat)

  /** Builds the objects `JSON.parse` builds for one entry. */
  method MaterializeEntry(v: EntryValue) returns (e: Entry)
    ensures EntryView(e) == v
    ensures e.resource != null ==> fresh(e.resource)
  {
    var resource: Resource? := null;
    if v.resource.Some? {
      resource := new Resource(v.resource.value);
    }
    e := Entry(v.fullUrl, resource, v.request);
  }

  /**
   * `toTransactionBundle` after the file has been read and parsed: the
   * resource objects are fresh, and each is prepared in place.
   */
  method ToTransactionBundle(doc: JsonDoc, filePath: string, encode: string -> string)
    returns (r: Result<Bundle, string>)
    ensures r.Err? <==> NormalizeDocument(doc, filePath, encode).Err?
    ensures r.Err? ==> r.error == NormalizeDocument(doc, filePath, encode).error
    ensures r.Ok? ==>
      && EntryViews(r.value.entry) == NormalizeDocument(doc, filePath, encode).value.entries
      && r.value.resourceCount == NormalizeDocument(doc, filePath, encode).value.resourceCount
  {
    var json: ResourceValue;
    match doc
    case NullDoc => return Err(NullAccessMessage);
    case NonObjectDoc => return Err(UnrecognizedPrefix + filePath);
    case ObjectDoc(v) => json := v;

    if IsTransaction(json) {
      var source := EntriesOf(json);
      var entries: seq<Entry> := [];
      var i := 0;
      while i < |source|
        invariant 0 <= i <= |source|
        invariant |entries| == i
        invariant forall k :: 0 <= k < i ==> EntryView(entries[k]) == Prepared(source[k], encode)
      {
        var parsed := MaterializeEntry(source[i]);
        var prepared := PrepareEntryForMedplum(parsed, encode);
        entries := entries + [prepared];
        i := i + 1;
      }
      return Ok(Bundle(entries, |entries|));
    }

    if Truthy(json.resourceType) {
      var parsed := MaterializeEntry(SingleEntry(json));
      var prepared := PrepareEntryForMedplum(parsed, encode);
      return Ok(Bundle([prepared], 1));
    }

    return Err(UnrecognizedPrefix + filePath);
  }
}
