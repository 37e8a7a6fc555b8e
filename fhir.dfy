/**
 * The slice of a FHIR JSON document the upload pipeline looks at.
 *
 * A document is a JSON object; the pipeline reads its `resourceType`,
 * `id`, canonical `url`, the Bundle members `type` and `entry`, and treats
 * every other member as opaque. Documents arrive as values (what
 * `JSON.parse` produced); a resource placed in a bundle entry is an object
 * of class `Resource`, because preparing the entry deletes its `id` in
 * place.
 */
module Fhir {
  import opened Wrappers

  /** A Bundle entry's `request`: its `method` (the HTTP verb) and target `url`. */
  datatype Request = Request(verb: string, url: Option<string>)

  /** A resource as a value: the members the pipeline reads, and the rest by name. */
  datatype ResourceValue = ResourceValue(
    resourceType: Option<string>,
    id: Option<string>,
    url: Option<string>,
    bundleType: Option<string>,        // the Bundle member `type`
    entry: Option<seq<EntryValue>>,    // the Bundle member `entry`
    other: map<string, string>)        // every other member, uninterpreted

  /** A Bundle entry as a value. */
  datatype EntryValue = EntryValue(
    fullUrl: Option<string>,
    resource: Option<ResourceValue>,
    request: Option<Request>)

  /** What `JSON.parse` returned for a file: `null`, another non-object, or an object. */
  datatype JsonDoc = NullDoc | NonObjectDoc | ObjectDoc(obj: ResourceValue)

  /** JavaScript truthiness of an optional string member: present and not empty. */
  predicate Truthy(s: Option<string>) {
    s.Some? && s.value != ""
  }

  /** A resource object, whose members the pipeline updates in place. */
  class Resource {
    var resourceType: Option<string>
    var id: Option<string>
    var url: Option<string>
    var bundleType: Option<string>
    var entry: Option<seq<EntryValue>>
    var other: map<string, string>

    /** Builds the object `JSON.parse` would build for `v`. */
    constructor (v: ResourceValue)
      ensures View() == v
    {
      resourceType, id, url := v.resourceType, v.id, v.url;
      bundleType, entry, other := v.bundleType, v.entry, v.other;
    }

    /** The current members of this object, as a value. */
    function View(): ResourceValue
      reads this
    {
      ResourceValue(resourceType, id, url, bundleType, entry, other)
    }
  }

  /** A Bundle entry whose resource, if any, is an object. */
  datatype Entry = Entry(fullUrl: Option<string>, resource: Resource?, request: Option<Request>)

  /** The value an entry currently denotes. */
  function EntryView(e: Entry): (v: EntryValue)
    reads e.resource
    ensures v.fullUrl == e.fullUrl && v.request == e.request
    ensures v.resource.Some? <==> e.resource != null
  {
    EntryValue(e.fullUrl, if e.resource == null then None else Some(e.resource.View()), e.request)
  }

  /** The resource objects of a list of entries. */
  function ResourcesOf(es: seq<Entry>): set<Resource> {
    set k | 0 <= k < |es| && es[k].resource != null :: es[k].resource
  }

  /** The values a list of entries currently denotes, in order. */
  function EntryViews(es: seq<Entry>): (vs: seq<EntryValue>)
    reads ResourcesOf(es)
    ensures |vs| == |es|
    ensures forall k :: 0 <= k < |es| ==> vs[k] == EntryView(es[k])
  {
    seq(|es|, k requires 0 <= k < |es| reads ResourcesOf(es) => EntryView(es[k]))
  }
}
