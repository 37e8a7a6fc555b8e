/**
 * The ActivityDefinition resources the two generator scripts write, and
 * what the upload pipeline does with them.
 */
module ActivityDefinitions {
  import opened Wrappers
  import opened Fhir
  import opened Normalize

  datatype Coding = Coding(system: string, code: string, display: Option<string>)
  datatype CodeableConcept = CodeableConcept(coding: seq<Coding>, text: Option<string>)
  datatype UsageContext = UsageContext(code: Coding, valueCodeableConcept: CodeableConcept)
  datatype ExtensionValue = ValueCode(code: string) | ValueString(text: string)
  datatype Extension = Extension(url: string, value: ExtensionValue)

  /** A generated ActivityDefinition, member by member (`meta.profile` as `profile`). */
  datatype ActivityDefinition = ActivityDefinition(
    resourceType: string,
    id: string,
    profile: seq<string>,
    url: string,
    version: string,
    name: string,
    title: string,
    status: string,
    experimental: bool,
    date: string,
    publisher: string,
    description: string,
    purpose: string,
    kind: string,
    intent: string,
    priority: string,
    code: CodeableConcept,
    subjectCodeableConcept: CodeableConcept,
    useContext: seq<UsageContext>,
    extension: seq<Extension>)

  const CanonicalBase := "https://epa-bienestar.com.ar/fhir/ActivityDefinition/"
  const SnomedSystem := "http://snomed.info/sct"
  const StudyPriorityUrl := "https://epa-bienestar.com.ar/fhir/StructureDefinition/study-priority"
  const SpecialtyReferenceUrl := "https://epa-bienestar.com.ar/fhir/StructureDefinition/specialty-reference"
  const PrepInstructionsUrl := "https://epa-bienestar.com.ar/fhir/StructureDefinition/prep-instructions"
  const PatientSubject := CodeableConcept([Coding("http://hl7.org/fhir/resource-types", "Patient", None)], None)
  const FocusContext := Coding("http://terminology.hl7.org/CodeSystem/usage-context-type", "focus", None)

  /** The canonical URL of the definition with id `id`. */
  function CanonicalUrl(id: string): string {
    CanonicalBase + id
  }

  /** Different ids give different canonical URLs, so no two definitions share a conditional update. */
  lemma CanonicalUrlInjective(a: string, b: string)
    requires CanonicalUrl(a) == CanonicalUrl(b)
    ensures a == b
  {
    assert a == CanonicalUrl(a)[|CanonicalBase|..];
  }

  /** The single-SNOMED-coding `code` of a definition. */
  function SnomedConcept(code: string, display: string, title: string): CodeableConcept {
    CodeableConcept([Coding(SnomedSystem, code, Some(display))], Some(title))
  }

  /** The `useContext` naming the specialty's SNOMED concept. */
  function SpecialtyContext(code: string, display: string): seq<UsageContext> {
    [UsageContext(FocusContext, CodeableConcept([Coding(SnomedSystem, code, Some(display))], None))]
  }

  /** The three extensions, in the order priority, specialty, preparation. */
  function Extensions(priority: string, specialty: string, prep: string): seq<Extension> {
    [ Extension(StudyPriorityUrl, ValueCode(priority)),
      Extension(SpecialtyReferenceUrl, ValueCode(specialty)),
      Extension(PrepInstructionsUrl, ValueString(prep)) ]
  }

  /**
   * What every generated definition has in common, whichever script wrote
   * it: the fixed members, the canonical URL derived from the id, one SNOMED
   * coding whose text is the title, one focus use context, and the three
   * extensions in order.
   */
  predicate WellFormed(ad: ActivityDefinition, profile: string) {
    && ad.resourceType == "ActivityDefinition"
    && ad.profile == [profile]
    && ad.url == CanonicalUrl(ad.id)
    && ad.version == "1.0.0"
    && ad.status == "active"
    && !ad.experimental
    && ad.date == "2025-01-01"
    && ad.publisher == "EPA Bienestar"
    && ad.kind == "ServiceRequest"
    && ad.intent == "order"
    && ad.priority == "routine"
    && |ad.code.coding| == 1 && ad.code.coding[0].system == SnomedSystem
    && ad.code.text == Some(ad.title)
    && ad.subjectCodeableConcept == PatientSubject
    && |ad.useContext| == 1 && ad.useContext[0].code == FocusContext
    && |ad.useContext[0].valueCodeableConcept.coding| == 1
    && ad.useContext[0].valueCodeableConcept.coding[0].system == SnomedSystem
    && |ad.extension| == 3
    && ad.extension[0].url == StudyPriorityUrl && ad.extension[0].value.ValueCode?
    && ad.extension[1].url == SpecialtyReferenceUrl && ad.extension[1].value.ValueCode?
    && ad.extension[2].url == PrepInstructionsUrl && ad.extension[2].value.ValueString?
  }

  /** `v` is a JSON object written for `ad`: as the upload pipeline reads it. */
  predicate Serializes(v: ResourceValue, ad: ActivityDefinition) {
    v.resourceType == Some(ad.resourceType) && v.id == Some(ad.id) && v.url == Some(ad.url)
  }

  /**
   * A generated definition is uploaded as a conditional update keyed on its
   * canonical URL, with `fullUrl` that URL and its id removed.
   */
  lemma GeneratedUploadsAsConditionalUpdate(ad: ActivityDefinition, profile: string, v: ResourceValue,
                                            fullUrl: Option<string>, request: Option<Request>, encode: string -> string)
    requires WellFormed(ad, profile) && Serializes(v, ad)
    ensures var p := Prepared(EntryValue(fullUrl, Some(v), request), encode);
      && p.fullUrl == Some(CanonicalUrl(ad.id))
      && p.request == Some(Request("PUT", Some(ConditionalTarget("ActivityDefinition", CanonicalUrl(ad.id), encode))))
      && p.resource == Some(v.(id := None))
  {
    assert |CanonicalUrl(ad.id)| >= |CanonicalBase| > 0;
    assert Truthy(v.url);
  }

  /**
   * The loop both generator scripts run over their tables: build each row,
   * write it to the file named alongside, count it. `file` is the row's
   * file name and content.
   */
  method WriteFiles<D>(rows: seq<D>, file: D -> (string, ActivityDefinition))
    returns (written: seq<(string, ActivityDefinition)>, count: nat)
    ensures count == |rows| && |written| == |rows|
    ensures forall k :: 0 <= k < |rows| ==> written[k] == file(rows[k])
  {
    written, count := [], 0;
    for i := 0 to |rows|
      invariant count == i && |written| == i
      invariant forall k :: 0 <= k < i ==> written[k] == file(rows[k])
    {
      written := written + [file(rows[i])];
      count := count + 1;
    }
  }

  /**
   * The same loop where building a row can throw: the rows before the
   * first failing one are written and counted, and the script stops there
   * with that row's error.
   */
  method WriteFilesUntilFailure<D>(rows: seq<D>, file: D -> Result<(string, ActivityDefinition), string>)
    returns (written: seq<(string, ActivityDefinition)>, count: nat, failure: Option<string>)
    ensures count <= |rows| && |written| == count
    ensures forall k :: 0 <= k < count ==> file(rows[k]).Ok? && written[k] == file(rows[k]).value
    ensures failure.None? <==> count == |rows|
    ensures failure.Some? ==> file(rows[count]) == Err(failure.value)
  {
    written, count, failure := [], 0, None;
    while count < |rows|
      invariant count <= |rows| && |written| == count
      invariant forall k :: 0 <= k < count ==> file(rows[k]).Ok? && written[k] == file(rows[k]).value
    {
      var built := file(rows[count]);
      if built.Err? {
        return written, count, Some(built.error);
      }
      written := written + [built.value];
      count := count + 1;
    }
  }
}
