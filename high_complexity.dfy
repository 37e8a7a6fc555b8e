/**
 * The high-complexity study generator: a table of studies, each mapped to
 * an ActivityDefinition whose specialty concept is looked up by name.
 */
module HighComplexity {
  import opened Wrappers
  import opened ActivityDefinitions
  import Imaging

  /** A specialty's SNOMED CT concept. */
  datatype SpecialtyConcept = SpecialtyConcept(code: string, display: string)

  /** `SPECIALTY_SNOMED`: the five specialties the table may name. */
  const SpecialtySnomed: map<string, SpecialtyConcept> := map[
    "cardiology" := SpecialtyConcept("394579002", "Cardiology"),
    "gynecology" := SpecialtyConcept("394586005", "Gynecology"),
    "endocrinology" := SpecialtyConcept("394583002", "Endocrinology"),
    "pulmonology" := SpecialtyConcept("418112009", "Pulmonary medicine"),
    "traumatology" := SpecialtyConcept("394801008", "Trauma and orthopedics")
  ]

  /** One row of the table; unlike the imaging table it carries its own `name`. */
  datatype HighComplexityDef = HighComplexityDef(
    id: string,
    name: string,
    title: string,
    description: string,
    purpose: string,
    snomedCode: string,
    snomedDisplay: string,
    specialty: string,
    priority: string,
    prep: string)

  const HighComplexityProfile := "https://epa-bienestar.com.ar/fhir/StructureDefinition/EPA-ActivityDef-HighComplexity"

  /** The TypeError thrown when the looked-up specialty is `undefined`. */
  const UndefinedSpecialtyMessage := "Cannot read properties of undefined (reading 'code')"

  /**
   * `buildResource`: fails exactly when the row's specialty is not in the
   * table; otherwise the definition carries the row's own name and the
   * table's concept for its specialty.
   */
  function BuildResource(def: HighComplexityDef): (r: Result<ActivityDefinition, string>)
    ensures r.Ok? <==> def.specialty in SpecialtySnomed
    ensures r.Err? ==> r.error == UndefinedSpecialtyMessage
    ensures r.Ok? ==>
      && WellFormed(r.value, HighComplexityProfile)
      && r.value.id == def.id && r.value.url == CanonicalUrl(def.id)
      && r.value.name == def.name && r.value.title == def.title
      && r.value.description == def.description && r.value.purpose == def.purpose
      && r.value.code == SnomedConcept(def.snomedCode, def.snomedDisplay, def.title)
      && r.value.useContext == SpecialtyContext(SpecialtySnomed[def.specialty].code, SpecialtySnomed[def.specialty].display)
      && r.value.extension == Extensions(def.priority, def.specialty, def.prep)
  {
    if def.specialty !in SpecialtySnomed then Err(UndefinedSpecialtyMessage)
    else
      var spec := SpecialtySnomed[def.specialty];
      Ok(ActivityDefinition(
        resourceType := "ActivityDefinition",
        id := def.id,
        profile := [HighComplexityProfile],
        url := CanonicalBase + def.id,
        version := "1.0.0",
        name := def.name,
        title := def.title,
        status := "active",
        experimental := false,
        date := "2025-01-01",
        publisher := "EPA Bienestar",
        description := def.description,
        purpose := def.purpose,
        kind := "ServiceRequest",
        intent := "order",
        priority := "routine",
        code := SnomedConcept(def.snomedCode, def.snomedDisplay, def.title),
        subjectCodeableConcept := PatientSubject,
        useContext := SpecialtyContext(spec.code, spec.display),
        extension := Extensions(def.priority, def.specialty, def.prep)))
  }

  /** The file the script writes for one row, or the error building it throws. */
  function OutputFile(def: HighComplexityDef): (r: Result<(string, ActivityDefinition), string>)
    ensures r.Ok? <==> def.specialty in SpecialtySnomed
    ensures r.Err? ==> r.error == UndefinedSpecialtyMessage
    ensures r.Ok? ==> r.value.0 == def.id + ".json" && r.value.1.id == def.id
  {
    match BuildResource(def)
    case Ok(ad) => Ok((def.id + ".json", ad))
    case Err(e) => Err(e)
  }

  /**
   * The script's loop: rows are written in order until one names a
   * specialty missing from the table, which stops the script with the
   * TypeError; it runs to the end exactly when every specialty is known.
   */
  method Generate(defs: seq<HighComplexityDef>)
    returns (written: seq<(string, ActivityDefinition)>, count: nat, failure: Option<string>)
    ensures count <= |defs| && |written| == count
    ensures forall k :: 0 <= k < count ==> OutputFile(defs[k]).Ok? && written[k] == OutputFile(defs[k]).value
    ensures forall k :: 0 <= k < count ==> written[k].0 == defs[k].id + ".json" && written[k].1.id == defs[k].id
    ensures failure.None? <==> count == |defs|
    ensures failure.None? <==> forall k :: 0 <= k < |defs| ==> defs[k].specialty in SpecialtySnomed
    ensures failure.Some? ==> defs[count].specialty !in SpecialtySnomed && failure.value == UndefinedSpecialtyMessage
  {
    written, count, failure := WriteFilesUntilFailure(defs, OutputFile);
  }

  /** The specialty column of the script's table, row by row. */
  const TableSpecialties: seq<string> := [
    "cardiology", "cardiology", "cardiology", "cardiology", "cardiology", "cardiology", "cardiology",
    "gynecology", "gynecology", "gynecology",
    "endocrinology", "endocrinology", "endocrinology",
    "pulmonology", "pulmonology", "pulmonology", "pulmonology", "pulmonology", "pulmonology",
    "traumatology", "traumatology", "traumatology"
  ]

  /** Every specialty the table names is one the lookup knows. */
  lemma TableSpecialtiesKnown()
    ensures forall k :: 0 <= k < |TableSpecialties| ==> TableSpecialties[k] in SpecialtySnomed
  {
  }

  /** So the script, run on its own table, writes every row and never throws. */
  lemma TableBuildsEveryRow(defs: seq<HighComplexityDef>)
    requires |defs| == |TableSpecialties|
    requires forall k :: 0 <= k < |defs| ==> defs[k].specialty == TableSpecialties[k]
    ensures forall k :: 0 <= k < |defs| ==> BuildResource(defs[k]).Ok?
  {
    TableSpecialtiesKnown();
  }

  /**
   * The two generators agree on the pulmonology code but not on its
   * display: the imaging table writes "Pulmonology" where this lookup
   * writes "Pulmonary medicine".
   */
  lemma PulmonologyDisplaysDiffer(row: Imaging.ImagingDef)
    requires row == Imaging.SampleDefinitions[1]
    ensures row.specialty in SpecialtySnomed
    ensures row.specialtySnomedCode == SpecialtySnomed[row.specialty].code
    ensures row.specialtyDisplay != SpecialtySnomed[row.specialty].display
  {
    assert |row.specialtyDisplay| != |SpecialtySnomed[row.specialty].display|;
  }

  /** The sample rows are written under their own ids, names and titles. */
  lemma SampleRowsWritten(defs: seq<HighComplexityDef>)
    requires defs == SampleDefinitions
    ensures forall k :: 0 <= k < |defs| ==>
      && OutputFile(defs[k]).Ok?
      && OutputFile(defs[k]).value.0 == defs[k].id + ".json"
      && OutputFile(defs[k]).value.1.id == defs[k].id
      && OutputFile(defs[k]).value.1.name == defs[k].name
      && OutputFile(defs[k]).value.1.title == defs[k].title
  {
    forall k | 0 <= k < |defs|
      ensures defs[k].specialty in SpecialtySnomed
    {
      assert defs[k].specialty in {"cardiology", "gynecology", "pulmonology"};
    }
  }

  /** Sample rows of the table: the first cardiology, gynecology and pulmonology studies. */
  const SampleDefinitions: seq<HighComplexityDef> := [
    HighComplexityDef(
      "ad-hc-ergometry",
      "ErgometriaPEG",
      "Ergometría / PEG",
      "Prueba de esfuerzo graduada (ergometría) para evaluación de la capacidad funcional cardiovascular y detección de isquemia miocárdica.",
      "Evaluar respuesta cardiovascular al esfuerzo físico controlado, detectar isquemia inducida por ejercicio y determinar capacidad funcional.",
      "76746007", "Cardiovascular stress testing",
      "cardiology", "obligatorio",
      "Suspender betabloqueantes 48 horas antes (consultar al médico). Ropa y calzado deportivo. Ayuno de 2 horas. Traer ECG previo."),
    HighComplexityDef(
      "ad-hc-breast-mri",
      "RMNMamaria",
      "RMN mamaria",
      "Resonancia magnética nuclear mamaria con contraste para evaluación complementaria de lesiones mamarias.",
      "Complementar diagnóstico en pacientes de alto riesgo, evaluar extensión de enfermedad conocida y screening en portadoras de mutaciones BRCA.",
      "241615005", "Magnetic resonance imaging of breast",
      "gynecology", "especializado",
      "Idealmente realizar entre días 7-14 del ciclo menstrual. Informar sobre implantes mamarios, marcapasos o claustrofobia. Puede requerir gadolinio."),
    HighComplexityDef(
      "ad-hc-spirometry",
      "EspirometriaConBroncodilatador",
      "Espirometría con broncodilatador",
      "Prueba de función pulmonar con maniobra pre y post broncodilatador para evaluación de volúmenes y flujos respiratorios.",
      "Diagnosticar y clasificar trastornos ventilatorios obstructivos y restrictivos, evaluar reversibilidad y monitorizar enfermedad pulmonar.",
      "127783003", "Spirometry",
      "pulmonology", "obligatorio",
      "No fumar 4 horas antes. Suspender broncodilatadores de acción corta 6 horas antes y de acción larga 12 horas antes (consultar médico). Ropa cómoda.")
  ]
}
