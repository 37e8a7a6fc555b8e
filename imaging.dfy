/**
 * The imaging-study generator: a table of study definitions, each mapped
 * to an ActivityDefinition whose `name` is derived from its id.
 */
module Imaging {
  import opened Wrappers
  import opened JsStrings
  import opened ActivityDefinitions

  /** One row of the imaging table. */
  datatype ImagingDef = ImagingDef(
    id: string,
    title: string,
    description: string,
    purpose: string,
    snomedCode: string,
    snomedDisplay: string,
    specialty: string,
    specialtySnomedCode: string,
    specialtyDisplay: string,
    priority: string,
    prepInstructions: string)

  const ImagingProfile := "https://epa-bienestar.com.ar/fhir/StructureDefinition/EPA-ActivityDef-Imaging"
  const IdPrefix := "ad-img-"

  /** `id.replace(/^ad-img-/, '')`: the prefix is removed only where the id starts with it. */
  function StripPrefix(id: string): (r: string)
    ensures StartsWith(id, IdPrefix) ==> id == IdPrefix + r
    ensures !StartsWith(id, IdPrefix) ==> r == id
  {
    if StartsWith(id, IdPrefix) then id[|IdPrefix|..] else id
  }

  /** `c.toUpperCase()` for one character; only ASCII letters change. */
  function UpperChar(c: char): (u: char)
    ensures 'a' <= c <= 'z' ==> 'A' <= u <= 'Z' && u as int == c as int - 32
    ensures !('a' <= c <= 'z') ==> u == c
  {
    if 'a' <= c <= 'z' then (c as int - 32) as char else c
  }

  /** `part.charAt(0).toUpperCase() + part.slice(1)` */
  function Capitalize(part: string): (r: string)
    ensures |r| == |part|
    ensures |part| > 0 ==> r[0] == UpperChar(part[0]) && r[1..] == part[1..]
    ensures '-' !in part ==> '-' !in r
  {
    if |part| == 0 then "" else [UpperChar(part[0])] + part[1..]
  }

  function CapitalizeAll(parts: seq<string>): (r: seq<string>)
    ensures |r| == |parts|
    ensures forall k :: 0 <= k < |parts| ==> r[k] == Capitalize(parts[k])
  {
    seq(|parts|, k requires 0 <= k < |parts| => Capitalize(parts[k]))
  }

  lemma {:induction false} CapitalizeAllLength(parts: seq<string>)
    ensures TotalLength(CapitalizeAll(parts)) == TotalLength(parts)
  {
    if |parts| > 0 {
      CapitalizeAllLength(parts[1..]);
      assert CapitalizeAll(parts)[1..] == CapitalizeAll(parts[1..]);
    }
  }

  /**
   * `toPascalCase`: strip the prefix, split at hyphens, capitalize each
   * piece, join. The name holds no hyphen, and is as long as the stripped
   * id without its hyphens (each piece keeps its length).
   */
  function ToPascalCase(id: string): (name: string)
    ensures '-' !in name
    ensures |name| == |StripPrefix(id)| - CountChar(StripPrefix(id), '-')
  {
    var parts := Split(StripPrefix(id), '-');
    ConcatAvoids(CapitalizeAll(parts), '-');
    CapitalizeAllLength(parts);
    SplitLength(StripPrefix(id), '-');
    Concat(CapitalizeAll(parts))
  }

  /**
   * An id made of the prefix and hyphen-free pieces is named by the
   * capitalized pieces, concatenated.
   */
  lemma PascalCaseOfPieces(parts: seq<string>)
    requires |parts| >= 1
    requires forall k :: 0 <= k < |parts| ==> '-' !in parts[k]
    ensures ToPascalCase(IdPrefix + Join(parts, "-")) == Concat(CapitalizeAll(parts))
  {
    var rest := Join(parts, "-");
    assert (IdPrefix + rest)[..|IdPrefix|] == IdPrefix;
    assert StripPrefix(IdPrefix + rest) == rest;
    SplitJoin(parts, '-');
  }

  /** The name of the first study in the table. */
  lemma PascalCaseExample(id: string)
    requires id == "ad-img-ecg-12lead"
    ensures ToPascalCase(id) == "Ecg12lead"
  {
    var parts := ["ecg", "12lead"];
    IdOfExample(id, parts);
    PascalCaseOfPieces(parts);
    CapitalizeExample(parts);
  }

  lemma IdOfExample(id: string, parts: seq<string>)
    requires id == "ad-img-ecg-12lead" && parts == ["ecg", "12lead"]
    ensures id == IdPrefix + Join(parts, "-")
  {
    assert Join(parts, "-") == "ecg-12lead";
  }

  lemma CapitalizeExample(parts: seq<string>)
    requires parts == ["ecg", "12lead"]
    ensures Concat(CapitalizeAll(parts)) == "Ecg12lead"
  {
    assert Capitalize(parts[0]) == "Ecg";
    assert UpperChar(parts[1][0]) == parts[1][0];
    assert Capitalize(parts[1]) == parts[1];
    assert CapitalizeAll(parts) == ["Ecg", "12lead"];
  }

  /** `buildActivityDefinition`. */
  function BuildActivityDefinition(def: ImagingDef): (ad: ActivityDefinition)
    ensures WellFormed(ad, ImagingProfile)
    ensures ad.id == def.id && ad.url == CanonicalUrl(def.id)
    ensures ad.name == ToPascalCase(def.id) && ad.title == def.title
    ensures ad.description == def.description && ad.purpose == def.purpose
    ensures ad.code == SnomedConcept(def.snomedCode, def.snomedDisplay, def.title)
    ensures ad.useContext == SpecialtyContext(def.specialtySnomedCode, def.specialtyDisplay)
    ensures ad.extension == Extensions(def.priority, def.specialty, def.prepInstructions)
  {
    ActivityDefinition(
      resourceType := "ActivityDefinition",
      id := def.id,
      profile := [ImagingProfile],
      url := CanonicalBase + def.id,
      version := "1.0.0",
      name := ToPascalCase(def.id),
      title := def.title,
      status := "active",
      experimental := false,
      date := "2025-01-01",
      publisher := "EPA Bienestar",
      description := def.description,
      purpose := def.purpose,
      kind := "ServiceRequest",
      intent := "order",
      priority := "routine",
      code := SnomedConcept(def.snomedCode, def.snomedDisplay, def.title),
      subjectCodeableConcept := PatientSubject,
      useContext := SpecialtyContext(def.specialtySnomedCode, def.specialtyDisplay),
      extension := Extensions(def.priority, def.specialty, def.prepInstructions))
  }

  /** Two definitions that differ only in their clinical text map to the same fixed members. */
  lemma FixedMembersShared(a: ImagingDef, b: ImagingDef)
    ensures var x, y := BuildActivityDefinition(a), BuildActivityDefinition(b);
      && x.resourceType == y.resourceType && x.profile == y.profile && x.status == y.status
      && x.experimental == y.experimental && x.kind == y.kind && x.intent == y.intent
  {
  }

  /** The file the script writes for one row: `<id>.json` holding the built definition. */
  function OutputFile(def: ImagingDef): (file: (string, ActivityDefinition))
    ensures file.0 == file.1.id + ".json" && file.1.id == def.id
    ensures file.1.name == ToPascalCase(def.id) && WellFormed(file.1, ImagingProfile)
  {
    (def.id + ".json", BuildActivityDefinition(def))
  }

  /** The script's loop over its table: every row is written, in order, and counted. */
  method Generate(defs: seq<ImagingDef>) returns (written: seq<(string, ActivityDefinition)>, count: nat)
    ensures count == |defs| && |written| == |defs|
    ensures forall k :: 0 <= k < |defs| ==> written[k] == OutputFile(defs[k])
    ensures forall k :: 0 <= k < |defs| ==> written[k].1.id == defs[k].id && written[k].0 == defs[k].id + ".json"
  {
    written, count := WriteFiles(defs, OutputFile);
  }

  /** Sample rows of the table (the first cardiology and the first pulmonology study). */
  const SampleDefinitions: seq<ImagingDef> := [
    ImagingDef(
      "ad-img-ecg-12lead",
      "ECG 12 derivaciones",
      "Electrocardiograma estándar de 12 derivaciones para evaluación del ritmo cardíaco, conducción eléctrica y detección de isquemia o hipertrofia.",
      "Screening cardiovascular básico dentro del programa Life's Essential 8 de EPA Bienestar.",
      "164847006", "Standard 12-lead electrocardiogram",
      "cardiology", "394579002", "Cardiology",
      "obligatorio",
      "No requiere preparación especial. Evitar ejercicio intenso previo. Retirar objetos metálicos del tórax."),
    ImagingDef(
      "ad-img-chest-xray",
      "Rx de tórax frente y perfil",
      "Radiografía de tórax posteroanterior y perfil para evaluación de campos pulmonares, silueta cardíaca, mediastino y estructuras óseas torácicas.",
      "Screening pulmonar básico en pacientes fumadores o con scores bajos en dimensiones de tabaquismo/sueño del LE8.",
      "399208008", "Plain chest X-ray",
      "pulmonology", "418112009", "Pulmonology",
      "obligatorio",
      "No requiere preparación especial. Retirar objetos metálicos del tórax. Informar si existe posibilidad de embarazo.")
  ]
}
