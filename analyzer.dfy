/**
 * The backend's simulated pest analysis of an uploaded image and its upload
 * filter. The pseudo-random numbers the analysis draws, the image metadata and
 * the buffer length are inputs; `draw(i)` is the value of the `i`-th
 * `Math.random()` call.
 */
module PestAnalyzer {
  import opened Common
  import opened Text
  import opened PestResults

  datatype CatalogueEntry = CatalogueEntry(name: string, description: string, treatment: string, severity: Severity)

  /** The five pests the simulation picks from. */
  const Catalogue: seq<CatalogueEntry> := [
    CatalogueEntry("Pulgón", "Insecto pequeño que se alimenta de la savia de las plantas",
      "Aplicar jabón insecticida o aceite de neem", Medium),
    CatalogueEntry("Mosca blanca", "Insecto volador que causa daño por succión",
      "Usar trampas amarillas y control biológico", High),
    CatalogueEntry("Araña roja", "Ácaro que causa manchas amarillas en las hojas",
      "Aumentar humedad y usar acaricidas", Medium),
    CatalogueEntry("Oídio", "Hongo que forma una capa blanca en las hojas",
      "Aplicar fungicida de azufre", High),
    CatalogueEntry("Escarabajo de la patata", "Escarabajo que se alimenta de hojas de solanáceas",
      "Recolección manual y uso de Bacillus thuringiensis", Medium)
  ]

  /** The first draw must fall below this for any pest to be reported. */
  const PestProbability: real := 0.35

  const PestsDetectedMsg := "Se detectaron plagas en tu cultivo"
  const ApplyTreatmentMsg := "Aplica el tratamiento recomendado lo antes posible"
  const HighSeverityMsg := "⚠️ Plagas de alta severidad detectadas - acción inmediata requerida"
  const AphidTipMsg := "💡 Para pulgones, considera usar mariquitas como control biológico"
  const WhiteflyTipMsg := "💡 Las trampas adhesivas amarillas son muy efectivas contra moscas blancas"
  const NoPestsMsg := "✅ No se detectaron plagas en la imagen"
  const HealthyMsg := "Tu cultivo se ve saludable"
  const KeepMonitoringMsg := "💡 Continúa monitoreando regularmente para prevenir infestaciones"
  const LightingTipMsg := "💡 Mejora la iluminación para un mejor análisis"
  const FramingTipMsg := "💡 Intenta tomar la foto más centrada en la planta"


  /** What the image library reports; a missing or zero dimension is falsy. */
  datatype ImageMetadata = ImageMetadata(width: Option<nat>, height: Option<nat>)

  /** A valid sequence of draws: every `Math.random()` value lies in [0, 1). */
  ghost predicate ValidDraws(draw: nat -> real)
  {
    forall i :: 0.0 <= draw(i) < 1.0
  }

  /** `Math.floor(r * n)` for a draw `r`: an index into a collection of `n` elements. */
  function ScaledIndex(r: real, n: nat): (k: nat)
    requires 0.0 <= r < 1.0 && n > 0
    ensures k < n
    ensures k as real <= r * n as real < k as real + 1.0
  {
    assert r * n as real < n as real;
    (r * n as real).Floor
  }

  /** The detection entry has every field but the confidence from some catalogue entry. */
  predicate FromCatalogue(catalogue: seq<CatalogueEntry>, d: PestDetection)
  {
    exists e :: e in catalogue && d.pestType == e.name && d.description == e.description &&
      d.treatment == e.treatment && d.severity == e.severity
  }

  /** The detection built from a pick draw and a confidence draw. */
  function Detect(catalogue: seq<CatalogueEntry>, pick: real, conf: real): (d: PestDetection)
    requires |catalogue| > 0 && 0.0 <= pick < 1.0 && 0.0 <= conf < 1.0
    ensures 0.7 <= d.confidence < 1.0
  {
    var e := catalogue[ScaledIndex(pick, |catalogue|)];
    PestDetection(e.name, conf * 0.3 + 0.7, e.description, e.treatment, e.severity)
  }

  /** Every field of a detection but its confidence is copied from one catalogue entry. */
  lemma DetectFromCatalogue(catalogue: seq<CatalogueEntry>, pick: real, conf: real)
    requires |catalogue| > 0 && 0.0 <= pick < 1.0 && 0.0 <= conf < 1.0
    ensures FromCatalogue(catalogue, Detect(catalogue, pick, conf))
  {
    var e := catalogue[ScaledIndex(pick, |catalogue|)];
    assert e in catalogue;
  }

  /** The image-quality rule applied to brightness and contrast. */
  function QualityOf(brightness: real, contrast: real): (q: Quality)
    ensures q == Good <==> brightness > 50.0 && contrast > 40.0
    ensures q == Poor <==> brightness <= 30.0 || contrast <= 25.0
  {
    if brightness > 50.0 && contrast > 40.0 then Good
    else if brightness > 30.0 && contrast > 25.0 then Fair
    else Poor
  }

  function QualityRank(q: Quality): nat
  {
    match q
    case Poor => 0
    case Fair => 1
    case Good => 2
  }

  /** A brighter or more contrasted image never gets a lower quality grade. */
  lemma QualityMonotone(b1: real, c1: real, b2: real, c2: real)
    requires b1 <= b2 && c1 <= c2
    ensures QualityRank(QualityOf(b1, c1)) <= QualityRank(QualityOf(b2, c2))
  {
  }

  /** `metadata.width && metadata.height`, then an aspect ratio below 0.8 or above 1.2. */
  predicate OffCentre(metadata: ImageMetadata)
  {
    metadata.width.Some? && metadata.width.value != 0 && metadata.height.Some? && metadata.height.value != 0 &&
    var ratio := metadata.width.value as real / metadata.height.value as real;
    ratio < 0.8 || ratio > 1.2
  }

  lemma ScaleStrict(a: real, b: real, y: real)
    requires a < b && y > 0.0
    ensures a * y < b * y
  {
  }

  /** Comparing a quotient with a bound is comparing the dividend with the scaled bound. */
  lemma QuotientCompare(x: real, y: real, c: real)
    requires y > 0.0
    ensures x / y < c <==> x < c * y
    ensures x / y > c <==> x > c * y
  {
    var q := x / y;
    assert q * y == x;
    if q < c { ScaleStrict(q, c, y); }
    if q > c { ScaleStrict(c, q, y); }
    if q == c { assert q * y == c * y; }
  }

  /** The aspect-ratio test in integers: `5·w < 4·h` or `5·w > 6·h`. */
  lemma OffCentreByIntegers(w: nat, h: nat)
    requires w > 0 && h > 0
    ensures OffCentre(ImageMetadata(Some(w), Some(h))) <==> 5 * w < 4 * h || 5 * w > 6 * h
  {
    QuotientCompare(w as real, h as real, 0.8);
    QuotientCompare(w as real, h as real, 1.2);
  }

  /** `metadata.width || 0`. */
  function DimensionOrZero(d: Option<nat>): nat
  {
    if d.Some? then d.value else 0
  }

  predicate SomeHighSeverity(ds: seq<PestDetection>)
  {
    exists j :: 0 <= j < |ds| && ds[j].severity == High
  }

  predicate Reports(ds: seq<PestDetection>, name: string)
  {
    exists j :: 0 <= j < |ds| && ds[j].pestType == name
  }

  /** The index of the draw that gives the brightness, once the detections have used theirs. */
  function BrightnessDraw(detections: nat): nat
  {
    if detections == 0 then 1 else 2 + 2 * detections
  }

  /** `detections.map(d => d.pestType)`. */
  function PestTypes(ds: seq<PestDetection>): (labels: seq<string>)
    ensures |labels| == |ds|
    ensures forall x :: x in labels <==> Reports(ds, x)
  {
    var labels := seq(|ds|, j requires 0 <= j < |ds| => ds[j].pestType);
    assert forall j :: 0 <= j < |ds| ==> labels[j] == ds[j].pestType;
    labels
  }

  /**
   * The recommendations the detections call for, in the order they are pushed:
   * with detections, the two fixed messages, the severity warning when some
   * detection is of high severity, then the aphid and the whitefly tips when those
   * pests are reported; without detections, the three reassurances.
   */
  function AdviceFor(ds: seq<PestDetection>): seq<string>
  {
    if |ds| > 0 then
      [PestsDetectedMsg, ApplyTreatmentMsg]
      + (if SomeHighSeverity(ds) then [HighSeverityMsg] else [])
      + (if Reports(ds, "Pulgón") then [AphidTipMsg] else [])
      + (if Reports(ds, "Mosca blanca") then [WhiteflyTipMsg] else [])
    else [NoPestsMsg, HealthyMsg, KeepMonitoringMsg]
  }

  /** The tips about the photograph: lighting when the quality is poor, then framing when off centre. */
  function PhotoTips(quality: Quality, metadata: ImageMetadata): seq<string>
  {
    (if quality == Poor then [LightingTipMsg] else []) + (if OffCentre(metadata) then [FramingTipMsg] else [])
  }

  /** Which messages the advice holds: each conditional one exactly when its condition holds. */
  lemma AdviceMentions(ds: seq<PestDetection>)
    ensures |ds| > 0 ==>
              2 <= |AdviceFor(ds)| <= 5 && AdviceFor(ds)[0] == PestsDetectedMsg && AdviceFor(ds)[1] == ApplyTreatmentMsg
    ensures HighSeverityMsg in AdviceFor(ds) <==> SomeHighSeverity(ds)
    ensures AphidTipMsg in AdviceFor(ds) <==> Reports(ds, "Pulgón")
    ensures WhiteflyTipMsg in AdviceFor(ds) <==> Reports(ds, "Mosca blanca")
    ensures LightingTipMsg !in AdviceFor(ds) && FramingTipMsg !in AdviceFor(ds)
  {
  }

  /** Which messages the whole list holds: the advice's, then each photo tip exactly when it applies. */
  lemma RecommendationsMention(ds: seq<PestDetection>, quality: Quality, metadata: ImageMetadata)
    ensures var rs := AdviceFor(ds) + PhotoTips(quality, metadata);
      && (|ds| > 0 ==> |rs| >= 2 && rs[0] == PestsDetectedMsg && rs[1] == ApplyTreatmentMsg)
      && (|ds| == 0 ==> |rs| >= 3 && rs[..3] == [NoPestsMsg, HealthyMsg, KeepMonitoringMsg])
      && (HighSeverityMsg in rs <==> SomeHighSeverity(ds))
      && (AphidTipMsg in rs <==> Reports(ds, "Pulgón"))
      && (WhiteflyTipMsg in rs <==> Reports(ds, "Mosca blanca"))
      && (LightingTipMsg in rs <==> quality == Poor)
      && (FramingTipMsg in rs <==> OffCentre(metadata))
  {
    AdviceMentions(ds);
  }

  /**
   * The first recommendations, which depend only on the detections: two fixed
   * messages followed by the severity warning and the pest-specific tips when
   * there are detections, the three reassurances otherwise.
   */
  method PestAdvice(detections: seq<PestDetection>) returns (recommendations: seq<string>)
    ensures recommendations == AdviceFor(detections)
    ensures |detections| > 0 ==>
              2 <= |recommendations| <= 5 && recommendations[0] == PestsDetectedMsg && recommendations[1] == ApplyTreatmentMsg
    ensures |detections| == 0 ==> recommendations == [NoPestsMsg, HealthyMsg, KeepMonitoringMsg]
    ensures HighSeverityMsg in recommendations <==> SomeHighSeverity(detections)
    ensures AphidTipMsg in recommendations <==> Reports(detections, "Pulgón")
    ensures WhiteflyTipMsg in recommendations <==> Reports(detections, "Mosca blanca")
    ensures LightingTipMsg !in recommendations && FramingTipMsg !in recommendations
  {
    recommendations := [];
    if |detections| > 0 {
      recommendations := recommendations + [PestsDetectedMsg];
      recommendations := recommendations + [ApplyTreatmentMsg];
      if exists j | 0 <= j < |detections| :: detections[j].severity == High {
        recommendations := recommendations + [HighSeverityMsg];
      }
      ghost var severe := recommendations;
      assert severe == [PestsDetectedMsg, ApplyTreatmentMsg] + (if SomeHighSeverity(detections) then [HighSeverityMsg] else []);
      var pestTypes := PestTypes(detections);
      if "Pulgón" in pestTypes {
        recommendations := recommendations + [AphidTipMsg];
      }
      ghost var aphids := recommendations;
      assert aphids == severe + (if Reports(detections, "Pulgón") then [AphidTipMsg] else []);
      if "Mosca blanca" in pestTypes {
        recommendations := recommendations + [WhiteflyTipMsg];
      }
      assert recommendations == aphids + (if Reports(detections, "Mosca blanca") then [WhiteflyTipMsg] else []);
    } else {
      recommendations := recommendations + [NoPestsMsg];
      recommendations := recommendations + [HealthyMsg];
      recommendations := recommendations + [KeepMonitoringMsg];
    }
    AdviceMentions(detections);
  }

  /** Detections built from valid draws come from the catalogue and carry a confidence in [0.7, 1). */
  lemma DetectionsValid(catalogue: seq<CatalogueEntry>, detections: seq<PestDetection>, draw: nat -> real)
    requires |catalogue| > 0 && ValidDraws(draw)
    requires forall j :: 0 <= j < |detections| ==> detections[j] == Detect(catalogue, draw(2 + 2 * j), draw(3 + 2 * j))
    ensures forall d :: d in detections ==> FromCatalogue(catalogue, d) && 0.7 <= d.confidence < 1.0
  {
    forall d | d in detections ensures FromCatalogue(catalogue, d) && 0.7 <= d.confidence < 1.0 {
      var j :| 0 <= j < |detections| && detections[j] == d;
      DetectFromCatalogue(catalogue, draw(2 + 2 * j), draw(3 + 2 * j));
    }
  }

  /**
   * The detection loop: no detection unless the first draw falls below the pest
   * probability, otherwise one or two, each built from its own pair of draws.
   */
  method DrawDetections(draw: nat -> real) returns (detections: seq<PestDetection>)
    requires ValidDraws(draw)
    ensures draw(0) >= PestProbability ==> detections == []
    ensures draw(0) < PestProbability ==> 1 <= |detections| <= 2
    ensures draw(0) < PestProbability ==> (|detections| == 2 <==> draw(1) >= 0.5)
    ensures forall j :: 0 <= j < |detections| ==> detections[j] == Detect(Catalogue, draw(2 + 2 * j), draw(3 + 2 * j))
    ensures forall d :: d in detections ==> FromCatalogue(Catalogue, d) && 0.7 <= d.confidence < 1.0
  {
    detections := [];
    if draw(0) < PestProbability {
      var pestCount := ScaledIndex(draw(1), 2) + 1;
      assert pestCount == 2 <==> draw(1) >= 0.5;
      detections := DrawPests(Catalogue, draw, pestCount);
    }
    DetectionsValid(Catalogue, detections, draw);
  }

  /** The `for` loop proper: `pestCount` detections, the `i`-th built from draws `2 + 2i` and `3 + 2i`. */
  method DrawPests(catalogue: seq<CatalogueEntry>, draw: nat -> real, pestCount: nat) returns (detections: seq<PestDetection>)
    requires |catalogue| > 0 && ValidDraws(draw)
    ensures |detections| == pestCount
    ensures forall j :: 0 <= j < |detections| ==> detections[j] == Detect(catalogue, draw(2 + 2 * j), draw(3 + 2 * j))
  {
    detections := [];
    for i := 0 to pestCount
      invariant |detections| == i
      invariant forall j :: 0 <= j < i ==> detections[j] == Detect(catalogue, draw(2 + 2 * j), draw(3 + 2 * j))
    {
      var detection := Detect(catalogue, draw(2 + 2 * i), draw(3 + 2 * i));
      detections := detections + [detection];
    }
  }

  /** The tips about the photograph itself, appended after the pest advice. */
  method ImageAdvice(advice: seq<string>, quality: Quality, metadata: ImageMetadata) returns (recommendations: seq<string>)
    ensures recommendations == advice + PhotoTips(quality, metadata)
    ensures |advice| <= |recommendations| <= |advice| + 2 && recommendations[..|advice|] == advice
    ensures forall m :: m in recommendations <==>
              m in advice || (m == LightingTipMsg && quality == Poor) || (m == FramingTipMsg && OffCentre(metadata))
  {
    recommendations := advice;

    if quality == Poor {
      recommendations := recommendations + [LightingTipMsg];
    }

    if metadata.width.Some? && metadata.width.value != 0 && metadata.height.Some? && metadata.height.value != 0 {
      var aspectRatio := metadata.width.value as real / metadata.height.value as real;
      if aspectRatio < 0.8 || aspectRatio > 1.2 {
        recommendations := recommendations + [FramingTipMsg];
      }
    }
  }

  /**
   * `analyzeImageForPests`. Draw 0 decides whether pests are reported, draw 1
   * how many, each detection `j` uses draws `2 + 2j` (which pest) and `3 + 2j`
   * (its confidence), and the next two draws give brightness and contrast.
   */
  method AnalyzeImageForPests(metadata: ImageMetadata, bufferLength: nat, draw: nat -> real)
    returns (r: AnalysisResult)
    requires ValidDraws(draw)
    ensures Consistent(r)
    ensures draw(0) >= PestProbability ==> r.detections == []
    ensures draw(0) < PestProbability ==> 1 <= |r.detections| <= 2
    ensures draw(0) < PestProbability ==> (|r.detections| == 2 <==> draw(1) >= 0.5)
    ensures forall j :: 0 <= j < |r.detections| ==> r.detections[j] == Detect(Catalogue, draw(2 + 2 * j), draw(3 + 2 * j))
    ensures forall d :: d in r.detections ==> FromCatalogue(Catalogue, d) && 0.7 <= d.confidence < 1.0
    ensures r.imageAnalysis.brightness == draw(BrightnessDraw(|r.detections|)) * 100.0
    ensures r.imageAnalysis.contrast == draw(BrightnessDraw(|r.detections|) + 1) * 100.0
    ensures 0.0 <= r.imageAnalysis.brightness < 100.0 && 0.0 <= r.imageAnalysis.contrast < 100.0
    ensures r.imageAnalysis.quality == QualityOf(r.imageAnalysis.brightness, r.imageAnalysis.contrast)
    ensures r.imageAnalysis.dimensions == Dimensions(DimensionOrZero(metadata.width), DimensionOrZero(metadata.height))
    ensures r.imageAnalysis.fileSize == bufferLength
    ensures r.recommendations == AdviceFor(r.detections) + PhotoTips(r.imageAnalysis.quality, metadata)
    ensures r.hasPest ==>
              |r.recommendations| >= 2 && r.recommendations[0] == PestsDetectedMsg && r.recommendations[1] == ApplyTreatmentMsg
    ensures !r.hasPest ==>
              |r.recommendations| >= 3 && r.recommendations[..3] == [NoPestsMsg, HealthyMsg, KeepMonitoringMsg]
    ensures HighSeverityMsg in r.recommendations <==> SomeHighSeverity(r.detections)
    ensures AphidTipMsg in r.recommendations <==> Reports(r.detections, "Pulgón")
    ensures WhiteflyTipMsg in r.recommendations <==> Reports(r.detections, "Mosca blanca")
    ensures LightingTipMsg in r.recommendations <==> r.imageAnalysis.quality == Poor
    ensures FramingTipMsg in r.recommendations <==> OffCentre(metadata)
  {
    var detections := DrawDetections(draw);

    var k := BrightnessDraw(|detections|);
    var brightness := draw(k) * 100.0;
    var contrast := draw(k + 1) * 100.0;
    var quality := QualityOf(brightness, contrast);

    var advice := PestAdvice(detections);
    var recommendations := ImageAdvice(advice, quality, metadata);
    RecommendationsMention(detections, quality, metadata);

    r := AnalysisResult(
      |detections| > 0,
      detections,
      ImageAnalysis(brightness, contrast, quality,
        Dimensions(DimensionOrZero(metadata.width), DimensionOrZero(metadata.height)), bufferLength),
      recommendations);
  }

  datatype UploadDecision = Accept | Reject(message: string)

  /** The upload filter: only files whose MIME type starts with `image/` are accepted. */
  function FileFilter(mimetype: string): (r: UploadDecision)
    ensures r.Accept? <==> |mimetype| >= 6 && mimetype[..6] == "image/"
    ensures r.Reject? ==> r.message == "Solo se permiten archivos de imagen"
  {
    if StartsWith(mimetype, "image/") then Accept else Reject("Solo se permiten archivos de imagen")
  }
}
