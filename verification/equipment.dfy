/**
 * The equipment-serial check (backend/services/equipment_check.py): cleaning of
 * the OCR'd text, matching against the approved-equipment (ALMM) registry and
 * the score ladder. The OCR engine and the image decoder are not modelled; what
 * they yield for the serial photo is the `OcrReading` parameter.
 */
module EquipmentCheck {
  import opened Wrappers
  import opened Text
  import opened Models

  const ReaderUnavailableSentinel := "OCR_ERROR_READER_UNAVAILABLE"
  const InvalidImageSentinel := "OCR_ERROR_INVALID_IMAGE"
  const OcrExceptionSentinel := "OCR_ERROR_EXCEPTION"

  datatype RegistryEntry = RegistryEntry(model: string, manufacturer: string)

  /** The placeholder approved-equipment registry. */
  const AlmmApprovedList: map<string, RegistryEntry> := map[
    "SERIAL-123456" := RegistryEntry("PV-IND-A1", "SolarTech India"),
    "SERIAL-987654" := RegistryEntry("IN-PRO-B2", "PowerGen Corp")]

  /** What the OCR reader did with the serial photo: no reader could be loaded,
      the bytes did not decode as an image, OCR raised, or the text it read. */
  datatype OcrReading = ReaderUnavailable | InvalidImage | OcrFailed | Texts(texts: seq<string>)

  predicate NoDuplicates(s: seq<string>)
  {
    forall i, j :: 0 <= i < j < |s| ==> s[i] != s[j]
  }

  /** The OCR filter: some digit, and more than five characters before cleaning. */
  predicate IsSerialCandidate(text: string)
  {
    HasDigit(text) && |text| > 5
  }

  /** One character upper-cased, then 'O' read as '0' and 'I' as '1'. */
  function CleanChar(c: char): (d: char)
    ensures d != 'O' && d != 'I'
  {
    var u := UpperChar(c);
    if u == 'O' then '0' else if u == 'I' then '1' else u
  }

  function CleanChars(s: string): (r: string)
    ensures |r| == |s|
    ensures forall i :: 0 <= i < |s| ==> r[i] == CleanChar(s[i])
  {
    if |s| == 0 then [] else [CleanChar(s[0])] + CleanChars(s[1..])
  }

  /** Strip, upper-case, then 'O' to '0' and 'I' to '1'. */
  function CleanSerial(text: string): (r: string)
    ensures 'O' !in r && 'I' !in r
    ensures |r| <= |text|
    ensures exists a, b :: 0 <= a <= b <= |text| && StripBounds(text, a, b) && r == CleanChars(text[a..b])
  {
    var stripped := Strip(text);
    assert exists a, b :: 0 <= a <= b <= |text| && StripBounds(text, a, b) && CleanChars(stripped) == CleanChars(text[a..b])
    by {
      var a, b :| 0 <= a <= b <= |text| && StripBounds(text, a, b) && stripped == text[a..b];
    }
    CleanChars(stripped)
  }

  /** `[f(t) for t in s if keep(t)]`. */
  function MapFilter(s: seq<string>, keep: string -> bool, f: string -> string): (r: seq<string>)
    ensures |r| <= |s|
    ensures forall x :: x in r <==> exists i :: 0 <= i < |s| && keep(s[i]) && f(s[i]) == x
  {
    if |s| == 0 then []
    else
      var init := s[..|s| - 1];
      var last := s[|s| - 1];
      assert forall i :: 0 <= i < |init| ==> init[i] == s[i];
      MapFilter(init, keep, f) + (if keep(last) then [f(last)] else [])
  }

  /** `text` passes the filter and cleans to `x`. */
  predicate CleansTo(text: string, x: string)
  {
    IsSerialCandidate(text) && CleanSerial(text) == x
  }

  /** Some text of the reading passes the filter and cleans to `x`. */
  predicate Yields(texts: seq<string>, x: string)
  {
    exists i :: 0 <= i < |texts| && CleansTo(texts[i], x)
  }

  /** The list comprehension: every candidate text, cleaned, in reading order. */
  function CleanedCandidates(texts: seq<string>): (r: seq<string>)
    ensures forall x :: x in r <==> Yields(texts, x)
  {
    MapFilter(texts, IsSerialCandidate, CleanSerial)
  }

  /** `list(set(l))`: the distinct members of `l`. Python leaves their order
      unspecified; this model keeps first occurrences in order. */
  function Distinct(l: seq<string>): (r: seq<string>)
    ensures NoDuplicates(r)
    ensures forall x :: x in r <==> x in l
  {
    if |l| == 0 then []
    else
      var init := l[..|l| - 1];
      var last := l[|l| - 1];
      var r0 := Distinct(init);
      assert forall x :: x in l <==> x in init || x == last;
      if last in r0 then r0 else r0 + [last]
  }

  /** `extract_serials_with_ocr`: a failure sentinel, or the distinct cleaned candidates. */
  function ExtractSerials(reading: OcrReading): (serials: seq<string>)
    ensures reading == ReaderUnavailable ==> serials == [ReaderUnavailableSentinel]
    ensures reading == InvalidImage ==> serials == [InvalidImageSentinel]
    ensures reading == OcrFailed ==> serials == [OcrExceptionSentinel]
    ensures reading.Texts? ==> NoDuplicates(serials)
    ensures reading.Texts? ==> forall x :: x in serials <==> Yields(reading.texts, x)
    ensures reading.Texts? ==> forall x :: x in serials ==> 'O' !in x && 'I' !in x
  {
    match reading
    case ReaderUnavailable => [ReaderUnavailableSentinel]
    case InvalidImage => [InvalidImageSentinel]
    case OcrFailed => [OcrExceptionSentinel]
    case Texts(texts) => Distinct(CleanedCandidates(texts))
  }

  /** `a` can be obtained from `b` by deleting elements. */
  predicate IsSubsequence(a: seq<string>, b: seq<string>)
    decreases |b|
  {
    if |a| == 0 then true
    else if |b| == 0 then false
    else if a[|a| - 1] == b[|b| - 1] then IsSubsequence(a[..|a| - 1], b[..|b| - 1])
    else IsSubsequence(a, b[..|b| - 1])
  }

  predicate AllRegistered(detected: seq<string>, registry: set<string>)
  {
    forall i :: 0 <= i < |detected| ==> detected[i] in registry
  }

  predicate SomeRegistered(detected: seq<string>, registry: set<string>)
  {
    exists i :: 0 <= i < |detected| && detected[i] in registry
  }

  /** The loop of `check_almm_list`: the detected serials found in the registry,
      in detection order. */
  function RegisteredSerials(detected: seq<string>, registry: set<string>): (v: seq<string>)
    ensures IsSubsequence(v, detected)
    ensures |v| <= |detected|
    ensures forall x :: x in v <==> x in detected && x in registry
    ensures |v| == |detected| <==> AllRegistered(detected, registry)
    ensures |v| > 0 <==> SomeRegistered(detected, registry)
  {
    if |detected| == 0 then []
    else
      var init := detected[..|detected| - 1];
      var last := detected[|detected| - 1];
      var v0 := RegisteredSerials(init, registry);
      RegisteredSnoc(detected, registry);
      if last in registry then
        var v := v0 + [last];
        assert v[..|v| - 1] == v0;
        v
      else
        v0
  }

  /** Registration of a non-empty list splits into that of all but the last
      entry and that of the last. */
  lemma RegisteredSnoc(detected: seq<string>, registry: set<string>)
    requires |detected| > 0
    ensures
      var init, last := detected[..|detected| - 1], detected[|detected| - 1];
      && (forall x :: x in detected <==> x in init || x == last)
      && (AllRegistered(detected, registry) <==> AllRegistered(init, registry) && last in registry)
      && (SomeRegistered(detected, registry) <==> SomeRegistered(init, registry) || last in registry)
  {
    var init := detected[..|detected| - 1];
    assert forall i :: 0 <= i < |init| ==> init[i] == detected[i];
    assert detected == init + [detected[|detected| - 1]];
  }

  /** `check_almm_list`: the score ladder over the registry matches. */
  function CheckAlmmList(detected: seq<string>, registry: set<string>): (r: (MetricScore, seq<string>))
    ensures r.1 == RegisteredSerials(detected, registry)
    ensures r.0.Valid()
    ensures |detected| == 0 ==> r.0.score == 0.1
    ensures |detected| > 0 && AllRegistered(detected, registry) ==> r.0.score == 1.0
    ensures SomeRegistered(detected, registry) && !AllRegistered(detected, registry) ==> r.0.score == 0.7
    ensures |detected| > 0 && !SomeRegistered(detected, registry) ==> r.0.score == 0.0
  {
    var verified := RegisteredSerials(detected, registry);
    var n := IntStr(|verified|);
    var m := IntStr(|detected|);
    if |detected| == 0 then
      (MetricScore(0.1, "No legible text/serial numbers could be extracted from the image."), verified)
    else if |verified| == |detected| && |verified| > 0 then
      (MetricScore(1.0, "All " + n + " detected serial numbers match the ALMM approved list."), verified)
    else if |verified| > 0 then
      (MetricScore(0.7, n + " out of " + m + " serials verified. Non-matching serials detected."), verified)
    else
      (MetricScore(0.0, "No detected serial numbers (" + m + ") matched the ALMM approved list."), verified)
  }

  /** `equipment_verification` against a given registry: a missing photo scores 0.0
      with no serials, otherwise the OCR'd serials are scored by `CheckAlmmList`. */
  function VerifyAgainst(photo: Option<Bytes>, reading: OcrReading, registry: set<string>): (r: EquipmentCheckResult)
    ensures r.Valid()
    ensures photo.None? ==> r == EquipmentCheckResult(0.0, "Serial number photo not found.", [], [])
    ensures photo.Some? ==>
      var (metric, verified) := CheckAlmmList(ExtractSerials(reading), registry);
      r == EquipmentCheckResult(metric.score, metric.details, ExtractSerials(reading), verified)
  {
    match photo
    case None => EquipmentCheckResult(0.0, "Serial number photo not found.", [], [])
    case Some(_) =>
      var detected := ExtractSerials(reading);
      var (metric, verified) := CheckAlmmList(detected, registry);
      EquipmentCheckResult(metric.score, metric.details, detected, verified)
  }

  /** `equipment_verification` as written: matched against the registry keys. */
  function EquipmentVerification(photo: Option<Bytes>, reading: OcrReading): (r: EquipmentCheckResult)
    ensures r.Valid()
    ensures photo.None? ==> r.score == 0.0 && r.detectedSerials == [] && r.verifiedSerials == []
    ensures IsSubsequence(r.verifiedSerials, r.detectedSerials)
    ensures forall x :: x in r.verifiedSerials ==> x in AlmmApprovedList
  {
    VerifyAgainst(photo, reading, AlmmApprovedList.Keys)
  }

  /** A failure sentinel is a non-empty detected list with no registry match: the
      check scores 0.0, not the 0.1 of an unreadable photo. */
  lemma OcrFailureScoresZero(photo: Bytes, reading: OcrReading)
    requires !reading.Texts?
    ensures EquipmentVerification(Some(photo), reading).score == 0.0
  {
    var detected := ExtractSerials(reading);
    assert detected[0] !in AlmmApprovedList;
    assert !SomeRegistered(detected, AlmmApprovedList.Keys);
  }

  /** Every registry key has an 'I' in its fourth place; cleaning removes every 'I'. */
  lemma CleanedSerialNeverRegistered(text: string)
    ensures CleanSerial(text) !in AlmmApprovedList
  {
    var k1, k2 := "SERIAL-123456", "SERIAL-987654";
    assert AlmmApprovedList.Keys == {k1, k2};
    assert k1[3] == 'I' && k2[3] == 'I';
    assert 'I' in k1 && 'I' in k2;
  }

  /** As written, no OCR reading can ever verify a serial: the check scores 0.1
      or 0.0, never 0.7 or 1.0. */
  lemma OcrPathNeverVerifies(photo: Option<Bytes>, reading: OcrReading)
    ensures EquipmentVerification(photo, reading).verifiedSerials == []
    ensures EquipmentVerification(photo, reading).score == 0.0
      || EquipmentVerification(photo, reading).score == 0.1
  {
    var detected := ExtractSerials(reading);
    forall x | x in detected
      ensures x !in AlmmApprovedList
    {
      if reading.Texts? {
        var i :| 0 <= i < |reading.texts| && CleansTo(reading.texts[i], x);
        CleanedSerialNeverRegistered(reading.texts[i]);
      }
    }
    assert !SomeRegistered(detected, AlmmApprovedList.Keys);
  }

  /** The registry keys put through the same cleaning as the OCR'd text. */
  function NormalisedRegistry(): (keys: set<string>)
    ensures forall k :: k in AlmmApprovedList ==> CleanSerial(k) in keys
    ensures forall x :: x in keys ==> 'O' !in x && 'I' !in x
  {
    set k | k in AlmmApprovedList :: CleanSerial(k)
  }

  /** `equipment_verification` with the registry normalised like the OCR output. */
  function EquipmentVerificationNormalised(photo: Option<Bytes>, reading: OcrReading): (r: EquipmentCheckResult)
    ensures r.Valid()
    ensures photo.None? ==> r.score == 0.0 && r.detectedSerials == [] && r.verifiedSerials == []
    ensures IsSubsequence(r.verifiedSerials, r.detectedSerials)
    ensures forall x :: x in r.verifiedSerials ==> x in NormalisedRegistry()
  {
    VerifyAgainst(photo, reading, NormalisedRegistry())
  }

  lemma MapFilterSingle(t: string, keep: string -> bool, f: string -> string)
    requires keep(t)
    ensures MapFilter([t], keep, f) == [f(t)]
  {
    assert [t][..0] == [];
  }

  lemma DistinctSingle(c: string)
    ensures Distinct([c]) == [c]
  {
    assert [c][..0] == [];
  }

  /** A reading with one legible candidate yields exactly that serial, cleaned. */
  lemma SingleCandidateExtracted(text: string)
    requires IsSerialCandidate(text)
    ensures ExtractSerials(Texts([text])) == [CleanSerial(text)]
  {
    MapFilterSingle(text, IsSerialCandidate, CleanSerial);
    DistinctSingle(CleanSerial(text));
  }

  /** Both registry serials pass the OCR filter. */
  lemma RegistrySerialsAreCandidates()
    ensures forall k :: k in AlmmApprovedList ==> IsSerialCandidate(k)
  {
    var k1, k2 := "SERIAL-123456", "SERIAL-987654";
    assert AlmmApprovedList.Keys == {k1, k2};
    assert IsDigit(k1[7]) && IsDigit(k2[7]);
  }

  /** One detected serial, found in the registry, scores 1.0. */
  lemma SingleRegisteredScoresOne(detected: seq<string>, registry: set<string>)
    requires |detected| == 1 && detected[0] in registry
    ensures CheckAlmmList(detected, registry).0.score == 1.0
  {
    assert AllRegistered(detected, registry);
  }

  /** Detected serials none of which is in the registry score 0.0. */
  lemma NoneRegisteredScoresZero(detected: seq<string>, registry: set<string>)
    requires |detected| > 0
    requires forall i :: 0 <= i < |detected| ==> detected[i] !in registry
    ensures CheckAlmmList(detected, registry).0.score == 0.0
  {
    assert !SomeRegistered(detected, registry);
  }

  /** A photo whose only legible text is a registered serial verifies fully once
      the registry is normalised. */
  lemma RegisteredSerialVerifiesWhenNormalised(photo: Bytes, serial: string)
    requires serial in AlmmApprovedList
    ensures EquipmentVerificationNormalised(Some(photo), Texts([serial])).score == 1.0
  {
    RegistrySerialsAreCandidates();
    SingleCandidateVerifies(photo, serial, NormalisedRegistry());
  }

  /** A photo whose only legible text is a candidate that cleans to a registry
      entry scores 1.0 against that registry. */
  lemma SingleCandidateVerifies(photo: Bytes, text: string, registry: set<string>)
    requires IsSerialCandidate(text) && CleanSerial(text) in registry
    ensures VerifyAgainst(Some(photo), Texts([text]), registry).score == 1.0
  {
    SingleCandidateExtracted(text);
    SingleRegisteredScoresOne([CleanSerial(text)], registry);
  }

  /** As written, a photo with one legible candidate scores 0.0 whatever it
      reads, registered serials included. */
  lemma RegisteredSerialRejectedAsWritten(photo: Bytes, text: string)
    requires IsSerialCandidate(text)
    ensures EquipmentVerification(Some(photo), Texts([text])).score == 0.0
  {
    SingleCandidateExtracted(text);
    var detected := [CleanSerial(text)];
    var registry := AlmmApprovedList.Keys;
    assert CheckAlmmList(detected, registry).0.score == 0.0 by {
      CleanedSerialNeverRegistered(text);
      NoneRegisteredScoresZero(detected, registry);
    }
  }
}
