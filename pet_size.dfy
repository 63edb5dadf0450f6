/** Pet size classification of free-text size descriptions, and the Korean labels of the three sizes. */
module PetSizes {
  import opened Wrappers
  import opened Text
  import Seqs

  datatype PetSize = Small | Medium | Large

  /** The literal of the size in the source's union type: `'small'`, `'medium'`, `'large'`. */
  function PetSizeName(size: PetSize): string {
    match size
    case Small => "small"
    case Medium => "medium"
    case Large => "large"
  }

  /** The size whose literal is `s`, if `s` is one of the three literals. */
  function PetSizeOfName(s: string): (r: Option<PetSize>)
    ensures r.Some? ==> PetSizeName(r.value) == s
    ensures forall size :: PetSizeName(size) == s ==> r == Some(size)
  {
    if s == "small" then Some(Small)
    else if s == "medium" then Some(Medium)
    else if s == "large" then Some(Large)
    else None
  }

  /** What the matching looks at: the trimmed, lower-cased input. */
  function Normalize(s: string): (r: string)
    ensures IsTrimmed(r) && ToLower(r) == r
    ensures |r| <= |s|
  {
    TrimIsTrimmed(s);
    ToLowerKeepsTrimmed(Trim(s));
    ToLowerIdempotent(Trim(s));
    TrimStartShape(s);
    TrimEndShape(TrimStart(s));
    ToLower(Trim(s))
  }

  predicate SaysSmall(n: string) { Contains(n, "소형") || Contains(n, "소") || Contains(n, "small") }
  predicate SaysMedium(n: string) { Contains(n, "중형") || Contains(n, "중") || Contains(n, "medium") }
  predicate SaysLarge(n: string) { Contains(n, "대형") || Contains(n, "대") || Contains(n, "large") }

  /**
   * `parsePetSize`: `None` input (undefined) and `""` give `None`; otherwise the
   * first keyword group found in the normalised text decides, small before
   * medium before large.
   */
  function ParsePetSize(sizeStr: Option<string>): (r: Option<PetSize>)
    ensures sizeStr == None || sizeStr == Some("") ==> r == None
  {
    if sizeStr == None || sizeStr.value == "" then None
    else
      var n := Normalize(sizeStr.value);
      if SaysSmall(n) then Some(Small)
      else if SaysMedium(n) then Some(Medium)
      else if SaysLarge(n) then Some(Large)
      else None
  }

  /** `petSizeToKorean`: the label of each size, which the classifier reads back as that size. */
  function PetSizeToKorean(size: PetSize): (r: string)
    ensures ParsePetSize(Some(r)) == Some(size)
  {
    match size
    case Small => SmallLabelParses(); "소형"
    case Medium => MediumLabelParses(); "중형"
    case Large => LargeLabelParses(); "대형"
  }

  /** `petSizesToKorean`: one label per size, in the same order. */
  function PetSizesToKorean(sizes: seq<PetSize>): (r: seq<string>)
    ensures |r| == |sizes|
    ensures forall i :: 0 <= i < |sizes| ==> r[i] == PetSizeToKorean(sizes[i])
  {
    Seqs.Map(PetSizeToKorean, sizes)
  }

  /** The three Korean labels are distinct: the label determines the size. */
  lemma KoreanInjective(a: PetSize, b: PetSize)
    ensures PetSizeToKorean(a) == PetSizeToKorean(b) ==> a == b
  {
  }

  // The classifier reads `소형`, `중형` and `대형` as small, medium and large.

  lemma SmallLabelParses()
    ensures ParsePetSize(Some("소형")) == Some(Small)
  {
    var k := "소형";
    assert Trim(k) == k && Normalize(k) == k;
    assert StartsWith(k, "소형");
  }

  lemma MediumLabelParses()
    ensures ParsePetSize(Some("중형")) == Some(Medium)
  {
    var k := "중형";
    assert Trim(k) == k && Normalize(k) == k;
    assert StartsWith(k, "중형");
    MissingFirstNotContained(k, "소형");
    MissingFirstNotContained(k, "소");
    MissingFirstNotContained(k, "small");
  }

  lemma LargeLabelParses()
    ensures ParsePetSize(Some("대형")) == Some(Large)
  {
    var k := "대형";
    assert Trim(k) == k && Normalize(k) == k;
    assert StartsWith(k, "대형");
    MissingFirstNotContained(k, "소형");
    MissingFirstNotContained(k, "소");
    MissingFirstNotContained(k, "small");
    MissingFirstNotContained(k, "중형");
    MissingFirstNotContained(k, "중");
    MissingFirstNotContained(k, "medium");
  }

  /** Any text mentioning `소` is small, whatever else it mentions (`중`, `대`, ...). */
  lemma SmallTakesPrecedence(s: string)
    requires Contains(Normalize(s), "소")
    ensures ParsePetSize(Some(s)) == Some(Small)
  {
  }

  /** `소형` already contains `소`, so the first keyword never decides on its own; likewise `중형` and `대형`. */
  lemma LongKeywordsRedundant(n: string)
    ensures Contains(n, "소형") ==> Contains(n, "소")
    ensures Contains(n, "중형") ==> Contains(n, "중")
    ensures Contains(n, "대형") ==> Contains(n, "대")
  {
    if Contains(n, "소형") { ContainsPrefix(n, "소형", "소"); }
    if Contains(n, "중형") { ContainsPrefix(n, "중형", "중"); }
    if Contains(n, "대형") { ContainsPrefix(n, "대형", "대"); }
  }

  /**
   * The decision table in its shortest form, both directions: since each long
   * keyword contains its short one, only `소`/`small`, `중`/`medium` and
   * `대`/`large` matter, checked in that order.
   */
  lemma ParsePetSizeCases(s: string)
    ensures var n := Normalize(s);
      ParsePetSize(Some(s)) == Some(Small) <==> Contains(n, "소") || Contains(n, "small")
    ensures var n := Normalize(s);
      ParsePetSize(Some(s)) == Some(Medium) <==>
        !(Contains(n, "소") || Contains(n, "small")) && (Contains(n, "중") || Contains(n, "medium"))
    ensures var n := Normalize(s);
      ParsePetSize(Some(s)) == Some(Large) <==>
        !(Contains(n, "소") || Contains(n, "small")) && !(Contains(n, "중") || Contains(n, "medium")) &&
        (Contains(n, "대") || Contains(n, "large"))
  {
    LongKeywordsRedundant(Normalize(s));
    if s == "" {
      NothingInEmpty();
    }
  }

  /** The empty text mentions no keyword. */
  lemma NothingInEmpty()
    ensures !SaysSmall("") && !SaysMedium("") && !SaysLarge("")
  {
    MissingFirstNotContained("", "소형");
    MissingFirstNotContained("", "소");
    MissingFirstNotContained("", "small");
    MissingFirstNotContained("", "중형");
    MissingFirstNotContained("", "중");
    MissingFirstNotContained("", "medium");
    MissingFirstNotContained("", "대형");
    MissingFirstNotContained("", "대");
    MissingFirstNotContained("", "large");
  }

  /** Normalising is idempotent, so surrounding white space and letter case never change the classification. */
  lemma NormalizeIdempotent(s: string)
    ensures Normalize(Normalize(s)) == Normalize(s)
  {
    TrimOfTrimmed(Normalize(s));
  }

  /** Classifying the normalised text gives the same answer as classifying the raw text. */
  lemma ParseIgnoresCaseAndPadding(s: string)
    ensures ParsePetSize(Some(Normalize(s))) == ParsePetSize(Some(s))
  {
    NormalizeIdempotent(s);
    if Normalize(s) == "" {
      NothingInEmpty();
    }
  }
}
