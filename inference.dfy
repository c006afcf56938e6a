/**
 * The star-rating side of MovieReviewAnalyzer: the fixed table from the
 * classifier's labels to star strings, the conversion of a star string to a
 * number, and predict_rating with the classifier taken as its output
 * (label, score). The tables are built once and only read afterwards, so they
 * are constants here and every operation is a function.
 */
module Inference {
  import opened Wrappers
  import opened Decimal

  /** BLACK STAR, worth one star. */
  const Star: char := '\U{2605}'
  /** VULGAR FRACTION ONE HALF, worth half a star. */
  const Half: char := '\U{00BD}'

  /** What a label outside the table converts to. */
  const UnknownRating: string := "Unknown"

  /** The classifier's label for class k is this prefix followed by the digit k. */
  const LabelPrefix: string := "LABEL_"

  /** label_to_stars, entry by entry. */
  const LabelToStars: map<string, string> := map[
    "LABEL_0" := [Half],
    "LABEL_1" := [Star],
    "LABEL_2" := [Star, Half],
    "LABEL_3" := [Star, Star],
    "LABEL_4" := [Star, Star, Half],
    "LABEL_5" := [Star, Star, Star],
    "LABEL_6" := [Star, Star, Star, Half],
    "LABEL_7" := [Star, Star, Star, Star],
    "LABEL_8" := [Star, Star, Star, Star, Half],
    "LABEL_9" := [Star, Star, Star, Star, Star]
  ]

  /** rating_map: the value of each symbol that counts towards a rating. */
  const RatingMap: map<char, real> := map[Star := 1.0, Half := 0.5]

  /** The result of predict_rating: the rating as a number, as stars, and the classifier's score. */
  datatype Prediction = Prediction(starRating: real, starRatingText: string, confidenceScore: real)

  /** The label the classifier gives to class k. */
  function Label(k: nat): (classLabel: string)
    requires k < 10
    ensures |classLabel| == 7 && classLabel[..6] == LabelPrefix
  {
    LabelPrefix + [Digit(k)]
  }

  /** The class a label names, if it is one of the ten labels of the table. */
  function LabelIndex(classLabel: string): (k: Option<nat>)
    ensures k.Some? ==> k.value < 10 && Label(k.value) == classLabel
  {
    if |classLabel| == 7 && classLabel[..6] == LabelPrefix && IsDigit(classLabel[6]) then
      assert classLabel == LabelPrefix + [classLabel[6]];
      Some(DigitValue(classLabel[6]))
    else
      None
  }

  lemma LabelIndexOfLabel(k: nat)
    requires k < 10
    ensures LabelIndex(Label(k)) == Some(k)
  {
  }

  /** Reference shape of the table's entry for class k: (k+1)/2 stars, then a half star when k is even. */
  function StarString(k: nat): string {
    seq((k + 1) / 2, _ => Star) + (if k % 2 == 0 then [Half] else [])
  }

  /** Every entry of the table has the reference shape, and the table holds exactly the ten labels. */
  lemma {:induction false} TableEntry(k: nat)
    requires k < 10
    ensures Label(k) in LabelToStars && LabelToStars[Label(k)] == StarString(k)
  {
    var classLabel := Label(k);
    assert classLabel == LabelPrefix + [Digit(k)];
    if k == 0 {
      assert classLabel == "LABEL_0" && StarString(0) == [Half];
    } else if k == 1 {
      assert classLabel == "LABEL_1" && StarString(1) == [Star];
    } else if k == 2 {
      assert classLabel == "LABEL_2" && StarString(2) == [Star, Half];
    } else if k == 3 {
      assert classLabel == "LABEL_3" && StarString(3) == [Star, Star];
    } else if k == 4 {
      assert classLabel == "LABEL_4" && StarString(4) == [Star, Star, Half];
    } else if k == 5 {
      assert classLabel == "LABEL_5" && StarString(5) == [Star, Star, Star];
    } else if k == 6 {
      assert classLabel == "LABEL_6" && StarString(6) == [Star, Star, Star, Half];
    } else if k == 7 {
      assert classLabel == "LABEL_7" && StarString(7) == [Star, Star, Star, Star];
    } else if k == 8 {
      assert classLabel == "LABEL_8" && StarString(8) == [Star, Star, Star, Star, Half];
    } else {
      assert classLabel == "LABEL_9" && StarString(9) == [Star, Star, Star, Star, Star];
    }
  }

  lemma TableKeysAreLabels(classLabel: string)
    requires classLabel in LabelToStars
    ensures LabelIndex(classLabel).Some?
  {
  }

  /** A label is a key of the table exactly when it names a class, and its entry is that class's reference string. */
  lemma TableByIndex(classLabel: string)
    ensures classLabel in LabelToStars <==> LabelIndex(classLabel).Some?
    ensures classLabel in LabelToStars ==> LabelToStars[classLabel] == StarString(LabelIndex(classLabel).value)
  {
    if classLabel in LabelToStars {
      TableKeysAreLabels(classLabel);
    }
    if LabelIndex(classLabel).Some? {
      TableEntry(LabelIndex(classLabel).value);
    }
  }

  /**
   * _convert_label_to_stars: LABEL_k for k in 0..9 gives the table's star
   * string for k, every other label gives "Unknown".
   */
  function ConvertLabelToStars(classLabel: string): (stars: string)
    ensures stars == match LabelIndex(classLabel)
                     case Some(k) => StarString(k)
                     case None => UnknownRating
  {
    TableByIndex(classLabel);
    if classLabel in LabelToStars then LabelToStars[classLabel] else UnknownRating
  }

  /** The value rating_map gives a character, or nothing for a character it does not list. */
  function SymbolValue(c: char): real {
    if c in RatingMap then RatingMap[c] else 0.0
  }

  /**
   * _normalize_rating: the sum of the values of the star symbols of the text,
   * every other character ignored.
   */
  function NormalizeRating(text: string): (rating: real)
    ensures 0.0 <= rating
  {
    if text == [] then 0.0 else SymbolValue(text[0]) + NormalizeRating(text[1..])
  }

  /** Reference count: two half stars per star, one per half star. */
  function HalfStars(text: string): nat {
    2 * multiset(text)[Star] + multiset(text)[Half]
  }

  /** A normalised rating is exactly half the number of half stars in the text. */
  lemma {:induction false} NormalizeCountsHalfStars(text: string)
    ensures NormalizeRating(text) == HalfStars(text) as real / 2.0
  {
    if text != [] {
      assert text == [text[0]] + text[1..];
      assert multiset(text) == multiset{text[0]} + multiset(text[1..]);
      NormalizeCountsHalfStars(text[1..]);
    }
  }

  /** Normalisation is additive over concatenation. */
  lemma NormalizeAdditive(a: string, b: string)
    ensures NormalizeRating(a + b) == NormalizeRating(a) + NormalizeRating(b)
  {
    NormalizeCountsHalfStars(a);
    NormalizeCountsHalfStars(b);
    NormalizeCountsHalfStars(a + b);
  }

  /** A character that is neither a star nor a half star adds nothing. */
  lemma NormalizeIgnoresOther(a: string, c: char, b: string)
    requires c != Star && c != Half
    ensures NormalizeRating(a + [c] + b) == NormalizeRating(a + b)
  {
    NormalizeCountsHalfStars(a + [c] + b);
    NormalizeCountsHalfStars(a + b);
  }

  /** "Unknown" normalises to 0, outside the documented range 0.5 to 5.0. */
  lemma UnknownRatingIsZero()
    ensures NormalizeRating(UnknownRating) == 0.0
  {
  }

  lemma {:induction false} RepeatedCount(c: char, n: nat)
    ensures multiset(seq(n, _ => c)) == multiset{}[c := n]
  {
    if n > 0 {
      assert seq(n, _ => c) == seq(n - 1, _ => c) + [c];
      RepeatedCount(c, n - 1);
    }
  }

  /** The reference entry for class k holds (k+1)/2 stars, and one half star if k is even and none if k is odd. */
  lemma StarStringCounts(k: nat)
    ensures multiset(StarString(k))[Star] == (k + 1) / 2
    ensures multiset(StarString(k))[Half] == (if k % 2 == 0 then 1 else 0)
  {
    var tail: string := if k % 2 == 0 then [Half] else [];
    RepeatedCount(Star, (k + 1) / 2);
    assert multiset(StarString(k)) == multiset(seq((k + 1) / 2, _ => Star)) + multiset(tail);
  }

  /** The reference entry for class k is worth k+1 half stars. */
  lemma StarStringValue(k: nat)
    ensures NormalizeRating(StarString(k)) == (k + 1) as real / 2.0
  {
    StarStringCounts(k);
    assert HalfStars(StarString(k)) == k + 1;
    NormalizeCountsHalfStars(StarString(k));
  }

  /** LABEL_k converts to a star string worth exactly (k+1)/2 stars, between 0.5 and 5.0. */
  lemma KnownLabelRating(k: nat)
    requires k < 10
    ensures NormalizeRating(ConvertLabelToStars(Label(k))) == (k + 1) as real / 2.0
    ensures 0.5 <= NormalizeRating(ConvertLabelToStars(Label(k))) <= 5.0
  {
    LabelIndexOfLabel(k);
    StarStringValue(k);
  }

  /** Higher classes give strictly higher ratings, hence distinct star strings. */
  lemma RatingStrictlyIncreasing(j: nat, k: nat)
    requires j < k < 10
    ensures NormalizeRating(ConvertLabelToStars(Label(j))) < NormalizeRating(ConvertLabelToStars(Label(k)))
    ensures ConvertLabelToStars(Label(j)) != ConvertLabelToStars(Label(k))
  {
    KnownLabelRating(j);
    KnownLabelRating(k);
  }

  /** The rating of any label: (k+1)/2 for LABEL_k, 0 for every other label. */
  lemma LabelRating(classLabel: string)
    ensures LabelIndex(classLabel).Some? ==>
            NormalizeRating(ConvertLabelToStars(classLabel)) == (LabelIndex(classLabel).value + 1) as real / 2.0
    ensures LabelIndex(classLabel).None? ==> NormalizeRating(ConvertLabelToStars(classLabel)) == 0.0
  {
    if LabelIndex(classLabel).Some? {
      KnownLabelRating(LabelIndex(classLabel).value);
    } else {
      UnknownRatingIsZero();
    }
  }

  /**
   * predict_rating on the classifier's top prediction (label, score): the star
   * text of the label, its normalised value, and the score unchanged.
   */
  function PredictRating(classLabel: string, score: real): (p: Prediction)
    ensures p.confidenceScore == score
    ensures p.starRating == NormalizeRating(p.starRatingText)
    ensures match LabelIndex(classLabel)
            case Some(k) => p.starRatingText == StarString(k) && p.starRating == (k + 1) as real / 2.0
            case None => p.starRatingText == UnknownRating && p.starRating == 0.0
    ensures 0.0 <= p.starRating <= 5.0
    ensures p.starRating == 0.0 <==> LabelIndex(classLabel).None?
  {
    var text := ConvertLabelToStars(classLabel);
    LabelRating(classLabel);
    Prediction(NormalizeRating(text), text, score)
  }
}
