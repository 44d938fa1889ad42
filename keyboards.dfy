/**
 * The callback payloads of the inline keyboards (`get_language_keyboard`,
 * `get_radius_keyboard`, `get_rating_keyboard`). Button captions and the
 * markup objects are presentation; the payloads are exactly what the
 * callback handlers receive and parse.
 */
module Keyboards {
  import opened Wrappers
  import opened Text

  const LanguagePayloads: seq<string> := ["lang_en", "lang_ru", "lang_zh"]
  const RadiusPayloads: seq<string> := ["radius_50", "radius_100", "radius_200"]
  const ManualRadiusPayload: string := "manual_radius_input"
  const RatingPayloads: seq<string> := ["rating_4.0_4.5", "rating_4.41_4.7", "rating_4.71_5.0"]
  const ManualRatingPayload: string := "manual_rating_input"

  /** The prefixes the callback handlers' filters test. */
  const LangPrefix: string := "lang_"
  const RadiusPrefix: string := "radius_"
  const RatingPrefix: string := "rating_"

  /** The session range a radius must lie in, in metres. */
  const MinRadius: nat := 1
  const MaxRadius: nat := 5000

  /** What `set_language` stores: the text after the first `_`. */
  function LanguageOf(payload: string): string {
    var parts := SplitOnce(payload, '_');
    if |parts| == 2 then parts[1] else ""
  }

  /** What `set_radius` stores: `int(payload.split("_", 1)[1])`. */
  function RadiusOf(payload: string): Option<nat> {
    var parts := SplitOnce(payload, '_');
    if |parts| == 2 then ParseNat(parts[1]) else None
  }

  /**
   * What `get_rating_from_button` unpacks: `_, min_s, max_s = payload.split("_")`
   * followed by two `float` conversions; `None` when the unpacking or a
   * conversion raises.
   */
  function RatingBandOf(payload: string): Option<(real, real)> {
    var parts := Split(payload, '_');
    if |parts| != 3 then None
    else match (ParseDecimal(parts[1]), ParseDecimal(parts[2]))
      case (Some(lo), Some(hi)) => Some((lo, hi))
      case _ => None
  }

  /** A payload made of a separator-free prefix, `_`, and a separator-free rest. */
  lemma SplitPayload(word: string, rest: string)
    requires '_' !in word
    ensures SplitOnce(word + "_" + rest, '_') == [word, rest]
  {
    var s := word + "_" + rest;
    assert StartsWith(s, word + ['_']) by {
      assert s[..|word| + 1] == word + ['_'];
    }
    SplitOnceAfterPrefix(s, word, '_');
    assert s[|word| + 1..] == rest;
  }

  /** `lang_en`, `lang_ru` and `lang_zh` store `en`, `ru` and `zh`. */
  lemma LanguageEn()
    ensures LanguageOf(LanguagePayloads[0]) == "en"
  {
    SplitPayload("lang", "en");
    assert LanguagePayloads[0] == "lang" + "_" + "en";
  }

  lemma LanguageRu()
    ensures LanguageOf(LanguagePayloads[1]) == "ru"
  {
    SplitPayload("lang", "ru");
    assert LanguagePayloads[1] == "lang" + "_" + "ru";
  }

  lemma LanguageZh()
    ensures LanguageOf(LanguagePayloads[2]) == "zh"
  {
    SplitPayload("lang", "zh");
    assert LanguagePayloads[2] == "lang" + "_" + "zh";
  }

  /** The language buttons all pass the `lang_` filter and store `en`, `ru`, `zh`. */
  lemma LanguagePayloadsParse()
    ensures forall i :: 0 <= i < |LanguagePayloads| ==> StartsWith(LanguagePayloads[i], LangPrefix)
    ensures [LanguageOf(LanguagePayloads[0]), LanguageOf(LanguagePayloads[1]), LanguageOf(LanguagePayloads[2])]
         == ["en", "ru", "zh"]
  {
    LanguagePrefixes();
    LanguageEn();
    LanguageRu();
    LanguageZh();
  }

  lemma LanguagePrefixes()
    ensures forall i :: 0 <= i < |LanguagePayloads| ==> StartsWith(LanguagePayloads[i], LangPrefix)
  {
  }

  lemma Digits50() ensures ParseNat("50") == Some(50) { assert "50"[..1] == "5"; }
  lemma Digits100() ensures ParseNat("100") == Some(100) { assert "100"[..2] == "10" && "10"[..1] == "1"; }
  lemma Digits200() ensures ParseNat("200") == Some(200) { assert "200"[..2] == "20" && "20"[..1] == "2"; }

  lemma RadiusSplit50() ensures SplitOnce("radius_50", '_') == ["radius", "50"]
  { SplitPayload("radius", "50"); assert "radius_50" == "radius" + "_" + "50"; }
  lemma RadiusSplit100() ensures SplitOnce("radius_100", '_') == ["radius", "100"]
  { SplitPayload("radius", "100"); assert "radius_100" == "radius" + "_" + "100"; }
  lemma RadiusSplit200() ensures SplitOnce("radius_200", '_') == ["radius", "200"]
  { SplitPayload("radius", "200"); assert "radius_200" == "radius" + "_" + "200"; }

  lemma Radius50() ensures RadiusOf(RadiusPayloads[0]) == Some(50) { RadiusSplit50(); Digits50(); }
  lemma Radius100() ensures RadiusOf(RadiusPayloads[1]) == Some(100) { RadiusSplit100(); Digits100(); }
  lemma Radius200() ensures RadiusOf(RadiusPayloads[2]) == Some(200) { RadiusSplit200(); Digits200(); }

  /** Every radius preset passes the `radius_` filter and parses to a radius in [1, 5000]. */
  lemma RadiusPayloadsParse()
    ensures forall i :: 0 <= i < |RadiusPayloads| ==> StartsWith(RadiusPayloads[i], RadiusPrefix)
    ensures [RadiusOf(RadiusPayloads[0]), RadiusOf(RadiusPayloads[1]), RadiusOf(RadiusPayloads[2])]
         == [Some(50), Some(100), Some(200)]
    ensures forall i :: 0 <= i < |RadiusPayloads| ==>
      RadiusOf(RadiusPayloads[i]).Some? && MinRadius <= RadiusOf(RadiusPayloads[i]).value <= MaxRadius
  {
    RadiusPrefixes();
    Radius50();
    Radius100();
    Radius200();
    forall i | 0 <= i < |RadiusPayloads|
      ensures RadiusOf(RadiusPayloads[i]).Some? && MinRadius <= RadiusOf(RadiusPayloads[i]).value <= MaxRadius
    {
      if i == 0 { Radius50(); } else if i == 1 { Radius100(); } else { Radius200(); }
    }
  }

  lemma RadiusPrefixes()
    ensures forall i :: 0 <= i < |RadiusPayloads| ==> StartsWith(RadiusPayloads[i], RadiusPrefix)
  {
  }

  /** A payload of three separator-free parts joined by `_` splits back into them. */
  lemma SplitThree(a: string, b: string, c: string)
    requires '_' !in a && '_' !in b && '_' !in c
    ensures Split(a + "_" + b + "_" + c, '_') == [a, b, c]
  {
    SplitAfterPiece(a, '_', b + "_" + c);
    SplitAfterPiece(b, '_', c);
    SplitWithoutSeparator(c, '_');
    assert a + "_" + b + "_" + c == a + ['_'] + (b + ['_'] + c);
  }

  /** A decimal with a separator-free whole part splits at its point. */
  lemma SplitAtPoint(s: string, whole: string, frac: string)
    requires '.' !in whole && s == whole + "." + frac
    ensures SplitOnce(s, '.') == [whole, frac]
  {
    assert StartsWith(s, whole + ['.']) by { assert s[..|whole| + 1] == whole + ['.']; }
    SplitOnceAfterPrefix(s, whole, '.');
    assert s[|whole| + 1..] == frac;
  }

  lemma SingleDigits()
    ensures DigitsValue("0") == 0 && DigitsValue("4") == 4 && DigitsValue("5") == 5 && DigitsValue("7") == 7
  {
    assert "0"[..0] == "" && "4"[..0] == "" && "5"[..0] == "" && "7"[..0] == "";
  }

  lemma Decimal40() ensures ParseDecimal("4.0") == Some(4.0) { SplitAtPoint("4.0", "4", "0"); SingleDigits(); }
  lemma Decimal45() ensures ParseDecimal("4.5") == Some(4.5) { SplitAtPoint("4.5", "4", "5"); SingleDigits(); }
  lemma Decimal47() ensures ParseDecimal("4.7") == Some(4.7) { SplitAtPoint("4.7", "4", "7"); SingleDigits(); }
  lemma Decimal50() ensures ParseDecimal("5.0") == Some(5.0) { SplitAtPoint("5.0", "5", "0"); SingleDigits(); }

  lemma Decimal441()
    ensures ParseDecimal("4.41") == Some(4.41)
  {
    SplitAtPoint("4.41", "4", "41");
    SingleDigits();
    assert DigitsValue("41") == 41 by { assert "41"[..1] == "4"; }
  }

  lemma Decimal471()
    ensures ParseDecimal("4.71") == Some(4.71)
  {
    SplitAtPoint("4.71", "4", "71");
    SingleDigits();
    assert DigitsValue("71") == 71 by { assert "71"[..1] == "7"; }
  }

  lemma RatingSplit0()
    ensures Split(RatingPayloads[0], '_') == ["rating", "4.0", "4.5"]
  {
    SplitThree("rating", "4.0", "4.5");
    assert RatingPayloads[0] == "rating" + "_" + "4.0" + "_" + "4.5";
  }

  lemma RatingSplit1()
    ensures Split(RatingPayloads[1], '_') == ["rating", "4.41", "4.7"]
  {
    SplitThree("rating", "4.41", "4.7");
    assert RatingPayloads[1] == "rating" + "_" + "4.41" + "_" + "4.7";
  }

  lemma RatingSplit2()
    ensures Split(RatingPayloads[2], '_') == ["rating", "4.71", "5.0"]
  {
    SplitThree("rating", "4.71", "5.0");
    assert RatingPayloads[2] == "rating" + "_" + "4.71" + "_" + "5.0";
  }

  lemma RatingBand0() ensures RatingBandOf(RatingPayloads[0]) == Some((4.0, 4.5))
  { RatingSplit0(); Decimal40(); Decimal45(); }

  lemma RatingBand1() ensures RatingBandOf(RatingPayloads[1]) == Some((4.41, 4.7))
  { RatingSplit1(); Decimal441(); Decimal47(); }

  lemma RatingBand2() ensures RatingBandOf(RatingPayloads[2]) == Some((4.71, 5.0))
  { RatingSplit2(); Decimal471(); Decimal50(); }

  /** The three bands, as `(min, max)`. */
  lemma RatingBands()
    ensures RatingBandOf(RatingPayloads[0]) == Some((4.0, 4.5))
    ensures RatingBandOf(RatingPayloads[1]) == Some((4.41, 4.7))
    ensures RatingBandOf(RatingPayloads[2]) == Some((4.71, 5.0))
  {
    RatingBand0();
    RatingBand1();
    RatingBand2();
  }

  /**
   * Every rating payload passes the `rating_` filter and splits into exactly
   * three parts with `min <= max`; the top band ends at 5.0; the lower bounds
   * strictly increase; and the first two bands share the interval [4.41, 4.5].
   */
  lemma RatingPayloadsWellFormed()
    ensures forall i :: 0 <= i < |RatingPayloads| ==> StartsWith(RatingPayloads[i], RatingPrefix)
    ensures forall i :: 0 <= i < |RatingPayloads| ==> |Split(RatingPayloads[i], '_')| == 3
    ensures forall i :: 0 <= i < |RatingPayloads| ==>
      RatingBandOf(RatingPayloads[i]).Some? && RatingBandOf(RatingPayloads[i]).value.0 <= RatingBandOf(RatingPayloads[i]).value.1
    ensures RatingBandOf(RatingPayloads[2]).value.1 == 5.0
    ensures RatingBandOf(RatingPayloads[0]).value.0 < RatingBandOf(RatingPayloads[1]).value.0
                                                     < RatingBandOf(RatingPayloads[2]).value.0
    ensures RatingBandOf(RatingPayloads[1]).value.0 == 4.41 && RatingBandOf(RatingPayloads[0]).value.1 == 4.5
  {
    RatingPrefixes();
    RatingBands();
    forall i | 0 <= i < |RatingPayloads|
      ensures |Split(RatingPayloads[i], '_')| == 3
      ensures RatingBandOf(RatingPayloads[i]).Some?
      ensures RatingBandOf(RatingPayloads[i]).value.0 <= RatingBandOf(RatingPayloads[i]).value.1
    {
      if i == 0 { RatingSplit0(); RatingBand0(); }
      else if i == 1 { RatingSplit1(); RatingBand1(); }
      else { RatingSplit2(); RatingBand2(); }
    }
  }

  lemma RatingPrefixes()
    ensures forall i :: 0 <= i < |RatingPayloads| ==> StartsWith(RatingPayloads[i], RatingPrefix)
  {
  }

  /** The manual-entry buttons reach none of the three prefix-filtered handlers. */
  lemma ManualPayloadsUnrouted()
    ensures !StartsWith(ManualRadiusPayload, LangPrefix) && !StartsWith(ManualRatingPayload, LangPrefix)
    ensures !StartsWith(ManualRadiusPayload, RadiusPrefix) && !StartsWith(ManualRatingPayload, RadiusPrefix)
    ensures !StartsWith(ManualRadiusPayload, RatingPrefix) && !StartsWith(ManualRatingPayload, RatingPrefix)
  {
    assert ManualRadiusPayload[0] == ManualRatingPayload[0] == 'm';
  }
}
