/** The breakdown of a property's flood risk by source: each source's icon, level text and badge colour. */
module RiskFactorsBreakdown {
  import opened Text

  datatype Level = High | Medium | Low | VeryLow

  /** `getRiskLevelText`. */
  function LevelText(level: Level): string {
    match level
    case High => "High Risk"
    case Medium => "Medium Risk"
    case Low => "Low Risk"
    case VeryLow => "Very Low Risk"
  }

  /** Different levels never read the same. */
  lemma LevelTextInjective(a: Level, b: Level)
    ensures LevelText(a) == LevelText(b) <==> a == b
  {
    if a != b {
      assert LevelText(a)[0] != LevelText(b)[0];
    }
  }

  datatype RiskIcon = Waves | Droplets | ArrowDown | CircleDot

  /** `getRiskIcon`, on the lower-cased source name; the first matching rule wins. */
  function IconForSource(source: string): RiskIcon {
    var s := ToLower(source);
    if Contains(s, "river") || Contains(s, "sea") then Waves
    else if Contains(s, "surface") then Droplets
    else if Contains(s, "groundwater") then ArrowDown
    else if Contains(s, "reservoir") then CircleDot
    else Droplets
  }

  /**
   * Each icon is chosen exactly when its rule is the first to match; a source
   * matching no rule shares the surface-water drops.
   */
  lemma IconRulesInOrder(source: string)
    ensures var s := ToLower(source);
      var sea := Contains(s, "river") || Contains(s, "sea");
      var surface := Contains(s, "surface");
      var ground := Contains(s, "groundwater");
      var reservoir := Contains(s, "reservoir");
      && (IconForSource(source) == Waves <==> sea)
      && (IconForSource(source) == ArrowDown <==> !sea && !surface && ground)
      && (IconForSource(source) == CircleDot <==> !sea && !surface && !ground && reservoir)
      && (IconForSource(source) == Droplets <==> !sea && (surface || (!ground && !reservoir)))
  {
  }

  /** Matching ignores case. */
  lemma IconCaseInsensitive(source: string)
    ensures IconForSource(source) == IconForSource(ToLower(source))
  {
    ToLowerIdempotent(source);
  }

  /** "Rivers & Sea" gets the waves. */
  lemma RiversAndSeaExample()
    ensures IconForSource("Rivers & Sea") == Waves
  {
    var s := ToLower("Rivers & Sea");
    assert s[..5] == "river";
    assert Contains(s, "river") by { assert "river" <= s; }
  }

  datatype BadgeColour = Red | Orange | Green | Gray

  /** The badge colour: the last branch catches "very-low". */
  function BadgeColourOf(level: Level): BadgeColour {
    if level == High then Red
    else if level == Medium then Orange
    else if level == Low then Green
    else Gray
  }

  /** The colour and the text of a badge always agree: each colour belongs to one level. */
  lemma BadgeColourInjective(a: Level, b: Level)
    ensures BadgeColourOf(a) == BadgeColourOf(b) <==> a == b
    ensures BadgeColourOf(a) == Gray <==> LevelText(a) == "Very Low Risk"
  {
    LevelTextInjective(a, VeryLow);
  }
}
