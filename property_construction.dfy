/**
 * The ground-floor construction page of the property assessment: the wall
 * material, the wall-condition selector and the airbrick counters.
 */
module PropertyConstruction {
  import opened Wrappers

  const Materials: seq<string> := ["Solid Brick", "Brick Cavity", "Solid Stone", "Timber Frame + Cladding", "Concrete Panels", "Other"]

  datatype Condition = Poor | Fair | Good | Excellent

  /** `CONDITIONS`, worst to best. */
  const Conditions: seq<Condition> := [Poor, Fair, Good, Excellent]

  /** A condition's place among the four; a larger rank is a better wall. */
  function Rank(c: Condition): nat {
    match c
    case Poor => 0
    case Fair => 1
    case Good => 2
    case Excellent => 3
  }

  /** Every condition appears once, in order of rank. */
  lemma ConditionsOrdered()
    ensures |Conditions| == 4
    ensures forall i :: 0 <= i < |Conditions| ==> Rank(Conditions[i]) == i
    ensures forall c: Condition :: Conditions[Rank(c)] == c
  {
  }

  datatype AirbrickKind = SingleAirbrick | DoubleAirbrick | WeepVent | IrregularAirbrick

  datatype AirbrickCounts = AirbrickCounts(singleAirbrick: int, doubleAirbrick: int, weepVent: int, irregularAirbrick: int) {
    function Get(kind: AirbrickKind): int {
      match kind
      case SingleAirbrick => singleAirbrick
      case DoubleAirbrick => doubleAirbrick
      case WeepVent => weepVent
      case IrregularAirbrick => irregularAirbrick
    }

    /** `{ ...airbricks, [kind]: value }`. */
    function With(kind: AirbrickKind, value: int): (r: AirbrickCounts)
      ensures r.Get(kind) == value
      ensures forall other :: other != kind ==> r.Get(other) == Get(other)
    {
      match kind
      case SingleAirbrick => this.(singleAirbrick := value)
      case DoubleAirbrick => this.(doubleAirbrick := value)
      case WeepVent => this.(weepVent := value)
      case IrregularAirbrick => this.(irregularAirbrick := value)
    }

    predicate NonNegative() {
      singleAirbrick >= 0 && doubleAirbrick >= 0 && weepVent >= 0 && irregularAirbrick >= 0
    }
  }

  /** `value > 0 ? value : 0`. */
  function ClampAtZero(v: int): (r: int)
    ensures r >= 0
    ensures v > 0 ==> r == v
    ensures v <= 0 ==> r == 0
  {
    if v > 0 then v else 0
  }

  predicate IsDigit(c: char) {
    '0' <= c <= '9'
  }

  /** The longest run of digits at the start of `s`. */
  function LeadingDigits(s: string): (r: string)
    ensures r <= s
    ensures forall i :: 0 <= i < |r| ==> IsDigit(r[i])
    ensures |r| < |s| ==> !IsDigit(s[|r|])
  {
    if s == [] || !IsDigit(s[0]) then [] else [s[0]] + LeadingDigits(s[1..])
  }

  function DigitValue(c: char): nat
    requires IsDigit(c)
  {
    c as int - '0' as int
  }

  /** The number a run of decimal digits spells. */
  function DigitsValue(ds: string): nat
    requires forall i :: 0 <= i < |ds| ==> IsDigit(ds[i])
  {
    if ds == [] then 0 else DigitsValue(ds[..|ds| - 1]) * 10 + DigitValue(ds[|ds| - 1])
  }

  /**
   * `parseInt(text)`: an optional sign and the leading decimal digits, or `None`
   * (NaN) when no digit follows the sign.
   */
  function ParseInt(text: string): (r: Option<int>)
    ensures r.Some? <==> |LeadingDigits(if text != [] && (text[0] == '-' || text[0] == '+') then text[1..] else text)| > 0
  {
    var negative := text != [] && text[0] == '-';
    var body := if text != [] && (text[0] == '-' || text[0] == '+') then text[1..] else text;
    var ds := LeadingDigits(body);
    if ds == [] then None
    else if negative then Some(-(DigitsValue(ds) as int))
    else Some(DigitsValue(ds))
  }

  /** `parseInt(text) || 0`: NaN (and 0) become 0. */
  function ParseIntOrZero(text: string): (r: int)
    ensures ParseInt(text).None? ==> r == 0
    ensures ParseInt(text).Some? ==> r == ParseInt(text).value
  {
    match ParseInt(text)
    case None => 0
    case Some(v) => if v == 0 then 0 else v
  }

  /** The way a counter renders its value into the input box, for a non-negative count. */
  function DecimalString(n: nat): (s: string)
    ensures |s| > 0 && forall i :: 0 <= i < |s| ==> IsDigit(s[i])
  {
    if n < 10 then [('0' as int + n) as char]
    else DecimalString(n / 10) + [('0' as int + n % 10) as char]
  }

  lemma {:induction false} DecimalStringValue(n: nat)
    ensures DigitsValue(DecimalString(n)) == n
  {
    var s := DecimalString(n);
    if n >= 10 {
      DecimalStringValue(n / 10);
      assert s[..|s| - 1] == DecimalString(n / 10);
    }
  }

  lemma {:induction false} LeadingDigitsOfDigits(s: string)
    requires forall i :: 0 <= i < |s| ==> IsDigit(s[i])
    ensures LeadingDigits(s) == s
  {
    if s != [] {
      LeadingDigitsOfDigits(s[1..]);
    }
  }

  /** Reading back the digits of a count gives the count: typing a count into a box stores exactly that count. */
  lemma ParseDecimalString(n: nat)
    ensures ParseInt(DecimalString(n)) == Some(n)
    ensures ParseIntOrZero(DecimalString(n)) == n
  {
    var s := DecimalString(n);
    LeadingDigitsOfDigits(s);
    DecimalStringValue(n);
  }

  /** Text with no leading digit (an emptied box) stores 0. */
  lemma NonNumericIsZero(text: string)
    requires text == [] || (!IsDigit(text[0]) && text[0] != '-' && text[0] != '+')
    ensures ParseIntOrZero(text) == 0
  {
  }

  class PropertyConstructionView {
    var selectedMaterial: Option<string>
    var conditionIndex: int
    var hasAirbricks: Option<bool>
    var airbricks: AirbrickCounts

    /** The condition index is a position of `CONDITIONS`, and no counter is negative. */
    predicate Valid()
      reads this
    {
      0 <= conditionIndex < |Conditions| && airbricks.NonNegative()
    }

    function CurrentCondition(): Condition
      reads this
      requires Valid()
    {
      Conditions[conditionIndex]
    }

    /** The page opens on "Fair" with every counter at zero. */
    constructor ()
      ensures Valid() && CurrentCondition() == Fair && selectedMaterial.None? && hasAirbricks.None?
      ensures airbricks == AirbrickCounts(0, 0, 0, 0)
    {
      selectedMaterial := None;
      conditionIndex := 1;
      hasAirbricks := None;
      airbricks := AirbrickCounts(0, 0, 0, 0);
    }

    method SelectMaterial(material: string)
      requires Valid() && material in Materials
      modifies this`selectedMaterial
      ensures Valid() && selectedMaterial == Some(material)
    {
      selectedMaterial := Some(material);
    }

    /** `Math.max(0, conditionIndex - 1)`: one condition worse, never below "Poor". */
    method PreviousCondition()
      requires Valid()
      modifies this`conditionIndex
      ensures Valid()
      ensures conditionIndex == if old(conditionIndex) - 1 > 0 then old(conditionIndex) - 1 else 0
      ensures Rank(CurrentCondition()) <= Rank(old(Conditions[conditionIndex]))
    {
      conditionIndex := if conditionIndex - 1 > 0 then conditionIndex - 1 else 0;
    }

    /** `Math.min(3, conditionIndex + 1)`: one condition better, never above "Excellent". */
    method NextCondition()
      requires Valid()
      modifies this`conditionIndex
      ensures Valid()
      ensures conditionIndex == if old(conditionIndex) + 1 < 3 then old(conditionIndex) + 1 else 3
      ensures Rank(CurrentCondition()) >= Rank(old(Conditions[conditionIndex]))
    {
      conditionIndex := if conditionIndex + 1 < 3 then conditionIndex + 1 else 3;
    }

    method SetHasAirbricks(answer: bool)
      requires Valid()
      modifies this`hasAirbricks
      ensures Valid() && hasAirbricks == Some(answer)
    {
      hasAirbricks := Some(answer);
    }

    /** `handleUpdateAirbrick`: counter `kind` becomes the value clamped at zero, the others stay. */
    method UpdateAirbrick(kind: AirbrickKind, value: int)
      requires Valid()
      modifies this`airbricks
      ensures Valid()
      ensures airbricks == old(airbricks).With(kind, ClampAtZero(value))
      ensures forall other :: other != kind ==> airbricks.Get(other) == old(airbricks).Get(other)
    {
      airbricks := airbricks.With(kind, ClampAtZero(value));
    }

    /** A counter's input box changed: its text is read with `parseInt(...) || 0`. */
    method EnterAirbrick(kind: AirbrickKind, text: string)
      requires Valid()
      modifies this`airbricks
      ensures Valid()
      ensures airbricks == old(airbricks).With(kind, ClampAtZero(ParseIntOrZero(text)))
    {
      UpdateAirbrick(kind, ParseIntOrZero(text));
    }
  }
}
