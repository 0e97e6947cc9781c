/**
 * The risk-level card of the property overview: the combined risk score shown as a
 * bar clamped to 0..100 and coloured by band, and the three alert channels the
 * user can switch on and off.
 */
module RiskLevel {

  /** The mock combined risk score, in percent. */
  const CombinedRiskScorePct := 42

  /** `Math.max(0, Math.min(100, score))`. */
  function ProgressValue(score: int): (v: int)
    ensures 0 <= v <= 100
    ensures 0 <= score <= 100 ==> v == score
    ensures score < 0 ==> v == 0
    ensures score > 100 ==> v == 100
  {
    var capped := if score < 100 then score else 100;
    if capped > 0 then capped else 0
  }

  datatype Band = Blue | Green | Yellow | Orange | Red

  /** `getRiskColorClass`: bands closed at 20, 40, 60 and 80. */
  function BandOf(value: int): Band {
    if value <= 20 then Blue
    else if value <= 40 then Green
    else if value <= 60 then Yellow
    else if value <= 80 then Orange
    else Red
  }

  function Severity(b: Band): nat {
    match b
    case Blue => 0
    case Green => 1
    case Yellow => 2
    case Orange => 3
    case Red => 4
  }

  /** A band holds exactly the values between its bounds. */
  lemma BandBounds(value: int)
    ensures BandOf(value) == Blue <==> value <= 20
    ensures BandOf(value) == Green <==> 20 < value <= 40
    ensures BandOf(value) == Yellow <==> 40 < value <= 60
    ensures BandOf(value) == Orange <==> 60 < value <= 80
    ensures BandOf(value) == Red <==> 80 < value
  {
  }

  /** A higher score never falls in a less severe band. */
  lemma BandMonotone(a: int, b: int)
    requires a <= b
    ensures Severity(BandOf(a)) <= Severity(BandOf(b))
  {
  }

  /** The mock score is drawn at 42% in yellow. */
  lemma MockScoreIsYellow()
    ensures ProgressValue(CombinedRiskScorePct) == 42
    ensures BandOf(ProgressValue(CombinedRiskScorePct)) == Yellow
  {
  }

  datatype Channel = Sms | Email | Push

  datatype Alerts = Alerts(sms: bool, email: bool, push: bool) {
    function Get(c: Channel): bool {
      match c
      case Sms => sms
      case Email => email
      case Push => push
    }

    /** `{ ...prev, [c]: checked }`. */
    function With(c: Channel, checked: bool): (r: Alerts)
      ensures r.Get(c) == checked
      ensures forall other :: other != c ==> r.Get(other) == Get(other)
    {
      match c
      case Sms => this.(sms := checked)
      case Email => this.(email := checked)
      case Push => this.(push := checked)
    }
  }

  /** Setting a channel twice keeps the last value, and setting two different channels commutes. */
  lemma AlertUpdates(a: Alerts, c: Channel, d: Channel, x: bool, y: bool)
    ensures a.With(c, x).With(c, y) == a.With(c, y)
    ensures c != d ==> a.With(c, x).With(d, y) == a.With(d, y).With(c, x)
    ensures a.With(c, a.Get(c)) == a
  {
  }

  class RiskLevelView {
    var isExpanded: bool
    var alerts: Alerts

    /** The card starts collapsed, with every channel switched on. */
    constructor ()
      ensures !isExpanded && alerts == Alerts(true, true, true)
    {
      isExpanded := false;
      alerts := Alerts(true, true, true);
    }

    method SetExpanded(open: bool)
      modifies this`isExpanded
      ensures isExpanded == open
    {
      isExpanded := open;
    }

    /** `handleAlertToggle`: exactly channel `c` takes the new value. */
    method HandleAlertToggle(c: Channel, checked: bool)
      modifies this`alerts
      ensures alerts == old(alerts).With(c, checked)
      ensures alerts.Get(c) == checked && forall other :: other != c ==> alerts.Get(other) == old(alerts).Get(other)
    {
      alerts := alerts.With(c, checked);
    }
  }
}
