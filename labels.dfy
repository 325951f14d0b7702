/**
 * The advisory texts the prediction endpoint puts in its payload
 * (app.py:32, 34, 36, 40, 42), one per status, and the way back from a text
 * to its status.
 */
module Labels {
  import opened Wrappers
  import opened Decision

  const CriticalLabel: string := "🚨 Groundwater level is critically low."
  const BelowAverageLabel: string := "⚠️ Groundwater level is below average, monitor closely."
  const StableLabel: string := "✅ Groundwater level is stable."
  const ImprovingLabel: string := "🌧️ Groundwater recharge is improving after recent rainfall."
  const AtRiskLabel: string := "⚠️ Recharge rate is low, risk of depletion ahead."

  /** The text shown for a level status. */
  function LevelLabel(s: LevelStatus): string
  {
    match s
    case Critical => CriticalLabel
    case BelowAverage => BelowAverageLabel
    case Stable => StableLabel
  }

  /** The text shown for a recharge status. */
  function RechargeLabel(s: RechargeStatus): string
  {
    match s
    case Improving => ImprovingLabel
    case AtRisk => AtRiskLabel
  }

  /** The level status a text stands for, if it is one of the level texts. */
  function ParseLevel(text: string): (r: Option<LevelStatus>)
    ensures r.Some? ==> LevelLabel(r.value) == text
    ensures r.None? ==> forall s :: LevelLabel(s) != text
  {
    if text == CriticalLabel then Some(Critical)
    else if text == BelowAverageLabel then Some(BelowAverage)
    else if text == StableLabel then Some(Stable)
    else None
  }

  /** The recharge status a text stands for, if it is one of the recharge texts. */
  function ParseRecharge(text: string): (r: Option<RechargeStatus>)
    ensures r.Some? ==> RechargeLabel(r.value) == text
    ensures r.None? ==> forall s :: RechargeLabel(s) != text
  {
    if text == ImprovingLabel then Some(Improving)
    else if text == AtRiskLabel then Some(AtRisk)
    else None
  }

  /** Every level text reads back as the status it was shown for. */
  lemma LevelLabelRoundTrip(s: LevelStatus)
    ensures ParseLevel(LevelLabel(s)) == Some(s)
  {
  }

  /** Every recharge text reads back as the status it was shown for. */
  lemma RechargeLabelRoundTrip(s: RechargeStatus)
    ensures ParseRecharge(RechargeLabel(s)) == Some(s)
  {
  }

  /** Distinct statuses are shown with distinct texts. */
  lemma LabelsInjective(a: LevelStatus, b: LevelStatus, c: RechargeStatus, d: RechargeStatus)
    ensures LevelLabel(a) == LevelLabel(b) ==> a == b
    ensures RechargeLabel(c) == RechargeLabel(d) ==> c == d
  {
    LevelLabelRoundTrip(a);
    LevelLabelRoundTrip(b);
    RechargeLabelRoundTrip(c);
    RechargeLabelRoundTrip(d);
  }
}
