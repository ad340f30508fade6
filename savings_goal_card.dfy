/** The dashboard's savings-goal card. It receives the stats figures as
    decoded from JSON, where a non-finite `savingsProgress` arrives as
    `null`, which the card's comparisons and `Math.min` read as 0. */
module SavingsGoalCard {
  import opened Http
  import opened StatsRoute

  const ON_TRACK_AT := 100.0
  const HALFWAY_AT := 50.0

  const GREEN := "bg-green-500"
  const YELLOW := "bg-yellow-500"
  const RED := "bg-red-500"

  const MSG_ON_TRACK := "\U{1F389} Great job! You've reached your savings goal!"
  const MSG_HALFWAY := "\U{1F4AA} You're halfway there! Keep it up!"
  const MSG_BEHIND := "\U{26A0}\U{FE0F} You need to save more to reach your goal."

  /** The three bands of progress the card distinguishes. */
  datatype Tier = OnTrack | Halfway | Behind

  /** `Number(x)` for a JSON number or `null`. */
  function ToNumber(x: Option<real>): real {
    x.GetOr(0.0)
  }

  /** The reference classification: at least 100, at least 50, or below. */
  function TierOf(savingsProgress: Option<real>): (tier: Tier)
    ensures tier == OnTrack <==> ToNumber(savingsProgress) >= ON_TRACK_AT
    ensures tier == Halfway <==> HALFWAY_AT <= ToNumber(savingsProgress) < ON_TRACK_AT
    ensures tier == Behind <==> ToNumber(savingsProgress) < HALFWAY_AT
  {
    var p := ToNumber(savingsProgress);
    if p >= ON_TRACK_AT then OnTrack else if p >= HALFWAY_AT then Halfway else Behind
  }

  /** `savingsProgress >= 100` */
  predicate IsOnTrack(savingsProgress: Option<real>): (onTrack: bool)
    ensures onTrack <==> TierOf(savingsProgress) == OnTrack
  {
    ToNumber(savingsProgress) >= ON_TRACK_AT
  }

  /** `progressColor`: green when on track, else yellow from 50, else red. */
  function ProgressColor(savingsProgress: Option<real>): (color: string)
    ensures color == TierColor(TierOf(savingsProgress))
  {
    if IsOnTrack(savingsProgress) then GREEN
    else if ToNumber(savingsProgress) >= HALFWAY_AT then YELLOW
    else RED
  }

  /** The status line under the bar. */
  function StatusMessage(savingsProgress: Option<real>): (message: string)
    ensures message == TierMessage(TierOf(savingsProgress))
  {
    if IsOnTrack(savingsProgress) then MSG_ON_TRACK
    else if ToNumber(savingsProgress) >= HALFWAY_AT then MSG_HALFWAY
    else MSG_BEHIND
  }

  function TierColor(tier: Tier): string {
    match tier
    case OnTrack => GREEN
    case Halfway => YELLOW
    case Behind => RED
  }

  function TierMessage(tier: Tier): string {
    match tier
    case OnTrack => MSG_ON_TRACK
    case Halfway => MSG_HALFWAY
    case Behind => MSG_BEHIND
  }

  /** The colour and the message are both chosen by the same tier, so they
      never disagree; a `null` progress is shown as behind. */
  lemma ColorAndMessageFollowTier(savingsProgress: Option<real>)
    ensures ProgressColor(savingsProgress) == GREEN <==> StatusMessage(savingsProgress) == MSG_ON_TRACK
    ensures ProgressColor(savingsProgress) == YELLOW <==> StatusMessage(savingsProgress) == MSG_HALFWAY
    ensures ProgressColor(savingsProgress) == RED <==> StatusMessage(savingsProgress) == MSG_BEHIND
    ensures savingsProgress.None? ==>
      TierOf(savingsProgress) == Behind && ProgressColor(savingsProgress) == RED
  {
  }

  /** `Math.min(savingsProgress, 100)`, the bar's width in percent. */
  function BarWidth(savingsProgress: Option<real>): (width: real)
    ensures width <= ON_TRACK_AT
    ensures width == ON_TRACK_AT <==> IsOnTrack(savingsProgress)
    ensures !IsOnTrack(savingsProgress) ==> width == ToNumber(savingsProgress)
  {
    Min(ToNumber(savingsProgress), ON_TRACK_AT)
  }

  /** The actual amount is shown in green when it reaches the target. */
  predicate HighlightActual(actualSavings: real, savingsTarget: real) {
    actualSavings >= savingsTarget
  }

  /** For a month with income and a positive target, the card is on track,
      the highlight is on and the bar is full exactly when the savings reach
      the target; below it the bar shows the stats' percentage as is. */
  lemma CardAgreesWithStats(monthlyIncome: real, actualSavings: real, savingsTarget: real)
    requires monthlyIncome > 0.0 && savingsTarget > 0.0
    ensures var p := ProgressJson(SavingsProgress(monthlyIncome, actualSavings, savingsTarget));
      && (IsOnTrack(p) <==> HighlightActual(actualSavings, savingsTarget))
      && (BarWidth(p) == ON_TRACK_AT <==> actualSavings >= savingsTarget)
      && (BarWidth(p) < ON_TRACK_AT ==> BarWidth(p) * savingsTarget == actualSavings * 100.0)
  {
  }

  /** With no income the progress is 0 and the card says to save more, even
      where the actual amount (0 against a target of 0) is highlighted as
      reaching the target. */
  lemma NoIncomeShowsBehind(monthlyExpenses: real, goal: real)
    ensures var target := SavingsTarget(0.0, goal);
      var actual := 0.0 - monthlyExpenses;
      var p := ProgressJson(SavingsProgress(0.0, actual, target));
      && TierOf(p) == Behind
      && (HighlightActual(actual, target) <==> monthlyExpenses <= 0.0)
  {
  }

  /** With a goal of 0 the card is on track exactly when something was
      saved; a month that breaks even gets `NaN`, sent as `null`, and is
      shown as behind although its actual amount is highlighted. */
  lemma ZeroGoalCard(monthlyIncome: real, actualSavings: real)
    requires monthlyIncome > 0.0
    ensures var target := SavingsTarget(monthlyIncome, 0.0);
      var p := ProgressJson(SavingsProgress(monthlyIncome, actualSavings, target));
      && (IsOnTrack(p) <==> actualSavings > 0.0)
      && (actualSavings <= 0.0 ==> p.None? && TierOf(p) == Behind)
      && (actualSavings == 0.0 ==> HighlightActual(actualSavings, target))
  {
  }
}
