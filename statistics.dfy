/**
  The statistics screen: the icon and the word for the sign of a change, the
  default for a missing change percentage, and how a fetch sets the screen's
  statistics, error line and loading flag.
 */
module Statistics {
  import opened Wrappers
  import opened Text

  /** The figures the backend sends; a change percentage may be absent. */
  datatype Stats = Stats(
    monthlySpending: real, yearlySpending: real,
    monthlyChangePercentage: Option<real>, yearlyChangePercentage: Option<real>,
    year: int)

  datatype Period = Month | Year

  /**
    `statistics?.monthlyChangePercentage || 0` and its yearly twin: the
    change of the period, or 0 when there are no statistics or no value.
   */
  function ChangeOrZero(statistics: Option<Stats>, period: Period): (p: real)
    ensures statistics.None? ==> p == 0.0
    ensures statistics.Some? && period == Month && statistics.value.monthlyChangePercentage.Some? ==>
      p == statistics.value.monthlyChangePercentage.value
    ensures statistics.Some? && period == Year && statistics.value.yearlyChangePercentage.Some? ==>
      p == statistics.value.yearlyChangePercentage.value
    ensures statistics.Some? && period == Month && statistics.value.monthlyChangePercentage.None? ==> p == 0.0
    ensures statistics.Some? && period == Year && statistics.value.yearlyChangePercentage.None? ==> p == 0.0
    ensures p != 0.0 ==> statistics.Some?
  {
    match statistics
    case None => 0.0
    case Some(s) =>
      (match period
       case Month => s.monthlyChangePercentage
       case Year => s.yearlyChangePercentage).GetOr(0.0)
  }

  /** An icon by its name and colour. */
  datatype Icon = Icon(name: string, color: string)

  const Up := Icon("trending-up", "#4CAF50")
  const Down := Icon("trending-down", "#FF3B30")
  const Flat := Icon("minus", "#71727A")

  /** `getTrendIcon`: rising green, falling red, flat grey. */
  function TrendIcon(percentage: real): (icon: Icon)
    ensures icon == Up <==> percentage > 0.0
    ensures icon == Down <==> percentage < 0.0
    ensures icon == Flat <==> percentage == 0.0
  {
    if percentage > 0.0 then Up
    else if percentage < 0.0 then Down
    else Flat
  }

  const Increase := "artış"
  const Decrease := "azalış"
  const NoChange := "değişim yok"

  /** The word after the percentage in each change line. */
  function TrendWord(percentage: real): (word: string)
    ensures word == Increase <==> percentage > 0.0
    ensures word == Decrease <==> percentage < 0.0
    ensures word == NoChange <==> percentage == 0.0
  {
    if percentage > 0.0 then Increase
    else if percentage < 0.0 then Decrease
    else NoChange
  }

  /** The sign of a change, as both the icon and the word read it. */
  datatype Sign = Rising | Falling | Steady

  function SignOf(percentage: real): Sign
  {
    if percentage > 0.0 then Rising else if percentage < 0.0 then Falling else Steady
  }

  /** The word and the icon of a change line always tell the same sign. */
  lemma WordAgreesWithIcon(percentage: real)
    ensures match SignOf(percentage)
      case Rising => TrendIcon(percentage) == Up && TrendWord(percentage) == Increase
      case Falling => TrendIcon(percentage) == Down && TrendWord(percentage) == Decrease
      case Steady => TrendIcon(percentage) == Flat && TrendWord(percentage) == NoChange
  {
  }

  /** A missing figure shows as no change: the grey icon and 'değişim yok'. */
  lemma MissingChangeIsFlat(statistics: Option<Stats>, period: Period)
    requires statistics.None? ||
      (period == Month && statistics.value.monthlyChangePercentage.None?) ||
      (period == Year && statistics.value.yearlyChangePercentage.None?)
    ensures TrendIcon(ChangeOrZero(statistics, period)) == Flat
    ensures TrendWord(ChangeOrZero(statistics, period)) == NoChange
  {
  }

  const NoStatistics := "İstatistik bilgileriniz bulunmamaktadır."
  const LoadFailed := "İstatistikler yüklenirken bir hata oluştu."

  /** What a failed request reports: the response status, if a response came, and the error message. */
  datatype Failure = Failure(status: Option<int>, message: string)

  /** The error line for a failed request: 'no statistics' for a 404 or a 'bulunamadı' message, else the generic text. */
  function ClassifyError(f: Failure): (error: string)
    ensures error == NoStatistics <==> f.status == Some(404) || Contains(f.message, "bulunamadı")
    ensures error == LoadFailed <==> !(f.status == Some(404) || Contains(f.message, "bulunamadı"))
  {
    if f.status == Some(404) || Contains(f.message, "bulunamadı") then NoStatistics else LoadFailed
  }

  /** A message that mentions 'bulunamadı' anywhere is read as 'no statistics', whatever the status. */
  lemma NotFoundAnywhere(status: Option<int>, before: string, after: string)
    ensures ClassifyError(Failure(status, before + "bulunamadı" + after)) == NoStatistics
  {
    var m := before + "bulunamadı" + after;
    assert m[|before|..|before| + |"bulunamadı"|] == "bulunamadı";
    assert OccursAt(m, "bulunamadı", |before|);
    ContainsIff(m, "bulunamadı");
  }

  /** The screen's state. */
  datatype Screen = Screen(statistics: Option<Stats>, loading: bool, error: Option<string>)

  /** The screen as it mounts: loading, nothing fetched, no error. */
  function InitialScreen(): (s: Screen)
    ensures s.loading && s.statistics.None? && s.error.None?
  {
    Screen(None, true, None)
  }

  /** The backend's answer to the statistics request. */
  datatype Reply = Loaded(stats: Stats) | Failed(failure: Failure)

  /**
    `fetchStatistics`, the stored token's presence as `hasToken` and the
    backend's answer as `reply`: loading stops whatever happens (the `finally`
    runs after the early return as well); without a token nothing else
    changes; a success stores the figures and clears the error; a failure
    sets the error line and keeps the figures.
   */
  function FetchStatistics(s: Screen, hasToken: bool, reply: Reply): (r: Screen)
    ensures !r.loading
    ensures !hasToken ==> r.statistics == s.statistics && r.error == s.error
    ensures hasToken && reply.Loaded? ==> r.statistics == Some(reply.stats) && r.error == None
    ensures hasToken && reply.Failed? ==>
      r.statistics == s.statistics && r.error == Some(ClassifyError(reply.failure))
  {
    if !hasToken then s.(loading := false)
    else match reply
      case Loaded(stats) => Screen(Some(stats), false, None)
      case Failed(failure) => s.(loading := false, error := Some(ClassifyError(failure)))
  }

  /** What the screen renders: the loading text, the error line, or the figures. */
  datatype View = LoadingView | ErrorView(text: string) | FiguresView(monthlyChange: real, yearlyChange: real)

  function Render(s: Screen): (v: View)
    ensures v.LoadingView? <==> s.loading
    ensures v.ErrorView? <==> !s.loading && s.error.Some? && s.error.value != ""
  {
    if s.loading then LoadingView
    else if s.error.Some? && s.error.value != "" then ErrorView(s.error.value)
    else FiguresView(ChangeOrZero(s.statistics, Month), ChangeOrZero(s.statistics, Year))
  }

  /**
    After the first fetch the screen never stays on the loading text: a
    success shows the figures, a failure its error line.
   */
  lemma FirstFetchSettles(reply: Reply)
    ensures var v := Render(FetchStatistics(InitialScreen(), true, reply));
      match reply
      case Loaded(stats) => v == FiguresView(ChangeOrZero(Some(stats), Month), ChangeOrZero(Some(stats), Year))
      case Failed(f) => v == ErrorView(ClassifyError(f))
  {
  }
}
