/**
  One run of the dashboard's analysis step: from the closing prices and the
  four indicator sequences to either an analysis (price, summary,
  interpretation) or a failure, and the panel state each leaves behind.
*/
module FetchChart {
  import opened JsValues
  import opened Classification
  import opened Resolver

  /** The sequences the indicator library returned for one price series. */
  datatype Indicators = Indicators(ema9: seq<real>, ema21: seq<real>, rsi: seq<real>,
                                   macd: seq<MacdPoint>)

  /** Why the step throws: reading `.MACD` of the undefined last element of an
      empty MACD sequence, or calling `toFixed` on the undefined last close. */
  datatype Failure = MacdUnavailable | PriceUnavailable

  datatype Analysis = Analysis(price: real, summary: Summary, interpretation: Interpretation)

  datatype Outcome = Success(analysis: Analysis) | Failed(reason: Failure)

  /** The signals the interpretation chain reads, when the MACD sequence has a last point. */
  function SignalsOf(ind: Indicators): Signals
    requires ind.macd != []
  {
    Signals(Trend(ind.ema9, ind.ema21), MacdDirection(ind.macd[|ind.macd| - 1]), Last(ind.rsi))
  }

  /** The statements from the last-value lookups to the end of the chain, in
      their order: the MACD lookup throws before the price is formatted. */
  function Analyze(closes: seq<real>, ind: Indicators): (o: Outcome)
    ensures o.Failed? <==> ind.macd == [] || closes == []
    ensures o.Failed? ==> (o.reason == MacdUnavailable <==> ind.macd == [])
    ensures o.Success? ==> o.analysis.price == closes[|closes| - 1]
    ensures o.Success? ==> o.analysis.summary.rsi == Last(ind.rsi)
  {
    match Last(ind.macd)
    case None => Failed(MacdUnavailable)
    case Some(lastMacd) =>
      var direction := MacdDirection(lastMacd);
      var trend := Trend(ind.ema9, ind.ema21);
      var rsi := Last(ind.rsi);
      match Last(closes)
      case None => Failed(PriceUnavailable)
      case Some(lastClose) =>
        Success(Analysis(lastClose, Summarize(lastClose, rsi, trend, direction),
                         Interpret(Signals(trend, direction, rsi))))
  }

  /** What the panel holds once the step has finished: price, summary text,
      interpretation text and error. */
  datatype Panel = Panel(price: Option<real>, indicadores: Option<Summary>, analiseTexto: string,
                         error: Option<Failure>)

  /** The state updates of the success path and of the catch block. */
  function Settle(o: Outcome): (p: Panel)
    ensures p.error.Some? <==> o.Failed?
    ensures o.Failed? ==> p.price.None? && p.indicadores.None? && p.analiseTexto == "" && p.error.value == o.reason
    ensures o.Success? ==> p.price == Some(o.analysis.price) && p.indicadores == Some(o.analysis.summary)
    ensures o.Success? ==> p.analiseTexto == o.analysis.interpretation.Text()
  {
    match o
    case Success(a) => Panel(Some(a.price), Some(a.summary), a.interpretation.Text(), None)
    case Failed(reason) => Panel(None, None, "", Some(reason))
  }

  /** The analysis succeeds exactly when the MACD sequence and the price
      series are non-empty, and then it picks the interpretation from the
      last indicator values. */
  lemma AnalyzeSucceedsIff(closes: seq<real>, ind: Indicators)
    ensures Analyze(closes, ind).Success? <==> ind.macd != [] && closes != []
    ensures Analyze(closes, ind).Success? ==>
              Analyze(closes, ind).analysis.interpretation == Interpret(SignalsOf(ind))
    ensures Analyze(closes, ind).Success? ==>
              Analyze(closes, ind).analysis.summary ==
                Summarize(closes[|closes| - 1], Last(ind.rsi), Trend(ind.ema9, ind.ema21),
                          MacdDirection(ind.macd[|ind.macd| - 1]))
  {
  }

  /** With an empty RSI sequence and a MACD point and a price present, the
      analysis succeeds with mixed signals and a neutral zone, whatever the
      EMAs and the MACD say. */
  lemma MissingRsiGivesMixed(closes: seq<real>, ind: Indicators)
    requires ind.rsi == [] && ind.macd != [] && closes != []
    ensures Analyze(closes, ind).Success?
    ensures Analyze(closes, ind).analysis.interpretation == Mixed
    ensures Analyze(closes, ind).analysis.summary.zone == Neutro
  {
  }

  /** A confirmed uptrend is reported only when the last EMA9 is above the
      last EMA21, the last MACD line is above its signal and the last RSI is
      below 70. */
  lemma ConfirmedUptrendNeedsAllThree(closes: seq<real>, ind: Indicators)
    requires Analyze(closes, ind).Success?
    requires Analyze(closes, ind).analysis.interpretation == ConfirmedUptrend
    ensures |ind.ema9| > 0 && |ind.ema21| > 0 && ind.ema9[|ind.ema9| - 1] > ind.ema21[|ind.ema21| - 1]
    ensures var p := ind.macd[|ind.macd| - 1];
              p.macd.Some? && p.signal.Some? && p.macd.value > p.signal.value
    ensures |ind.rsi| > 0 && ind.rsi[|ind.rsi| - 1] < 70.0
  {
  }

  /** A continued downtrend is reported only when neither EMA9 nor the MACD
      line is strictly above its partner and the last RSI is above 30. */
  lemma ContinuedDowntrendNeedsAllThree(closes: seq<real>, ind: Indicators)
    requires Analyze(closes, ind).Success?
    requires Analyze(closes, ind).analysis.interpretation == ContinuedDowntrend
    ensures !(|ind.ema9| > 0 && |ind.ema21| > 0 && ind.ema9[|ind.ema9| - 1] > ind.ema21[|ind.ema21| - 1])
    ensures var p := ind.macd[|ind.macd| - 1];
              !(p.macd.Some? && p.signal.Some? && p.macd.value > p.signal.value)
    ensures |ind.rsi| > 0 && ind.rsi[|ind.rsi| - 1] > 30.0
  {
  }

  /** On failure the panel is cleared (no price, no summary, empty
      interpretation) and carries the error; on success it carries no error
      and one of the five interpretation texts. The interpretation text is
      empty exactly when the step failed. */
  lemma SettleClearsOnFailure(o: Outcome)
    ensures o.Failed? ==> Settle(o) == Panel(None, None, "", Some(o.reason))
    ensures o.Success? ==> Settle(o).error.None? && Settle(o).price == Some(o.analysis.price)
    ensures Settle(o).error.Some? <==> Settle(o).analiseTexto == ""
  {
    if o.Success? {
      TextsDistinct(o.analysis.interpretation, o.analysis.interpretation);
    }
  }

  /** The panel after a run with no MACD points is the cleared panel,
      whatever the prices and the other indicators are. */
  lemma EmptyMacdClearsPanel(closes: seq<real>, ema9: seq<real>, ema21: seq<real>, rsi: seq<real>)
    ensures Settle(Analyze(closes, Indicators(ema9, ema21, rsi, []))) ==
              Panel(None, None, "", Some(MacdUnavailable))
  {
  }
}
