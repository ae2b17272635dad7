/**
  The per-series classification of the dashboard: from the last values of the
  EMA9, EMA21, RSI14 and MACD(12,26,9) sequences it derives the trend, the
  MACD direction and the RSI zone that the summary line shows.
*/
module Classification {
  import opened JsValues

  /** The two labels the analysis uses for a direction: 'alta' (up) and 'baixa' (down). */
  datatype Direction = Alta | Baixa
  {
    function Name(): string
    {
      match this
      case Alta => "alta"
      case Baixa => "baixa"
    }
  }

  /** One element of the MACD sequence. Either field may be `undefined`. */
  datatype MacdPoint = MacdPoint(macd: Option<real>, signal: Option<real>)

  /** `fast > slow ? 'alta' : 'baixa'`: a strict comparison, so a tie or an
      undefined side is 'baixa'. */
  function DirectionOf(fast: Option<real>, slow: Option<real>): (d: Direction)
    ensures d == Alta <==> fast.Some? && slow.Some? && fast.value > slow.value
    ensures fast == slow ==> d == Baixa
  {
    if Greater(fast, slow) then Alta else Baixa
  }

  /** The trend (`tendencia`): last EMA9 against last EMA21. */
  function Trend(ema9: seq<real>, ema21: seq<real>): (d: Direction)
    ensures d == Alta ==> ema9 != [] && ema21 != []
    ensures ema9 == [] || ema21 == [] ==> d == Baixa
  {
    DirectionOf(Last(ema9), Last(ema21))
  }

  /** The MACD direction (`direcaoMACD`): the last point's MACD line against its signal line. */
  function MacdDirection(last: MacdPoint): (d: Direction)
    ensures d == Alta ==> last.macd.Some? && last.signal.Some?
    ensures last.signal.None? ==> d == Baixa
  {
    DirectionOf(last.macd, last.signal)
  }

  /** The zone label shown beside the RSI value. */
  datatype RsiZone = Sobrecompra | Sobrevenda | Neutro
  {
    function Label(): string
    {
      match this
      case Sobrecompra => "Sobrecompra"
      case Sobrevenda => "Sobrevenda"
      case Neutro => "Neutro"
    }
  }

  const Overbought: real := 70.0
  const Oversold: real := 30.0

  /** `rsi > 70 ? 'Sobrecompra' : rsi < 30 ? 'Sobrevenda' : 'Neutro'`. */
  function Zone(rsi: Option<real>): (z: RsiZone)
    ensures rsi.None? ==> z == Neutro
    ensures z == Sobrecompra ==> rsi.Some? && rsi.value > Overbought
    ensures z == Sobrevenda ==> rsi.Some? && rsi.value < Oversold
  {
    if Greater(rsi, Some(Overbought)) then Sobrecompra
    else if Less(rsi, Some(Oversold)) then Sobrevenda
    else Neutro
  }

  /** The EMA phrase of the summary, chosen by the trend. */
  function EmaPhrase(trend: Direction): (p: string)
    ensures trend == Alta <==> p == "EMA9 acima da EMA21 (Alta)"
    ensures trend == Baixa <==> p == "EMA9 abaixo da EMA21 (Baixa)"
  {
    match trend
    case Alta => "EMA9 acima da EMA21 (Alta)"
    case Baixa => "EMA9 abaixo da EMA21 (Baixa)"
  }

  /** The data points the summary line (`resumo`) shows; the formatting of
      the numbers is not modelled. */
  datatype Summary = Summary(lastClose: real, rsi: Option<real>, zone: RsiZone,
                             emaPhrase: string, macdDirection: Direction)

  function Summarize(lastClose: real, rsi: Option<real>, trend: Direction, macd: Direction): (s: Summary)
    ensures s.lastClose == lastClose && s.rsi == rsi && s.macdDirection == macd
    ensures s.zone == Zone(rsi)
    ensures s.zone == Sobrecompra <==> rsi.Some? && rsi.value > Overbought
    ensures s.zone == Sobrevenda <==> rsi.Some? && rsi.value < Oversold
    ensures s.zone == Neutro <==> rsi.None? || Oversold <= rsi.value <= Overbought
    ensures s.emaPhrase == EmaPhrase(trend)
    ensures (s.emaPhrase == EmaPhrase(Alta)) <==> trend == Alta
  {
    Summary(lastClose, rsi, Zone(rsi), EmaPhrase(trend), macd)
  }

  /** The trend is 'alta' exactly when both EMA sequences are non-empty and
      the last EMA9 is strictly above the last EMA21. */
  lemma TrendAltaIff(ema9: seq<real>, ema21: seq<real>)
    ensures Trend(ema9, ema21) == Alta <==>
              |ema9| > 0 && |ema21| > 0 && ema9[|ema9| - 1] > ema21[|ema21| - 1]
  {
  }

  /** Equal last EMAs, or a missing one, give 'baixa'. */
  lemma TrendTieOrMissingIsBaixa(ema9: seq<real>, ema21: seq<real>)
    requires ema9 == [] || ema21 == [] || ema9[|ema9| - 1] == ema21[|ema21| - 1]
    ensures Trend(ema9, ema21) == Baixa
  {
  }

  /** The MACD direction is 'alta' exactly when both lines are defined and the
      MACD line is strictly above the signal line; a tie gives 'baixa'. */
  lemma MacdAltaIff(p: MacdPoint)
    ensures MacdDirection(p) == Alta <==>
              p.macd.Some? && p.signal.Some? && p.macd.value > p.signal.value
    ensures p.macd == p.signal ==> MacdDirection(p) == Baixa
  {
  }

  /** Each zone label holds exactly on its range, a missing RSI is 'Neutro',
      and the three labels are distinct strings. */
  lemma ZoneIff(rsi: Option<real>)
    ensures Zone(rsi) == Sobrecompra <==> rsi.Some? && rsi.value > 70.0
    ensures Zone(rsi) == Sobrevenda <==> rsi.Some? && rsi.value < 30.0
    ensures Zone(rsi) == Neutro <==> rsi.None? || 30.0 <= rsi.value <= 70.0
  {
  }

  /** The labels shown are distinct, so the text names the zone. */
  lemma LabelsDistinct(a: RsiZone, b: RsiZone)
    ensures a.Label() == b.Label() ==> a == b
  {
  }

  /** The direction names are distinct, so the text names the direction. */
  lemma NamesDistinct(a: Direction, b: Direction)
    ensures a.Name() == b.Name() ==> a == b
  {
  }
}
