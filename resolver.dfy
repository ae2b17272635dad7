/**
  The overall interpretation (`interpretacao`): an ordered chain of five rules
  over the trend, the MACD direction and the last RSI value; the first rule
  whose condition holds chooses the text.
*/
module Resolver {
  import opened JsValues
  import opened Classification

  /** The five interpretations, one per rule of the chain. */
  datatype Interpretation = ConfirmedUptrend | ContinuedDowntrend | OverboughtRisk | OversoldBottom | Mixed
  {
    /** The literal text the dashboard shows for each interpretation. */
    function Text(): (t: string)
      ensures t != ""
    {
      match this
      case ConfirmedUptrend =>
        "Tendência de alta confirmada com impulso positivo. RSI ainda em zona saudável."
      case ContinuedDowntrend =>
        "Tendência de baixa continua. Mercado enfraquecido, mas RSI fora de sobrevenda."
      case OverboughtRisk =>
        "RSI indica sobrecompra. Possível correção à vista, cuidado com entradas tardias."
      case OversoldBottom =>
        "RSI em sobrevenda. Pode haver formação de fundo, mas sem confirmação de reversão ainda."
      case Mixed =>
        "Indicadores mistos. Aguardar mais confirmação antes de entrar."
    }
  }

  /** What the chain looks at. */
  datatype Signals = Signals(trend: Direction, macd: Direction, rsi: Option<real>)

  /** The if / else-if chain, in the order it is written. */
  function Interpret(s: Signals): (r: Interpretation)
    ensures r == ConfirmedUptrend ==> s.trend == Alta && s.macd == Alta && s.rsi.Some? && s.rsi.value < 70.0
    ensures r == ContinuedDowntrend ==> s.trend == Baixa && s.macd == Baixa && s.rsi.Some? && s.rsi.value > 30.0
    ensures r == OverboughtRisk ==> s.rsi.Some? && s.rsi.value > 70.0
    ensures r == OversoldBottom ==> s.rsi.Some? && s.rsi.value < 30.0
    ensures s.rsi.None? ==> r == Mixed
  {
    if s.trend == Alta && s.macd == Alta && Less(s.rsi, Some(Overbought)) then ConfirmedUptrend
    else if s.trend == Baixa && s.macd == Baixa && Greater(s.rsi, Some(Oversold)) then ContinuedDowntrend
    else if Greater(s.rsi, Some(Overbought)) then OverboughtRisk
    else if Less(s.rsi, Some(Oversold)) then OversoldBottom
    else Mixed
  }

  // ---------------------------------------------------------------------
  // The same chain written as data: a decision table read top to bottom.
  // ---------------------------------------------------------------------

  /** A condition on the RSI value, with JavaScript's comparison semantics. */
  datatype RsiTest = Below(bound: real) | Above(bound: real) | AnyRsi

  /** One row of the table: required trend and MACD direction (None: any),
      the RSI condition, and the interpretation it selects. */
  datatype Rule = Rule(trend: Option<Direction>, macd: Option<Direction>, rsi: RsiTest,
                       result: Interpretation)

  predicate RsiHolds(t: RsiTest, rsi: Option<real>)
  {
    match t
    case Below(b) => Less(rsi, Some(b))
    case Above(b) => Greater(rsi, Some(b))
    case AnyRsi => true
  }

  predicate Matches(r: Rule, s: Signals)
  {
    && (r.trend.None? || r.trend.value == s.trend)
    && (r.macd.None? || r.macd.value == s.macd)
    && RsiHolds(r.rsi, s.rsi)
  }

  /** The index of the first row that matches, or |rules| when none does. */
  function FirstMatch(rules: seq<Rule>, s: Signals): (k: nat)
    ensures k <= |rules|
    ensures k < |rules| ==> Matches(rules[k], s)
    ensures forall j :: 0 <= j < k ==> !Matches(rules[j], s)
    decreases |rules|
  {
    if rules == [] then 0
    else if Matches(rules[0], s) then 0
    else
      var k' := FirstMatch(rules[1..], s);
      assert forall j :: 1 <= j < k' + 1 ==> rules[j] == rules[1..][j - 1];
      1 + k'
  }

  /** The rules of the chain, in source order; the last one always matches. */
  const Table: seq<Rule> := [
    Rule(Some(Alta), Some(Alta), Below(Overbought), ConfirmedUptrend),
    Rule(Some(Baixa), Some(Baixa), Above(Oversold), ContinuedDowntrend),
    Rule(None, None, Above(Overbought), OverboughtRisk),
    Rule(None, None, Below(Oversold), OversoldBottom),
    Rule(None, None, AnyRsi, Mixed)
  ]

  /** The chain selects the result of the first matching row of the table. */
  lemma InterpretIsFirstMatch(s: Signals)
    ensures FirstMatch(Table, s) < |Table|
    ensures Interpret(s) == Table[FirstMatch(Table, s)].result
  {
    assert Matches(Table[4], s);
    var k := FirstMatch(Table, s);
    if k == 0 {
    } else if k == 1 {
      assert !Matches(Table[0], s);
    } else if k == 2 {
      assert !Matches(Table[0], s) && !Matches(Table[1], s);
    } else if k == 3 {
      assert !Matches(Table[0], s) && !Matches(Table[1], s) && !Matches(Table[2], s);
    } else {
      assert !Matches(Table[0], s) && !Matches(Table[1], s) && !Matches(Table[2], s) && !Matches(Table[3], s);
    }
  }

  /** First match wins: rule k decides exactly when its own condition holds
      and no earlier rule's does. */
  lemma FirstMatchWins(s: Signals, k: nat)
    requires k < |Table|
    ensures Interpret(s) == Table[k].result <==>
              Matches(Table[k], s) && forall j :: 0 <= j < k ==> !Matches(Table[j], s)
  {
    InterpretIsFirstMatch(s);
    var m := FirstMatch(Table, s);
    if Matches(Table[k], s) && forall j :: 0 <= j < k ==> !Matches(Table[j], s) {
      assert m == k;
    }
  }

  // ---------------------------------------------------------------------
  // Consequences stated on the signals themselves.
  // ---------------------------------------------------------------------

  /** The confirmed-uptrend text is chosen exactly when trend and MACD are
      'alta' and the RSI is defined and below 70. */
  lemma ConfirmedUptrendIff(s: Signals)
    ensures Interpret(s) == ConfirmedUptrend <==>
              s.trend == Alta && s.macd == Alta && s.rsi.Some? && s.rsi.value < 70.0
  {
  }

  /** The continued-downtrend text is chosen exactly when trend and MACD are
      'baixa' and the RSI is defined and above 30. */
  lemma ContinuedDowntrendIff(s: Signals)
    ensures Interpret(s) == ContinuedDowntrend <==>
              s.trend == Baixa && s.macd == Baixa && s.rsi.Some? && s.rsi.value > 30.0
  {
  }

  /** Overbought is chosen exactly when RSI is above 70 and the downtrend rule,
      which comes first, does not apply. */
  lemma OverboughtIff(s: Signals)
    ensures Interpret(s) == OverboughtRisk <==>
              s.rsi.Some? && s.rsi.value > 70.0 && !(s.trend == Baixa && s.macd == Baixa)
  {
  }

  /** Oversold is chosen exactly when RSI is below 30 and the uptrend rule,
      which comes first, does not apply. */
  lemma OversoldIff(s: Signals)
    ensures Interpret(s) == OversoldBottom <==>
              s.rsi.Some? && s.rsi.value < 30.0 && !(s.trend == Alta && s.macd == Alta)
  {
  }

  /** Mixed signals is chosen exactly when the RSI is undefined, or it is in
      [30, 70] and sits on the one boundary the matching trend rule excludes. */
  lemma MixedIff(s: Signals)
    ensures Interpret(s) == Mixed <==>
              s.rsi.None? ||
              (30.0 <= s.rsi.value <= 70.0 &&
               (s.trend == Alta && s.macd == Alta ==> s.rsi.value == 70.0) &&
               (s.trend == Baixa && s.macd == Baixa ==> s.rsi.value == 30.0))
  {
  }

  /** Rule order: an uptrend confirmed by MACD with RSI 75 is reported as
      overbought, not as a confirmed uptrend. */
  lemma UptrendWithHighRsiIsOverbought()
    ensures Interpret(Signals(Alta, Alta, Some(75.0))) == OverboughtRisk
  {
  }

  /** Boundaries: RSI exactly 70 in an uptrend, or exactly 30 in a downtrend,
      falls through every rule. */
  lemma BoundariesAreMixed()
    ensures Interpret(Signals(Alta, Alta, Some(70.0))) == Mixed
    ensures Interpret(Signals(Baixa, Baixa, Some(30.0))) == Mixed
  {
  }

  /** An undefined RSI makes every RSI comparison false, so the result is
      mixed signals whatever the directions. */
  lemma MissingRsiIsMixed(trend: Direction, macd: Direction)
    ensures Interpret(Signals(trend, macd, None)) == Mixed
  {
  }

  /** The length of each text, and the letter that tells apart the two of equal length. */
  lemma TextShape(i: Interpretation)
    ensures |i.Text()| == match i
                          case ConfirmedUptrend => 78
                          case ContinuedDowntrend => 78
                          case OverboughtRisk => 80
                          case OversoldBottom => 87
                          case Mixed => 62
    ensures i == ConfirmedUptrend ==> i.Text()[76] == 'l'
    ensures i == ContinuedDowntrend ==> i.Text()[76] == 'a'
  {
    match i
    case ConfirmedUptrend =>
    case ContinuedDowntrend =>
    case OverboughtRisk =>
    case OversoldBottom =>
    case Mixed =>
  }

  /** The five texts are pairwise distinct, so the text shown identifies the
      rule that fired; none of them is the empty string. */
  lemma TextsDistinct(a: Interpretation, b: Interpretation)
    ensures a.Text() == b.Text() ==> a == b
    ensures a.Text() != ""
  {
    TextShape(a);
    TextShape(b);
    if a.Text() == b.Text() && |a.Text()| == 78 {
      assert a.Text()[76] == b.Text()[76];
    }
  }

  /** The zone label and the interpretation agree: an overbought or oversold
      interpretation always comes with that zone, and the zones unlock only
      the interpretations consistent with them. */
  lemma ZoneAgreesWithInterpretation(s: Signals)
    ensures Interpret(s) == OverboughtRisk ==> Zone(s.rsi) == Sobrecompra
    ensures Interpret(s) == OversoldBottom ==> Zone(s.rsi) == Sobrevenda
    ensures Zone(s.rsi) == Sobrecompra ==> Interpret(s) in {OverboughtRisk, ContinuedDowntrend}
    ensures Zone(s.rsi) == Sobrevenda ==> Interpret(s) in {OversoldBottom, ConfirmedUptrend}
    ensures Zone(s.rsi) == Neutro ==> Interpret(s) !in {OverboughtRisk, OversoldBottom}
  {
  }
}
