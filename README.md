# Crypto dashboard market-state model

This project models the decision logic of the crypto dashboard's chart
analysis (`fetchChart` in `src/App.js`). The dashboard fetches 30 days of
daily closes for one asset and passes them to an indicator library, which
returns EMA9, EMA21, RSI14 and MACD(12,26,9) sequences. It then takes the
last value of each sequence and turns them into:

- a trend (`tendencia`): 'alta' or 'baixa', from last EMA9 against last EMA21;
- a MACD direction (`direcaoMACD`): 'alta' or 'baixa', from the last MACD line against its signal line;
- an RSI zone label: 'Sobrecompra', 'Sobrevenda' or 'Neutro';
- one of five fixed interpretation texts (`interpretacao`), chosen by an ordered if / else-if chain where the first match wins.

It then either fills the panel with price, summary and interpretation, or
clears the panel when the step throws.

The model is written as pure functions and lemmas:

- `jsvalues.dfy` (module `JsValues`): JavaScript's `undefined`. An array read past its end, or a missing property, is `Option.None`. A `>` or `<` involving `undefined` is false.
- `classification.dfy` (module `Classification`): the classifiers `DirectionOf`, `Trend`, `MacdDirection` and `Zone`, the EMA phrase, and the summary record.
- `resolver.dfy` (module `Resolver`): the interpretation chain `Interpret`. It also holds the same chain written as a decision table (`Table`), read by a generic first-match function (`FirstMatch`). A lemma proves the chain and the table agree, and another states "first match wins" declaratively.
- `fetchchart.dfy` (module `FetchChart`): `Analyze` covers everything from the last-value lookups to the end of the chain, with its two throwing points. `Settle` gives the panel state that the success path or the catch block leaves behind.

The indicator sequences and the closing prices are inputs. The indicator
library is outside this model. MACD points have optional `macd` and `signal`
fields, because a JavaScript object read through a missing property gives
`undefined`, and the comparison then goes to 'baixa'.

The code analyses a single daily series of 30 days. On short or missing
indicator data it behaves as follows:

- An empty EMA sequence makes the last-value comparison false, so the trend is 'baixa'. The zone still depends on the RSI alone, and the chain runs with trend 'baixa'.
- An empty RSI sequence gives the 'Neutro' zone and the mixed-signals text, whatever the trend and the MACD direction (`MissingRsiGivesMixed`).
- Only an empty MACD sequence (reading `.MACD` of `undefined`, line 48) or an empty price list (`toFixed` on `undefined`, line 51) makes the step fail. The MACD failure happens first.

## Model

| member | source | states |
|---|---|---|
| JsValues.Last | src/App.js:46-47 | the last-element lookup is undefined exactly for an empty array, and otherwise yields an element of it |
| JsValues.LastOfPush | src/App.js:46-47 | the lookup yields the element at the end of the sequence |
| JsValues.Greater | src/App.js:48-58 | JavaScript `>` on possibly undefined numbers: false when either side is undefined |
| JsValues.Less | src/App.js:54-60 | JavaScript `<` on possibly undefined numbers: false when either side is undefined |
| JsValues.ComparisonsWithUndefined | src/App.js:48-49 | a `>` or `<` with an undefined side is false; `a > b` and `a < b` never both hold; `a > b` iff `b < a` |
| Classification.DirectionOf | src/App.js:48-49 | the shared ternary: 'alta' iff both sides are defined and the first is strictly greater; equal sides give 'baixa' |
| Classification.Trend | src/App.js:49 | 'alta' only when both EMA sequences are non-empty; an empty one gives 'baixa' (full iff in TrendAltaIff) |
| Classification.MacdDirection | src/App.js:48 | 'alta' only when both MACD fields are defined; an undefined signal gives 'baixa' (full iff in MacdAltaIff) |
| Classification.Zone | src/App.js:51 | an undefined RSI is 'Neutro'; 'Sobrecompra' only above 70, 'Sobrevenda' only below 30 (full iff in ZoneIff) |
| Classification.EmaPhrase | src/App.js:51 | the "acima" phrase exactly for trend 'alta' and the "abaixo" phrase exactly for trend 'baixa' |
| Classification.TrendAltaIff | src/App.js:49 | trend is 'alta' iff both EMA sequences are non-empty and last EMA9 > last EMA21 (strict) |
| Classification.TrendTieOrMissingIsBaixa | src/App.js:49 | equal last EMAs, or an empty EMA sequence, give 'baixa' |
| Classification.MacdAltaIff | src/App.js:48 | MACD direction is 'alta' iff both lines are defined and MACD > signal; equal lines give 'baixa' |
| Classification.ZoneIff | src/App.js:51 | 'Sobrecompra' iff RSI > 70, 'Sobrevenda' iff RSI < 30, 'Neutro' iff RSI undefined or in [30, 70] |
| Classification.LabelsDistinct | src/App.js:51 | the three zone labels are distinct strings |
| Classification.NamesDistinct | src/App.js:48-49 | the direction names 'alta' and 'baixa' are distinct, so the `===` tests of the chain tell them apart |
| Classification.Summarize | src/App.js:51 | the summary carries the last close, the RSI and the MACD direction; its zone is the RSI's zone: 'Sobrecompra' iff RSI > 70, 'Sobrevenda' iff RSI < 30, 'Neutro' iff undefined or in [30, 70]; its EMA phrase is the trend's, the "acima" phrase iff the trend is 'alta' |
| Resolver.Interpretation.Text | src/App.js:55-63 | the literal text of each interpretation, never empty (pairwise distinct by TextsDistinct) |
| Resolver.Interpret | src/App.js:53-64 | each text is returned only under its rule's condition (confirmed uptrend: alta/alta/RSI < 70; downtrend: baixa/baixa/RSI > 30; overbought: RSI > 70; oversold: RSI < 30), and an undefined RSI gives mixed signals; the converses are the Iff lemmas |
| Resolver.FirstMatch | src/App.js:53-64 | returns the index of a matching rule, or the table length, and says no earlier rule matches |
| Resolver.InterpretIsFirstMatch | src/App.js:53-64 | the if / else-if chain always selects a row of the five-row table (the last row always matches) and returns the result of the first matching row |
| Resolver.FirstMatchWins | src/App.js:53-64 | rule k decides iff its condition holds and no earlier rule's condition holds |
| Resolver.ConfirmedUptrendIff | src/App.js:54-55 | confirmed uptrend iff trend 'alta', MACD 'alta' and RSI defined and < 70 |
| Resolver.ContinuedDowntrendIff | src/App.js:56-57 | continued downtrend iff trend 'baixa', MACD 'baixa' and RSI defined and > 30 |
| Resolver.OverboughtIff | src/App.js:54-59 | overbought iff RSI > 70 and not both directions 'baixa' (the downtrend rule comes first) |
| Resolver.OversoldIff | src/App.js:54-61 | oversold iff RSI < 30 and not both directions 'alta' (the uptrend rule comes first) |
| Resolver.MixedIff | src/App.js:54-63 | mixed signals iff RSI undefined, or RSI in [30, 70] and equal to 70 under 'alta'/'alta' and to 30 under 'baixa'/'baixa' |
| Resolver.UptrendWithHighRsiIsOverbought | src/App.js:54-59 | 'alta'/'alta' with RSI 75 gives the overbought text, not the confirmed-uptrend text |
| Resolver.BoundariesAreMixed | src/App.js:54-63 | 'alta'/'alta' with RSI exactly 70, and 'baixa'/'baixa' with RSI exactly 30, give the mixed-signals text |
| Resolver.MissingRsiIsMixed | src/App.js:54-63 | an undefined RSI gives the mixed-signals text whatever the directions |
| Resolver.TextShape | src/App.js:55-63 | helper for TextsDistinct: the length of each literal text, and the letter that separates the two texts of equal length |
| Resolver.TextsDistinct | src/App.js:53-64 | the five texts are pairwise distinct and none is empty, so the text shown identifies the rule that fired |
| Resolver.ZoneAgreesWithInterpretation | src/App.js:51-61 | overbought / oversold texts only come with the matching zone; a 'Sobrecompra' zone gives overbought or continued downtrend, a 'Sobrevenda' zone gives oversold or confirmed uptrend, and 'Neutro' gives neither overbought nor oversold |
| FetchChart.Analyze | src/App.js:46-68 | fails iff the MACD sequence or the price list is empty, with the MACD failure taking precedence; on success the price is the last close and the summary's RSI is the last RSI value |
| FetchChart.AnalyzeSucceedsIff | src/App.js:46-68 | success iff MACD and prices are non-empty, and then the interpretation is the chain applied to trend, MACD direction and last RSI, and the summary carries the last close, last RSI with its zone, the trend's EMA phrase and the MACD direction |
| FetchChart.MissingRsiGivesMixed | src/App.js:46-64 | an empty RSI sequence (MACD and price present) gives success with the mixed-signals text and the 'Neutro' zone |
| FetchChart.ConfirmedUptrendNeedsAllThree | src/App.js:46-55 | a confirmed uptrend implies last EMA9 > last EMA21, last MACD > its signal (both defined) and last RSI < 70 |
| FetchChart.ContinuedDowntrendNeedsAllThree | src/App.js:46-57 | a continued downtrend implies EMA9 not above EMA21, MACD not above its signal, and last RSI > 30 |
| FetchChart.SettleClearsOnFailure | src/App.js:66-73 | on failure the panel is price null, summary null, interpretation '' with the error set; on success there is no error and the price is shown; the interpretation text is empty iff the step failed |
| FetchChart.Settle | src/App.js:66-73 | the error is set iff the step failed; on failure price and summary are null and the text is ''; on success the panel shows the analysis' price, summary and interpretation text |
| FetchChart.EmptyMacdClearsPanel | src/App.js:47-73 | an empty MACD sequence leaves the cleared panel with the MACD error, whatever the other inputs |

## Left out

- HTTP fetch and JSON decoding (src/App.js:27-31): network I/O. The closing prices are an input, and a failed fetch (which also ends in the catch block) is not modelled.
- The EMA, RSI and MACD computations (src/App.js:34-44): these are calls into an external library whose source is not part of this model. Their output sequences are inputs.
- Floating point: numbers are reals, so NaN and rounding are not modelled.
- Number formatting with `toFixed` in the summary and in the render (src/App.js:51, 100). The summary is a record of the values and labels it shows, not a string.
- FetchChart.Settle: the error is recorded as a failure kind instead of the engine's `err.message` text, which depends on the JavaScript engine.
- React state hooks, the loading flag, the re-fetch on selection change, the asset list, the `<select>` and the rendering with its `price && indicadores` guard (src/App.js:5-25, 74-106): user-interface plumbing.
