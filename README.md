# Groundwater advisory API — decision layer and prediction endpoint

This project models the prediction endpoint of a small groundwater forecasting
service (`app.py`). The endpoint obtains two numbers: the random-forest
estimate of the current groundwater level and the ARIMA one-step-ahead
forecast. It turns them into two advisories:

- a **level status**, from the estimate alone, with the half-open brackets
  `< 1` critical, `[1, 3)` below average and `>= 3` stable;
- a **recharge status**: improving when the forecast is strictly above the
  estimate, otherwise at risk. A tie counts as at risk.

It answers with a dictionary, serialised as JSON, carrying both numbers and
both advisory texts. When anything fails it answers with a dictionary whose
only key is `"error"`.

Modules:

- `Wrappers` (`wrappers.dfy`): `Option` and `Result`.
- `Decision` (`decision.dfy`): the two statuses, the bracket edges 1 and 3,
  and the rules.
- `Labels` (`labels.dfy`): the five advisory texts of the source, emoji
  included, and how to read a text back into its status.
- `Json` (`json.dfy`): JSON values, with objects as lists of members, and key
  lookup.
- `Handler` (`handler.dfy`): the endpoint as the function `Predict`, the
  dictionary it answers with, and how a client reads that dictionary back.

The model calls are inputs of `Predict`, each a `Result<real>`. The two calls
do not depend on each other, but the source makes the estimate first and
skips the forecast when it fails, so the estimate's error text wins. The rounding of
both numbers to two decimals is a parameter `display: real -> real`. It
touches only the two numbers in the response; the advisories are computed
from the unrounded outputs, as in the source.

## Model

| member | source | states |
|---|---|---|
| `Decision.ThresholdsReached` | app.py:31-36 | reference count of the bracket edges a value has reached, used to give the brackets their order; its own contract only bounds the count by the number of edges |
| `Decision.ThresholdsReachedMonotone` | app.py:31-36 | a larger value reaches at least as many bracket edges |
| `Decision.LevelStatusOf` | app.py:31-36 | the rank of the chosen status (Critical 0, BelowAverage 1, Stable 2) equals the number of the edges 1 and 3 that the estimate has reached, so each edge belongs to its upper bracket |
| `Decision.LevelStatusIsOnlyBracket` | app.py:31-36 | the three half-open brackets partition the reals: the chosen status's bracket holds, and no other status's bracket does |
| `Decision.LevelBoundaries` | app.py:31-36 | an estimate of exactly 1 is below average (not critical) and exactly 3 is stable |
| `Decision.LevelMonotone` | app.py:31-36 | for a <= b, the status of b is never more severe than the status of a |
| `Decision.RechargeStatusOf` | app.py:39-42 | improving exactly when the forecast is strictly above the estimate; at risk exactly when it is at most the estimate |
| `Decision.Decide` | app.py:29-42 | the level advisory is the status whose bracket holds for the estimate; the recharge advisory is improving exactly when the forecast is strictly higher |
| `Decision.RechargeRule` | app.py:39-42 | improving exactly when the forecast is strictly above the estimate; at risk exactly when it is at most the estimate, including a tie |
| `Decision.DecideLevelIgnoresForecast` | app.py:31-42 | the level advisory does not depend on the forecast |
| `Labels.ParseLevel` | app.py:32-36 | a recognised text is exactly the text shown for the status found; an unrecognised text is the text of no level status |
| `Labels.ParseRecharge` | app.py:40-42 | a recognised text is exactly the text shown for the status found; an unrecognised text is the text of no recharge status |
| `Labels.LevelLabel` | app.py:32-36 | the text of each level status; its properties are stated by `Labels.LevelLabelRoundTrip` and `Labels.LabelsInjective` |
| `Labels.RechargeLabel` | app.py:40-42 | the text of each recharge status; its properties are stated by `Labels.RechargeLabelRoundTrip` and `Labels.LabelsInjective` |
| `Labels.LevelLabelRoundTrip` | app.py:32-36 | each level text reads back as its own status |
| `Labels.RechargeLabelRoundTrip` | app.py:40-42 | each recharge text reads back as its own status |
| `Labels.LabelsInjective` | app.py:32-42 | distinct statuses are shown with distinct texts, so the texts map one-to-one onto the statuses |
| `Json.Lookup` | app.py:45-52 | the value found under a key is that of the first member with that key; nothing is found exactly when no member has the key |
| `Json.LookupDistinct` | app.py:45-52 | in an object with distinct keys, each key finds its own member |
| `Json.Keys` | app.py:45-52 | lists the keys of an object's members, one per member, in order |
| `Handler.Predict` | app.py:18-56 | succeeds exactly when both model calls succeed; returns the first failing call's text otherwise; on success shows the displayed numbers, with a level status whose bracket holds for the raw estimate and a recharge status that is improving exactly when the raw forecast exceeds the raw estimate |
| `Handler.ReadInsights` | app.py:48-51 | a readable insights object holds the texts of the statuses read |
| `Handler.ReadReply` | app.py:45-56 | a body read as a failure carries its text under "error"; a body read as a success has no "error" member and carries both numbers read |
| `Handler.RenderInsights` | app.py:48-51 | the insights dictionary reads back as the advisories it was built from |
| `Handler.Render` | app.py:45-56 | the answer is always an object, and it has an "error" key exactly when the reply is a failure; as the dictionary literals build it, before serialisation |
| `Handler.RenderRoundTrip` | app.py:45-56 | every dictionary the endpoint answers with, error or success, reads back as the reply it was built from |
| `Handler.FailureHasNoPartialResult` | app.py:18-27 | when either call fails, the answer has the single key "error", holding the first failure's text, and no other key finds anything |
| `Handler.SuccessCarriesEverything` | app.py:45-52 | when both calls succeed, the dictionary built at app.py:45-52 has exactly the keys rf_prediction, arima_forecast, insights in the literal's order, no "error", both displayed numbers, and the insights object of the rules applied to the raw outputs |
| `Handler.RegressorFailureHidesForecaster` | app.py:24-27 | once the estimate fails, the answer is the same whatever the forecast would have been |
| `Handler.ScenarioCritical` | app.py:31-32 | an estimate of 0.4 is critical and the forecast is still reported |
| `Handler.ScenarioBelowAverageAtRisk` | app.py:31-42 | estimate 2.5 with forecast 2.0 is below average and at risk |
| `Handler.ScenarioStableImproving` | app.py:31-42 | estimate 5.0 with forecast 6.0 is stable and improving |

## Left out

- Flask set-up, routing, `request.json`, `jsonify` and the liveness route (app.py:1-16, 53, 59-60): HTTP plumbing. The answer is modelled as the dictionary before serialisation; the status code is not modelled, since the source answers 200 in both cases.
- Loading the pickled models (app.py:9-10): file I/O and foreign deserialisation.
- Building the one-row frame, `rf.predict` and `arima_model.forecast` (app.py:21, 24, 27): opaque library calls. Each is an input that yields a number or fails with a message. Reading the request and building the frame are folded into the estimate's outcome, because they fail before the forecast is asked for.
- Key order after serialisation: `jsonify` (app.py:53, 56) sorts the keys by default, so the bytes sent list `arima_forecast`, `insights`, `rf_prediction`. The model stops at the dictionary before serialisation. This changes no result, because every read goes through a key lookup.
- `round(float(...), 2)` (app.py:46-47): floating-point display rounding. It is the parameter `display` of `Predict`, with no properties assumed.
- Handler.Predict: does not model NaN or infinite outputs. The model's outputs are mathematical reals, and Python's float comparisons with NaN are not modelled.
- The error text: `str(e)` of the raised exception is the message carried by the failed input, not computed by the model.
- Persisting predictions and the history endpoint: the shown source has no store, so neither is modelled.
