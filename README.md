# Heating-load prediction: form and `/predict` handler

A Dafny model of the two pieces of logic in a small building-energy
application. A React form collects eight building-design parameters
(relative compactness, surface area, wall area, roof area, overall height,
orientation, glazing area, glazing-area distribution) and a model
identifier, posts them to a Flask service, and shows the predicted heating
load or an error. The service's `/predict` handler turns the JSON body into a
feature vector, picks one of three trained models and answers.

- `wire.dfy` (module `Wire`): JSON values, JavaScript truthiness, optional
  member access and the eight feature names in feature-vector order.
- `prediction_form.dfy` (module `PredictionForm`): the form component as a
  class `Form` with its four state variables (`formData`, `prediction`,
  `loading`, `error`) and one method per handler. The submit handler is
  split at its `await` into `BeginSubmit` and `CompleteSubmit`; the request's
  result is the `Settled` argument of the latter. The numeric coercion, the
  error-message choice, the four render conditions of the results panel and
  the model-label lookup are functions.
- `predict_api.dfy` (module `PredictApi`): the `/predict` handler as a
  function from the parsed request body to a status and a JSON body.
- `form_to_service.dfy` (module `FormToService`): lemmas that join the two
  ends: the handler reads back what the form sent, the selector offers
  exactly the service's models, and every successful answer has a label.

Collaborators that the model does not look into are parameters:
`parseFloat` is `parse: string -> Option<real>` (None stands for NaN);
numpy's array construction, each model's `predict` and Python's `str(e)`
for the exceptions it raises itself are the fields of `PredictApi.Library`.

What the code does not do, though a reader might expect it:
- There is no generation counter. A response that arrives after `resetForm`
  is still applied, because `Reset` leaves `loading` true and
  `CompleteSubmit` only needs a pending request.
- A new submit cannot start while one is pending. The submit button is
  disabled while `loading`, which is `BeginSubmit`'s precondition.
- A 2xx body of any shape is stored as the prediction; no malformed-response
  failure exists. A falsy body (for example an empty string) leaves the
  placeholder on screen instead of a result card.
- The error text is the server's `error` member whenever it is truthy,
  whatever its JSON type, and the fallback message otherwise.

## Model

| member | source | states |
|---|---|---|
| `PredictionForm.Form.constructor` | frontend/src/components/PredictionForm.jsx:5-19 | Eight empty numeric fields, model `random_forest`, no prediction, not loading, empty error; the placeholder shows. |
| `PredictionForm.InitialFormDefaults` | frontend/src/components/PredictionForm.jsx:5-15 | The default form holds exactly the nine fields: each numeric one `''` and `model` `'random_forest'`. |
| `PredictionForm.Form.InputChange` | frontend/src/components/PredictionForm.jsx:27-33 | Only `formData[name]` changes; every other field, the prediction, loading and error are unchanged. |
| `PredictionForm.Form.BeginSubmit` | frontend/src/components/PredictionForm.jsx:35-53 | Sets loading, clears error and prediction, leaves the form text unchanged, and returns the coerced payload; only the loading indicator shows. |
| `PredictionForm.Coerce` | frontend/src/components/PredictionForm.jsx:45-52 | The value is non-zero only when parsing gave that very number; it is 0 exactly when parsing failed or gave 0. |
| `PredictionForm.Payload` | frontend/src/components/PredictionForm.jsx:43-53 | Keys are the form's keys plus the eight numeric ones; numeric fields carry the coerced number (0 when absent); every other field, `model` included, passes through as text. |
| `PredictionForm.Form.CompleteSubmit` | frontend/src/components/PredictionForm.jsx:55-61 | Success stores the response body; failure stores the chosen error message; loading ends false; after a failure the error banner and no result card show; after a success no banner shows, and the card shows iff the body is truthy. |
| `PredictionForm.ErrorMessage` | frontend/src/components/PredictionForm.jsx:58 | The message is always truthy; it is the server's `error` member when that is present and truthy, and otherwise the fixed fallback text. |
| `PredictionForm.CompletionShowsOneResult` | frontend/src/components/PredictionForm.jsx:56-61 | From the cleared state, a failed completion shows the error banner alone and a successful one shows no banner, with the result card iff the body is truthy, the placeholder otherwise. |
| `PredictionForm.Form.Reset` | frontend/src/components/PredictionForm.jsx:64-78 | Restores the default form data, clears prediction and error, keeps `loading`; when not loading the placeholder shows. |
| `PredictionForm.Render` | frontend/src/components/PredictionForm.jsx:259-289 | Error banner iff the error is truthy; loading indicator iff loading; result card iff the prediction is truthy and not loading; placeholder iff no truthy prediction, not loading and no truthy error, which is exactly when none of the other three shows. |
| `PredictionForm.FindLabel` | frontend/src/components/PredictionForm.jsx:280 | No label iff no option has the identifier; otherwise the label of the first option that has it. |
| `PredictionForm.ModelLabel` | frontend/src/components/PredictionForm.jsx:280 | A label exists iff the prediction's `model_used` is one of the selector's identifiers, and it is that option's label. |
| `PredictionForm.LabelTable` | frontend/src/components/PredictionForm.jsx:21-25 | `linear_regression`, `decision_tree` and `random_forest` map to "Linear Regression", "Decision Tree" and "Random Forest"; any other identifier has no label. |
| `PredictApi.Features` | backend/app.py:43-52 | Exactly eight entries in field order; each is the request's value for that key, or 0 when the key is absent. |
| `PredictApi.Predict` | backend/app.py:37-88 | Status is 200, 400 or 500; 500 is the failure shape with some exception text; 400 and 200 come only from an object body whose (defaulted) model name is outside, respectively inside, the model table. |
| `PredictApi.ModelTable` | backend/app.py:23-27 | The model table accepts exactly `linear_regression`, `decision_tree` and `random_forest`. |
| `PredictApi.DefaultModel` | backend/app.py:58 | Without a `model` key the request is never rejected as an unknown model, and a success reports `random_forest`. |
| `PredictApi.UnknownModelRejected` | backend/app.py:60-64 | When the feature array can be built, a hashable unknown name yields 400 whose body has exactly the keys `error` ('Invalid model selected') and `available_models` (the three model names), and the answer does not depend on any model's `predict`. |
| `PredictApi.SuccessEchoesRequest` | backend/app.py:70-83 | A success body has exactly the keys `heating_load_prediction`, `model_used` and `input_features`; it reports the value the selected model's `predict` returned for the features, `model_used` equal to the validated name, and `input_features` with exactly the eight field names, each mapped to its feature. |
| `PredictApi.FailureMessage` | backend/app.py:85-88 | Every 500 answer has an `error` string that starts with 'Prediction failed: '. |
| `PredictApi.FaultsAnswer500` | backend/app.py:39-88 | Each exception met on the way (unparsable body, non-object body, feature array that cannot be built, unhashable model name, raising `predict`) is answered with 500 and 'Prediction failed: ' followed by that exception's text. |
| `PredictApi.SelectedModelPredicts` | backend/app.py:66-83 | With the array built and a known model name, the answer is 200 with exactly the value that model's `predict` returned and that model's name, or the 500 for what `predict` raised. |
| `FormToService.PayloadDecodes` | backend/app.py:43-58 | For a form holding all its fields, the handler's feature vector is the form's coerced numbers in field order and its model name is the form's `model` text. |
| `FormToService.SelectorMatchesModels` | frontend/src/components/PredictionForm.jsx:21-25 | The selector's identifiers are the service's model-table keys, in the same order. |
| `FormToService.SelectedModelAccepted` | backend/app.py:60-64 | A form whose model is one of the selector's options is never answered with 400. |
| `FormToService.SuccessHasLabel` | frontend/src/components/PredictionForm.jsx:280 | Every 200 answer's `model_used` has a label on the result card. |

## Left out

- Markup, styling, headings and the HTML input attributes (`min`, `max`, `step`, `required`, placeholders): browser-enforced presentation, not logic. The one that matters, the submit button disabled while loading, is `BeginSubmit`'s precondition.
- The HTTP POST itself, its URL and async scheduling: its result is the `Settled` value given to `CompleteSubmit`, and at most one request is pending at a time.
- `parseFloat` and `toFixed(2)`: floating-point text conversions; parsing is an abstract parameter and the displayed two-decimal text is not modelled. Numbers are exact reals, so NaN, infinities and -0 do not occur.
- Reading `heating_load_prediction` on a body that lacks it makes the result card throw while rendering; render-time exceptions are not modelled.
- Model loading with joblib and its try/except, numpy's reshaping and `model.predict`: foreign library code; array construction and prediction are uninterpreted `Library` fields, and `str(e)` for Python's own exceptions is `Library.explain`.
- `float(prediction)`: the uninterpreted prediction already yields a real.
- Flask and CORS setup, the `home`, `get_models` and `health_check` endpoints and `app.run`: routing, I/O and constant JSON.
- JSON key order in answers: objects are maps, so the order of `input_features` is stated through the feature vector, not the serialized text.
