/** How the two ends fit together: the body the form posts, read by the
    `/predict` handler, and the handler's answer, shown by the form. */
module FormToService {
  import opened Wire
  import PredictionForm
  import PredictApi

  /** The handler reads back exactly the coerced numbers the form sent, in
      feature order, and the model identifier as the form held it. */
  lemma PayloadDecodes(parse: string -> Option<real>, form: map<string, string>)
    requires PredictionForm.FORM_FIELDS <= form.Keys
    ensures var p := PredictionForm.Payload(parse, form);
      && |PredictApi.Features(p)| == |FIELD_NAMES|
      && (forall i :: 0 <= i < |FIELD_NAMES| ==>
            PredictApi.Features(p)[i] == JNum(PredictionForm.Coerce(parse, form[FIELD_NAMES[i]])))
      && PredictApi.Get(p, "model", JStr(PredictApi.DEFAULT_MODEL)) == JStr(form[PredictionForm.MODEL_FIELD])
  {
  }

  /** The selector offers exactly the service's models, in the same order. */
  lemma SelectorMatchesModels()
    ensures |PredictionForm.MODEL_OPTIONS| == |PredictApi.MODELS|
    ensures forall i :: 0 <= i < |PredictApi.MODELS| ==>
      PredictionForm.MODEL_OPTIONS[i].value == PredictApi.MODELS[i]
  {
  }

  /** A form whose selector holds one of its own options is never answered
      with "Invalid model selected". */
  lemma SelectedModelAccepted(parse: string -> Option<real>, form: map<string, string>, lib: PredictApi.Library)
    requires PredictionForm.FORM_FIELDS <= form.Keys
    requires exists i :: 0 <= i < |PredictionForm.MODEL_OPTIONS|
                         && PredictionForm.MODEL_OPTIONS[i].value == form[PredictionForm.MODEL_FIELD]
    ensures PredictApi.Predict(Some(JObj(PredictionForm.Payload(parse, form))), lib).status != 400
  {
  }

  /** Every successful answer carries a model the result card has a label
      for. */
  lemma SuccessHasLabel(request: Option<Json>, lib: PredictApi.Library)
    requires PredictApi.Predict(request, lib).status == 200
    ensures PredictionForm.ModelLabel(PredictApi.Predict(request, lib).body).Some?
  {
  }
}
