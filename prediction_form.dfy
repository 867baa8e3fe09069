/** The prediction form: its four pieces of state, the three handlers that
    change them (the submit handler split at its `await` into a begin step and
    a complete step), the numeric coercion of the request payload, the four
    render conditions of the results panel and the model-label lookup. */
module PredictionForm {
  import opened Wire

  const MODEL_FIELD := "model"
  const DEFAULT_MODEL := "random_forest"
  const FALLBACK_ERROR := "Failed to get prediction. Please try again."

  /** The names the form holds: the eight numeric fields and the model selector. */
  const NUMERIC_FIELDS: set<string> := set k | k in FIELD_NAMES
  const FORM_FIELDS: set<string> := NUMERIC_FIELDS + {MODEL_FIELD}

  /** The form data as first rendered and as restored by a reset. */
  const INITIAL_FORM: map<string, string> :=
    map k | k in FORM_FIELDS :: if k == MODEL_FIELD then DEFAULT_MODEL else ""

  /** One entry of the model selector: the identifier sent and the label shown. */
  datatype ModelOption = ModelOption(value: string, display: string)

  const MODEL_OPTIONS: seq<ModelOption> := [
    ModelOption("linear_regression", "Linear Regression"),
    ModelOption("decision_tree", "Decision Tree"),
    ModelOption("random_forest", "Random Forest")
  ]

  /** How the awaited POST settled: a 2xx response with its body, or a
      rejection carrying the body of the error response when the server sent
      one (None for a network failure). */
  datatype Settled = Resolved(data: Json) | Rejected(response: Option<Json>)

  /** Which parts of the results panel are on screen. */
  datatype Screen = Screen(errorBanner: bool, loadingIndicator: bool, resultCard: bool, placeholder: bool)

  /** `parseFloat(text) || 0`. `parse` stands for parseFloat, None for NaN;
      a parsed zero and a failed parse both give 0. */
  function Coerce(parse: string -> Option<real>, text: string): (x: real)
    ensures x != 0.0 ==> parse(text) == Some(x)
    ensures x == 0.0 <==> parse(text) == None || parse(text) == Some(0.0)
  {
    match parse(text)
    case Some(v) => v
    case None => 0.0
  }

  /** The request body `{...formData, f: parseFloat(formData.f) || 0, ...}`:
      every numeric field coerced to a number (an absent one reads as
      `undefined` and becomes 0), every other field passed through as text. */
  function Payload(parse: string -> Option<real>, form: map<string, string>): (p: map<string, Json>)
    ensures p.Keys == form.Keys + NUMERIC_FIELDS
    ensures forall k :: k in form && k !in NUMERIC_FIELDS ==> p[k] == JStr(form[k])
    ensures forall k :: k in form && k in NUMERIC_FIELDS ==> p[k] == JNum(Coerce(parse, form[k]))
    ensures forall k :: k !in form && k in NUMERIC_FIELDS ==> p[k] == JNum(0.0)
  {
    map k | k in form.Keys + NUMERIC_FIELDS ::
      if k !in NUMERIC_FIELDS then JStr(form[k])
      else if k in form then JNum(Coerce(parse, form[k]))
      else JNum(0.0)
  }

  /** The message shown after a rejection: the server's `error` field when the
      error response carries a truthy one, the fixed fallback otherwise. */
  function ErrorMessage(response: Option<Json>): (e: Json)
    ensures Truthy(e)
    ensures e == JStr(FALLBACK_ERROR)
         || (response.Some? && Member(response.value, "error") == Some(e))
    ensures response.Some? && Member(response.value, "error").Some?
            && Truthy(Member(response.value, "error").value)
            ==> Some(e) == Member(response.value, "error")
  {
    if response.Some? then
      match Member(response.value, "error")
      case Some(m) => if Truthy(m) then m else JStr(FALLBACK_ERROR)
      case None => JStr(FALLBACK_ERROR)
    else JStr(FALLBACK_ERROR)
  }

  /** The four render conditions of the results panel. */
  function Render(prediction: Json, loading: bool, error: Json): (s: Screen)
    ensures s.errorBanner <==> Truthy(error)
    ensures s.loadingIndicator <==> loading
    ensures s.resultCard <==> Truthy(prediction) && !loading
    ensures s.placeholder <==> !Truthy(prediction) && !loading && !Truthy(error)
    ensures s.placeholder <==> !s.errorBanner && !s.loadingIndicator && !s.resultCard
  {
    Screen(Truthy(error), loading, Truthy(prediction) && !loading,
           !Truthy(prediction) && !loading && !Truthy(error))
  }

  /** `options.find(m => m.value === v)?.label`: the label of the first
      option whose identifier is v. */
  function FindLabel(options: seq<ModelOption>, v: string): (r: Option<string>)
    ensures r.None? <==> forall i :: 0 <= i < |options| ==> options[i].value != v
    ensures r.Some? ==> exists i :: 0 <= i < |options| && options[i] == ModelOption(v, r.value)
                                    && forall j :: 0 <= j < i ==> options[j].value != v
  {
    if options == [] then None
    else if options[0].value == v then Some(options[0].display)
    else
      var r := FindLabel(options[1..], v);
      assert r.Some? ==> exists i :: 0 < i < |options| && options[i] == ModelOption(v, r.value)
                                     && forall j :: 0 <= j < i ==> options[j].value != v by {
        if r.Some? {
          var i :| 0 <= i < |options[1..]| && options[1..][i] == ModelOption(v, r.value)
                   && forall j :: 0 <= j < i ==> options[1..][j].value != v;
          assert forall j :: 0 < j < i + 1 ==> options[j].value != v by {
            forall j | 0 < j < i + 1 ensures options[j].value != v {
              assert options[j] == options[1..][j - 1];
            }
          }
        }
      }
      r
  }

  /** The label shown on the result card: `models.find(...)` applied to the
      prediction's `model_used`; absent when that is missing or no string. */
  function ModelLabel(prediction: Json): (r: Option<string>)
    ensures r.Some? <==> exists i :: 0 <= i < |MODEL_OPTIONS|
                          && Member(prediction, "model_used") == Some(JStr(MODEL_OPTIONS[i].value))
    ensures r.Some? ==> exists i :: 0 <= i < |MODEL_OPTIONS|
                          && Member(prediction, "model_used") == Some(JStr(MODEL_OPTIONS[i].value))
                          && r.value == MODEL_OPTIONS[i].display
  {
    match Member(prediction, "model_used")
    case Some(JStr(v)) => FindLabel(MODEL_OPTIONS, v)
    case _ => None
  }

  /** The selector's three identifiers map to their labels; any other has none. */
  lemma LabelTable(v: string)
    ensures FindLabel(MODEL_OPTIONS, v) ==
      if v == "linear_regression" then Some("Linear Regression")
      else if v == "decision_tree" then Some("Decision Tree")
      else if v == "random_forest" then Some("Random Forest")
      else None
  {
  }

  /** The initial (and reset) form has every numeric field empty and the
      model set to random forest. */
  lemma InitialFormDefaults()
    ensures INITIAL_FORM.Keys == FORM_FIELDS
    ensures forall i :: 0 <= i < |FIELD_NAMES| ==> FIELD_NAMES[i] in INITIAL_FORM && INITIAL_FORM[FIELD_NAMES[i]] == ""
    ensures INITIAL_FORM[MODEL_FIELD] == DEFAULT_MODEL
  {
  }

  /** Once a submit has completed (from the cleared state the begin step
      leaves), exactly one of the error banner and the result card shows,
      provided a successful response body is truthy; a falsy body leaves the
      placeholder instead. */
  lemma CompletionShowsOneResult(o: Settled)
    ensures o.Rejected? ==>
      var s := Render(JNull, false, ErrorMessage(o.response));
      s.errorBanner && !s.resultCard && !s.loadingIndicator && !s.placeholder
    ensures o.Resolved? ==>
      var s := Render(o.data, false, JStr(""));
      !s.errorBanner && !s.loadingIndicator && (s.resultCard <==> Truthy(o.data))
      && (s.placeholder <==> !Truthy(o.data))
  {
  }

  /** The form component. `prediction` is JNull until a response arrives;
      `error` is the empty string until a submit fails. */
  class Form {
    var formData: map<string, string>
    var prediction: Json
    var loading: bool
    var error: Json

    /** Every form field is present, and while a request is pending the
        previous result and error stay cleared (the submit button is disabled
        while loading, so at most one request is pending). */
    ghost predicate Valid()
      reads this
    {
      && FORM_FIELDS <= formData.Keys
      && (loading ==> prediction == JNull && error == JStr(""))
    }

    /** What the results panel shows. */
    function View(): Screen
      reads this
    {
      Render(prediction, loading, error)
    }

    constructor ()
      ensures Valid()
      ensures formData == INITIAL_FORM && prediction == JNull && !loading && error == JStr("")
      ensures View().placeholder
    {
      formData := INITIAL_FORM;
      prediction := JNull;
      loading := false;
      error := JStr("");
    }

    /** `handleInputChange`: overwrite one field, nothing else. */
    method InputChange(name: string, value: string)
      requires Valid()
      modifies this
      ensures Valid()
      ensures formData == old(formData)[name := value]
      ensures forall k :: k in old(formData) && k != name ==> k in formData && formData[k] == old(formData)[k]
      ensures prediction == old(prediction) && loading == old(loading) && error == old(error)
    {
      formData := formData[name := value];
    }

    /** The synchronous part of `handleSubmit`: clear the old result and
        error, start loading, and build the request body from the form data,
        which itself is left as typed. */
    method BeginSubmit(parse: string -> Option<real>) returns (payload: map<string, Json>)
      requires Valid() && !loading
      modifies this
      ensures Valid()
      ensures loading && prediction == JNull && error == JStr("")
      ensures formData == old(formData)
      ensures payload == Payload(parse, formData)
      ensures View().loadingIndicator && !View().resultCard && !View().errorBanner && !View().placeholder
    {
      loading := true;
      error := JStr("");
      prediction := JNull;
      payload := Payload(parse, formData);
    }

    /** The part of `handleSubmit` after the `await`: record the response
        body or the error message, then stop loading. */
    method CompleteSubmit(outcome: Settled)
      requires Valid() && loading
      modifies this
      ensures Valid()
      ensures !loading && formData == old(formData)
      ensures outcome.Resolved? ==> prediction == outcome.data && error == old(error)
      ensures outcome.Rejected? ==> prediction == old(prediction) && error == ErrorMessage(outcome.response)
      ensures outcome.Rejected? ==> View().errorBanner && !View().resultCard && !View().placeholder
      ensures outcome.Resolved? ==> !View().errorBanner && (View().resultCard <==> Truthy(outcome.data))
    {
      if outcome.Resolved? {
        prediction := outcome.data;
      } else {
        error := ErrorMessage(outcome.response);
      }
      loading := false;
      CompletionShowsOneResult(outcome);
    }

    /** `resetForm`: restore the default form data and clear the result and
        the error; `loading` is left as it is. */
    method Reset()
      requires Valid()
      modifies this
      ensures Valid()
      ensures formData == INITIAL_FORM && prediction == JNull && error == JStr("")
      ensures loading == old(loading)
      ensures !loading ==> View().placeholder
    {
      formData := INITIAL_FORM;
      prediction := JNull;
      error := JStr("");
    }
  }
}
