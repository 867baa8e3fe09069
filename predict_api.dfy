/** The service's `/predict` handler: read the eight features from the JSON
    body (0 for a missing key), default and validate the model name against
    the fixed model table, run the chosen model and answer with the
    prediction and an echo of the features, a 400 for an unknown model, or a
    500 for anything that raised on the way. */
module PredictApi {
  import opened Wire

  /** The keys of the model table, in insertion order. */
  const MODELS: seq<string> := ["linear_regression", "decision_tree", "random_forest"]
  const DEFAULT_MODEL := "random_forest"
  const INVALID_MODEL := "Invalid model selected"
  const FAILURE_PREFIX := "Prediction failed: "

  /** An exception the handler catches. The first three are raised by Python
      itself, the last two carry the text of a library exception. */
  datatype Fault =
    | BodyNotJson                 // request.get_json() raised
    | NoGetMethod(data: Json)     // the body is not a JSON object, so `data.get` raised
    | UnhashableModel(name: Json) // `model_name in MODELS` with a list or object raised
    | ArrayFault(text: string)    // numpy could not build the 1-by-n feature array
    | ModelFault(text: string)    // model.predict raised

  /** What a library call yields: a value or the text of the exception. */
  datatype Outcome<T> = Value(value: T) | Raised(text: string)

  /** The collaborators the handler calls but this model does not look into:
      numpy's array construction, each model's `predict`, and `str(e)` for the
      exceptions Python raises itself. */
  datatype Library = Library(
    toArray: seq<Json> -> Outcome<()>,
    predict: (string, seq<Json>) -> Outcome<real>,
    explain: Fault -> string)

  datatype Response = Response(status: nat, body: Json)

  /** `str(e)` for a caught fault. */
  function FaultText(lib: Library, f: Fault): string {
    match f
    case ArrayFault(t) => t
    case ModelFault(t) => t
    case _ => lib.explain(f)
  }

  /** Python's `dict.get(key, default)`. */
  function Get(data: map<string, Json>, key: string, default: Json): Json {
    if key in data then data[key] else default
  }

  /** The feature vector: each of the eight fields in order, 0 when absent. */
  function Features(data: map<string, Json>): (f: seq<Json>)
    ensures |f| == |FIELD_NAMES|
    ensures forall i :: 0 <= i < |f| && FIELD_NAMES[i] in data ==> f[i] == data[FIELD_NAMES[i]]
    ensures forall i :: 0 <= i < |f| && FIELD_NAMES[i] !in data ==> f[i] == JNum(0.0)
  {
    [ Get(data, "relative_compactness", JNum(0.0)),
      Get(data, "surface_area", JNum(0.0)),
      Get(data, "wall_area", JNum(0.0)),
      Get(data, "roof_area", JNum(0.0)),
      Get(data, "overall_height", JNum(0.0)),
      Get(data, "orientation", JNum(0.0)),
      Get(data, "glazing_area", JNum(0.0)),
      Get(data, "glazing_area_distribution", JNum(0.0)) ]
  }

  /** The `input_features` object of a successful answer. */
  function Echo(f: seq<Json>): map<string, Json>
    requires |f| == |FIELD_NAMES|
  {
    map[ "relative_compactness" := f[0], "surface_area" := f[1], "wall_area" := f[2],
         "roof_area" := f[3], "overall_height" := f[4], "orientation" := f[5],
         "glazing_area" := f[6], "glazing_area_distribution" := f[7] ]
  }

  /** Python's `x in MODELS` for a hashable JSON value. */
  predicate KnownModel(name: Json) {
    name.JStr? && name.s in MODELS
  }

  function Failure(text: string): Response {
    Response(500, JObj(map["error" := JStr(FAILURE_PREFIX + text)]))
  }

  function InvalidModel(): Response {
    Response(400, JObj(map["error" := JStr(INVALID_MODEL),
                           "available_models" := JArr(seq(|MODELS|, i requires 0 <= i < |MODELS| => JStr(MODELS[i])))]))
  }

  function Success(prediction: real, model: string, f: seq<Json>): Response
    requires |f| == |FIELD_NAMES|
  {
    Response(200, JObj(map["heating_load_prediction" := JNum(prediction),
                           "model_used" := JStr(model),
                           "input_features" := JObj(Echo(f))]))
  }

  /** The `/predict` handler. `request` is the parsed JSON body, None when it
      could not be parsed. */
  function Predict(request: Option<Json>, lib: Library): (r: Response)
    ensures r.status == 200 || r.status == 400 || r.status == 500
    ensures r.status == 500 ==> exists t: string :: r == Failure(t)
    ensures r.status == 400 ==>
      && request.Some? && request.value.JObj?
      && !KnownModel(Get(request.value.members, "model", JStr(DEFAULT_MODEL)))
    ensures r.status == 200 ==>
      && request.Some? && request.value.JObj?
      && KnownModel(Get(request.value.members, "model", JStr(DEFAULT_MODEL)))
  {
    match request
    case None => Failure(FaultText(lib, BodyNotJson))
    case Some(data) =>
      if !data.JObj? then Failure(FaultText(lib, NoGetMethod(data)))
      else
        var features := Features(data.members);
        match lib.toArray(features)
        case Raised(t) => Failure(FaultText(lib, ArrayFault(t)))
        case Value(_) =>
          var name := Get(data.members, "model", JStr(DEFAULT_MODEL));
          if name.JArr? || name.JObj? then Failure(FaultText(lib, UnhashableModel(name)))
          else if !KnownModel(name) then InvalidModel()
          else
            match lib.predict(name.s, features)
            case Raised(t) => Failure(FaultText(lib, ModelFault(t)))
            case Value(y) => Success(y, name.s, features)
  }

  /** The model table holds exactly the three trained models. */
  lemma ModelTable(name: Json)
    ensures KnownModel(name) <==>
      name in {JStr("linear_regression"), JStr("decision_tree"), JStr("random_forest")}
  {
  }

  /** Without a `model` key the random forest is used: such a request is
      never rejected as naming an unknown model, and a success reports the
      random forest. */
  lemma DefaultModel(data: map<string, Json>, lib: Library)
    requires "model" !in data
    ensures Predict(Some(JObj(data)), lib).status != 400
    ensures Predict(Some(JObj(data)), lib).status == 200 ==>
      Member(Predict(Some(JObj(data)), lib).body, "model_used") == Some(JStr(DEFAULT_MODEL))
  {
  }

  /** A hashable model name outside the table is answered with 400, the
      fixed message and the list of model names, and no model is consulted:
      any other `predict` gives the same answer. */
  lemma UnknownModelRejected(data: map<string, Json>, lib: Library, other: (string, seq<Json>) -> Outcome<real>)
    requires lib.toArray(Features(data)).Value?
    requires var name := Get(data, "model", JStr(DEFAULT_MODEL));
             !name.JArr? && !name.JObj? && !KnownModel(name)
    ensures var r := Predict(Some(JObj(data)), lib);
      && r.status == 400
      && Member(r.body, "error") == Some(JStr(INVALID_MODEL))
      && Member(r.body, "available_models") ==
         Some(JArr([JStr("linear_regression"), JStr("decision_tree"), JStr("random_forest")]))
      && r == Predict(Some(JObj(data)), lib.(predict := other))
    ensures Predict(Some(JObj(data)), lib).body.JObj?
    ensures Predict(Some(JObj(data)), lib).body.members.Keys == {"error", "available_models"}
  {
    var names := seq(|MODELS|, i requires 0 <= i < |MODELS| => JStr(MODELS[i]));
    assert names == [JStr(MODELS[0]), JStr(MODELS[1]), JStr(MODELS[2])];
  }

  /** A success names the validated model and echoes each of the eight
      features under its own field name. */
  lemma SuccessEchoesRequest(data: map<string, Json>, lib: Library)
    requires Predict(Some(JObj(data)), lib).status == 200
    ensures var name := Get(data, "model", JStr(DEFAULT_MODEL));
      && name.JStr?
      && Member(Predict(Some(JObj(data)), lib).body, "model_used") == Some(name)
      && lib.predict(name.s, Features(data)).Value?
      && Member(Predict(Some(JObj(data)), lib).body, "heating_load_prediction")
         == Some(JNum(lib.predict(name.s, Features(data)).value))
    ensures var r := Predict(Some(JObj(data)), lib);
      && Member(r.body, "input_features").Some?
      && var echo := Member(r.body, "input_features").value;
         && echo.JObj?
         && echo.members.Keys == set k | k in FIELD_NAMES
         && forall i :: 0 <= i < |FIELD_NAMES| ==>
              echo.members[FIELD_NAMES[i]] == Features(data)[i]
    ensures Predict(Some(JObj(data)), lib).body.JObj?
    ensures Predict(Some(JObj(data)), lib).body.members.Keys
            == {"heating_load_prediction", "model_used", "input_features"}
  {
    var f := Features(data);
    var name := Get(data, "model", JStr(DEFAULT_MODEL));
    assert lib.toArray(f).Value? && KnownModel(name) && lib.predict(name.s, f).Value?;
    assert Predict(Some(JObj(data)), lib) == Success(lib.predict(name.s, f).value, name.s, f);
    var echo := Echo(f);
    forall i | 0 <= i < |FIELD_NAMES| ensures echo[FIELD_NAMES[i]] == f[i] {
      forall j | 0 <= j < |FIELD_NAMES| && j != i ensures FIELD_NAMES[i] != FIELD_NAMES[j] {
        FieldNamesDistinct(i, j);
      }
    }
  }

  /** Every caught exception is answered with 500 and an `error` text that
      starts with "Prediction failed: ". */
  lemma FailureMessage(request: Option<Json>, lib: Library)
    requires Predict(request, lib).status == 500
    ensures var r := Predict(request, lib);
      && Member(r.body, "error").Some?
      && Member(r.body, "error").value.JStr?
      && FAILURE_PREFIX <= Member(r.body, "error").value.s
  {
  }

  /** Once the feature array is built and the model name is in the table,
      the answer is that model's prediction: a 200 carrying the value its
      `predict` returned for these features, or the 500 for what it raised. */
  lemma SelectedModelPredicts(data: map<string, Json>, lib: Library)
    requires lib.toArray(Features(data)).Value?
    requires KnownModel(Get(data, "model", JStr(DEFAULT_MODEL)))
    ensures var name := Get(data, "model", JStr(DEFAULT_MODEL));
            var r := Predict(Some(JObj(data)), lib);
      match lib.predict(name.s, Features(data))
      case Value(y) =>
        && r.status == 200
        && Member(r.body, "heating_load_prediction") == Some(JNum(y))
        && Member(r.body, "model_used") == Some(name)
      case Raised(t) => r == Failure(t)
  {
  }

  /** Each exception the handler can meet is caught and answered with 500
      and "Prediction failed: " followed by the exception's text. */
  lemma FaultsAnswer500(request: Option<Json>, lib: Library)
    ensures request.None? ==> Predict(request, lib) == Failure(lib.explain(BodyNotJson))
    ensures request.Some? && !request.value.JObj? ==>
      Predict(request, lib) == Failure(lib.explain(NoGetMethod(request.value)))
    ensures request.Some? && request.value.JObj? ==>
      var data := request.value.members;
      var name := Get(data, "model", JStr(DEFAULT_MODEL));
      && (lib.toArray(Features(data)).Raised? ==>
            Predict(request, lib) == Failure(lib.toArray(Features(data)).text))
      && (lib.toArray(Features(data)).Value? && (name.JArr? || name.JObj?) ==>
            Predict(request, lib) == Failure(lib.explain(UnhashableModel(name))))
      && (lib.toArray(Features(data)).Value? && KnownModel(name)
          && lib.predict(name.s, Features(data)).Raised? ==>
            Predict(request, lib) == Failure(lib.predict(name.s, Features(data)).text))
  {
  }
}
