/** The recommendation endpoint: POST validates that the JSON body carries
    three numbers and hands them to the recommendation engine; GET fills in
    demo defaults and always dispatches. The engine itself is not part of
    this model: it is the parameter `engine`, whose `Threw` outcome stands for
    an exception. Each handler also reports the engine calls it made. */
module RecommendationRoute {
  import opened Http

  /** A parsed JSON value. */
  datatype Json =
    | JNull
    | JBool(b: bool)
    | JNum(n: real)
    | JStr(s: string)
    | JArr(items: seq<Json>)
    | JObj(fields: map<string, Json>)

  datatype Outcome<+T> = Returned(value: T) | Threw

  /** The engine's arguments, in call order: ndvi, rainfall deficit, balance. */
  type Args = (real, real, real)

  datatype Handled<+R> = Handled(response: Response<R>, engineCalls: seq<Args>)

  /** The POST request body; `None` when `request.json()` rejects it. */
  datatype PostRequest = PostRequest(body: Option<Json>)

  const INVALID_INPUT: string :=
    "Invalid input parameters. Expected: ndvi (number), rainfallDeficit (number), balance (number)"
  const ENGINE_FAILURE: string := "Failed to generate recommendation"

  /** `body.key` for a body that is not null: only an object has own fields;
      any other value yields undefined (`None`). */
  function Field(body: Json, key: string): (f: Option<Json>)
    ensures f.Some? <==> body.JObj? && key in body.fields
    ensures f.Some? ==> f.value == body.fields[key]
  {
    if body.JObj? && key in body.fields then Some(body.fields[key]) else None
  }

  /** `typeof body.key === 'number'`, giving the number. */
  function NumberField(body: Json, key: string): (r: Option<real>)
    ensures r.Some? <==> Field(body, key).Some? && Field(body, key).value.JNum?
    ensures r.Some? ==> Field(body, key) == Some(JNum(r.value))
  {
    match Field(body, key)
    case Some(JNum(n)) => Some(n)
    case _ => None
  }

  /** All three fields are numbers; only an object can be valid. */
  predicate Valid(body: Json)
    ensures Valid(body) ==> body.JObj?
    ensures Valid(body) <==> body.JObj? && (forall key :: key in {"ndvi", "rainfallDeficit", "balance"} ==>
                                              key in body.fields && body.fields[key].JNum?)
  {
    NumberField(body, "ndvi").Some? && NumberField(body, "rainfallDeficit").Some?
    && NumberField(body, "balance").Some?
  }

  /** Runs the engine once and wraps its outcome. */
  function Dispatch<R>(args: Args, engine: Args -> Outcome<R>): (h: Handled<R>)
    ensures h.engineCalls == [args]
    ensures engine(args).Returned? ==> h.response == Success(engine(args).value)
    ensures engine(args).Threw? ==> h.response == Failure(500, ENGINE_FAILURE)
  {
    match engine(args)
    case Returned(rec) => Handled(Success(rec), [args])
    case Threw => Handled(Failure(500, ENGINE_FAILURE), [args])
  }

  /** `POST`. Destructuring a `null` body throws, as does an unparsable body. */
  function Post<R>(req: PostRequest, engine: Args -> Outcome<R>): (h: Handled<R>)
    ensures h.response.status == 400 <==> req.body.Some? && req.body.value != JNull && !Valid(req.body.value)
    ensures h.response.status == 400 ==> h.response == Failure(400, INVALID_INPUT)
    ensures h.engineCalls != [] ==> req.body.Some? && Valid(req.body.value)
    ensures h.response.status in {200, 400, 500}
    ensures h.response.success <==> h.response.status == 200
  {
    match req.body
    case None => Handled(Failure(500, ENGINE_FAILURE), [])
    case Some(body) =>
      if body == JNull then Handled(Failure(500, ENGINE_FAILURE), [])
      else if !Valid(body) then Handled(Failure(400, INVALID_INPUT), [])
      else Dispatch((NumberField(body, "ndvi").value, NumberField(body, "rainfallDeficit").value,
                     NumberField(body, "balance").value), engine)
  }

  const DEFAULT_NDVI: string := "0.52"
  const DEFAULT_RAINFALL_DEFICIT: string := "-12.5"
  const DEFAULT_BALANCE: string := "1250.50"

  /** The three query texts GET hands to `parseFloat`. */
  function GetArgTexts(q: Query): (t: (string, string, string))
    ensures t.0 != "" && t.1 != "" && t.2 != ""
    ensures t.0 == DEFAULT_NDVI || ("ndvi" in q && t.0 == q["ndvi"])
    ensures t.1 == DEFAULT_RAINFALL_DEFICIT || ("rainfallDeficit" in q && t.1 == q["rainfallDeficit"])
    ensures t.2 == DEFAULT_BALANCE || ("balance" in q && t.2 == q["balance"])
  {
    (ParamOr(q, "ndvi", DEFAULT_NDVI), ParamOr(q, "rainfallDeficit", DEFAULT_RAINFALL_DEFICIT),
     ParamOr(q, "balance", DEFAULT_BALANCE))
  }

  /** `GET`; `parseFloat` is the parameter of that name. */
  function Get<R>(req: Request, parseFloat: string -> real, engine: Args -> Outcome<R>): (h: Handled<R>)
    ensures req.url.None? ==> h == Handled(Failure(500, ENGINE_FAILURE), [])
    ensures h.response.status != 400
  {
    match req.url
    case None => Handled(Failure(500, ENGINE_FAILURE), [])
    case Some(q) =>
      var texts := GetArgTexts(q);
      Dispatch((parseFloat(texts.0), parseFloat(texts.1), parseFloat(texts.2)), engine)
  }

  // ---------------------------------------------------------------------
  // Properties of the boundary

  /** With three numbers POST calls the engine exactly once, with ndvi,
      rainfallDeficit and balance in that order, and answers with its result. */
  lemma PostDispatchesValidBody<R>(fields: map<string, Json>, ndvi: real, deficit: real, balance: real,
                                   engine: Args -> Outcome<R>)
    requires "ndvi" in fields && fields["ndvi"] == JNum(ndvi)
    requires "rainfallDeficit" in fields && fields["rainfallDeficit"] == JNum(deficit)
    requires "balance" in fields && fields["balance"] == JNum(balance)
    ensures Post(PostRequest(Some(JObj(fields))), engine).engineCalls == [(ndvi, deficit, balance)]
    ensures engine((ndvi, deficit, balance)).Returned? ==>
              Post(PostRequest(Some(JObj(fields))), engine).response
              == Response(200, true, Some(engine((ndvi, deficit, balance)).value), None)
  {
  }

  /** A field that is missing or not a number gets a 400 and no engine call. */
  lemma PostRejectsNonNumber<R>(fields: map<string, Json>, key: string, engine: Args -> Outcome<R>)
    requires key in {"ndvi", "rainfallDeficit", "balance"}
    requires key !in fields || !fields[key].JNum?
    ensures Post(PostRequest(Some(JObj(fields))), engine).response == Failure(400, INVALID_INPUT)
    ensures Post(PostRequest(Some(JObj(fields))), engine).engineCalls == []
  {
  }

  /** Every thrown error, an unparsable or null body included, is a 500. */
  lemma PostFailures<R>(req: PostRequest, engine: Args -> Outcome<R>)
    ensures req.body.None? || req.body == Some(JNull) ==>
              Post(req, engine) == Handled(Failure(500, ENGINE_FAILURE), [])
    ensures req.body.Some? && Valid(req.body.value) ==>
              (Post(req, engine).response.status == 500 <==> Post(req, engine).engineCalls != []
                                                             && engine(Post(req, engine).engineCalls[0]).Threw?)
  {
  }

  /** GET replaces a missing or empty parameter by its demo default, and keeps
      any other value as given. */
  lemma GetDefaults(q: Query)
    ensures ("ndvi" !in q || q["ndvi"] == "") ==> GetArgTexts(q).0 == "0.52"
    ensures ("rainfallDeficit" !in q || q["rainfallDeficit"] == "") ==> GetArgTexts(q).1 == "-12.5"
    ensures ("balance" !in q || q["balance"] == "") ==> GetArgTexts(q).2 == "1250.50"
    ensures "ndvi" in q && q["ndvi"] != "" ==> GetArgTexts(q).0 == q["ndvi"]
    ensures "rainfallDeficit" in q && q["rainfallDeficit"] != "" ==> GetArgTexts(q).1 == q["rainfallDeficit"]
    ensures "balance" in q && q["balance"] != "" ==> GetArgTexts(q).2 == q["balance"]
  {
  }

  /** GET validates nothing: any parsed URL reaches the engine, once, with the
      parsed texts, and the answer is the engine's. */
  lemma GetAlwaysDispatches<R>(q: Query, parseFloat: string -> real, engine: Args -> Outcome<R>)
    ensures var texts := GetArgTexts(q);
            var args := (parseFloat(texts.0), parseFloat(texts.1), parseFloat(texts.2));
            Get(Request(Some(q)), parseFloat, engine).engineCalls == [args]
            && (engine(args).Returned? ==> Get(Request(Some(q)), parseFloat, engine).response.status == 200)
  {
  }
}
