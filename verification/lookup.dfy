/** The lookup client `fetch_number_info` (bot.py:31-46). The HTTP request
    itself is outside the model: its outcome is an input. */
module Lookup {
  import opened Options
  import opened Json

  /** What the HTTP call produced: no response at all (connection error,
      timeout), or a status code with the body decoded as JSON, None when
      `res.json()` raised. */
  datatype HttpOutcome =
    | TransportError
    | Response(status: int, body: Option<Json>)

  /** An object whose `"data"` entry is a list: the list is the record set. */
  predicate Envelope(m: map<string, Json>) {
    "data" in m && m["data"].JArr?
  }

  /** The response-shape normalisation: a record list, or None for every
      soft failure. */
  function FetchNumberInfo(o: HttpOutcome): (r: Option<seq<Json>>)
    ensures r.Some? <==>
      o.Response? && o.status == 200 && o.body.Some? && (o.body.value.JObj? || o.body.value.JArr?)
    ensures r.Some? && o.body.value.JArr? ==> r.value == o.body.value.elems
    ensures r.Some? && o.body.value.JObj? && Envelope(o.body.value.fields) ==>
      r.value == o.body.value.fields["data"].elems
    ensures r.Some? && o.body.value.JObj? && !Envelope(o.body.value.fields) ==>
      r.value == [o.body.value]
  {
    match o
    case TransportError => None
    case Response(status, body) =>
      if status != 200 then None
      else
        match body
        case None => None
        case Some(JObj(m)) => if Envelope(m) then Some(m["data"].elems) else Some([JObj(m)])
        case Some(JArr(a)) => Some(a)
        case Some(_) => None
  }

  /** The lookup succeeded in the sense the handler tests (`if results:`):
      Python truthiness of the returned list, None being falsy. */
  predicate Found(r: Option<seq<Json>>): (b: bool)
    ensures b <==> r.Some? && |r.value| > 0
  {
    r.Some? && Truthy(JArr(r.value))
  }

  /** Wrapping a list in a `{"data": [...]}` envelope makes no difference. */
  lemma EnvelopeTransparent(m: map<string, Json>)
    requires Envelope(m)
    ensures FetchNumberInfo(Response(200, Some(JObj(m))))
         == FetchNumberInfo(Response(200, Some(m["data"])))
  {
  }

  /** Any 200 object without a list under "data" is found, even `{}` or
      `{"data": null}`: it becomes a one-record result. */
  lemma BareObjectIsFound(m: map<string, Json>)
    requires !Envelope(m)
    ensures Found(FetchNumberInfo(Response(200, Some(JObj(m)))))
  {
  }

  /** Whatever the body, a non-200 status or a transport error is not found. */
  lemma FailureIsNotFound(o: HttpOutcome)
    requires o.TransportError? || o.status != 200
    ensures !Found(FetchNumberInfo(o))
  {
  }

  /** The four worked shapes: `{"data": [X]}`, a bare object `Y`, a list `[Z]`, and `42`. */
  lemma ShapeExamples()
    ensures var x := JObj(map["name" := JStr("X")]);
      FetchNumberInfo(Response(200, Some(JObj(map["data" := JArr([x])])))) == Some([x])
    ensures var y := JObj(map["name" := JStr("Y")]);
      FetchNumberInfo(Response(200, Some(y))) == Some([y])
    ensures var z := JObj(map["name" := JStr("Z")]);
      FetchNumberInfo(Response(200, Some(JArr([z])))) == Some([z])
    ensures FetchNumberInfo(Response(200, Some(JNum(42.0)))) == None
  {
  }
}
