/** The booking routes pass the request on to controllers that are not part of this model; the one rule they add is kept here. */
module BookingRoutes {
  import opened JsValues

  /** `{ ...req.body, userId: req.user.id }`: the caller's id replaces any `userId` in the body. */
  function BookingInput(body: map<string, JsValue>, userId: JsValue): (input: map<string, JsValue>)
    ensures input.Keys == body.Keys + {"userId"}
    ensures input["userId"] == userId
    ensures forall key :: key in body && key != "userId" ==> input[key] == body[key]
  {
    body["userId" := userId]
  }
}
