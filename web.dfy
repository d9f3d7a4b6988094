/**
 * What a request handler receives and answers: the JSON body of a POST
 * (reduced to the values the handlers tell apart) and the reply Flask sends back.
 */
module Web {
  import opened PyText

  /** A JSON value of a request body; `JNull` also stands for a missing field. */
  datatype Json = JNull | JInt(i: int) | JStr(s: string)

  /** `request.json.get(name)`: the field's value, or None when it is absent. */
  function Field(body: map<string, Json>, name: string): (v: Json)
    ensures name !in body ==> v == JNull
    ensures name in body ==> v == body[name]
  {
    if name in body then body[name] else JNull
  }

  /** The reply to a request. */
  datatype Reply =
    | Message(text: string)        // jsonify({"message": text}) with status 200
    | Rejected(error: string)      // jsonify({"error": error}) with status 400
    | Raised(exception: PyException) // an exception the handler does not catch
  {
    /** The HTTP status: Flask answers an uncaught exception with 500. */
    function Status(): (code: int)
      ensures code == 200 <==> Message?
      ensures code == 400 <==> Rejected?
      ensures code == 500 <==> Raised?
    {
      match this
      case Message(_) => 200
      case Rejected(_) => 400
      case Raised(_) => 500
    }
  }
}
