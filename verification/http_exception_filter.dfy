/** `HttpExceptionFilter.catch`: turns whatever was thrown into a status and an error
    envelope. The Express response write is left out; the reply is returned instead. */
module HttpExceptionFilter {
  import opened Wrappers
  import opened Envelope
  import Strings

  /** What `exception.getResponse()` returns: the string or the object the exception
      was built with. */
  datatype ResponseData = TextData(text: string) | ObjectData(body: Body)

  /** The caught value: an `HttpException` (its `getStatus()`, `getResponse()` and
      `message`), or anything else, with its internal text. */
  datatype Exception =
    | HttpError(status: int, response: ResponseData, message: string)
    | OtherError(detail: string)

  /** `isHttp ? exception.getStatus() : HttpStatus.INTERNAL_SERVER_ERROR` */
  function StatusOf(e: Exception): int
  {
    if e.HttpError? then e.status else InternalServerError
  }

  /** `isHttp ? exception.getResponse() : null` */
  function DataOf(e: Exception): Option<ResponseData>
  {
    if e.HttpError? then Some(e.response) else None
  }

  /** `responseData?.message`: a string response has none. */
  function MessageOf(data: Option<ResponseData>): Option<Message>
  {
    if data.Some? && data.value.ObjectData? then data.value.body.message else None
  }

  /** `responseData?.error === "Validation failed" && responseData?.details` */
  predicate IsValidationBody(data: Option<ResponseData>)
  {
    && data.Some? && data.value.ObjectData?
    && data.value.body.error == Some("Validation failed")
    && data.value.body.details.Some?
  }

  /** JavaScript truthiness of a message: every array is truthy, '' is not. */
  predicate Truthy(m: Message)
  {
    m.Texts? || m.text != ""
  }

  /** `Array.isArray(m) ? m : [m]` */
  function Lines(m: Message): seq<string>
  {
    match m
    case Text(s) => [s]
    case Texts(items) => items
  }

  /** The filter's decision chain: 400, then 404, then 500, then any other status. */
  function Catch(e: Exception, url: string): (r: Reply)
    ensures r.status == StatusOf(e)
    ensures IsEnvelope(r.body)
    ensures r.logged <==> r.status == InternalServerError
    ensures r.status == InternalServerError ==> r.body == InternalErrorBody
  {
    var status := StatusOf(e);
    var data := DataOf(e);
    if status == BadRequest then
      if IsValidationBody(data) then
        Reply(status, data.value.body, false)
      else
        var raw := if MessageOf(data).Some? then MessageOf(data).value else Text("Validation failed");
        Reply(status, ValidationBody(map["general" := Strings.Join(Lines(raw), " | ")]), false)
    else if status == NotFound then
      var msg := if MessageOf(data).Some? then MessageOf(data).value
                 else Text(if e.HttpError? then e.message else "Resource not found");
      Reply(status, ToolNotFoundBody(msg), false)
    else if status == InternalServerError then
      Reply(status, InternalErrorBody, true)
    else
      var msg :=
        if data.Some? && data.value.TextData? && data.value.text != "" then Text(data.value.text)
        else if MessageOf(data).Some? && Truthy(MessageOf(data).value) then MessageOf(data).value
        else Text(if e.HttpError? then e.message else "Request failed");
      Reply(status, Body(Some("Request failed"), None, Some(msg), Some(url)), false)
  }

  /** Anything that is not an HttpException becomes the constant 500 reply, whatever
      its text and whatever the request path. */
  lemma NonHttpIsInternalError(detail: string, url: string)
    ensures Catch(OtherError(detail), url) == Reply(InternalServerError, InternalErrorBody, true)
  {
  }

  /** A 400 whose body already is `{ error: "Validation failed", details }` goes out
      unchanged, so field-level errors reach the client as written. */
  lemma ValidationBodyForwarded(body: Body, message: string, url: string)
    requires body.error == Some("Validation failed") && body.details.Some?
    ensures Catch(HttpError(BadRequest, ObjectData(body), message), url) == Reply(BadRequest, body, false)
  {
  }

  /** Any other 400 becomes `details.general`: the messages joined by " | ", a single
      string counting as a list of one and a missing message as "Validation failed". */
  lemma OtherBadRequestJoined(data: ResponseData, message: string, url: string)
    requires !IsValidationBody(Some(data))
    ensures var r := Catch(HttpError(BadRequest, data, message), url);
            var m := MessageOf(Some(data));
            && r.status == BadRequest && !r.logged
            && r.body == ValidationBody(map["general" :=
                 if m.None? then "Validation failed"
                 else if m.value.Text? then m.value.text
                 else Strings.Join(m.value.items, " | ")])
  {
  }

  /** A 404 becomes `{ error: "Tool not found", message }`, the message taken from the
      response body when it has one and from the exception otherwise. */
  lemma NotFoundShape(data: ResponseData, message: string, url: string)
    ensures var r := Catch(HttpError(NotFound, data, message), url);
            && r.body.error == Some("Tool not found") && r.body.details.None?
            && r.body.message == Some(if MessageOf(Some(data)).Some? then MessageOf(Some(data)).value
                                      else Text(message))
  {
  }

  /** An HttpException with status 500 leaks neither its response nor its message. */
  lemma InternalErrorHidesText(data1: ResponseData, m1: string, data2: ResponseData, m2: string,
                               url1: string, url2: string)
    ensures Catch(HttpError(InternalServerError, data1, m1), url1)
         == Catch(HttpError(InternalServerError, data2, m2), url2)
  {
  }

  /** Any other status becomes `{ error: "Request failed", message, path }` with the
      request path. The message is the first truthy of: a string response, the response
      body's message, the exception's own message. */
  lemma OtherStatusShape(status: int, data: ResponseData, message: string, url: string)
    requires status != BadRequest && status != NotFound && status != InternalServerError
    ensures var r := Catch(HttpError(status, data, message), url);
            && r.status == status && !r.logged
            && r.body.error == Some("Request failed") && r.body.path == Some(url)
            && r.body.details.None?
    ensures var r := Catch(HttpError(status, data, message), url);
            && (data.TextData? && data.text != "" ==> r.body.message == Some(Text(data.text)))
            && (data.ObjectData? && data.body.message.Some? && Truthy(data.body.message.value) ==>
                  r.body.message == data.body.message)
            && (data.TextData? && data.text == "" ==> r.body.message == Some(Text(message)))
            && (data.ObjectData? && (data.body.message.None? || !Truthy(data.body.message.value)) ==>
                  r.body.message == Some(Text(message)))
  {
  }
}
