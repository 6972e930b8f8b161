/**
 * The HTTP response as the handlers drive it: a status, a header map, what
 * has been written to the body, and whether an error was sent in place of a
 * normal reply. `Reply` is its value; `Response` is the object the handlers
 * update in place.
 */
module Servlet {
  import opened Wrappers
  import opened Sword

  const StatusOK: int := 200
  const StatusCreated: int := 201
  const StatusNoContent: int := 204
  const StatusBadRequest: int := 400
  const StatusUnauthorized: int := 401
  const StatusForbidden: int := 403

  /** One write to the body: text through the writer, or bytes through the output stream. */
  datatype Payload = Text(text: string) | Bytes(bytes: seq<bv8>)

  /** sendError, or the SWORD error document written by the endpoint superclass. */
  datatype Sent = ErrorPage(code: int, message: Option<string>) | ErrorDocument(error: SwordError)

  datatype Reply = Reply(status: int, headers: map<string, string>, body: seq<Payload>, sent: Option<Sent>)
  {
    function WithHeader(name: string, value: string): Reply {
      this.(headers := headers[name := value])
    }

    function WithStatus(code: int): Reply {
      this.(status := code)
    }

    function WithBody(p: Payload): Reply {
      this.(body := body + [p])
    }

    /** sendError: the status becomes the error code and an error page replaces the reply. */
    function WithError(code: int, message: Option<string>): Reply {
      this.(status := code, sent := Some(ErrorPage(code, message)))
    }

    /** swordError: the error document is sent; the status it picks is not part of this model. */
    function WithSwordError(e: SwordError): Reply {
      this.(sent := Some(ErrorDocument(e)))
    }
  }

  class Response {
    var status: int
    var headers: map<string, string>
    var body: seq<Payload>
    var sent: Option<Sent>

    function Value(): Reply
      reads this
    {
      Reply(status, headers, body, sent)
    }

    constructor (r: Reply)
      ensures Value() == r
    {
      status, headers, body, sent := r.status, r.headers, r.body, r.sent;
    }

    method SetHeader(name: string, value: string)
      modifies this
      ensures Value() == old(Value()).WithHeader(name, value)
    {
      headers := headers[name := value];
    }

    method SetStatus(code: int)
      modifies this
      ensures Value() == old(Value()).WithStatus(code)
    {
      status := code;
    }

    /** getWriter().append(...) or a copy to getOutputStream(). */
    method Write(p: Payload)
      modifies this
      ensures Value() == old(Value()).WithBody(p)
    {
      body := body + [p];
    }

    method SendError(code: int, message: Option<string>)
      modifies this
      ensures Value() == old(Value()).WithError(code, message)
    {
      status := code;
      sent := Some(ErrorPage(code, message));
    }

    method SendSwordError(e: SwordError)
      modifies this
      ensures Value() == old(Value()).WithSwordError(e)
    {
      sent := Some(ErrorDocument(e));
    }
  }
}
