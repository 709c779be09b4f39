/** The part of `HttpServletResponse` the servlet uses: an error status with
    its message, set by `sendError`, and the bytes written to the output
    stream. */
module Http {
  import opened Wrappers

  const SC_OK := 200
  const SC_BAD_REQUEST := 400
  const SC_GONE := 410

  /** What `sendError(code, message)` sends. */
  datatype HttpError = HttpError(code: int, message: string)

  /** The observable state of a response. */
  datatype Reply = Reply(status: int, message: Option<string>, body: seq<bv8>)
  {
    /** The reply after `bytes` are written to its output stream. */
    function Write(bytes: seq<bv8>): (r: Reply)
      ensures r.body == body + bytes
      ensures r.status == status && r.message == message
    {
      this.(body := body + bytes)
    }

    /** The reply after `sendError(e.code, e.message)`. */
    function SendError(e: HttpError): (r: Reply)
      ensures r.status == e.code && r.message == Some(e.message)
      ensures r.body == body
    {
      this.(status := e.code, message := Some(e.message))
    }
  }

  /** A response as the container hands it to `doGet`. */
  const Initial := Reply(SC_OK, None, [])

  /** The response object: its status, its error message and its body. */
  class Response {
    var status: int
    var message: Option<string>
    var body: seq<bv8>

    constructor ()
      ensures State() == Initial
    {
      status, message, body := SC_OK, None, [];
    }

    function State(): Reply
      reads this
    {
      Reply(status, message, body)
    }

    /** `out.write(bytes)` on the response's output stream. */
    method Write(bytes: seq<bv8>)
      modifies this`body
      ensures body == old(body) + bytes
      ensures status == old(status) && message == old(message)
    {
      body := body + bytes;
    }

    /** `sendError(code, message)`. */
    method SendError(code: int, msg: string)
      modifies this`status, this`message
      ensures status == code && message == Some(msg)
      ensures body == old(body)
    {
      status, message := code, Some(msg);
    }
  }
}
