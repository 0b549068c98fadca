/** The part of net/http a handler sees: a response writer that takes a status
    once and then body writes, http.Error and http.NotFound on top of it, and
    the server dropping the connection when a handler panics. Response headers
    other than the status are not modelled. */
module Http {
  import opened Wrappers

  const StatusOK := 200
  const StatusBadRequest := 400
  const StatusNotFound := 404
  const StatusInternalServerError := 500

  /** One write to the body: plain text, or one value run through a
      json.Encoder (which writes the document and a newline in one go). */
  datatype Chunk<T> = Text(text: string) | Encoded(value: T)

  /** What a handler has done to its response: the status it fixed (if any),
      the body writes in order, and whether it panicked. */
  datatype Exchange<T> = Exchange(header: Option<int>, body: seq<Chunk<T>>, aborted: bool) {

    /** The status the client receives: 200 unless a header was written. */
    function Status(): int {
      header.GetOr(StatusOK)
    }

    /** ResponseWriter.WriteHeader: only the first status counts. */
    function WriteHeader(code: int): Exchange<T> {
      if header.None? then this.(header := Some(code)) else this
    }

    /** ResponseWriter.Write: a write before any status implies 200. */
    function Write(c: Chunk<T>): Exchange<T> {
      this.(header := Some(Status()), body := body + [c])
    }

    /** http.Error: the status, then the message and a newline as text. */
    function Error(msg: string, code: int): Exchange<T> {
      WriteHeader(code).Write(Text(msg + "\n"))
    }

    /** http.NotFound. */
    function NotFound(): Exchange<T> {
      Error("404 page not found", StatusNotFound)
    }

    /** A panic in the handler: net/http recovers it and drops the connection. */
    function Panic(): Exchange<T> {
      this.(aborted := true)
    }
  }

  /** The response every handler starts from. */
  function Fresh<T>(): Exchange<T> {
    Exchange(None, [], false)
  }

  class ResponseWriter<T> {
    var header: Option<int>
    var body: seq<Chunk<T>>
    var aborted: bool

    function State(): Exchange<T>
      reads this
    {
      Exchange(header, body, aborted)
    }

    constructor ()
      ensures State() == Fresh()
    {
      header, body, aborted := None, [], false;
    }

    method WriteHeader(code: int)
      modifies this
      ensures State() == old(State()).WriteHeader(code)
    {
      if header.None? {
        header := Some(code);
      }
    }

    method Write(c: Chunk<T>)
      modifies this
      ensures State() == old(State()).Write(c)
    {
      header := Some(header.GetOr(StatusOK));
      body := body + [c];
    }

    /** The handler panicked. */
    method Abort()
      modifies this
      ensures State() == old(State()).Panic()
    {
      aborted := true;
    }
  }

  /** http.Error(w, msg, code). */
  method Error<T>(w: ResponseWriter<T>, msg: string, code: int)
    modifies w
    ensures w.State() == old(w.State()).Error(msg, code)
  {
    w.WriteHeader(code);
    w.Write(Text(msg + "\n"));
  }

  /** http.NotFound(w, r). */
  method NotFound<T>(w: ResponseWriter<T>)
    modifies w
    ensures w.State() == old(w.State()).NotFound()
  {
    Error(w, "404 page not found", StatusNotFound);
  }
}
