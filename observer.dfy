/**
 * The response observer (`statusWriter`): it wraps the response writer,
 * remembers the status code (0 until one is set, reported as 200) and counts
 * the bytes the wrapped writer reports as written, failed writes included.
 */
module Observer {
  import opened Wrappers

  const StatusOK: int := 200

  /** What `Status()` reports for a stored status: 0 means "never set" and reads as 200. */
  function ReportedStatus(stored: int): (r: int)
    ensures r != 0
    ensures stored != 0 ==> r == stored
    ensures stored == 0 ==> r == StatusOK
  {
    if stored == 0 then StatusOK else stored
  }

  /** A call passed on to the wrapped `http.ResponseWriter`. */
  datatype WriterCall = HeaderCall(status: int) | BodyCall(data: seq<bv8>)

  /** The error `Write` returns: the wrapped writer's error message under a fixed context. */
  datatype WrappedError = WrappedError(context: string, cause: string)

  const WriteErrorContext := "http.ResponseWriter.Write()"

  class StatusWriter {
    var status: int
    var length: int
    /** The calls forwarded to the wrapped writer, oldest first. */
    ghost var forwarded: seq<WriterCall>

    constructor ()
      ensures status == 0 && length == 0 && forwarded == []
    {
      status := 0;
      length := 0;
      forwarded := [];
    }

    /** `Status()`: what the middleware reads after the handler; never 0. */
    function Status(): (s: int)
      reads this
      ensures s != 0
      ensures status != 0 ==> s == status
      ensures status == 0 ==> s == StatusOK
    {
      ReportedStatus(status)
    }

    /** Records `s` and forwards it; the byte count is untouched. */
    method WriteHeader(s: int)
      modifies this
      ensures status == s && Status() == ReportedStatus(s)
      ensures length == old(length)
      ensures forwarded == old(forwarded) + [HeaderCall(s)]
    {
      status := s;
      forwarded := forwarded + [HeaderCall(s)];
    }

    /**
     * Writes `b`. The wrapped writer's answer (`n` bytes written and possibly an
     * error message) is an input: the wrapped writer is outside the model.
     * `Write` never changes what `Status()` reports: an unset status is
     * recorded as the 200 it already read as.
     */
    method Write(b: seq<bv8>, n: int, failure: Option<string>) returns (written: int, err: Option<WrappedError>)
      modifies this
      ensures status == ReportedStatus(old(status)) && Status() == old(Status())
      ensures length == old(length) + n
      ensures written == n
      ensures err.None? <==> failure.None?
      ensures failure.Some? ==> err == Some(WrappedError(WriteErrorContext, failure.value))
      ensures forwarded == old(forwarded) + [BodyCall(b)]
    {
      if status == 0 {
        status := 200;
      }
      forwarded := forwarded + [BodyCall(b)];
      length := length + n;
      if failure.Some? {
        return n, Some(WrappedError(WriteErrorContext, failure.value));
      }
      return n, None;
    }
  }

  /** Reporting is idempotent: recording what `Status()` reported changes nothing. */
  lemma ReportedStatusIdempotent(stored: int)
    ensures ReportedStatus(ReportedStatus(stored)) == ReportedStatus(stored)
  {
  }

  /** A fresh writer written to without a header reports 200 and counts the bytes. */
  method WriteWithoutHeader() returns (status: int, length: int)
    ensures status == 200 && length == 10
  {
    var w := new StatusWriter();
    var _, _ := w.Write([0x30, 0x31, 0x32, 0x33, 0x34, 0x35, 0x36, 0x37, 0x38, 0x39], 10, None);
    status, length := w.Status(), w.length;
  }

  /** A header of 403 and no body: the status read back is 403. */
  method HeaderWithoutWrite() returns (status: int)
    ensures status == 403
  {
    var w := new StatusWriter();
    w.WriteHeader(403);
    status := w.Status();
  }

  /** A failing write still counts the bytes the wrapped writer reported and keeps the status. */
  method FailedWriteCounts() returns (written: int, status: int, length: int, failed: bool)
    ensures written == 20 && status == 201 && length == 20 && failed
  {
    var w := new StatusWriter();
    w.WriteHeader(201);
    var err;
    written, err := w.Write(seq(20, i => 0x30), 20, Some("Bang"));
    status, length, failed := w.Status(), w.length, err.Some?;
  }
}
