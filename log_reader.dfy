/** `TaskLog.Reader`, the input stream over one log of one task between two
    byte offsets. Its file I/O is not part of this model: a reader is given
    by the outcome of reading it to the end. */
module LogReader {
  import opened Wrappers
  import opened LogNames

  /** The outcome of reading a log to the end: the bytes delivered, then
      either the end of the stream or an `IOException`, given by the text of
      its stack trace. A reader that cannot be opened is `Failed([], trace)`. */
  datatype ReadResult =
    | Completed(content: seq<bv8>)
    | Failed(content: seq<bv8>, trace: seq<bv8>)

  /** The reader the servlet opens for `(taskId, kind, start, end)`. */
  type LogSource = (string, LogKind, int, int) -> ReadResult

  /** An open reader: how many bytes it delivered and whether it was closed. */
  class Reader {
    const source: ReadResult
    var pos: nat
    var closed: bool

    ghost predicate Valid()
      reads this
    {
      pos <= |source.content|
    }

    /** The bytes delivered so far. */
    function Delivered(): seq<bv8>
      reads this
      requires Valid()
    {
      source.content[..pos]
    }

    constructor (source: ReadResult)
      ensures Valid() && this.source == source
      ensures pos == 0 && !closed
    {
      this.source := source;
      pos, closed := 0, false;
    }

    /** `read(b)`: copies the next bytes, as many as fit, into `b` and returns
        their number; returns -1 at the end of the stream, or fails with the
        stream's exception once the bytes before it are delivered. */
    method Read(b: array<bv8>) returns (n: int, failure: Option<seq<bv8>>)
      requires Valid() && b.Length > 0
      modifies this`pos, b
      ensures Valid()
      ensures old(pos) < |source.content| ==>
        && failure == None
        && 0 < n <= b.Length
        && pos == old(pos) + n
        && b[..n] == source.content[old(pos)..pos]
      ensures old(pos) == |source.content| ==>
        && pos == old(pos)
        && (source.Completed? ==> failure == None && n == -1)
        && (source.Failed? ==> failure == Some(source.trace))
    {
      if pos < |source.content| {
        n := if |source.content| - pos < b.Length then |source.content| - pos else b.Length;
        var c := source.content[pos..pos + n];
        forall i | 0 <= i < n {
          b[i] := c[i];
        }
        failure := None;
        pos := pos + n;
      } else if source.Completed? {
        n, failure := -1, None;
      } else {
        n, failure := 0, Some(source.trace);
      }
    }

    /** `close()`. */
    method Close()
      modifies this`closed
      ensures closed
    {
      closed := true;
    }
  }
}
