/** `TaskLogServlet`: the escaping loops, `printTaskLog` and `doGet`, each
    proved to change the response exactly as module Rendering says. */
module TaskLogServlet {
  import opened Wrappers
  import opened Bytes
  import opened LogNames
  import opened Escaping
  import opened Http
  import opened LogReader
  import opened Rendering

  /** The index of the first quotable byte of `data[offset..end]`, or `end`
      when there is none. */
  method FindFirstQuotable(data: array<bv8>, offset: int, end: int) returns (r: int)
    requires 0 <= offset <= end <= data.Length
    ensures offset <= r <= end
    ensures forall i :: offset <= i < r ==> !IsQuotable(data[i])
    ensures r < end ==> IsQuotable(data[r])
  {
    r := offset;
    while r < end
      invariant offset <= r <= end
      invariant forall i :: offset <= i < r ==> !IsQuotable(data[i])
    {
      var c := data[r];
      if c == Lt || c == Gt || c == Amp {
        return;
      }
      r := r + 1;
    }
  }

  /** Writes `data[offset..offset + length]` to `out`, each `<`, `>` and `&`
      replaced by its entity, copying the runs between them in bulk. */
  method QuotedWrite(out: Response, data: array<bv8>, offset: int, length: int)
    requires 0 <= offset && 0 <= length && offset + length <= data.Length
    modifies out
    ensures out.body == old(out.body) + Escaped(data[offset..offset + length])
    ensures out.status == old(out.status) && out.message == old(out.message)
  {
    var end := offset + length;
    var pos := offset;
    while pos < end
      invariant offset <= pos <= end
      invariant out.body == old(out.body) + Escaped(data[offset..pos])
      invariant out.status == old(out.status) && out.message == old(out.message)
    {
      var next := FindFirstQuotable(data, pos, end);
      out.Write(data[pos..next]);
      EscapedRunStep(data[..], offset, pos, next);
      AppendAssoc(old(out.body), Escaped(data[offset..pos]), data[pos..next]);
      pos := next;
      if pos < end {
        var c := data[pos];
        if c == Lt {
          out.Write(EntityLt);
        } else if c == Gt {
          out.Write(EntityGt);
        } else if c == Amp {
          out.Write(EntityAmp);
        } else {
          assert false;
        }
        EscapedByteStep(data[..], offset, pos);
        AppendAssoc(old(out.body), Escaped(data[offset..pos]), Escape(c));
        pos := pos + 1;
      }
    }
  }

  /** The size of the read buffer. */
  const BufferSize := 65536

  /** The read loop of `printTaskLog`: reads the log through a buffer until
      the reader reports its end, writing each chunk verbatim in plain mode and
      escaped otherwise. Returns the exception that ended it, if any. */
  method StreamLog(response: Response, reader: Reader, plainText: bool)
    returns (failure: Option<seq<bv8>>)
    requires reader.Valid() && reader.pos == 0
    modifies response, reader`pos
    ensures reader.Valid() && reader.pos == |reader.source.content|
    ensures failure == if reader.source.Failed? then Some(reader.source.trace) else None
    ensures response.body == old(response.body) + Streamed(plainText, reader.source.content)
    ensures response.status == old(response.status) && response.message == old(response.message)
  {
    var b := new bv8[BufferSize];
    failure := None;
    while true
      invariant reader.Valid()
      invariant response.body == old(response.body) + Streamed(plainText, reader.Delivered())
      invariant response.status == old(response.status) && response.message == old(response.message)
      decreases |reader.source.content| - reader.pos
    {
      ghost var delivered, from := reader.Delivered(), reader.pos;
      var result;
      result, failure := reader.Read(b);
      if failure.Some? {
        break;
      }
      if result > 0 {
        PrefixExtend(reader.source.content, from, reader.pos);
        if plainText {
          response.Write(b[0..result]);
        } else {
          QuotedWrite(response, b, 0, result);
          EscapedAppend(delivered, b[0..result]);
        }
        AppendAssoc(old(response.body), Streamed(plainText, delivered), Streamed(plainText, b[0..result]));
      } else {
        break;
      }
    }
    assert reader.source.content[..reader.pos] == reader.source.content;
  }

  /** The end of `printTaskLog`, once the read loop is over: closes the
      reader and writes the footer after a complete read; after a failure,
      writes the DEBUGOUT footer, or reports 410 and writes the diagnostic. */
  method FinishSection(response: Response, reader: Reader, display: LogKind -> string, taskId: string,
                       plainText: bool, filter: LogKind, failure: Option<seq<bv8>>)
    requires failure == if reader.source.Failed? then Some(reader.source.trace) else None
    modifies response, reader`closed
    ensures response.body == old(response.body) + SectionTail(plainText, filter, reader.source)
    ensures Reported(filter, reader.source) ==>
      response.status == SC_GONE && response.message == Some(GoneError(taskId, display(filter)).message)
    ensures !Reported(filter, reader.source) ==>
      response.status == old(response.status) && response.message == old(response.message)
    ensures reader.closed <==> old(reader.closed) || reader.source.Completed?
  {
    if failure.None? {
      reader.Close();
      if !plainText {
        response.Write(SectionFooter);
      } else {
        assert SectionTail(plainText, filter, reader.source) == [];
      }
    } else if filter == DEBUGOUT {
      if !plainText {
        response.Write(DebugFooter);
      } else {
        assert SectionTail(plainText, filter, reader.source) == [];
      }
    } else {
      response.SendError(SC_GONE, "Failed to retrieve " + display(filter) + " log for task: " + taskId);
      response.Write(Diagnostic(failure.value));
    }
  }

  /** Renders one log section. Returns the reader it opened, which is closed
      only when the log was read to its end. */
  method PrintTaskLog(response: Response, logs: LogSource, display: LogKind -> string, taskId: string,
                      start: int, end: int, plainText: bool, filter: LogKind)
    returns (reader: Reader)
    modifies response
    ensures response.body == old(response.body) + SectionHead(plainText, display(filter))
      + Streamed(plainText, logs(taskId, filter, start, end).content)
      + SectionTail(plainText, filter, logs(taskId, filter, start, end))
    ensures Reported(filter, logs(taskId, filter, start, end)) ==>
      response.status == SC_GONE && response.message == Some(GoneError(taskId, display(filter)).message)
    ensures !Reported(filter, logs(taskId, filter, start, end)) ==>
      response.status == old(response.status) && response.message == old(response.message)
    ensures fresh(reader) && (reader.closed <==> logs(taskId, filter, start, end).Completed?)
  {
    if !plainText {
      response.Write(SectionHeader(display(filter)));
    }
    reader := new Reader(logs(taskId, filter, start, end));
    var failure := StreamLog(response, reader, plainText);
    FinishSection(response, reader, display, taskId, plainText, filter, failure);
  }

  /** Serves one request for task logs. */
  method DoGet(params: map<string, string>, env: Env, response: Response)
    modifies response
    ensures response.State() == Handle(env, params, old(response.State()))
  {
    var start := 0;
    var end := -1;
    var plainText := false;
    var filter: Option<LogKind> := None;

    if "taskid" !in params {
      response.SendError(TaskIdRequired.code, TaskIdRequired.message);
      return;
    }
    var taskId := params["taskid"];
    if "filter" in params {
      var logFilter := params["filter"];
      filter := ParseFilter(logFilter);
      if filter.None? {
        response.SendError(SC_BAD_REQUEST, IllegalFilter(logFilter).message);
        return;
      }
    }
    if "start" in params {
      start := env.parseLong(params["start"]);
    }
    if "end" in params {
      end := env.parseLong(params["end"]);
    }
    if "plaintext" in params {
      plainText := ParseBool(params["plaintext"]);
    }
    var q := Query(taskId, filter, start, end, plainText);
    assert ParseQuery(params, env.parseLong) == Success(q);
    Respond(response, env, q);
  }

  /** The output half of `doGet`, once the parameters are read: the HTML page,
      the 400 for plain text without a filter, or the one plain-text log. */
  method Respond(response: Response, env: Env, q: Query)
    modifies response
    ensures response.State() == Dispatch(env, q, old(response.State()))
  {
    if !q.plainText {
      response.Write(DocOpen(env.encode(q.taskId)));
      PrintLogs(response, env, q);
      response.Write(DocClose);
    } else if q.filter.None? {
      response.SendError(FilterRequired.code, FilterRequired.message);
    } else {
      var _ := PrintTaskLog(response, env.logs, env.display, q.taskId, q.start, q.end, q.plainText, q.filter.value);
      SectionState(old(response.State()), response.State(), env.logs, env.display, q.taskId, q.start, q.end,
                   q.plainText, q.filter.value);
    }
  }

  /** The sections of the HTML page: the filtered log alone, or STDOUT,
      STDERR and SYSLOG, then DEBUGOUT and PROFILE when `haveTaskLog` finds
      them. */
  method PrintLogs(response: Response, env: Env, q: Query)
    modifies response
    ensures response.State() == RenderLogs(old(response.State()), env, q)
  {
    if q.filter.None? {
      PrintNext(response, env, q, STDOUT);
      PrintNext(response, env, q, STDERR);
      PrintNext(response, env, q, SYSLOG);
      ghost var always := response.State();
      if env.haveLog(q.taskId, DEBUGOUT) {
        PrintNext(response, env, q, DEBUGOUT);
      }
      assert response.State() == if env.haveLog(q.taskId, DEBUGOUT) then Apply(always, SectionOf(env, q, DEBUGOUT)) else always;
      if env.haveLog(q.taskId, PROFILE) {
        PrintNext(response, env, q, PROFILE);
      }
    } else {
      PrintNext(response, env, q, q.filter.value);
    }
  }

  /** `printTaskLog` for one section of an HTML page, as its `Section`. */
  method PrintNext(response: Response, env: Env, q: Query, k: LogKind)
    modifies response
    ensures response.State() == Apply(old(response.State()), SectionOf(env, q, k))
  {
    ghost var prev := response.State();
    var _ := PrintTaskLog(response, env.logs, env.display, q.taskId, q.start, q.end, q.plainText, k);
    SectionState(prev, response.State(), env.logs, env.display, q.taskId, q.start, q.end, q.plainText, k);
  }

  /** A reply whose fields are those `printTaskLog` leaves is its section applied. */
  lemma SectionState(before: Reply, after: Reply, logs: LogSource, display: LogKind -> string, taskId: string,
                     start: int, end: int, plainText: bool, kind: LogKind)
    requires after.body == before.body + SectionHead(plainText, display(kind))
      + Streamed(plainText, logs(taskId, kind, start, end).content)
      + SectionTail(plainText, kind, logs(taskId, kind, start, end))
    requires Reported(kind, logs(taskId, kind, start, end)) ==>
      after.status == SC_GONE && after.message == Some(GoneError(taskId, display(kind)).message)
    requires !Reported(kind, logs(taskId, kind, start, end)) ==>
      after.status == before.status && after.message == before.message
    ensures after == Apply(before, Section(plainText, kind, display(kind), taskId, logs(taskId, kind, start, end)))
  {
    var r := logs(taskId, kind, start, end);
    var head, streamed, tail := SectionHead(plainText, display(kind)), Streamed(plainText, r.content), SectionTail(plainText, kind, r);
    AppendAssoc(before.body, head, streamed);
    AppendAssoc(before.body, head + streamed, tail);
  }
}
