/** What a client of the servlet sees: the reply to a whole request, from a
    fresh response, in terms of the request parameters and the logs. */
module ServletProperties {
  import opened Wrappers
  import opened Bytes
  import opened LogNames
  import opened Escaping
  import opened Http
  import opened LogReader
  import opened Rendering

  /** Once its parameters are read, a request is answered by `Dispatch`. */
  lemma HandleParsed(env: Env, params: map<string, string>, before: Reply, q: Query)
    requires ParseQuery(params, env.parseLong) == Success(q)
    ensures Handle(env, params, before) == Dispatch(env, q, before)
  {
  }

  /** An HTML request appends the document head, its sections in the order
      `PageKinds` gives, and the document end; the status turns 410 exactly
      when one of those sections could not be read (DEBUGOUT never counts),
      and is left alone otherwise. */
  lemma HtmlPage(env: Env, q: Query, before: Reply)
    requires !q.plainText
    ensures Dispatch(env, q, before).body
         == before.body + DocOpen(env.encode(q.taskId)) + Concat(SectionsOf(env, q, PageKinds(env, q))) + DocClose
    ensures AnyReported(env.logs, q, PageKinds(env, q)) ==> Dispatch(env, q, before).status == SC_GONE
    ensures !AnyReported(env.logs, q, PageKinds(env, q)) ==>
      Dispatch(env, q, before).status == before.status && Dispatch(env, q, before).message == before.message
  {
    var page := before.Write(DocOpen(env.encode(q.taskId)));
    var sections := SectionsOf(env, q, PageKinds(env, q));
    RenderLogsInOrder(page, env, q);
    ApplyAllEffect(page, sections);
    SectionErrors(env, q, PageKinds(env, q));
  }

  /** A plain-text request with a filter appends the log's bytes exactly as
      read, followed by the diagnostic when the read failed for any kind
      but DEBUGOUT, which also turns the status to 410. */
  lemma PlainTextIsVerbatim(env: Env, q: Query, k: LogKind, before: Reply)
    requires q.plainText && q.filter == Some(k)
    ensures var r := env.logs(q.taskId, k, q.start, q.end);
      Dispatch(env, q, before).body == before.body + r.content + (if Reported(k, r) then Diagnostic(r.trace) else [])
    ensures var r := env.logs(q.taskId, k, q.start, q.end);
      Dispatch(env, q, before).status == if Reported(k, r) then SC_GONE else before.status
  {
    var r := env.logs(q.taskId, k, q.start, q.end);
    var section := SectionOf(env, q, k);
    var tail := if Reported(k, r) then Diagnostic(r.trace) else [];
    assert Dispatch(env, q, before) == Apply(before, section);
    assert SectionTail(true, k, r) == tail;
    assert section.Bytes() == [] + r.content + tail;
    assert [] + r.content == r.content;
    AppendAssoc(before.body, r.content, tail);
  }

  /** A request is answered with 400 exactly when `taskid` is missing, the
      filter names no log, or plain text is asked for without a filter; such
      a reply has an empty body. */
  lemma RejectedRequests(env: Env, params: map<string, string>)
    ensures Handle(env, params, Initial).status == SC_BAD_REQUEST
       <==> ParseQuery(params, env.parseLong).Failure?
            || (ParseQuery(params, env.parseLong).value.plainText && ParseQuery(params, env.parseLong).value.filter.None?)
    ensures Handle(env, params, Initial).status == SC_BAD_REQUEST ==> Handle(env, params, Initial).body == []
    ensures "taskid" !in params ==> Handle(env, params, Initial).message == Some("Argument taskid is required")
    ensures "taskid" in params && "filter" in params && ParseFilter(params["filter"]).None? ==>
      Handle(env, params, Initial).message == Some("Illegal value for filter: " + params["filter"])
  {
    match ParseQuery(params, env.parseLong)
    case Failure(_) =>
    case Success(q) =>
      HandleParsed(env, params, Initial, q);
      if !q.plainText {
        HtmlPage(env, q, Initial);
      } else if q.filter.Some? {
        PlainTextIsVerbatim(env, q, q.filter.value, Initial);
      }
  }

  /** Two log stores that agree on a query's window give it the same reply. */
  lemma SameWindowSameDispatch(env: Env, logs: LogSource, q: Query, before: Reply)
    requires forall k :: logs(q.taskId, k, q.start, q.end) == env.logs(q.taskId, k, q.start, q.end)
    ensures Dispatch(env.(logs := logs), q, before) == Dispatch(env, q, before)
  {
    var other := env.(logs := logs);
    forall k
      ensures SectionOf(other, q, k) == SectionOf(env, q, k)
    {
    }
    if !q.plainText {
      var page := before.Write(DocOpen(env.encode(q.taskId)));
      assert RenderLogs(page, other, q) == RenderLogs(page, env, q);
    }
  }

  /** The reply depends on the logs only through the byte window the request
      names: two log stores that agree on that window for every kind give the
      same reply. */
  lemma OnlyRequestedWindowRead(env: Env, logs: LogSource, params: map<string, string>, q: Query, before: Reply)
    requires ParseQuery(params, env.parseLong) == Success(q)
    requires forall k :: logs(q.taskId, k, q.start, q.end) == env.logs(q.taskId, k, q.start, q.end)
    ensures Handle(env.(logs := logs), params, before) == Handle(env, params, before)
  {
    HandleParsed(env, params, before, q);
    HandleParsed(env.(logs := logs), params, before, q);
    SameWindowSameDispatch(env, logs, q, before);
  }

  /** Without `filter`, `start`, `end` and `plaintext`, a request asks for
      every log, whole, as HTML. */
  lemma QueryDefaults(params: map<string, string>, parseLong: string -> int)
    requires "taskid" in params
    requires "filter" !in params && "start" !in params && "end" !in params && "plaintext" !in params
    ensures ParseQuery(params, parseLong) == Success(Query(params["taskid"], None, 0, -1, false))
  {
  }

  /** The bytes of three sections in turn. */
  lemma ConcatThree(o1: Section, o2: Section, o3: Section)
    ensures Concat([o1] + ([o2] + [o3])) == o1.Bytes() + o2.Bytes() + o3.Bytes()
  {
    assert Concat([o3]) == o3.Bytes() by {
      assert [o3][1..] == [];
    }
    assert Concat([o2] + [o3]) == o2.Bytes() + o3.Bytes() by {
      assert ([o2] + [o3])[1..] == [o3];
    }
    assert Concat([o1] + ([o2] + [o3])) == o1.Bytes() + (o2.Bytes() + o3.Bytes()) by {
      assert ([o1] + ([o2] + [o3]))[1..] == [o2] + [o3];
    }
    AppendAssoc(o1.Bytes(), o2.Bytes(), o3.Bytes());
  }

  /** Without a filter and without the optional logs, a page holds the
      STDOUT, STDERR and SYSLOG sections, in that order. */
  lemma MandatorySections(env: Env, q: Query)
    requires q.filter.None? && !env.haveLog(q.taskId, DEBUGOUT) && !env.haveLog(q.taskId, PROFILE)
    ensures PageKinds(env, q) == [STDOUT, STDERR, SYSLOG]
    ensures SectionsOf(env, q, PageKinds(env, q))
         == [SectionOf(env, q, STDOUT)] + ([SectionOf(env, q, STDERR)] + [SectionOf(env, q, SYSLOG)])
  {
    assert PageKinds(env, q) == [STDOUT] + ([STDERR] + [SYSLOG]);
    SectionsOfCons(env, q, SYSLOG, []);
    SectionsOfCons(env, q, STDERR, [SYSLOG]);
    SectionsOfCons(env, q, STDOUT, [STDERR] + [SYSLOG]);
  }

  /** The section of an HTML page for a log read to its end. */
  function CompleteSection(printed: string, content: seq<bv8>): seq<bv8>
  {
    SectionHeader(printed) + Escaped(content) + SectionFooter
  }

  /** `?taskid=t` for a task whose three mandatory logs read to their end and
      which has no DEBUGOUT or PROFILE log: a page with exactly the STDOUT,
      STDERR and SYSLOG sections, in that order, each escaped, and status 200. */
  lemma ThreeSectionPage(env: Env, taskId: string)
    requires !env.haveLog(taskId, DEBUGOUT) && !env.haveLog(taskId, PROFILE)
    requires env.logs(taskId, STDOUT, 0, -1).Completed?
    requires env.logs(taskId, STDERR, 0, -1).Completed?
    requires env.logs(taskId, SYSLOG, 0, -1).Completed?
    ensures Handle(env, map["taskid" := taskId], Initial)
         == Reply(SC_OK, None,
              DocOpen(env.encode(taskId))
              + CompleteSection(env.display(STDOUT), env.logs(taskId, STDOUT, 0, -1).content)
              + CompleteSection(env.display(STDERR), env.logs(taskId, STDERR, 0, -1).content)
              + CompleteSection(env.display(SYSLOG), env.logs(taskId, SYSLOG, 0, -1).content)
              + DocClose)
  {
    var params := map["taskid" := taskId];
    var q := Query(taskId, None, 0, -1, false);
    QueryDefaults(params, env.parseLong);
    HandleParsed(env, params, Initial, q);
    MandatorySections(env, q);
    ConcatThree(SectionOf(env, q, STDOUT), SectionOf(env, q, STDERR), SectionOf(env, q, SYSLOG));
    var a := CompleteSection(env.display(STDOUT), env.logs(taskId, STDOUT, 0, -1).content);
    var b := CompleteSection(env.display(STDERR), env.logs(taskId, STDERR, 0, -1).content);
    var c := CompleteSection(env.display(SYSLOG), env.logs(taskId, SYSLOG, 0, -1).content);
    assert SectionOf(env, q, STDOUT).Bytes() == a;
    assert SectionOf(env, q, STDERR).Bytes() == b;
    assert SectionOf(env, q, SYSLOG).Bytes() == c;
    var open := DocOpen(env.encode(taskId));
    HtmlPage(env, q, Initial);
    assert !AnyReported(env.logs, q, [STDOUT, STDERR, SYSLOG]);
    var reply := Dispatch(env, q, Initial);
    assert reply.body == [] + open + (a + b + c) + DocClose;
    assert [] + open == open;
    AppendAssoc(open, a + b, c);
    AppendAssoc(open, a, b);
    assert reply == Reply(reply.status, reply.message, reply.body);
  }

  /** `?taskid=t&filter=stdout` when the STDOUT log cannot be read: status 410
      with a message naming STDOUT and `taskId`, and the diagnostic in place
      of the section footer. */
  lemma StdoutFailureReported(env: Env, taskId: string)
    requires env.logs(taskId, STDOUT, 0, -1).Failed?
    ensures var reply := Handle(env, map["taskid" := taskId, "filter" := "stdout"], Initial);
      var r := env.logs(taskId, STDOUT, 0, -1);
      && reply.status == SC_GONE
      && reply.message == Some("Failed to retrieve " + env.display(STDOUT) + " log for task: " + taskId)
      && reply.body == DocOpen(env.encode(taskId)) + SectionHeader(env.display(STDOUT)) + Escaped(r.content)
                       + Diagnostic(r.trace) + DocClose
  {
    var params := map["taskid" := taskId, "filter" := "stdout"];
    FilterExamples();
    var q := Query(taskId, Some(STDOUT), 0, -1, false);
    assert ParseQuery(params, env.parseLong) == Success(q);
    HandleParsed(env, params, Initial, q);
    var r := env.logs(taskId, STDOUT, 0, -1);
    var open := DocOpen(env.encode(taskId));
    var page := Initial.Write(open);
    var section := SectionOf(env, q, STDOUT);
    assert RenderLogs(page, env, q) == Apply(page, section);
    var head, escaped, diag := SectionHeader(env.display(STDOUT)), Escaped(r.content), Diagnostic(r.trace);
    assert section.Bytes() == head + escaped + diag;
    assert section.Error() == Some(GoneError(taskId, env.display(STDOUT)));
    assert page.body == open;
    AppendAssoc(open, head + escaped, diag);
    AppendAssoc(open, head, escaped);
  }
}
