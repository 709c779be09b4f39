/** What `printTaskLog` and `doGet` do to a response, as functions of the
    request and of a task's logs. The methods of module TaskLogServlet
    are proved to produce exactly these replies. */
module Rendering {
  import opened Wrappers
  import opened Bytes
  import opened LogNames
  import opened Escaping
  import opened Http
  import opened LogReader

  /** The servlet's collaborators: the log readers, `haveTaskLog`, the text
      `LogName.toString()` prints for a kind, the charset that encodes a
      task id, and `Long.valueOf`. */
  datatype Env = Env(
    logs: LogSource,
    haveLog: (string, LogKind) -> bool,
    display: LogKind -> string,
    encode: string -> seq<bv8>,
    parseLong: string -> int)

  /** The request once its parameters are read. */
  datatype Query = Query(taskId: string, filter: Option<LogKind>, start: int, end: int, plainText: bool)

  // ----- printTaskLog -----

  /** The heading of a section, given the text printed for its kind. */
  function SectionHeader(printed: string): seq<bv8>
  {
    Ascii("<br><b><u>") + Ascii(printed) + Ascii(" logs</u></b><br>\n<pre>\n")
  }

  /** Written after a log that was read to its end. */
  const SectionFooter: seq<bv8> := Ascii("</pre></td></tr></table><hr><br>\n")

  /** Written when the DEBUGOUT log cannot be read. */
  const DebugFooter: seq<bv8> := Ascii("</pre><hr><br>\n")

  /** The diagnostic written when any other log cannot be read. */
  function Diagnostic(trace: seq<bv8>): seq<bv8>
  {
    Ascii("TaskLogServlet exception:\n") + trace + Ascii("\n")
  }

  /** Log bytes as written: verbatim in plain mode, escaped otherwise. */
  function Streamed(plainText: bool, content: seq<bv8>): seq<bv8>
  {
    if plainText then content else Escaped(content)
  }

  /** A read failure is reported to the client for every kind but DEBUGOUT. */
  predicate Reported(kind: LogKind, r: ReadResult)
  {
    r.Failed? && kind != DEBUGOUT
  }

  /** What a section writes before the log bytes. */
  function SectionHead(plainText: bool, printed: string): seq<bv8>
  {
    if plainText then [] else SectionHeader(printed)
  }

  /** What a section writes after the log bytes: the footer when the log was
      read to its end; on a failure, the DEBUGOUT footer or the diagnostic. */
  function SectionTail(plainText: bool, kind: LogKind, r: ReadResult): seq<bv8>
  {
    match r
    case Completed(_) => if plainText then [] else SectionFooter
    case Failed(_, trace) =>
      if kind == DEBUGOUT then (if plainText then [] else DebugFooter)
      else Diagnostic(trace)
  }

  /** The bytes one section appends to the body. */
  function SectionBytes(plainText: bool, kind: LogKind, printed: string, r: ReadResult): seq<bv8>
  {
    SectionHead(plainText, printed) + Streamed(plainText, r.content) + SectionTail(plainText, kind, r)
  }

  /** The bytes of a section case by case: in plain mode the log exactly as
      read, followed by the diagnostic only for a reported failure; in HTML
      mode the header, the escaped log, and the footer that fits how the
      read ended. */
  lemma SectionCases(plainText: bool, kind: LogKind, printed: string, r: ReadResult)
    ensures plainText ==> SectionBytes(plainText, kind, printed, r)
                          == r.content + (if Reported(kind, r) then Diagnostic(r.trace) else [])
    ensures !plainText && r.Completed? ==>
      SectionBytes(plainText, kind, printed, r) == SectionHeader(printed) + Escaped(r.content) + SectionFooter
    ensures !plainText && r.Failed? && kind == DEBUGOUT ==>
      SectionBytes(plainText, kind, printed, r) == SectionHeader(printed) + Escaped(r.content) + DebugFooter
    ensures !plainText && Reported(kind, r) ==>
      SectionBytes(plainText, kind, printed, r) == SectionHeader(printed) + Escaped(r.content) + Diagnostic(r.trace)
  {
    if plainText {
      assert SectionHead(plainText, printed) + r.content == r.content;
      if !Reported(kind, r) {
        assert SectionTail(plainText, kind, r) == [];
        assert r.content + [] == r.content;
      }
    }
  }

  /** The error sent when a log cannot be read, given the text printed for its kind. */
  function GoneError(taskId: string, printed: string): HttpError
  {
    HttpError(SC_GONE, "Failed to retrieve " + printed + " log for task: " + taskId)
  }

  /** One call of `printTaskLog(response, out, taskId, start, end, plainText, kind)`:
      its mode, its kind and the text printed for it, its task, and what the
      reader for the log yields. */
  datatype Section = Section(plainText: bool, kind: LogKind, printed: string, taskId: string, read: ReadResult)
  {
    /** The bytes the call appends to the body. */
    function Bytes(): seq<bv8>
    {
      SectionBytes(plainText, kind, printed, read)
    }

    /** The error the call sends, if any. */
    function Error(): Option<HttpError>
    {
      if Reported(kind, read) then Some(GoneError(taskId, printed)) else None
    }
  }

  /** The reply after a section: its bytes written, then its error sent. */
  function Apply(before: Reply, s: Section): (r: Reply)
    ensures r.body == before.body + s.Bytes() && before.body <= r.body
    ensures r.status == if Reported(s.kind, s.read) then SC_GONE else before.status
    ensures r.message == if Reported(s.kind, s.read) then Some(GoneError(s.taskId, s.printed).message) else before.message
  {
    var written := before.Write(s.Bytes());
    if s.Error().Some? then written.SendError(s.Error().value) else written
  }

  /** The section `kind` of a query. */
  function SectionOf(env: Env, q: Query, kind: LogKind): Section
  {
    Section(q.plainText, kind, env.display(kind), q.taskId, env.logs(q.taskId, kind, q.start, q.end))
  }

  // ----- doGet -----

  const TaskIdRequired := HttpError(SC_BAD_REQUEST, "Argument taskid is required")

  function IllegalFilter(value: string): HttpError
  {
    HttpError(SC_BAD_REQUEST, "Illegal value for filter: " + value)
  }

  const FilterRequired := HttpError(SC_BAD_REQUEST,
    "You must supply a value for `filter' (STDOUT, STDERR, or SYSLOG) if you set plainText = true")

  /** Reads the request parameters, with the defaults `start = 0`,
      `end = -1` and `plainText = false`; fails on a missing `taskid` and on
      a `filter` that names no log kind. */
  function ParseQuery(params: map<string, string>, parseLong: string -> int): (r: Result<Query, HttpError>)
    ensures r.Success? <==> "taskid" in params && ("filter" in params ==> ParseFilter(params["filter"]).Some?)
    ensures r.Success? ==> r.value.taskId == params["taskid"]
    ensures r.Success? ==> r.value.filter == if "filter" in params then ParseFilter(params["filter"]) else None
    ensures r.Success? ==> r.value.start == if "start" in params then parseLong(params["start"]) else 0
    ensures r.Success? ==> r.value.end == if "end" in params then parseLong(params["end"]) else -1
    ensures r.Success? ==> r.value.plainText == ("plaintext" in params && ParseBool(params["plaintext"]))
  {
    if "taskid" !in params then Failure(TaskIdRequired)
    else if "filter" in params && ParseFilter(params["filter"]).None? then
      Failure(IllegalFilter(params["filter"]))
    else
      Success(Query(
        params["taskid"],
        if "filter" in params then ParseFilter(params["filter"]) else None,
        if "start" in params then parseLong(params["start"]) else 0,
        if "end" in params then parseLong(params["end"]) else -1,
        if "plaintext" in params then ParseBool(params["plaintext"]) else false))
  }

  /** The HTML document around the sections. */
  function DocOpen(taskIdBytes: seq<bv8>): seq<bv8>
  {
    Ascii("<html>\n<title>Task Logs: '") + taskIdBytes
    + Ascii("'</title>\n<body>\n<h1>Task Logs: '") + taskIdBytes + Ascii("'</h1><br>\n")
  }

  const DocClose: seq<bv8> := Ascii("</body></html>\n")

  /** The sections an HTML request renders, in order: the filtered kind
      alone, or STDOUT, STDERR and SYSLOG, then DEBUGOUT and PROFILE when
      their logs are readable. */
  function PageKinds(env: Env, q: Query): (ks: seq<LogKind>)
    ensures q.filter.Some? ==> ks == [q.filter.value]
    ensures q.filter.None? ==> 3 <= |ks| <= 5 && ks[..3] == [STDOUT, STDERR, SYSLOG]
    ensures q.filter.None? ==> (DEBUGOUT in ks <==> env.haveLog(q.taskId, DEBUGOUT))
    ensures q.filter.None? ==> (PROFILE in ks <==> env.haveLog(q.taskId, PROFILE))
    ensures q.filter.None? ==>
      ks[3..] == [] || ks[3..] == [DEBUGOUT] || ks[3..] == [PROFILE] || ks[3..] == [DEBUGOUT, PROFILE]
  {
    match q.filter
    case Some(k) => [k]
    case None =>
      [STDOUT, STDERR, SYSLOG]
      + (if env.haveLog(q.taskId, DEBUGOUT) then [DEBUGOUT] else [])
      + (if env.haveLog(q.taskId, PROFILE) then [PROFILE] else [])
  }

  /** The sections of an HTML page rendered in the order `doGet` calls
      `printTaskLog`. */
  function RenderLogs(before: Reply, env: Env, q: Query): (r: Reply)
    ensures before.body <= r.body
    ensures r.status == before.status || r.status == SC_GONE
  {
    match q.filter
    case Some(k) => Apply(before, SectionOf(env, q, k))
    case None =>
      var always := Apply(Apply(Apply(before, SectionOf(env, q, STDOUT)),
                                SectionOf(env, q, STDERR)),
                          SectionOf(env, q, SYSLOG));
      var debug :=
        if env.haveLog(q.taskId, DEBUGOUT) then Apply(always, SectionOf(env, q, DEBUGOUT)) else always;
      if env.haveLog(q.taskId, PROFILE) then Apply(debug, SectionOf(env, q, PROFILE)) else debug
  }

  /** The reply after `doGet` for a request whose parameters were read. */
  function Dispatch(env: Env, q: Query, before: Reply): (r: Reply)
    ensures before.body <= r.body
    ensures r.status == before.status || r.status == SC_BAD_REQUEST || r.status == SC_GONE
    ensures r.status == SC_BAD_REQUEST != before.status ==> r.body == before.body
  {
    if !q.plainText then
      RenderLogs(before.Write(DocOpen(env.encode(q.taskId))), env, q).Write(DocClose)
    else if q.filter.None? then
      before.SendError(FilterRequired)
    else
      Apply(before, SectionOf(env, q, q.filter.value))
  }

  /** The reply after `doGet(request, response)`. */
  function Handle(env: Env, params: map<string, string>, before: Reply): (r: Reply)
    ensures before.body <= r.body
    ensures r.status == before.status || r.status == SC_BAD_REQUEST || r.status == SC_GONE
    ensures r.status == SC_BAD_REQUEST != before.status ==> r.body == before.body
  {
    match ParseQuery(params, env.parseLong)
    case Failure(e) => before.SendError(e)
    case Success(q) => Dispatch(env, q, before)
  }

  // ----- What the replies contain -----

  /** The reply after several sections, first to last. */
  function ApplyAll(before: Reply, os: seq<Section>): Reply
    decreases |os|
  {
    if os == [] then before else ApplyAll(Apply(before, os[0]), os[1..])
  }

  /** The bytes several sections append, first to last. */
  function Concat(os: seq<Section>): seq<bv8>
  {
    if os == [] then [] else os[0].Bytes() + Concat(os[1..])
  }

  /** The error of the last section that sends one: the one the reply ends with. */
  function LastError(os: seq<Section>): Option<HttpError>
  {
    if os == [] then None
    else if LastError(os[1..]).Some? then LastError(os[1..])
    else os[0].Error()
  }

  /** The sections `kinds` of a query, in order. */
  function SectionsOf(env: Env, q: Query, kinds: seq<LogKind>): seq<Section>
  {
    if kinds == [] then [] else [SectionOf(env, q, kinds[0])] + SectionsOf(env, q, kinds[1..])
  }

  /** Some section among `kinds` reports a failed read. */
  predicate AnyReported(logs: LogSource, q: Query, kinds: seq<LogKind>)
  {
    exists i :: 0 <= i < |kinds| && Reported(kinds[i], logs(q.taskId, kinds[i], q.start, q.end))
  }

  /** Sections applied in turn append all their bytes in order and leave the
      status and message of the last error sent, or those before if none. */
  lemma {:induction false} ApplyAllEffect(before: Reply, os: seq<Section>)
    ensures ApplyAll(before, os).body == before.body + Concat(os)
    ensures LastError(os).None? ==>
      ApplyAll(before, os).status == before.status && ApplyAll(before, os).message == before.message
    ensures LastError(os).Some? ==>
      ApplyAll(before, os).status == LastError(os).value.code
      && ApplyAll(before, os).message == Some(LastError(os).value.message)
    decreases |os|
  {
    if os != [] {
      var next := Apply(before, os[0]);
      ApplyAllEffect(next, os[1..]);
      AppendAssoc(before.body, os[0].Bytes(), Concat(os[1..]));
    }
  }

  /** A list of sections ends with an error exactly when one of them reports
      a failed read, and that error is always 410. */
  lemma {:induction false} SectionErrors(env: Env, q: Query, kinds: seq<LogKind>)
    ensures LastError(SectionsOf(env, q, kinds)).Some? <==> AnyReported(env.logs, q, kinds)
    ensures LastError(SectionsOf(env, q, kinds)).Some? ==> LastError(SectionsOf(env, q, kinds)).value.code == SC_GONE
    decreases |kinds|
  {
    if kinds != [] {
      var os := SectionsOf(env, q, kinds);
      assert os[1..] == SectionsOf(env, q, kinds[1..]);
      SectionErrors(env, q, kinds[1..]);
      if AnyReported(env.logs, q, kinds[1..]) {
        var i :| 0 <= i < |kinds[1..]| && Reported(kinds[1..][i], env.logs(q.taskId, kinds[1..][i], q.start, q.end));
        assert kinds[i + 1] == kinds[1..][i];
      } else {
        forall i | 1 <= i < |kinds|
          ensures !Reported(kinds[i], env.logs(q.taskId, kinds[i], q.start, q.end))
        {
          assert kinds[1..][i - 1] == kinds[i];
        }
      }
    }
  }

  lemma SectionsOfCons(env: Env, q: Query, k: LogKind, kinds: seq<LogKind>)
    ensures SectionsOf(env, q, [k] + kinds) == [SectionOf(env, q, k)] + SectionsOf(env, q, kinds)
  {
    assert ([k] + kinds)[1..] == kinds;
  }

  lemma ApplyAllCons(before: Reply, o: Section, os: seq<Section>)
    ensures ApplyAll(before, [o] + os) == ApplyAll(Apply(before, o), os)
  {
    assert ([o] + os)[1..] == os;
  }

  /** Optional elements of a list. */
  function When<T>(b: bool, x: T): seq<T>
  {
    if b then [x] else []
  }

  /** Applying three sections and then up to two optional ones, one call at a
      time, is `ApplyAll` over their list. */
  lemma ApplyInTurn(before: Reply, o1: Section, o2: Section, o3: Section, o4: Section, o5: Section,
                    has4: bool, has5: bool)
    ensures
      var always := Apply(Apply(Apply(before, o1), o2), o3);
      var fourth := if has4 then Apply(always, o4) else always;
      ApplyAll(before, [o1] + ([o2] + ([o3] + (When(has4, o4) + When(has5, o5)))))
        == if has5 then Apply(fourth, o5) else fourth
  {
    var optional := When(has4, o4) + When(has5, o5);
    ApplyAllCons(before, o1, [o2] + ([o3] + optional));
    var s1 := Apply(before, o1);
    ApplyAllCons(s1, o2, [o3] + optional);
    var s2 := Apply(s1, o2);
    ApplyAllCons(s2, o3, optional);
    var always := Apply(s2, o3);
    var fourth := if has4 then Apply(always, o4) else always;
    if has4 {
      ApplyAllCons(always, o4, When(has5, o5));
    } else {
      assert optional == When(has5, o5);
    }
    if has5 {
      ApplyAllCons(fourth, o5, []);
    }
  }

  /** The default sections of a query, listed kind by kind. */
  lemma DefaultSectionsOf(env: Env, q: Query, hasDebug: bool, hasProfile: bool)
    ensures SectionsOf(env, q, [STDOUT] + ([STDERR] + ([SYSLOG] + (When(hasDebug, DEBUGOUT) + When(hasProfile, PROFILE)))))
         == [SectionOf(env, q, STDOUT)] + ([SectionOf(env, q, STDERR)] + ([SectionOf(env, q, SYSLOG)]
            + (When(hasDebug, SectionOf(env, q, DEBUGOUT)) + When(hasProfile, SectionOf(env, q, PROFILE)))))
  {
    var profile := When(hasProfile, PROFILE);
    var optional := When(hasDebug, DEBUGOUT) + profile;
    SectionsOfCons(env, q, STDOUT, [STDERR] + ([SYSLOG] + optional));
    SectionsOfCons(env, q, STDERR, [SYSLOG] + optional);
    SectionsOfCons(env, q, SYSLOG, optional);
    if hasProfile {
      SectionsOfCons(env, q, PROFILE, []);
    }
    if hasDebug {
      SectionsOfCons(env, q, DEBUGOUT, profile);
    } else {
      assert optional == profile;
    }
  }

  /** The HTML page renders its sections in the order `PageKinds` lists
      them: the definition shaped like the code agrees with the list. */
  lemma RenderLogsInOrder(before: Reply, env: Env, q: Query)
    ensures RenderLogs(before, env, q) == ApplyAll(before, SectionsOf(env, q, PageKinds(env, q)))
  {
    match q.filter
    case Some(k) =>
      SectionsOfCons(env, q, k, []);
      ApplyAllCons(before, SectionOf(env, q, k), []);
    case None =>
      var hasDebug, hasProfile := env.haveLog(q.taskId, DEBUGOUT), env.haveLog(q.taskId, PROFILE);
      assert PageKinds(env, q)
          == [STDOUT] + ([STDERR] + ([SYSLOG] + (When(hasDebug, DEBUGOUT) + When(hasProfile, PROFILE))));
      DefaultSectionsOf(env, q, hasDebug, hasProfile);
      ApplyInTurn(before, SectionOf(env, q, STDOUT), SectionOf(env, q, STDERR), SectionOf(env, q, SYSLOG),
                  SectionOf(env, q, DEBUGOUT), SectionOf(env, q, PROFILE), hasDebug, hasProfile);
  }
}
