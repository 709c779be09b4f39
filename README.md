# TaskLogServlet in Dafny

A model of Hadoop's `TaskLogServlet`, the servlet a TaskTracker runs to
serve a task's logs over HTTP, with proofs about what it writes.

A request names a task (`taskid`) and optionally a log kind (`filter`:
STDOUT, STDERR, SYSLOG, PROFILE or DEBUGOUT, in any letter case), a byte
window (`start`, `end`, defaults 0 and -1) and `plaintext` (default false).

- In HTML mode the servlet writes a small document. It holds one section per
  log: the filtered one, or else STDOUT, STDERR and SYSLOG, then DEBUGOUT and
  PROFILE when their files are readable.
- Each section is a header, the log bytes with `<`, `>` and `&` replaced by
  `&lt;`, `&gt;` and `&amp;`, and a footer.
- In plain-text mode the one filtered log is written verbatim.
- When a log cannot be read, the section ends with a diagnostic and the
  response gets status 410. DEBUGOUT is the exception: it only gets a shorter
  footer.
- A missing `taskid`, an unknown filter, or plain text without a filter gets
  status 400.

The modules:

- `Escaping`: the escape as a function on byte strings, with its decoder. It
  proves the length, that no `<` or `>` survives, and both round trips.
- `LogNames`: the log kinds and the parsing of `filter` and `plaintext`.
- `Http`: a `Response` class with the status, the error message and the
  bytes written. `Reply` is its value.
- `LogReader`: a `Reader` class standing for `TaskLog.Reader`. It is given
  by what reading the log to its end yields.
- `Rendering`: pure functions giving the reply after `printTaskLog`
  (`Apply` of a `Section`) and after `doGet` (`Handle`, `Dispatch`,
  `RenderLogs`). It also has lemmas relating them to lists of sections.
- `TaskLogServlet`: the servlet's methods, written as loops and in-place
  writes like the Java. Each is proved to leave the response exactly as
  `Rendering` says.
- `ServletProperties`: what a client sees, stated for whole requests.

## Model

| member | source | states |
|---|---|---|
| TaskLogServlet.FindFirstQuotable | src/java/org/apache/hadoop/mapred/TaskLogServlet.java:47-59 | returns `r` with `offset <= r <= end`, no quotable byte in `data[offset..r]`, and `data[r]` quotable when `r < end` |
| TaskLogServlet.QuotedWrite | src/java/org/apache/hadoop/mapred/TaskLogServlet.java:61-86 | appends exactly `Escaped(data[offset..offset+length])` and leaves status and message alone; the `default` branch is proved unreachable |
| TaskLogServlet.StreamLog | src/java/org/apache/hadoop/mapred/TaskLogServlet.java:100-113 | the read loop consumes the whole log, appends its bytes verbatim in plain mode and escaped otherwise, and returns the exception that ended it, if any |
| TaskLogServlet.FinishSection | src/java/org/apache/hadoop/mapred/TaskLogServlet.java:114-131 | after a complete read: closes the reader and writes the long footer in HTML mode; after a DEBUGOUT failure: writes the short footer in HTML mode, no status; after any other failure: status 410 with the printed kind and the task in the message, then the diagnostic, and the reader stays open |
| TaskLogServlet.PrintTaskLog | src/java/org/apache/hadoop/mapred/TaskLogServlet.java:88-133 | body grows by header, streamed log and tail; status 410 exactly when a non-DEBUGOUT read fails, else status and message unchanged; the reader is closed exactly when the log was read to its end |
| TaskLogServlet.DoGet | src/java/org/apache/hadoop/mapred/TaskLogServlet.java:138-213 | the response ends as `Handle(env, params, before)` |
| TaskLogServlet.Respond | src/java/org/apache/hadoop/mapred/TaskLogServlet.java:179-212 | once parameters are read, the response ends as `Dispatch`: the HTML page, the 400 for plain text without filter, or one plain section |
| TaskLogServlet.PrintLogs | src/java/org/apache/hadoop/mapred/TaskLogServlet.java:186-203 | the HTML sections are applied in the code's order, DEBUGOUT and PROFILE only when `haveTaskLog` finds them |
| TaskLogServlet.PrintNext | src/java/org/apache/hadoop/mapred/TaskLogServlet.java:187-188 | one `printTaskLog` call changes the response exactly as its `Section` applied |
| TaskLogServlet.SectionState | src/java/org/apache/hadoop/mapred/TaskLogServlet.java:88-133 | the field-wise effect of `printTaskLog` is the reply `Apply(before, section)` |
| LogReader.Reader.constructor | src/java/org/apache/hadoop/mapred/TaskLogServlet.java:98-99 | a new reader over a log has delivered nothing and is open |
| LogReader.Reader.Read | src/java/org/apache/hadoop/mapred/TaskLogServlet.java:103 | before the end: a positive count and the next bytes of the log in `b[..n]`; at the end: -1 for a complete log, the exception for a failed one |
| LogReader.Reader.Close | src/java/org/apache/hadoop/mapred/TaskLogServlet.java:114 | the reader is closed |
| Http.Response.Write | src/java/org/apache/hadoop/mapred/TaskLogServlet.java:106 | `out.write` appends the bytes and changes neither status nor message |
| Http.Response.SendError | src/java/org/apache/hadoop/mapred/TaskLogServlet.java:126-128 | `sendError` sets status and message and leaves the bytes written |
| Http.Reply.Write | src/java/org/apache/hadoop/mapred/TaskLogServlet.java:106 | the value-level write: body extended, status and message kept |
| Http.Reply.SendError | src/java/org/apache/hadoop/mapred/TaskLogServlet.java:148-149 | the value-level `sendError`: status and message set, body kept |
| Bytes.Ascii | src/java/org/apache/hadoop/mapred/TaskLogServlet.java:93-94 | `getBytes()` of the servlet's fixed text gives one byte per character |
| Escaping.Escape | src/java/org/apache/hadoop/mapred/TaskLogServlet.java:69-82 | other bytes map to themselves; `<`, `>`, `&` map to an entity of at least four bytes from `&` to `;` |
| Escaping.Escaped | src/java/org/apache/hadoop/mapred/TaskLogServlet.java:61-86 | the bytes `quotedWrite` writes for a slice: never shorter than the slice, and empty exactly for an empty slice |
| Escaping.EscapedAppend | src/java/org/apache/hadoop/mapred/TaskLogServlet.java:102-109 | escaping distributes over concatenation, so escaping chunk by chunk equals escaping the whole log |
| Escaping.EscapedPlainRun | src/java/org/apache/hadoop/mapred/TaskLogServlet.java:66 | a run without quotable bytes is copied unchanged |
| Escaping.EscapedRunStep | src/java/org/apache/hadoop/mapred/TaskLogServlet.java:65-67 | the bulk write of a plain run extends the escaped prefix |
| Escaping.EscapedByteStep | src/java/org/apache/hadoop/mapred/TaskLogServlet.java:68-84 | the entity written for one byte extends the escaped prefix |
| Escaping.EscapedLength | src/java/org/apache/hadoop/mapred/TaskLogServlet.java:61-86 | output length is the input length plus 3 per `<`, 3 per `>` and 4 per `&` |
| Escaping.EscapedHasNoAngles | src/java/org/apache/hadoop/mapred/TaskLogServlet.java:61-86 | no raw `<` or `>` appears in escaped output |
| Escaping.EscapeThenDecode | src/java/org/apache/hadoop/mapred/TaskLogServlet.java:69-82 | the decoder reads back the one byte an entity or plain byte stands for |
| Escaping.EscapedRoundTrip | src/java/org/apache/hadoop/mapred/TaskLogServlet.java:61-86 | escaped output is well formed and decodes to the input, so the other bytes keep their order and count |
| Escaping.UnescapedRoundTrip | src/java/org/apache/hadoop/mapred/TaskLogServlet.java:61-86 | every well-formed escaped string is the escape of its decoding |
| Escaping.EscapeExample | src/java/org/apache/hadoop/mapred/TaskLogServlet.java:61-86 | `a<b>c&d` is written as `a&lt;b&gt;c&amp;d` |
| LogNames.Name | src/java/org/apache/hadoop/mapred/TaskLogServlet.java:155-156 | `name()` of a kind, the text `valueOf` matches: non-empty and made only of upper-case letters, so an upper-cased filter can equal it |
| LogNames.ValueOf | src/java/org/apache/hadoop/mapred/TaskLogServlet.java:155-156 | `valueOf` finds the kind with exactly that name, and finds nothing when no kind has it |
| LogNames.ParseFilter | src/java/org/apache/hadoop/mapred/TaskLogServlet.java:155-156 | a filter value yields a kind exactly when its upper-cased text is that kind's name, and nothing when it names no kind |
| LogNames.UpperChar | src/java/org/apache/hadoop/mapred/TaskLogServlet.java:156 | each of `a`..`z` becomes its upper-case letter (the code point 32 lower) and every other character stays as it is; no lower-case letter is left, and a character is a letter afterwards exactly when it was one before |
| LogNames.UpperCharTable | src/java/org/apache/hadoop/mapred/TaskLogServlet.java:156 | each of `a`..`z` becomes the letter at the same place in `A`..`Z` |
| LogNames.ToUpper | src/java/org/apache/hadoop/mapred/TaskLogServlet.java:156 | same length; each `a`..`z` becomes its upper-case letter (the code point 32 lower), every other character is kept in place, so no lower-case letter is left |
| LogNames.ToUpperIdempotent | src/java/org/apache/hadoop/mapred/TaskLogServlet.java:156 | upper-casing twice is upper-casing once |
| LogNames.FilterIgnoresCase | src/java/org/apache/hadoop/mapred/TaskLogServlet.java:152-161 | the filter selects kind `k` if and only if its upper-cased text is `k`'s name |
| LogNames.NameInjective | src/java/org/apache/hadoop/mapred/TaskLogServlet.java:155-156 | no two kinds share a name |
| LogNames.ValueOfName | src/java/org/apache/hadoop/mapred/TaskLogServlet.java:155-156 | every kind's name parses back to the kind |
| LogNames.ParseBool | src/java/org/apache/hadoop/mapred/TaskLogServlet.java:176 | `plaintext` is true exactly for a four-character value spelling t, r, u, e in any letter case |
| LogNames.FilterExamples | src/java/org/apache/hadoop/mapred/TaskLogServlet.java:152-161 | `stdout` and `DebugOut` are accepted, `bogus` is not |
| Rendering.ParseQuery | src/java/org/apache/hadoop/mapred/TaskLogServlet.java:141-177 | parameters are accepted exactly when `taskid` is present and any `filter` names a kind; the query carries `taskid` as given, the parsed filter, `start` (default 0), `end` (default -1) and `plaintext` (default false) |
| Rendering.Handle | src/java/org/apache/hadoop/mapred/TaskLogServlet.java:138-213 | the reply to a request: only appends to the body; the status ends as before, 400 or 410; a newly set 400 adds no body bytes |
| Rendering.Dispatch | src/java/org/apache/hadoop/mapred/TaskLogServlet.java:179-212 | the reply once parameters are read: only appends to the body; the status ends as before, 400 or 410; a newly set 400 adds no body bytes |
| Rendering.RenderLogs | src/java/org/apache/hadoop/mapred/TaskLogServlet.java:186-203 | the HTML sections, called in the code's order: only append to the body, and leave the status as before or 410 |
| Rendering.PageKinds | src/java/org/apache/hadoop/mapred/TaskLogServlet.java:186-202 | with a filter, only that kind; without one, STDOUT, STDERR and SYSLOG, followed by nothing, DEBUGOUT, PROFILE, or DEBUGOUT then PROFILE, with DEBUGOUT present exactly when `haveTaskLog` finds it and PROFILE likewise |
| Rendering.Apply | src/java/org/apache/hadoop/mapred/TaskLogServlet.java:88-133 | one `printTaskLog` call: its bytes appended; status 410 and the message naming the kind and task for a reported failure, otherwise status and message kept |
| Rendering.SectionCases | src/java/org/apache/hadoop/mapred/TaskLogServlet.java:88-133 | the bytes of one section: plain mode gives the log as read plus the diagnostic only on a reported failure; HTML gives header, escaped log and the long footer, the DEBUGOUT footer, or the diagnostic |
| Rendering.ApplyAllEffect | src/java/org/apache/hadoop/mapred/TaskLogServlet.java:186-203 | sections in turn append all their bytes in order; a failure does not stop later sections; the last error sent decides status and message |
| Rendering.SectionErrors | src/java/org/apache/hadoop/mapred/TaskLogServlet.java:118-131 | a list of sections sends an error if and only if one of its non-DEBUGOUT reads fails, and that error is 410 |
| Rendering.ApplyInTurn | src/java/org/apache/hadoop/mapred/TaskLogServlet.java:186-200 | three sections then up to two optional ones, one call at a time, equal the list applied |
| Rendering.DefaultSectionsOf | src/java/org/apache/hadoop/mapred/TaskLogServlet.java:186-200 | the sections of the default kinds, listed kind by kind |
| Rendering.RenderLogsInOrder | src/java/org/apache/hadoop/mapred/TaskLogServlet.java:186-203 | the page's sections are exactly those of `PageKinds`, in that order |
| ServletProperties.HandleParsed | src/java/org/apache/hadoop/mapred/TaskLogServlet.java:146-177 | a request whose parameters are read is answered by `Dispatch` |
| ServletProperties.HtmlPage | src/java/org/apache/hadoop/mapred/TaskLogServlet.java:179-206 | an HTML reply is the opener, the sections' bytes in order and the closer; status 410 if and only if a reported read failed |
| ServletProperties.PlainTextIsVerbatim | src/java/org/apache/hadoop/mapred/TaskLogServlet.java:210-211 | plain text with a filter appends the log bytes exactly as read, plus the diagnostic and 410 only on a reported failure |
| ServletProperties.RejectedRequests | src/java/org/apache/hadoop/mapred/TaskLogServlet.java:146-209 | status 400 if and only if `taskid` is missing, the filter is unknown, or plain text has no filter; such replies have no body; the two messages are as written |
| ServletProperties.SameWindowSameDispatch | src/java/org/apache/hadoop/mapred/TaskLogServlet.java:187-211 | once parameters are read, log stores that agree on the query's window give the same reply |
| ServletProperties.OnlyRequestedWindowRead | src/java/org/apache/hadoop/mapred/TaskLogServlet.java:164-172 | the reply depends on the logs only through the requested `start`/`end` window |
| ServletProperties.QueryDefaults | src/java/org/apache/hadoop/mapred/TaskLogServlet.java:141-143 | with only `taskid` given: no filter, `start = 0`, `end = -1`, HTML |
| ServletProperties.ConcatThree | src/java/org/apache/hadoop/mapred/TaskLogServlet.java:187-192 | three sections append their bytes one after the other |
| ServletProperties.MandatorySections | src/java/org/apache/hadoop/mapred/TaskLogServlet.java:186-192 | with no filter and no optional logs, the page's sections are STDOUT, STDERR and SYSLOG |
| ServletProperties.ThreeSectionPage | src/java/org/apache/hadoop/mapred/TaskLogServlet.java:179-206 | `?taskid=t` with three complete logs and no optional ones gives status 200 and exactly opener, three escaped sections and closer |
| ServletProperties.StdoutFailureReported | src/java/org/apache/hadoop/mapred/TaskLogServlet.java:125-131 | `?taskid=t&filter=stdout` with a failing reader gives 410, the message with the printed name of STDOUT and `taskid`, and the diagnostic in place of the footer |

## Left out

- `haveTaskLog` (TaskLogServlet.java:35-38) is an opaque predicate `Env.haveLog`. `TaskLog.getTaskLogFile` and `File.canRead` are not part of this model.
- `TaskLog.Reader`'s file I/O is not part of this model. A reader is given by what reading it to the end yields: the bytes, then the end of the stream or an exception.
- A reader whose constructor throws is modelled as one that fails before delivering any byte. The output is the same.
- A reader hands out as many bytes as fit in the 65536-byte buffer. Any other chunking gives the same output (`Escaping.EscapedAppend`).
- An exception thrown by `close()` at line 114 is not modelled separately from a read failure.
- `LogReader.Reader.Close`: the reader is closed only when the log was read to its end, as the code does (line 114). A failed read leaves it open.
- `StringUtils.stringifyException` is not part of this model. The stack-trace text is the opaque bytes `trace` of a failed read.
- `LogName.toString()` lives in TaskLog.java, which is not part of this model. The text it prints for a kind in section headings and 410 messages is the opaque function `Env.display`, and that text is encoded as ASCII (`Bytes.Ascii`), as Hadoop's names (`stdout`, `profile.out`, …) are. `LogNames.Name` is `name()`, which only `valueOf` uses.
- `String.toUpperCase` is modelled for ASCII letters only. It assumes a default locale that upper-cases `a`..`z` plainly, so not Turkish or Azerbaijani, where `profile` becomes `PROFİLE` and is rejected. Java also maps some other characters, such as U+017F to `S` and `ß` to `SS`, which changes the length.
- `Long.valueOf` is the opaque function `Env.parseLong`. The `NumberFormatException` it throws on malformed input is not modelled, and neither is the 64-bit range of `long`.
- `String.getBytes()` of `taskid` is the opaque function `Env.encode`. The fixed text is modelled as ASCII (`Bytes.Ascii`), encoded piece by piece.
- Bytes.Ascii: states only the length, not the byte of each character.
- The servlet container is left out: `getParameter` is a map lookup, and the response is its status, error message and bytes.
- What `sendError` does once body bytes are committed is not modelled. The status and message are recorded and later writes still append.
- `out.close()` at line 206 is not modelled.
- Failures of the output stream itself are not modelled.
- Concurrency between requests is not modelled. The servlet shares no mutable state.
- An empty `taskid` is accepted, because only a missing one is rejected (line 147).
