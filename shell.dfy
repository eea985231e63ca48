/** The sandbox's shell service (sandbox/app/services/shell.py): a table
  * of shell sessions, each with its current process, its output since the
  * last command and the console records of its commands. Processes are
  * abstract records whose exit is an input; output arriving from a process
  * is the `ReaderAppend` step. */
module Shell {
  import opened Wrappers
  import opened PyStr

  // ---------------------------------------------------------------------
  // ANSI escape removal

  const Esc: char := '\U{1B}'

  /** The single-character escapes of the pattern
    * `\x1B(?:[@-Z\\-_]|\[[0-?]*[ -/]*[@-~])`: `@`..`Z` and `\`..`_`. */
  predicate SingleFinal(c: char)
  {
    ('@' <= c <= 'Z') || ('\\' <= c <= '_')
  }

  predicate ParamByte(c: char)
  {
    '0' <= c <= '?'
  }

  predicate InterByte(c: char)
  {
    ' ' <= c <= '/'
  }

  predicate FinalByte(c: char)
  {
    '@' <= c <= '~'
  }

  /** The end of the run of characters from `i` on that satisfy `p`. */
  function RunEnd(s: string, i: nat, p: char -> bool): (k: nat)
    requires i <= |s|
    ensures i <= k <= |s|
    decreases |s| - i
  {
    if i == |s| || !p(s[i]) then i else RunEnd(s, i + 1, p)
  }

  /** The length of the escape sequence the pattern matches at `i`, or 0.
    * The three classes of the control-sequence branch are disjoint, so the
    * greedy runs never need to give characters back. */
  function EscapeAt(s: string, i: nat): (n: nat)
    requires i < |s|
    ensures n > 0 ==> s[i] == Esc && 2 <= n && i + n <= |s|
  {
    if s[i] != Esc || i + 1 == |s| then 0
    else if SingleFinal(s[i + 1]) then 2
    else if s[i + 1] != '[' then 0
    else
      var k := RunEnd(s, RunEnd(s, i + 2, ParamByte), InterByte);
      if k < |s| && FinalByte(s[k]) then k + 1 - i else 0
  }

  /** An escape sequence matches at `i` exactly when ESC is followed by a
    * single final character, or by "[", parameter characters, intermediate
    * characters and a final character. */
  lemma EscapeAtMatches(s: string, i: nat)
    requires i < |s|
    ensures EscapeAt(s, i) == 0 <==>
              !(s[i] == Esc && i + 1 < |s| && (SingleFinal(s[i + 1]) ||
                (s[i + 1] == '[' && RunEnd(s, RunEnd(s, i + 2, ParamByte), InterByte) < |s|
                 && FinalByte(s[RunEnd(s, RunEnd(s, i + 2, ParamByte), InterByte)]))))
  {
  }

  /** `re.sub` of the pattern by "", scanning from `i`. */
  function RemoveAnsiFrom(s: string, i: nat): (r: string)
    requires i <= |s|
    ensures |r| <= |s| - i
    decreases |s| - i
  {
    if i == |s| then []
    else
      var n := EscapeAt(s, i);
      if n > 0 then RemoveAnsiFrom(s, i + n) else [s[i]] + RemoveAnsiFrom(s, i + 1)
  }

  /** `_remove_ansi_escape_codes`. */
  function RemoveAnsi(s: string): (r: string)
    ensures |r| <= |s|
  {
    RemoveAnsiFrom(s, 0)
  }

  /** Text without an escape character is left unchanged. */
  lemma {:induction false} RemoveAnsiFromPlain(s: string, i: nat)
    requires i <= |s|
    requires forall j :: i <= j < |s| ==> s[j] != Esc
    ensures RemoveAnsiFrom(s, i) == s[i..]
    decreases |s| - i
  {
    if i < |s| {
      RemoveAnsiFromPlain(s, i + 1);
    }
  }

  lemma RemoveAnsiPlain(s: string)
    requires forall j :: 0 <= j < |s| ==> s[j] != Esc
    ensures RemoveAnsi(s) == s
  {
    RemoveAnsiFromPlain(s, 0);
  }

  /** `s` from `x` on and `t` from `i` on are the same text. */
  predicate Agree(s: string, x: nat, t: string, i: nat)
  {
    x <= |s| && i <= |t| && |s| - x == |t| - i && forall k :: x <= k < |s| ==> s[k] == t[k - x + i]
  }

  lemma AgreeNext(s: string, x: nat, t: string, i: nat, n: nat)
    requires Agree(s, x, t, i) && i + n <= |t|
    ensures Agree(s, x + n, t, i + n)
  {
  }

  lemma {:induction false} RunEndAgree(s: string, x: nat, t: string, i: nat, p: char -> bool)
    requires Agree(s, x, t, i)
    ensures RunEnd(s, x, p) - x == RunEnd(t, i, p) - i
    decreases |t| - i
  {
    if i < |t| {
      assert s[x] == t[i];
      if p(t[i]) {
        AgreeNext(s, x, t, i, 1);
        RunEndAgree(s, x + 1, t, i + 1, p);
      }
    }
  }

  /** The escape matched at a position depends only on the text from there
    * on. */
  lemma EscapeAtAgree(s: string, x: nat, t: string, i: nat)
    requires Agree(s, x, t, i) && i < |t|
    ensures EscapeAt(s, x) == EscapeAt(t, i)
  {
    assert s[x] == t[i];
    if i + 1 < |t| {
      assert s[x + 1] == t[i + 1];
    }
    if i + 2 <= |t| {
      AgreeNext(s, x, t, i, 2);
      RunEndAgree(s, x + 2, t, i + 2, ParamByte);
      var ks := RunEnd(s, x + 2, ParamByte);
      var kt := RunEnd(t, i + 2, ParamByte);
      AgreeNext(s, x, t, i, kt - i);
      RunEndAgree(s, ks, t, kt, InterByte);
      var es := RunEnd(s, ks, InterByte);
      var et := RunEnd(t, kt, InterByte);
      if et < |t| {
        assert s[es] == t[et];
      }
    }
  }

  /** A step over a matched escape, on two texts that agree from there on. */
  lemma StepOverEscape(s: string, x: nat, t: string, i: nat, n: nat)
    requires i < |t| && x < |s| && n == EscapeAt(t, i) && n > 0 && EscapeAt(s, x) == n
    requires RemoveAnsiFrom(s, x + n) == RemoveAnsiFrom(t, i + n)
    ensures RemoveAnsiFrom(s, x) == RemoveAnsiFrom(t, i)
  {
  }

  /** A step over a kept character, on two texts that agree from there on. */
  lemma StepOverChar(s: string, x: nat, t: string, i: nat)
    requires i < |t| && x < |s| && s[x] == t[i] && EscapeAt(t, i) == 0 && EscapeAt(s, x) == 0
    requires RemoveAnsiFrom(s, x + 1) == RemoveAnsiFrom(t, i + 1)
    ensures RemoveAnsiFrom(s, x) == RemoveAnsiFrom(t, i)
  {
  }

  /** The scan of two texts that agree from the starting points on gives
    * the same result. */
  lemma {:induction false} RemoveAnsiAgree(s: string, x: nat, t: string, i: nat)
    requires Agree(s, x, t, i)
    ensures RemoveAnsiFrom(s, x) == RemoveAnsiFrom(t, i)
    decreases |t| - i
  {
    if i < |t| {
      var n := EscapeAt(t, i);
      EscapeAtAgree(s, x, t, i);
      if n > 0 {
        AgreeNext(s, x, t, i, n);
        RemoveAnsiAgree(s, x + n, t, i + n);
        StepOverEscape(s, x, t, i, n);
      } else {
        assert s[x] == t[i];
        AgreeNext(s, x, t, i, 1);
        RemoveAnsiAgree(s, x + 1, t, i + 1);
        StepOverChar(s, x, t, i);
      }
    }
  }

  /** Scanning the tail of `a + b` from `|a| + i` is scanning `b` from `i`:
    * what precedes a position does not change what is removed after it. */
  lemma RemoveAnsiFromShift(a: string, b: string, i: nat)
    requires i <= |b|
    ensures RemoveAnsiFrom(a + b, |a| + i) == RemoveAnsiFrom(b, i)
  {
    var s := a + b;
    forall k | |a| + i <= k < |s|
      ensures s[k] == b[k - (|a| + i) + i]
    {
    }
    RemoveAnsiAgree(s, |a| + i, b, i);
  }

  /** A colour escape such as `ESC[31m` in front of some text is removed. */
  lemma ColourRemoved(t: string)
    ensures RemoveAnsi([Esc, '[', '3', '1', 'm'] + t) == RemoveAnsi(t)
  {
    var code := [Esc, '[', '3', '1', 'm'];
    var s := code + t;
    assert s[0] == Esc && s[1] == '[' && s[2] == '3' && s[3] == '1' && s[4] == 'm';
    assert RunEnd(s, 4, ParamByte) == 4;
    assert RunEnd(s, 3, ParamByte) == 4;
    assert RunEnd(s, 2, ParamByte) == 4;
    assert RunEnd(s, 4, InterByte) == 4;
    assert EscapeAt(s, 0) == 5;
    RemoveAnsiFromShift(code, t, 0);
  }

  // ---------------------------------------------------------------------
  // Prompts

  /** `_get_display_path`: a path under the home directory is shown with
    * that prefix replaced by "~", once. */
  function DisplayPath(path: string, home: string): (r: string)
    ensures StartsWith(path, home) ==> r == "~" + path[|home|..]
    ensures !StartsWith(path, home) ==> r == path
  {
    if StartsWith(path, home) then ReplaceFirst(path, home, "~") else path
  }

  /** `_format_ps1`: `{user}@{host}:{display_dir} $`. */
  function FormatPs1(user: string, host: string, execDir: string, home: string): (r: string)
    ensures |r| == |user| + |host| + 4 + |DisplayPath(execDir, home)|
    ensures StartsWith(r, user + "@" + host + ":") && EndsWith(r, " $")
    ensures r[|user| + |host| + 2..|r| - 2] == DisplayPath(execDir, home)
  {
    var r := user + "@" + host + ":" + DisplayPath(execDir, home) + " $";
    assert r[..|user| + |host| + 2] == user + "@" + host + ":";
    assert r[|r| - 2..] == " $";
    assert r[|user| + |host| + 2..|r| - 2] == DisplayPath(execDir, home);
    r
  }

  // ---------------------------------------------------------------------
  // The session table

  datatype ConsoleRecord = ConsoleRecord(ps1: string, command: string, output: string)

  /** A process: an identifier and its return code once it has exited. */
  datatype Process = Process(pid: nat, returncode: Option<int>)

  /** One entry of `active_shells`. */
  datatype ShellEntry = ShellEntry(process: Process, execDir: string, output: string,
                                   console: seq<ConsoleRecord>)

  datatype ShellError = BadRequest(message: string) | NotFound(message: string) | AppError(message: string)

  /** What `exec_command` reports: "completed" with the return code and the
    * cleaned output when the process ended within the 5-second wait,
    * "running" otherwise. */
  datatype ExecResult = ExecResult(sessionId: string, command: string, status: string,
                                   returncode: Option<int>, output: Option<string>)

  datatype ViewResult = ViewResult(output: string, sessionId: string, console: Option<seq<ConsoleRecord>>)

  datatype KillResult = KillResult(status: string, returncode: Option<int>)

  /** Every entry has a console record, and the session's output is the
    * output of its latest record: both start empty at each command and
    * every addition goes to both. */
  predicate EntryValid(e: ShellEntry)
  {
    |e.console| >= 1 && e.output == e.console[|e.console| - 1].output
  }

  function NotFoundError(sessionId: string): ShellError
  {
    NotFound("Session ID does not exist: " + sessionId)
  }

  /** The entry after `text` is added to its output and its latest record's. */
  function Appended(e: ShellEntry, text: string): (r: ShellEntry)
    ensures r.process == e.process && r.execDir == e.execDir
    ensures r.output == e.output + text && |r.console| == |e.console|
    ensures |e.console| > 0 ==>
              r.console[..|e.console| - 1] == e.console[..|e.console| - 1]
              && r.console[|e.console| - 1].output == e.console[|e.console| - 1].output + text
    ensures EntryValid(e) ==> EntryValid(r)
  {
    var console := if |e.console| > 0
      then e.console[|e.console| - 1 := e.console[|e.console| - 1].(output := e.console[|e.console| - 1].output + text)]
      else e.console;
    ShellEntry(e.process, e.execDir, e.output + text, console)
  }

  /** The entry of a session once a command has started: the new process
    * and directory, no output, and one more console record after the
    * session's earlier ones (none for a new session). */
  function Started(previous: Option<ShellEntry>, process: Process, dir: string, record: ConsoleRecord): (r: ShellEntry)
    requires record.output == ""
    ensures |r.console| >= 1 && r.output == "" && r.console[|r.console| - 1] == record
    ensures previous.Some? ==> r.console[..|r.console| - 1] == previous.value.console
    ensures previous.None? ==> r.console == [record]
    ensures EntryValid(r)
  {
    var earlier := if previous.None? then [] else previous.value.console;
    ShellEntry(process, dir, "", earlier + [record])
  }

  /** The console records with their outputs cleaned. */
  function CleanConsole(records: seq<ConsoleRecord>): (r: seq<ConsoleRecord>)
    ensures |r| == |records|
    ensures forall i :: 0 <= i < |records| ==>
              r[i] == ConsoleRecord(records[i].ps1, records[i].command, RemoveAnsi(records[i].output))
  {
    if records == [] then []
    else [ConsoleRecord(records[0].ps1, records[0].command, RemoveAnsi(records[0].output))]
         + CleanConsole(records[1..])
  }

  /** `ShellService`. The home directory, user and host name and
    * `os.path.exists` are fixed inputs. */
  class ShellService {
    const home: string
    const user: string
    const host: string
    const pathExists: string -> bool
    var activeShells: map<string, ShellEntry>

    predicate Valid()
      reads this
    {
      forall id :: id in activeShells ==> EntryValid(activeShells[id])
    }

    constructor(home: string, user: string, host: string, pathExists: string -> bool)
      ensures this.home == home && this.user == user && this.host == host && this.pathExists == pathExists
      ensures activeShells == map[]
      ensures Valid()
    {
      this.home := home;
      this.user := user;
      this.host := host;
      this.pathExists := pathExists;
      activeShells := map[];
    }

    /** `exec_command`. A missing or empty directory means the home
      * directory; a directory that does not exist is refused before any
      * change. A new session gets a fresh entry with one console record; an
      * existing one gets the new process, its output reset and one record
      * appended, the earlier records untouched. `pid` is the new process,
      * `early` the output that arrives during the 5-second wait and
      * `exited` its return code if it ends within that wait. */
    method ExecCommand(sessionId: string, execDir: Option<string>, command: string,
                       pid: nat, early: string, exited: Option<int>)
      returns (r: Result<ExecResult, ShellError>)
      requires Valid()
      modifies this
      ensures Valid()
      ensures var dir := if execDir.None? || execDir.value == "" then home else execDir.value;
              var record := ConsoleRecord(FormatPs1(user, host, dir, home), command, "");
              var previous := if sessionId in old(activeShells) then Some(old(activeShells)[sessionId]) else None;
              if !pathExists(dir) then
                r == Err(BadRequest("Directory does not exist: " + dir)) && activeShells == old(activeShells)
              else
                activeShells == old(activeShells)[sessionId :=
                  Appended(Started(previous, Process(pid, exited), dir, record), early)]
                && r == Ok(if exited.Some?
                           then ExecResult(sessionId, command, "completed", exited, Some(RemoveAnsi(early)))
                           else ExecResult(sessionId, command, "running", None, None))
    {
      var dir := if execDir.None? || execDir.value == "" then home else execDir.value;
      if !pathExists(dir) {
        return Err(BadRequest("Directory does not exist: " + dir));
      }
      var record := ConsoleRecord(FormatPs1(user, host, dir, home), command, "");
      var previous := if sessionId in activeShells then Some(activeShells[sessionId]) else None;
      var entry := Appended(Started(previous, Process(pid, exited), dir, record), early);
      assert entry.output == early;
      activeShells := activeShells[sessionId := entry];
      if exited.Some? {
        var view := ViewShell(sessionId, false);
        return Ok(ExecResult(sessionId, command, "completed", exited, Some(view.value.output)));
      }
      return Ok(ExecResult(sessionId, command, "running", None, None));
    }

    /** The output reader: a chunk read from the session's process is added
      * to the session's output and to its latest record. */
    method ReaderAppend(sessionId: string, chunk: string)
      requires Valid()
      modifies this
      ensures Valid()
      ensures sessionId in old(activeShells) ==>
                activeShells == old(activeShells)[sessionId := Appended(old(activeShells)[sessionId], chunk)]
      ensures sessionId !in old(activeShells) ==> activeShells == old(activeShells)
    {
      if sessionId in activeShells {
        activeShells := activeShells[sessionId := Appended(activeShells[sessionId], chunk)];
      }
    }

    /** The session's process ending on its own with `code`: asyncio records
      * the code in `process.returncode` as soon as the child exits, whether
      * or not anyone waits for it. A process that has already ended keeps
      * its code, and no other session changes. */
    method ProcessExits(sessionId: string, code: int)
      requires Valid()
      modifies this
      ensures Valid()
      ensures sessionId in old(activeShells) && old(activeShells)[sessionId].process.returncode.None? ==>
                var e := old(activeShells)[sessionId];
                activeShells == old(activeShells)[sessionId := e.(process := e.process.(returncode := Some(code)))]
      ensures sessionId !in old(activeShells) || old(activeShells)[sessionId].process.returncode.Some? ==>
                activeShells == old(activeShells)
    {
      if sessionId in activeShells && activeShells[sessionId].process.returncode.None? {
        var e := activeShells[sessionId];
        activeShells := activeShells[sessionId := e.(process := e.process.(returncode := Some(code)))];
      }
    }

    /** `view_shell`: the cleaned output, and the cleaned records when asked for. */
    method ViewShell(sessionId: string, console: bool) returns (r: Result<ViewResult, ShellError>)
      ensures sessionId !in activeShells <==> r == Err(NotFoundError(sessionId))
      ensures sessionId in activeShells ==>
                r.Ok? && r.value.sessionId == sessionId
                && r.value.output == RemoveAnsi(activeShells[sessionId].output)
                && (r.value.console.Some? <==> console)
                && (console ==> r.value.console.value == CleanConsole(activeShells[sessionId].console))
    {
      if sessionId !in activeShells {
        return Err(NotFoundError(sessionId));
      }
      var shell := activeShells[sessionId];
      var records := None;
      if console {
        var cleaned := GetConsoleRecords(sessionId);
        records := Some(cleaned.value);
      }
      return Ok(ViewResult(RemoveAnsi(shell.output), sessionId, records));
    }

    /** `get_console_records`: the loop that cleans each record's output. */
    method GetConsoleRecords(sessionId: string) returns (r: Result<seq<ConsoleRecord>, ShellError>)
      ensures sessionId !in activeShells <==> r == Err(NotFoundError(sessionId))
      ensures sessionId in activeShells ==> r == Ok(CleanConsole(activeShells[sessionId].console))
    {
      if sessionId !in activeShells {
        return Err(NotFoundError(sessionId));
      }
      var raw := activeShells[sessionId].console;
      var clean: seq<ConsoleRecord> := [];
      var i := 0;
      while i < |raw|
        invariant 0 <= i <= |raw|
        invariant |clean| == i
        invariant forall k :: 0 <= k < i ==>
                    clean[k] == ConsoleRecord(raw[k].ps1, raw[k].command, RemoveAnsi(raw[k].output))
      {
        clean := clean + [ConsoleRecord(raw[i].ps1, raw[i].command, RemoveAnsi(raw[i].output))];
        i := i + 1;
      }
      assert clean == CleanConsole(raw);
      return Ok(clean);
    }

    /** `wait_for_process`, the timeout defaulting to 60 seconds. `exitsWith`
      * is the return code the running process ends with within the timeout,
      * `None` when the timeout expires. A process that has already ended
      * reports its return code at once. */
    method WaitForProcess(sessionId: string, seconds: Option<int>, exitsWith: Option<int>)
      returns (r: Result<Option<int>, ShellError>)
      requires Valid()
      modifies this
      ensures Valid()
      ensures sessionId !in old(activeShells) ==> r == Err(NotFoundError(sessionId)) && activeShells == old(activeShells)
      ensures sessionId in old(activeShells) ==>
                var e := old(activeShells)[sessionId];
                var timeout := if seconds.None? then 60 else seconds.value;
                if e.process.returncode.Some? then
                  r == Ok(e.process.returncode) && activeShells == old(activeShells)
                else if exitsWith.None? then
                  r == Err(BadRequest("Wait timeout: " + IntToStr(timeout) + " seconds"))
                  && activeShells == old(activeShells)
                else
                  r == Ok(exitsWith)
                  && activeShells == old(activeShells)[sessionId := e.(process := e.process.(returncode := exitsWith))]
    {
      if sessionId !in activeShells {
        return Err(NotFoundError(sessionId));
      }
      var e := activeShells[sessionId];
      var timeout := if seconds.None? then 60 else seconds.value;
      if e.process.returncode.Some? {
        return Ok(e.process.returncode);
      }
      if exitsWith.None? {
        return Err(BadRequest("Wait timeout: " + IntToStr(timeout) + " seconds"));
      }
      activeShells := activeShells[sessionId := e.(process := e.process.(returncode := exitsWith))];
      return Ok(exitsWith);
    }

    /** `write_to_process`: refused once the process has ended; otherwise the
      * input, with "\n" when `pressEnter`, is echoed into the session's
      * output and its latest record. */
    method WriteToProcess(sessionId: string, inputText: string, pressEnter: bool)
      returns (r: Result<string, ShellError>)
      requires Valid()
      modifies this
      ensures Valid()
      ensures sessionId !in old(activeShells) ==> r == Err(NotFoundError(sessionId)) && activeShells == old(activeShells)
      ensures sessionId in old(activeShells) && old(activeShells)[sessionId].process.returncode.Some? ==>
                r == Err(AppError("Failed to write input: Process has ended, cannot write input"))
                && activeShells == old(activeShells)
      ensures sessionId in old(activeShells) && old(activeShells)[sessionId].process.returncode.None? ==>
                r == Ok("success")
                && activeShells == old(activeShells)[sessionId :=
                     Appended(old(activeShells)[sessionId], if pressEnter then inputText + "\n" else inputText)]
    {
      if sessionId !in activeShells {
        return Err(NotFoundError(sessionId));
      }
      var e := activeShells[sessionId];
      if e.process.returncode.Some? {
        return Err(AppError("Failed to write input: Process has ended, cannot write input"));
      }
      var input := if pressEnter then inputText + "\n" else inputText;
      activeShells := activeShells[sessionId := Appended(e, input)];
      return Ok("success");
    }

    /** `kill_process`: a running process is terminated and ends with
      * `code`; one that has already ended is reported as such. */
    method KillProcess(sessionId: string, code: int) returns (r: Result<KillResult, ShellError>)
      requires Valid()
      modifies this
      ensures Valid()
      ensures sessionId !in old(activeShells) ==> r == Err(NotFoundError(sessionId)) && activeShells == old(activeShells)
      ensures sessionId in old(activeShells) ==>
                var e := old(activeShells)[sessionId];
                if e.process.returncode.None? then
                  r == Ok(KillResult("terminated", Some(code)))
                  && activeShells == old(activeShells)[sessionId := e.(process := e.process.(returncode := Some(code)))]
                else
                  r == Ok(KillResult("already_terminated", e.process.returncode))
                  && activeShells == old(activeShells)
    {
      if sessionId !in activeShells {
        return Err(NotFoundError(sessionId));
      }
      var e := activeShells[sessionId];
      if e.process.returncode.None? {
        activeShells := activeShells[sessionId := e.(process := e.process.(returncode := Some(code)))];
        return Ok(KillResult("terminated", Some(code)));
      }
      return Ok(KillResult("already_terminated", e.process.returncode));
    }
  }
}
