/** The sandbox's file service (sandbox/app/services/file.py) over a map
  * from paths to text contents: reading with a line range and truncation,
  * writing with the newline and append flags, replace-all with a count,
  * line-by-line search, lookup by name and streamed upload. Regular
  * expressions, `glob` and the `sudo` subprocess's error text are inputs. */
module SandboxFiles {
  import opened Wrappers
  import opened PyStr

  datatype FileError = NotFound(message: string) | BadRequest(message: string) | AppError(message: string)

  /** `read_file`'s default `max_length`. */
  const DefaultMaxLength: int := 10000

  const TruncationMark: string := "(truncated)"

  // ---------------------------------------------------------------------
  // Reading

  /** `'\n'.join(content.splitlines()[start:end])`, a missing bound
    * meaning 0 or the number of lines. */
  function LineRange(content: string, start: Option<int>, end: Option<int>): (r: string)
    ensures var lines := SplitLines(content);
            start.Some? && end.Some? && 0 <= start.value <= end.value <= |lines| ==>
              r == Join("\n", lines[start.value..end.value])
    ensures start.None? && end.None? ==> r == Join("\n", SplitLines(content))
  {
    var lines := SplitLines(content);
    assert Slice(lines, Some(0), Some(|lines|)) == lines;
    Join("\n", Slice(lines, if start.None? then Some(0) else start, if end.None? then Some(|lines|) else end))
  }

  /** The `max_length` cut: a positive limit that the content exceeds keeps
    * that many characters and marks the cut. */
  function Truncate(content: string, maxLength: Option<int>): (r: string)
    ensures maxLength.Some? && maxLength.value > 0 && |content| > maxLength.value ==>
              |r| == maxLength.value + |TruncationMark| && r == content[..maxLength.value] + TruncationMark
    ensures !(maxLength.Some? && maxLength.value > 0 && |content| > maxLength.value) ==> r == content
  {
    if maxLength.Some? && maxLength.value > 0 && |content| > maxLength.value
    then content[..maxLength.value] + TruncationMark
    else content
  }

  /** Python's universal-newline translation, which a text-mode read
    * applies: each "\r\n" and each lone "\r" becomes "\n". */
  function Universal(s: string): (r: string)
    decreases |s|
    ensures |r| <= |s|
    ensures forall i :: 0 <= i < |r| ==> r[i] != '\r'
    ensures (forall i :: 0 <= i < |s| ==> s[i] != '\r') ==> r == s
  {
    if s == [] then []
    else if s[0] == '\r' then
      if |s| > 1 && s[1] == '\n' then "\n" + Universal(s[2..]) else "\n" + Universal(s[1..])
    else [s[0]] + Universal(s[1..])
  }

  /** Both kinds of carriage return read back as a newline. */
  lemma UniversalExamples()
    ensures Universal("a\r\nb") == "a\nb"
    ensures Universal("a\rb") == "a\nb"
    ensures Universal("a\r\r\nb") == "a\n\nb"
  {
    assert "a\r\nb"[1..] == "\r\nb" && "\r\nb"[2..] == "b";
    assert "a\rb"[1..] == "\rb" && "\rb"[1..] == "b";
    assert "a\r\r\nb"[1..] == "\r\r\nb" && "\r\r\nb"[1..] == "\r\nb";
  }

  /** What the operating system does that the service cannot see: the
    * error text of a failed `sudo cat` and of a failed `sudo bash -c "cat
    * ... > file"` for a path, the text of the error Python raises when it
    * cannot open a path, and whether a write to a path is refused for a
    * reason other than the path being a directory or a bare name
    * (permissions, a missing parent under `sudo`, a full disk). */
  datatype Os = Os(sudoReadError: string -> string, sudoWriteError: string -> string,
                   ioError: string -> string, writeRefused: (string, bool) -> bool)

  /** The text a read returns once the file's content is in hand. */
  function Shaped(content: string, start: Option<int>, end: Option<int>, maxLength: Option<int>): string
  {
    var ranged := if start.Some? || end.Some? then LineRange(content, start, end) else content;
    Truncate(ranged, maxLength)
  }

  /** `read_file` over the contents `files` and directories `dirs`.
    * Without `sudo` a path that does not exist is not found. A directory
    * exists but cannot be opened, and its error is wrapped twice. A file
    * is read in text mode, so its newlines are translated. With `sudo`,
    * `cat` fails on anything but a file and returns the bytes as they are. */
  function ReadSpec(files: map<string, string>, dirs: set<string>, os: Os, file: string,
                    start: Option<int>, end: Option<int>, sudo: bool, maxLength: Option<int>): (r: Result<string, FileError>)
    ensures !sudo && file !in files && file !in dirs ==> r == Err(NotFound("File does not exist: " + file))
    ensures !sudo && file !in files && file in dirs ==>
              r == Err(AppError("Failed to read file: Failed to read file: " + os.ioError(file)))
    ensures sudo && file !in files ==> r == Err(BadRequest("Failed to read file: " + os.sudoReadError(file)))
    ensures file in files ==> r.Ok?
    ensures file in files && start.None? && end.None? ==>
              r.value == Truncate(if sudo then files[file] else Universal(files[file]), maxLength)
  {
    if sudo then
      if file !in files then Err(BadRequest("Failed to read file: " + os.sudoReadError(file)))
      else Ok(Shaped(files[file], start, end, maxLength))
    else if file !in files && file !in dirs then Err(NotFound("File does not exist: " + file))
    else if file !in files then Err(AppError("Failed to read file: Failed to read file: " + os.ioError(file)))
    else Ok(Shaped(Universal(files[file]), start, end, maxLength))
  }

  // ---------------------------------------------------------------------
  // Writing

  /** The text `write_file` writes: the content with the requested leading
    * and trailing newlines. */
  function Prepared(content: string, leadingNewline: bool, trailingNewline: bool): (r: string)
    ensures |r| == |content| + (if leadingNewline then 1 else 0) + (if trailingNewline then 1 else 0)
    ensures leadingNewline ==> r[0] == '\n'
    ensures trailingNewline ==> r[|r| - 1] == '\n'
    ensures r[(if leadingNewline then 1 else 0)..|r| - (if trailingNewline then 1 else 0)] == content
  {
    var a := if leadingNewline then "\n" + content else content;
    var r := if trailingNewline then a + "\n" else a;
    assert a[(if leadingNewline then 1 else 0)..] == content;
    assert r[..|a|] == a;
    r
  }

  /** The contents after a write: the file is replaced, or extended when
    * appending (a missing file starts empty). */
  function WriteSpec(files: map<string, string>, file: string, content: string,
                     append: bool, leadingNewline: bool, trailingNewline: bool): (r: map<string, string>)
    ensures file in r && r.Keys == files.Keys + {file}
    ensures forall f :: f in files && f != file ==> r[f] == files[f]
    ensures !append ==> r[file] == Prepared(content, leadingNewline, trailingNewline)
    ensures append && file in files ==> r[file] == files[file] + Prepared(content, leadingNewline, trailingNewline)
  {
    var before := if append && file in files then files[file] else "";
    files[file := before + Prepared(content, leadingNewline, trailingNewline)]
  }

  /** `bytes_written`: text mode counts characters; the `sudo` path counts
    * UTF-8 bytes. */
  function BytesWritten(content: string, sudo: bool): (n: nat)
    ensures !sudo ==> n == |content|
    ensures sudo ==> |content| <= n <= 4 * |content|
  {
    if sudo then Utf8Length(content) else |content|
  }

  /** The text of the error `os.makedirs("")` raises for a bare file name,
    * whose directory part is empty. */
  const BareNameError: string := "[Errno 2] No such file or directory: ''"

  /** Whether `write_file` fails, and how. With `sudo`, the shell redirect
    * fails on a directory or when the system refuses it, and the failure is
    * a bad request carrying its error output. Without `sudo`, creating the
    * parent directory of a bare file name fails, and so does opening a
    * directory or a refused path; each is wrapped as an application error. */
  function WriteFailure(dirs: set<string>, os: Os, file: string, sudo: bool): (r: Option<FileError>)
    ensures sudo ==> (r.Some? <==> file in dirs || os.writeRefused(file, true))
    ensures sudo && r.Some? ==> r.value == BadRequest("Failed to write file: " + os.sudoWriteError(file))
    ensures !sudo ==> (r.Some? <==> '/' !in file || file in dirs || os.writeRefused(file, false))
    ensures !sudo && '/' !in file ==> r == Some(AppError("Failed to write file: " + BareNameError))
    ensures !sudo && r.Some? ==> r.value.AppError?
  {
    if sudo then
      if file in dirs || os.writeRefused(file, true)
      then Some(BadRequest("Failed to write file: " + os.sudoWriteError(file)))
      else None
    else if '/' !in file then Some(AppError("Failed to write file: " + BareNameError))
    else if file in dirs || os.writeRefused(file, false) then Some(AppError("Failed to write file: " + os.ioError(file)))
    else None
  }

  /** Whether `upload_file` fails, and how: creating the parent directory
    * of a bare file name fails, and so does opening a directory or a
    * refused path for binary writing; each is wrapped as an application
    * error. */
  function UploadFailure(dirs: set<string>, os: Os, path: string): (r: Option<FileError>)
    ensures r.Some? <==> '/' !in path || path in dirs || os.writeRefused(path, false)
    ensures '/' !in path ==> r == Some(AppError("Failed to upload file: " + BareNameError))
    ensures '/' in path && r.Some? ==> r == Some(AppError("Failed to upload file: " + os.ioError(path)))
  {
    if '/' !in path then Some(AppError("Failed to upload file: " + BareNameError))
    else if path in dirs || os.writeRefused(path, false) then Some(AppError("Failed to upload file: " + os.ioError(path)))
    else None
  }

  /** Writing a text without flags and reading it back with the defaults
    * gives the text with its newlines translated, as long as it is within
    * the default limit; a text without carriage returns comes back as it
    * was. */
  lemma WriteReadRoundTrip(files: map<string, string>, dirs: set<string>, os: Os, file: string, s: string)
    requires |s| <= DefaultMaxLength
    ensures var after := WriteSpec(files, file, s, false, false, false);
            ReadSpec(after, dirs, os, file, None, None, false, Some(DefaultMaxLength)) == Ok(Universal(s))
    ensures var after := WriteSpec(files, file, s, false, false, false);
            (forall i :: 0 <= i < |s| ==> s[i] != '\r') ==>
              ReadSpec(after, dirs, os, file, None, None, false, Some(DefaultMaxLength)) == Ok(s)
  {
    assert Prepared(s, false, false) == s;
  }

  /** A text holding "\r\n" does not survive the round trip. */
  lemma CrLfNotPreserved(files: map<string, string>, dirs: set<string>, os: Os, file: string)
    ensures var after := WriteSpec(files, file, "a\r\nb", false, false, false);
            ReadSpec(after, dirs, os, file, None, None, false, Some(DefaultMaxLength)) == Ok("a\nb")
  {
    UniversalExamples();
    WriteReadRoundTrip(files, dirs, os, file, "a\r\nb");
  }

  /** Two appends add their texts in order. */
  lemma AppendsConcatenate(files: map<string, string>, file: string, a: string, b: string)
    requires file in files
    ensures WriteSpec(WriteSpec(files, file, a, true, false, false), file, b, true, false, false)[file]
            == files[file] + a + b
  {
    assert Prepared(a, false, false) == a;
    assert Prepared(b, false, false) == b;
  }

  /** Reading every line back, by a range that starts at 0, gives the text
    * itself when its only line boundaries are single "\n"s and it does not
    * end with one. */
  lemma {:induction false} ReadAllLines(files: map<string, string>, dirs: set<string>, os: Os, file: string)
    requires file in files && |files[file]| <= DefaultMaxLength
    requires forall i :: 0 <= i < |files[file]| ==> IsLineBreak(files[file][i]) ==> files[file][i] == '\n'
    requires files[file] == [] || files[file][|files[file]| - 1] != '\n'
    ensures ReadSpec(files, dirs, os, file, Some(0), None, false, Some(DefaultMaxLength)) == Ok(files[file])
  {
    var s := files[file];
    JoinSplitLines(s);
    var lines := SplitLines(s);
    assert Slice(lines, Some(0), Some(|lines|)) == lines;
  }

  // ---------------------------------------------------------------------
  // Replacing

  /** What `str_replace` does with the content it read: the number of
    * non-overlapping occurrences, and the text it writes back, if any. */
  datatype ReplaceOutcome = ReplaceOutcome(count: nat, written: Option<string>)

  function ReplaceIn(content: string, oldStr: string, newStr: string): (r: ReplaceOutcome)
    ensures r.count == Count(content, oldStr)
    ensures r.written.None? <==> r.count == 0
    ensures r.written.Some? ==> |r.written.value| == |content| + r.count * (|newStr| - |oldStr|)
    ensures r.written.Some? ==> r.written.value == Replace(content, oldStr, newStr)
  {
    ReplaceLength(content, oldStr, newStr);
    var n := Count(content, oldStr);
    if n == 0 then ReplaceOutcome(0, None) else ReplaceOutcome(n, Some(Replace(content, oldStr, newStr)))
  }

  /** `str_replace` as written: it replaces in what `read_file` returns with
    * its default limit, so a file over 10000 characters is written back cut
    * and marked; without `sudo` the text it replaces in is the translated
    * one. */
  function StrReplaceAsWritten(files: map<string, string>, dirs: set<string>, os: Os, file: string,
                               oldStr: string, newStr: string, sudo: bool): (r: Result<ReplaceOutcome, FileError>)
    ensures file in files ==>
              r == Ok(ReplaceIn(Truncate(if sudo then files[file] else Universal(files[file]), Some(DefaultMaxLength)), oldStr, newStr))
    ensures file !in files ==> r.Err?
  {
    var read := ReadSpec(files, dirs, os, file, None, None, sudo, Some(DefaultMaxLength));
    if read.Err? then Err(read.error) else Ok(ReplaceIn(read.value, oldStr, newStr))
  }

  /** `str_replace` as intended: it replaces in the whole content. */
  function StrReplaceSpec(files: map<string, string>, dirs: set<string>, os: Os, file: string,
                          oldStr: string, newStr: string, sudo: bool): (r: Result<ReplaceOutcome, FileError>)
    ensures file in files ==> r == Ok(ReplaceIn(if sudo then files[file] else Universal(files[file]), oldStr, newStr))
    ensures file !in files ==> r.Err?
  {
    var read := ReadSpec(files, dirs, os, file, None, None, sudo, None);
    if read.Err? then Err(read.error) else Ok(ReplaceIn(read.value, oldStr, newStr))
  }

  /** Within the limit the two agree: the cut only matters for long files. */
  lemma StrReplaceShortFile(files: map<string, string>, dirs: set<string>, os: Os, file: string,
                            oldStr: string, newStr: string, sudo: bool)
    requires file in files ==> |files[file]| <= DefaultMaxLength
    ensures StrReplaceAsWritten(files, dirs, os, file, oldStr, newStr, sudo)
            == StrReplaceSpec(files, dirs, os, file, oldStr, newStr, sudo)
  {
  }

  /** On a file longer than the limit, without carriage returns, with an
    * occurrence in its first 10000 characters and a replacement of the
    * same length, the as-written operation writes back 10011 characters,
    * while the intended one keeps the file's length. */
  lemma StrReplaceFinding(files: map<string, string>, dirs: set<string>, os: Os, file: string,
                          oldStr: string, newStr: string, at: nat)
    requires file in files && |files[file]| > DefaultMaxLength && |files[file]| != DefaultMaxLength + 11
    requires forall i :: 0 <= i < |files[file]| ==> files[file][i] != '\r'
    requires oldStr != [] && |newStr| == |oldStr|
    requires at + |oldStr| <= DefaultMaxLength && OccursAt(files[file], oldStr, at)
    ensures var w := StrReplaceAsWritten(files, dirs, os, file, oldStr, newStr, false);
            w.Ok? && w.value.written.Some? && |w.value.written.value| == DefaultMaxLength + 11
    ensures var c := StrReplaceSpec(files, dirs, os, file, oldStr, newStr, false);
            c.Ok? && c.value.written.Some? && |c.value.written.value| == |files[file]|
  {
    var s := files[file];
    assert Universal(s) == s;
    var cut := Truncate(s, Some(DefaultMaxLength));
    assert cut[at..at + |oldStr|] == s[at..at + |oldStr|];
    assert OccursAt(cut, oldStr, at);
    CountZeroIff(cut, oldStr, newStr);
    CountZeroIff(s, oldStr, newStr);
  }

  // ---------------------------------------------------------------------
  // Searching

  /** The 0-based numbers of the first `n` lines for which `found` holds. */
  function MatchingLines(lines: seq<string>, found: string -> bool, n: nat): (r: seq<nat>)
    requires n <= |lines|
    ensures forall k :: 0 <= k < |r| ==> r[k] < n && found(lines[r[k]])
    ensures forall j, k :: 0 <= j < k < |r| ==> r[j] < r[k]
    ensures forall i :: 0 <= i < n && found(lines[i]) ==> i in r
  {
    if n == 0 then []
    else
      var r := MatchingLines(lines, found, n - 1) + (if found(lines[n - 1]) then [n - 1] else []);
      r
  }

  /** `os.path.join(path, pattern)` for two parts. */
  function PathJoin(path: string, part: string): (r: string)
    ensures StartsWith(part, "/") ==> r == part
    ensures !StartsWith(part, "/") ==> EndsWith(r, part)
  {
    if StartsWith(part, "/") then part
    else if path == "" || EndsWith(path, "/") then path + part
    else path + "/" + part
  }

  /** `FileService`. The sandbox's directories, what the operating system
    * does that the service cannot see, whether a regular expression
    * compiles (and if not, the text of `re.error`), whether it `search`es
    * successfully in a line, and `glob` are
    * fixed inputs. Uploaded bytes are kept apart from the text contents. */
  class FileService {
    var files: map<string, string>
    var uploads: map<string, seq<bv8>>
    const dirs: set<string>
    const os: Os
    const compileError: string -> Option<string>
    const search: (string, string) -> bool
    const glob: string -> seq<string>

    constructor(files: map<string, string>, dirs: set<string>, os: Os,
                compileError: string -> Option<string>, search: (string, string) -> bool, glob: string -> seq<string>)
      ensures this.files == files && uploads == map[] && this.dirs == dirs && this.os == os
      ensures this.compileError == compileError && this.search == search && this.glob == glob
    {
      this.files := files;
      uploads := map[];
      this.dirs := dirs;
      this.os := os;
      this.compileError := compileError;
      this.search := search;
      this.glob := glob;
    }

    /** `read_file`. */
    function Read(file: string, start: Option<int>, end: Option<int>, sudo: bool, maxLength: Option<int>): (r: Result<string, FileError>)
      reads this
    {
      ReadSpec(files, dirs, os, file, start, end, sudo, maxLength)
    }

    /** `write_file`: a failure leaves the files as they were; otherwise the
      * files are written and the result is the bytes written. */
    method Write(file: string, content: string, append: bool, leadingNewline: bool,
                 trailingNewline: bool, sudo: bool) returns (r: Result<nat, FileError>)
      modifies this
      ensures uploads == old(uploads)
      ensures var failure := WriteFailure(dirs, os, file, sudo);
              (failure.Some? ==> r == Err(failure.value) && files == old(files))
              && (failure.None? ==>
                    r == Ok(BytesWritten(Prepared(content, leadingNewline, trailingNewline), sudo))
                    && files == WriteSpec(old(files), file, content, append, leadingNewline, trailingNewline))
    {
      var text := Prepared(content, leadingNewline, trailingNewline);
      var failure := WriteFailure(dirs, os, file, sudo);
      if failure.Some? {
        return Err(failure.value);
      }
      var before := if append && file in files then files[file] else "";
      files := files[file := before + text];
      return Ok(BytesWritten(text, sudo));
    }

    /** `str_replace`: it replaces in the default-limited read result, and
      * writes that back only when there is an occurrence; a failed read or
      * write is its error and leaves the files as they were. */
    method StrReplace(file: string, oldStr: string, newStr: string, sudo: bool)
      returns (r: Result<nat, FileError>)
      modifies this
      ensures uploads == old(uploads)
      ensures var spec := StrReplaceAsWritten(old(files), dirs, os, file, oldStr, newStr, sudo);
              var failure := WriteFailure(dirs, os, file, sudo);
              (spec.Err? ==> r == Err(spec.error) && files == old(files))
              && (spec.Ok? && spec.value.written.None? ==> r == Ok(spec.value.count) && files == old(files))
              && (spec.Ok? && spec.value.written.Some? && failure.Some? ==> r == Err(failure.value) && files == old(files))
              && (spec.Ok? && spec.value.written.Some? && failure.None? ==>
                    r == Ok(spec.value.count) && files == old(files)[file := spec.value.written.value])
    {
      var read := Read(file, None, None, sudo, Some(DefaultMaxLength));
      if read.Err? {
        return Err(read.error);
      }
      var outcome := ReplaceIn(read.value, oldStr, newStr);
      if outcome.count == 0 {
        return Ok(0);
      }
      var written := Write(file, outcome.written.value, false, false, false, sudo);
      assert Prepared(outcome.written.value, false, false) == outcome.written.value;
      if written.Err? {
        return Err(written.error);
      }
      return Ok(outcome.count);
    }

    /** `find_in_content`: the lines of the (default-limited) content in
      * which the expression is found, with their 0-based numbers. An
      * expression that does not compile is refused after the read. */
    method FindInContent(file: string, regex: string, sudo: bool)
      returns (r: Result<(seq<string>, seq<nat>), FileError>)
      ensures var read := Read(file, None, None, sudo, Some(DefaultMaxLength));
              (read.Err? ==> r == Err(read.error))
              && (read.Ok? && compileError(regex).Some? ==>
                    r == Err(BadRequest("Invalid regular expression: " + compileError(regex).value)))
              && (read.Ok? && compileError(regex).None? ==>
                    var lines := SplitLines(read.value);
                    var numbers := MatchingLines(lines, line => search(regex, line), |lines|);
                    r.Ok? && r.value.1 == numbers && |r.value.0| == |numbers|
                    && forall k :: 0 <= k < |numbers| ==> r.value.0[k] == lines[numbers[k]])
    {
      var read := Read(file, None, None, sudo, Some(DefaultMaxLength));
      if read.Err? {
        return Err(read.error);
      }
      var lines := SplitLines(read.value);
      if compileError(regex).Some? {
        return Err(BadRequest("Invalid regular expression: " + compileError(regex).value));
      }
      var matches, lineNumbers := CollectMatches(lines, regex);
      return Ok((matches, lineNumbers));
    }

    /** The loop of `find_in_content` over the lines of the content. */
    method CollectMatches(lines: seq<string>, regex: string) returns (matches: seq<string>, lineNumbers: seq<nat>)
      ensures lineNumbers == MatchingLines(lines, line => search(regex, line), |lines|)
      ensures |matches| == |lineNumbers|
      ensures forall k :: 0 <= k < |lineNumbers| ==> matches[k] == lines[lineNumbers[k]]
    {
      matches := [];
      lineNumbers := [];
      var i := 0;
      while i < |lines|
        invariant 0 <= i <= |lines|
        invariant lineNumbers == MatchingLines(lines, line => search(regex, line), i)
        invariant |matches| == |lineNumbers|
        invariant forall k :: 0 <= k < |lineNumbers| ==> matches[k] == lines[lineNumbers[k]]
      {
        if search(regex, lines[i]) {
          matches := matches + [lines[i]];
          lineNumbers := lineNumbers + [i];
        }
        i := i + 1;
      }
    }

    /** Whether `os.path.exists` holds of a path: a directory, a text file
      * or an uploaded file. */
    predicate Exists(path: string)
      reads this
    {
      path in dirs || path in files || path in uploads
    }

    /** `find_by_name`: the path must exist; the result is `glob` of the
      * joined pattern. */
    method FindByName(path: string, pattern: string) returns (r: Result<seq<string>, FileError>)
      ensures !Exists(path) ==> r == Err(NotFound("Directory does not exist: " + path))
      ensures Exists(path) ==> r == Ok(glob(PathJoin(path, pattern)))
    {
      if !Exists(path) {
        return Err(NotFound("Directory does not exist: " + path));
      }
      return Ok(glob(PathJoin(path, pattern)));
    }

    /** `upload_file`: a path the upload-failure rule refuses is its error,
      * with nothing stored; otherwise the stream is copied in chunks of at
      * most 8192 bytes and the reported size is the total of the chunks. */
    method UploadFile(path: string, data: seq<bv8>) returns (r: Result<nat, FileError>, chunks: nat)
      modifies this
      ensures files == old(files)
      ensures var failure := UploadFailure(dirs, os, path);
              (failure.Some? ==> r == Err(failure.value) && chunks == 0 && uploads == old(uploads))
              && (failure.None? ==>
                    r == Ok(|data|) && chunks == (|data| + 8191) / 8192 && uploads == old(uploads)[path := data])
    {
      chunks := 0;
      var failure := UploadFailure(dirs, os, path);
      if failure.Some? {
        return Err(failure.value), chunks;
      }
      var written: seq<bv8> := [];
      var fileSize := 0;
      while |written| < |data|
        invariant |written| <= |data| && written == data[..|written|]
        invariant fileSize == |written|
        invariant |written| < |data| ==> |written| == 8192 * chunks
        invariant |written| == |data| ==> chunks == (|data| + 8191) / 8192
        decreases |data| - |written|
      {
        var rest := data[|written|..];
        var chunk := Take(rest, 8192);
        written := written + chunk;
        fileSize := fileSize + |chunk|;
        chunks := chunks + 1;
      }
      assert written == data;
      uploads := uploads[path := written];
      r := Ok(fileSize);
    }

    /** `ensure_file`. */
    function EnsureFile(path: string): (r: Result<(), FileError>)
      reads this
      ensures r.Ok? <==> path in files || path in dirs || path in uploads
      ensures r.Err? ==> r.error == NotFound("File does not exist: " + path)
    {
      if Exists(path) then Ok(()) else Err(NotFound("File does not exist: " + path))
    }
  }
}
