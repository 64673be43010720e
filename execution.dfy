/** `execute_code`, `get_file_extension` and `get_execution_command` of
    code_editor/consumers.py. The operating system's part (the temporary
    file's random name and what the spawned process does) is passed in as
    a `Host`; the temporary files that exist are tracked as a set. */
module Execution {
  import opened Common
  import opened Protocol

  /** The languages the two tables know. */
  predicate Known(language: string) {
    language == "python" || language == "java" || language == "cpp" || language == "javascript"
  }

  /** `get_file_extension`: the suffix of the temporary source file. */
  function FileExtension(language: string): (ext: string) {
    if language == "python" then ".py"
    else if language == "java" then ".java"
    else if language == "cpp" then ".cpp"
    else if language == "javascript" then ".js"
    else ".txt"
  }

  /** `get_execution_command`: the argument list handed to the process
      runner. The cpp entry is reproduced as written, including its literal
      `&&` argument. */
  function ExecutionCommand(language: string, path: string): (cmd: seq<string>) {
    if language == "python" then ["python3", path]
    else if language == "java" then ["javac", path]
    else if language == "cpp" then ["g++", path, "-o", path + "_executable", "&&", path + "_executable"]
    else if language == "javascript" then ["node", path]
    else ["python3", path]
  }

  /** What `subprocess.run(..., timeout=10)` did: it finished, it ran out of
      time, or it raised some other error with the given message. */
  datatype RunOutcome = Completed(stdout: string, stderr: string) | TimedOut | Failed(message: string)

  /** The operating system's side of one execution: the name `tempfile`
      picks (before the suffix) and what running a command does. */
  datatype Host = Host(tempStem: string, run: seq<string> -> RunOutcome)

  /** The value `execute_code` returns once the process has been run. */
  function OutputOf(outcome: RunOutcome): string {
    match outcome
    case Completed(out, err) => out + err
    case TimedOut => "Execution timed out"
    case Failed(msg) => "Execution error: " + msg
  }

  /** The result of `execute_code` (the output, or the message of the
      exception it raised) and the temporary files left afterwards. */
  datatype Execution = Execution(result: Result<string, string>, tempFiles: set<string>)

  /** `get_file_extension` on the raw `language` field: a non-string value
      (a JSON object) cannot be a dict key and raises before any file is
      created. */
  function ExtensionFor(language: Value): Result<string, string> {
    if language.Str? then Ok(FileExtension(language.s)) else Err("unhashable type: 'dict'")
  }

  /** `execute_code` as written: the file is created with `delete=False` and
      written inside the `with` block, before the `try` whose `finally`
      removes it. When the write raises (the `code` field is not a string)
      the exception leaves the function and the file stays behind. */
  function ExecuteCodeAsWritten(code: Value, language: Value, host: Host, files: set<string>): (x: Execution)
  {
    match ExtensionFor(language)
    case Err(msg) => Execution(Err(msg), files)
    case Ok(ext) =>
      var path := host.tempStem + ext;
      if !code.Str? then Execution(Err("write() argument must be str, not dict"), files + {path})
      else Execution(Ok(OutputOf(host.run(ExecutionCommand(language.s, path)))), files + {path} - {path})
  }

  /** `execute_code` with the removal covering the write as well, which is
      what the `finally` clause is there for. */
  function ExecuteCode(code: Value, language: Value, host: Host, files: set<string>): (x: Execution)
  {
    match ExtensionFor(language)
    case Err(msg) => Execution(Err(msg), files)
    case Ok(ext) =>
      var path := host.tempStem + ext;
      if !code.Str? then Execution(Err("write() argument must be str, not dict"), files + {path} - {path})
      else Execution(Ok(OutputOf(host.run(ExecutionCommand(language.s, path)))), files + {path} - {path})
  }

  /** The random name is not that of an existing file. */
  ghost predicate FreshStem(stem: string, files: set<string>) {
    forall f :: f in files ==> !(|stem| <= |f| && f[..|stem|] == stem)
  }

  lemma FreshPath(stem: string, ext: string, files: set<string>)
    requires FreshStem(stem, files)
    ensures stem + ext !in files
  {
    var path := stem + ext;
    assert path[..|stem|] == stem;
  }

  // ---------------------------------------------------------------------
  // Properties
  // ---------------------------------------------------------------------

  /** The suffix table: the four known languages get their own suffix,
      every other language `.txt`. */
  lemma ExtensionTable(language: string)
    ensures FileExtension(language) == ".txt" <==> !Known(language)
    ensures language == "python" ==> FileExtension(language) == ".py"
    ensures language == "java" ==> FileExtension(language) == ".java"
    ensures language == "cpp" ==> FileExtension(language) == ".cpp"
    ensures language == "javascript" ==> FileExtension(language) == ".js"
  {
  }

  /** The command table: the file is always the second argument; unknown
      languages fall back to `python3`; java is compiled but not run; the
      cpp list passes `&&` to the compiler as an ordinary argument, since
      no shell reads it. */
  lemma CommandTable(language: string, path: string)
    ensures |ExecutionCommand(language, path)| >= 2 && ExecutionCommand(language, path)[1] == path
    ensures !Known(language) ==> ExecutionCommand(language, path) == ["python3", path]
    ensures language == "java" ==> ExecutionCommand(language, path) == ["javac", path]
    ensures language == "cpp" ==>
      && |ExecutionCommand(language, path)| == 6
      && ExecutionCommand(language, path)[0] == "g++"
      && ExecutionCommand(language, path)[4] == "&&"
      && ExecutionCommand(language, path)[5] == path + "_executable"
    ensures (ExecutionCommand(language, path)[0] == "python3") <==> (language == "python" || !Known(language))
  {
  }

  /** The output is stdout followed by stderr; a timeout and any other
      failure give fixed messages. */
  lemma OutputMapping(outcome: RunOutcome)
    ensures outcome.Completed? ==>
      && |OutputOf(outcome)| == |outcome.stdout| + |outcome.stderr|
      && OutputOf(outcome)[..|outcome.stdout|] == outcome.stdout
      && OutputOf(outcome)[|outcome.stdout|..] == outcome.stderr
    ensures outcome.TimedOut? ==> OutputOf(outcome) == "Execution timed out"
    ensures outcome.Failed? ==>
      && |OutputOf(outcome)| == 17 + |outcome.message|
      && OutputOf(outcome)[..17] == "Execution error: "
      && OutputOf(outcome)[17..] == outcome.message
  {
  }

  /** The process sees the file whose suffix the language picked, and the
      command built for that language. */
  lemma ExecutionRunsTheCommand(code: string, language: string, host: Host, files: set<string>)
    ensures ExecuteCode(Str(code), Str(language), host, files).result
      == Ok(OutputOf(host.run(ExecutionCommand(language, host.tempStem + FileExtension(language)))))
  {
  }

  /** No temporary file is left behind, whatever happens. */
  lemma ExecuteCodeRemovesTempFile(code: Value, language: Value, host: Host, files: set<string>)
    requires FreshStem(host.tempStem, files)
    ensures ExecuteCode(code, language, host, files).tempFiles == files
  {
    if language.Str? {
      FreshPath(host.tempStem, FileExtension(language.s), files);
    }
  }

  /** As written, a `code` field that is a JSON object makes the write fail
      and leaves the temporary file in place. */
  lemma AsWrittenLeaksTempFile(host: Host)
    ensures var x := ExecuteCodeAsWritten(Pos(0, Coords(0.0, 0.0)), Str("python"), host, {});
      && x.result == Err("write() argument must be str, not dict")
      && x.tempFiles == {host.tempStem + ".py"}
  {
  }

  /** The two versions agree on everything but the file left behind. */
  lemma AsWrittenAgreesOnResult(code: Value, language: Value, host: Host, files: set<string>)
    ensures ExecuteCodeAsWritten(code, language, host, files).result == ExecuteCode(code, language, host, files).result
    ensures code.Str? || !language.Str? ==>
      ExecuteCodeAsWritten(code, language, host, files) == ExecuteCode(code, language, host, files)
  {
  }
}
