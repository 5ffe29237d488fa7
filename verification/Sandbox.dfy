/** What a sandboxed run reports and how the dispatcher reads it. */
module Sandbox {
  import opened Text
  import opened Executions

  /** The source file of a language inside /work, and the interpreter or compiler that takes it. */
  datatype LangSpec = LangSpec(file: string, program: string, compiled: bool)

  function LangCommand(lang: string): Option<LangSpec> {
    if lang == "python" then Some(LangSpec("main.py", "python", false))
    else if lang == "javascript" then Some(LangSpec("main.js", "node", false))
    else if lang == "go" then Some(LangSpec("main.go", "go run", false))
    else if lang == "java" then Some(LangSpec("Main.java", "java", false))
    else if lang == "ruby" then Some(LangSpec("main.rb", "ruby", false))
    else if lang == "rust" then Some(LangSpec("main.rs", "rustc", true))
    else if lang == "cpp" then Some(LangSpec("main.cpp", "g++", true))
    else None
  }

  /** None stands for the errNotStarted failure of an unknown language. */
  function ResolveLang(lang: string): Option<LangSpec> {
    LangCommand(Normalize(lang))
  }

  datatype RunResult = RunResult(exitCode: int, stdout: string, stderr: string, timedOut: bool, oomKilled: bool)

  /** How a run that did start its container comes back. */
  datatype Outcome = Ended(res: RunResult) | Broke(message: string)

  /** Go's int32(x). */
  function Wrap32(x: int): (r: int)
    ensures -0x8000_0000 <= r < 0x8000_0000
    ensures r == x <==> -0x8000_0000 <= x < 0x8000_0000
  {
    (x + 0x8000_0000) % 0x1_0000_0000 - 0x8000_0000
  }

  const OOM_NOTE := "\n[container killed: out of memory]"

  /** Status, exit code and stderr for a run that ended. */
  function Classify(res: RunResult): (Status, Option<int>, string) {
    if res.timedOut then (TimedOut, None, res.stderr)
    else if res.oomKilled then (Failed, None, TrimSpace(res.stderr) + OOM_NOTE)
    else if res.exitCode == 0 then (Succeeded, Some(0), res.stderr)
    else (Failed, Some(res.exitCode), res.stderr)
  }

  /** What the handler writes (`result`) and announces (`announcedExit`, not narrowed to 32 bits). */
  datatype Verdict = Verdict(result: Result, announcedExit: Option<int>, clean: bool)

  function Narrow(code: Option<int>): Option<int> {
    match code case None => None case Some(c) => Some(Wrap32(c))
  }

  function VerdictOf(o: Outcome): Verdict {
    match o
    case Ended(res) =>
      var (status, code, stderr) := Classify(res);
      Verdict(Result(status, res.stdout, stderr, Narrow(code)), code, true)
    case Broke(message) =>
      Verdict(Result(Failed, "", "runner error: " + message, None), None, false)
  }

  // ----- the same, said of each kind of outcome

  /** `c` is what an int32 column keeps of the number `x`: within range, and away from it by whole turns. */
  predicate KeptAs(x: int, c: int) {
    -0x8000_0000 <= c < 0x8000_0000 && (x - c) % 0x1_0000_0000 == 0
  }

  /** What the row of a finished run says. */
  predicate RowSays(o: Outcome, status: Status, stdout: string, stderr: string, exitCode: Option<int>) {
    match o
    case Broke(message) => status.Failed? && stdout == "" && stderr == "runner error: " + message && exitCode.None?
    case Ended(res) =>
      && stdout == res.stdout
      && if res.timedOut then status.TimedOut? && exitCode.None? && stderr == res.stderr
         else if res.oomKilled then
           && status.Failed? && exitCode.None?
           && stderr == TrimSpace(res.stderr) + "\n[container killed: out of memory]"
         else if res.exitCode == 0 then status.Succeeded? && exitCode == Some(0) && stderr == res.stderr
         else status.Failed? && exitCode.Some? && KeptAs(res.exitCode, exitCode.value) && stderr == res.stderr
  }

  /** What is announced of it: the same status, and the exit code as the container gave it. */
  predicate NewsSays(o: Outcome, status: Status, exitCode: Option<int>) {
    match o
    case Broke(_) => status.Failed? && exitCode.None?
    case Ended(res) =>
      if res.timedOut then status.TimedOut? && exitCode.None?
      else if res.oomKilled then status.Failed? && exitCode.None?
      else if res.exitCode == 0 then status.Succeeded? && exitCode == Some(0)
      else status.Failed? && exitCode == Some(res.exitCode)
  }

  /** The verdict on a run that ended says what it should. */
  predicate Sound(res: RunResult) {
    var v := VerdictOf(Ended(res));
    && RowSays(Ended(res), v.result.status, v.result.stdout, v.result.stderr, v.result.exitCode)
    && NewsSays(Ended(res), v.result.status, v.announcedExit)
  }

  lemma TimeoutSays(res: RunResult)
    requires res.timedOut
    ensures Sound(res)
  {
  }

  lemma OomSays(res: RunResult)
    requires !res.timedOut && res.oomKilled
    ensures Sound(res)
  {
  }

  lemma SuccessSays(res: RunResult)
    requires !res.timedOut && !res.oomKilled && res.exitCode == 0
    ensures Sound(res)
  {
  }

  lemma WrapKeeps(x: int)
    ensures KeptAs(x, Wrap32(x))
  {
  }

  lemma FailureSays(res: RunResult)
    requires !res.timedOut && !res.oomKilled && res.exitCode != 0
    ensures Sound(res)
  {
    WrapKeeps(res.exitCode);
  }

  lemma EndedSays(res: RunResult)
    ensures Sound(res)
  {
    if res.timedOut {
      TimeoutSays(res);
    } else if res.oomKilled {
      OomSays(res);
    } else if res.exitCode == 0 {
      SuccessSays(res);
    } else {
      FailureSays(res);
    }
  }

  lemma VerdictSays(o: Outcome)
    ensures var v := VerdictOf(o);
            && RowSays(o, v.result.status, v.result.stdout, v.result.stderr, v.result.exitCode)
            && NewsSays(o, v.result.status, v.announcedExit)
            && (v.clean <==> o.Ended?)
  {
    if o.Ended? {
      EndedSays(o.res);
    }
  }

  /** Each language has its own source file and its own program. */
  lemma LanguageTable()
    ensures LangCommand("python") == Some(LangSpec("main.py", "python", false))
    ensures LangCommand("javascript") == Some(LangSpec("main.js", "node", false))
    ensures LangCommand("go") == Some(LangSpec("main.go", "go run", false))
    ensures LangCommand("java") == Some(LangSpec("Main.java", "java", false))
    ensures LangCommand("ruby") == Some(LangSpec("main.rb", "ruby", false))
    ensures LangCommand("rust") == Some(LangSpec("main.rs", "rustc", true))
    ensures LangCommand("cpp") == Some(LangSpec("main.cpp", "g++", true))
  {
  }

  /** A language is found by its name, in any case and with any padding. */
  lemma LanguageByName(lang: string, name: string)
    requires Plain(name) && Named(lang, name)
    ensures ResolveLang(lang) == LangCommand(name)
  {
    NormalizeIs(lang, name);
  }

  /** The exit status survives the narrowing to int32 far enough to tell zero from non-zero. */
  predicate ExitFits(o: Outcome) {
    o.Ended? && Wrap32(o.res.exitCode) == 0 ==> o.res.exitCode == 0 || o.res.timedOut || o.res.oomKilled
  }
}
