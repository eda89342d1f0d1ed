/**
 * The text a scheduler run produces: the block the forked child writes into
 * the pipe (`visual_run` and `test_run_visual_scheduler` build it the same
 * way), the log `visual_run` shows around it, and the verdict a test run
 * draws from the drained pipe.
 *
 * The child process, the pipe and the loading of the action file are not
 * modelled; what they deliver is handed in as an `ActionOutcome` or a
 * `RunOutcome`.
 */
module RunLog {
  import opened Wrappers
  import opened Strings

  /** What happens inside the child when it loads the action and calls `Updater.update`. */
  datatype ActionOutcome =
    | TextOut(text: string)                            // the result responds to `to_str`
    | NonText                                          // any other result (nil, a number, ...)
    | Raised(message: string, backtrace: seq<string>)  // a ScriptError or StandardError, loading included
    | Uncaught                                         // the child ends otherwise (exit, an exception of another class)

  /** How one run ends as seen by the parent process. */
  datatype RunOutcome =
    | Ran(outcome: ActionOutcome)                          // the child ran and the pipe was drained
    | InfraFail(message: string, backtrace: seq<string>)   // with the pipe open, fork, read or wait raised in the parent

  const ScriptOutputHeader := "----- Script Output -----\n"
  const ScriptOutputTrailer := "\n----- End Script Output -----"
  const ScriptErrorHeader := "----- Script Error Output -----\n"
  const ScriptErrorTrailer := "\n---- End Script Error Output -----"
  const ErrorOutputHeader := "----- Error Output -----\n"
  const ErrorOutputTrailer := "\n---- End Error Output -----"
  const FrameSeparator := "\n\t"
  const CompletedTrailer := "\nCompleted running action."
  /** The substring the test run looks for in the drained pipe. */
  const Marker := "Error"

  /** The line naming the course and the message of a caught error. */
  function ErrorLine(courseName: string, message: string): (line: string)
  {
    "Error in '" + courseName + "' updater: " + message + "\n"
  }

  /** The block the child writes into the pipe: `fork_log` when `write.print` is reached. */
  function ChildLog(outcome: ActionOutcome, courseName: string): (block: string)
  {
    match outcome
    case TextOut(text) => ScriptOutputHeader + text + ScriptOutputTrailer
    case NonText => ""
    case Raised(message, backtrace) =>
      ScriptErrorHeader + ErrorLine(courseName, message) + Join(backtrace, FrameSeparator) + ScriptErrorTrailer
    case Uncaught => ""
  }

  /** The block `visual_run` appends when forking, draining or waiting for the child raises. */
  function InfraLog(courseName: string, message: string, backtrace: seq<string>): (block: string)
  {
    ErrorOutputHeader + ErrorLine(courseName, message) + Join(backtrace, FrameSeparator) + ErrorOutputTrailer
  }

  function ExecutingLine(path: string): (line: string)
  {
    "Executing " + path + "\n"
  }

  /** What lies between the `Executing` line and the completion line of a visual run. */
  function RunBody(run: RunOutcome, courseName: string): (body: string)
  {
    match run
    case Ran(outcome) => ChildLog(outcome, courseName)
    case InfraFail(message, backtrace) => InfraLog(courseName, message, backtrace)
  }

  /** `@log` at the end of `visual_run`, for the resolved action path `path`. */
  function VisualLog(path: string, courseName: string, run: RunOutcome): (log: string)
  {
    ExecutingLine(path) + RunBody(run, courseName) + CompletedTrailer
  }

  /** The check after the pipe is drained: the test run raises unless the text includes "Error". */
  predicate VerdictRaises(result: string)
  {
    !Contains(result, Marker)
  }

  /** `test_run_visual_scheduler` raises: its own setup failed, or the verdict rejects the drained text. */
  predicate TestRunFails(run: RunOutcome, courseName: string)
  {
    match run
    case InfraFail(_, _) => true
    case Ran(outcome) => VerdictRaises(ChildLog(outcome, courseName))
  }

  /** The child's part of a run, appending to `fork_log` step by step. */
  method WriteChildLog(outcome: ActionOutcome, courseName: string) returns (forkLog: string)
    ensures forkLog == ChildLog(outcome, courseName)
  {
    forkLog := "";
    match outcome {
      case TextOut(text) =>
        forkLog := forkLog + ScriptOutputHeader;
        assert forkLog == ScriptOutputHeader;
        forkLog := forkLog + text;
        forkLog := forkLog + ScriptOutputTrailer;
      case NonText =>
      case Raised(message, backtrace) =>
        forkLog := forkLog + ScriptErrorHeader;
        assert forkLog == ScriptErrorHeader;
        forkLog := forkLog + ErrorLine(courseName, message);
        forkLog := forkLog + Join(backtrace, FrameSeparator);
        forkLog := forkLog + ScriptErrorTrailer;
      case Uncaught =>
        // the child never reaches `write.print`, so the pipe stays empty
        forkLog := "";
    }
  }

  /** `visual_run`: builds `@log` around what the child wrote, or around the setup failure. */
  method VisualRun(path: string, courseName: string, run: RunOutcome) returns (log: string)
    ensures log == VisualLog(path, courseName, run)
  {
    log := ExecutingLine(path);
    match run {
      case Ran(outcome) =>
        var result := WriteChildLog(outcome, courseName);
        log := log + result;
      case InfraFail(message, backtrace) =>
        log := log + ErrorOutputHeader;
        log := log + ErrorLine(courseName, message);
        log := log + Join(backtrace, FrameSeparator);
        log := log + ErrorOutputTrailer;
    }
    log := log + CompletedTrailer;
  }

  /** `test_run_visual_scheduler`: whether it raises. */
  method TestRunVisualScheduler(run: RunOutcome, courseName: string) returns (raised: bool)
    ensures raised == TestRunFails(run, courseName)
  {
    match run {
      case InfraFail(_, _) =>
        raised := true;
      case Ran(outcome) =>
        var result := WriteChildLog(outcome, courseName);
        raised := !Contains(result, Marker);
    }
  }

  /** Reads back the text framed by a "Script Output" block, if `block` is one. */
  function ScriptOutputPayload(block: string): (text: Option<string>)
  {
    var h, t := ScriptOutputHeader, ScriptOutputTrailer;
    if |block| >= |h| + |t| && block[..|h|] == h && block[|block| - |t|..] == t
    then Some(block[|h|..|block| - |t|])
    else None
  }

  /**
   * The child's block is a "Script Output" block exactly when the action
   * returned text, and that block gives the text back unchanged.
   */
  lemma ScriptOutputDecodes(outcome: ActionOutcome, courseName: string)
    ensures ScriptOutputPayload(ChildLog(outcome, courseName)) ==
              if outcome.TextOut? then Some(outcome.text) else None
  {
    var block := ChildLog(outcome, courseName);
    match outcome {
      case TextOut(text) =>
        assert block[..|ScriptOutputHeader|] == ScriptOutputHeader;
        assert block[|block| - |ScriptOutputTrailer|..] == ScriptOutputTrailer;
        assert block[|ScriptOutputHeader|..|block| - |ScriptOutputTrailer|] == text;
      case Raised(message, backtrace) =>
        assert block[13] == ScriptErrorHeader[13] == 'E';
        assert ScriptOutputHeader[13] == 'O';
      case NonText =>
      case Uncaught =>
    }
  }

  /**
   * For a run that ends, once the pipe is open, a visual run's log opens with
   * the `Executing` line for the action path, closes with the completion line,
   * and holds the child's block or the setup-failure block in between. This is
   * `VisualLog`'s definition read slice by slice.
   */
  lemma VisualLogFrame(path: string, courseName: string, run: RunOutcome)
    ensures var log, e, c := VisualLog(path, courseName, run), ExecutingLine(path), CompletedTrailer;
      && |e| + |c| <= |log|
      && log[..|e|] == "Executing " + path + "\n"
      && log[|log| - |c|..] == "\nCompleted running action."
      && log[|e|..|log| - |c|] == RunBody(run, courseName)
  {
  }

  /**
   * The log of a run whose setup failed never equals the log of a run in which
   * the child ran, whatever the child did: the "Error Output" block is told
   * apart from the child's own blocks and from an empty pipe.
   */
  lemma InfraLogDistinct(path: string, courseName: string, message: string, backtrace: seq<string>,
                         otherCourse: string, outcome: ActionOutcome)
    ensures VisualLog(path, courseName, InfraFail(message, backtrace)) != VisualLog(path, otherCourse, Ran(outcome))
  {
    var e := ExecutingLine(path);
    var infra := VisualLog(path, courseName, InfraFail(message, backtrace));
    var ran := VisualLog(path, otherCourse, Ran(outcome));
    var body := InfraLog(courseName, message, backtrace);
    assert infra == e + body + CompletedTrailer;
    assert infra[|e| + 6] == body[6] == ErrorOutputHeader[6] == 'E';
    assert infra[|e|] == '-';
    var child := ChildLog(outcome, otherCourse);
    assert ran == e + child + CompletedTrailer;
    match outcome {
      case TextOut(_) =>
        assert ran[|e| + 6] == child[6] == 'S';
      case Raised(_, _) =>
        assert ran[|e| + 6] == child[6] == 'S';
      case NonText =>
        assert ran[|e|] == CompletedTrailer[0] == '\n';
      case Uncaught =>
        assert ran[|e|] == CompletedTrailer[0] == '\n';
    }
  }

  /** A caught error's block names the course and carries the error's message. */
  lemma RaisedLogNamesCourse(courseName: string, message: string, backtrace: seq<string>)
    ensures Contains(ChildLog(Raised(message, backtrace), courseName),
                     "Error in '" + courseName + "' updater: " + message)
  {
    var line := "Error in '" + courseName + "' updater: " + message;
    var rest := "\n" + Join(backtrace, FrameSeparator) + ScriptErrorTrailer;
    assert ChildLog(Raised(message, backtrace), courseName) == ScriptErrorHeader + line + rest;
    assert OccursAt(line, line, 0);
    ContainsIffOccurs(line, line);
    ContainsWithin(ScriptErrorHeader, line, rest, line);
  }

  /**
   * Around the action's text, the "Script Output" labels neither add nor hide
   * an "Error": the block includes it exactly when the text does.
   */
  lemma ScriptOutputMarker(text: string, courseName: string)
    ensures Contains(ChildLog(TextOut(text), courseName), Marker) <==> Contains(text, Marker)
  {
    FramedContains(ScriptOutputHeader, text, ScriptOutputTrailer, Marker);
  }

  /** Every "Script Error Output" block includes "Error", in its opening label. */
  lemma ScriptErrorMarker(message: string, backtrace: seq<string>, courseName: string)
    ensures Contains(ChildLog(Raised(message, backtrace), courseName), Marker)
  {
    var block := ChildLog(Raised(message, backtrace), courseName);
    assert block[13..18] == ScriptErrorHeader[13..18] == Marker;
    assert OccursAt(block, Marker, 13);
    ContainsIffOccurs(block, Marker);
  }

  /**
   * What the verdict at the end of a test run decides, case by case: it
   * raises when setup failed, when nothing was written, and when the action's
   * text lacks "Error"; it never raises for a caught error, because the
   * "Script Error Output" label itself contains "Error".
   */
  lemma TestRunVerdict(run: RunOutcome, courseName: string)
    ensures TestRunFails(run, courseName) <==>
      || run.InfraFail?
      || run.outcome.NonText?
      || run.outcome.Uncaught?
      || (run.outcome.TextOut? && !Contains(run.outcome.text, Marker))
  {
    match run {
      case InfraFail(_, _) =>
      case Ran(TextOut(text)) =>
        ScriptOutputMarker(text, courseName);
      case Ran(Raised(message, backtrace)) =>
        ScriptErrorMarker(message, backtrace, courseName);
      case Ran(NonText) =>
        assert !Contains("", Marker);
      case Ran(Uncaught) =>
        assert !Contains("", Marker);
    }
  }
}
