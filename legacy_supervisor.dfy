/** The older per-line supervisor, `src/FFmpeg.NET/Engine/FFmpegProcess.cs`. It keeps the same
    kinds of state as the current one in locals of `ExecuteAsync`, handles lines with the older
    progress rule and the standard time parser, and indexes the message list without a guard
    when the run failed. */
module LegacySupervisor {
  import opened Wrappers
  import opened Text
  import opened Media
  import opened Patterns
  import opened RegexEngine
  import LegacyRegexEngine
  import opened Supervisor

  /** `FFmpegProcessOnErrorDataReceived`, lines 85-96: the video and audio updates, then a duration match creates the metadata when
      absent and stores the result of `TimeSpan.TryParse` (given as `standardParse`), which
      leaves 0 when it fails. */
  function LegacyInputStep(data: string, md: Option<MetaData>, fileInfo: Option<FileInfo>,
                           standardParse: string -> Option<int>): InputEffect {
    var v := VideoUpdate(data, md);
    if v.fault.Some? then InputEffect(v.metaData, v.fault, 0)
    else
      var a := AudioUpdate(data, v.metaData);
      if a.fault.Some? then InputEffect(a.metaData, a.fault, 0)
      else
        var matchDuration := Find(DurationLine, data);
        if !matchDuration.Success() then InputEffect(a.metaData, None, 0)
        else
          var created := if a.metaData.None? then NewMetaData(fileInfo) else a.metaData.value;
          var parsed := standardParse(matchDuration.Group(1)).GetOr(0);
          InputEffect(Some(created.(duration := parsed)), None, parsed)
  }

  /** `FFmpegProcessOnErrorDataReceived`, lines 99-103: the total duration of a progress event is the duration this same line
      parsed, 0 without one. */
  function LegacyProgressStep(st: LineState, data: string, standardParse: string -> Option<int>,
                              totalMediaDuration: int): LineState {
    match LegacyRegexEngine.IsProgressData(data, standardParse)
    case None => st
    case Some(pd) => st.(events := st.events + [Progress(pd.(total := totalMediaDuration))])
  }

  /** `FFmpegProcessOnErrorDataReceived`, lines 75-109 on a non-null line. */
  function LegacyHandleLine(st: LineState, data: string, hasInput: bool, fileInfo: Option<FileInfo>,
                            standardParse: string -> Option<int>): LineState {
    var st1 := st.(messages := [data] + st.messages);
    var e := if hasInput then LegacyInputStep(data, st1.metaData, fileInfo, standardParse)
             else InputEffect(st1.metaData, None, 0);
    if e.fault.Some? then st1.(metaData := e.metaData, caught := e.fault)
    else LegacyProgressStep(st1.(metaData := e.metaData), data, standardParse, e.totalMediaDuration)
  }

  /** `ExecuteAsync`, lines 44-45: the Data handler runs first, then the line handler, which ignores null lines. */
  function LegacyHandle(st: LineState, line: Option<string>, hasInput: bool, fileInfo: Option<FileInfo>,
                        standardParse: string -> Option<int>): LineState {
    var st1 := st.(events := st.events + [Data(line)]);
    if line.None? then st1 else LegacyHandleLine(st1, line.value, hasInput, fileInfo, standardParse)
  }

  function LegacyLineStep(hasInput: bool, fileInfo: Option<FileInfo>, standardParse: string -> Option<int>)
    : (LineState, Option<string>) -> LineState
  {
    (st: LineState, line: Option<string>) => LegacyHandle(st, line, hasInput, fileInfo, standardParse)
  }

  function LegacyHandleAll(st: LineState, lines: seq<Option<string>>, hasInput: bool, fileInfo: Option<FileInfo>,
                           standardParse: string -> Option<int>): LineState {
    Fold(LegacyLineStep(hasInput, fileInfo, standardParse), st, lines)
  }

  /** `ExecuteAsync`, lines 50-71 after the wait, as written: when the exit code is not 0 or an exception was
      caught, the message is built from `messages[1]` and `messages[0]`, which throws
      `ArgumentOutOfRangeException` instead of raising Error when fewer than two lines were
      captured. `Kill` and the exceptions it swallows are not modelled. */
  function LegacyTerminal(messages: seq<string>, caught: Option<Fault>, wait: WaitOutcome): Outcome {
    match wait
    case Cancelled => Outcome([], Some(TaskCanceled))
    case StartFailed => Outcome([], Some(InvalidOperation))
    case Exited(code) =>
      if code != 0 || caught.Some? then
        if |messages| < 2 then Outcome([], Some(ArgumentOutOfRange))
        else Outcome([Error(FFmpegException(messages[1] + messages[0], caught, code))], None)
      else Outcome([Completed], None)
  }

  /** `GenerateStartInfo`, line 115: the older command-line prefix. */
  const LegacyPrefix := "-nostdin -y -loglevel info "

  function LegacyCommandLine(arguments: string): (r: string)
    ensures |r| == |LegacyPrefix| + |arguments|
    ensures r[..|LegacyPrefix|] == LegacyPrefix && r[|LegacyPrefix|..] == arguments
  {
    LegacyPrefix + arguments
  }

  class LegacyProcess {
    /** `parameters.InputFile`. */
    const input: InputRef?
    /** The local `messages`, newest first. */
    var messages: seq<string>
    /** The local `caughtException`. */
    var caught: Option<Fault>
    /** Every event raised, in order. */
    var events: seq<Event>

    constructor (input: InputRef?)
      ensures this.input == input && messages == [] && caught.None? && events == []
    {
      this.input := input;
      messages := [];
      caught := None;
      events := [];
    }

    function State(): LineState
      reads this, input
    {
      LineState(messages, caught, events, if input == null then None else input.metaData)
    }

    function InputFileInfo(): Option<FileInfo> {
      if input == null then None else input.fileInfo
    }

    /** `FFmpegProcessOnErrorDataReceived`, lines 85-96, on the input object. */
    method UpdateInput(data: string, standardParse: string -> Option<int>) returns (fault: Option<Fault>, totalMediaDuration: int)
      requires input != null
      modifies input
      ensures InputEffect(input.metaData, fault, totalMediaDuration) == LegacyInputStep(data, old(input.metaData), input.fileInfo, standardParse)
    {
      totalMediaDuration := 0;
      fault := TestVideo(data, input);
      if fault.Some? {
        return;
      }
      fault := TestAudio(data, input);
      if fault.Some? {
        return;
      }
      var matchDuration := Find(DurationLine, data);
      if matchDuration.Success() {
        if input.metaData.None? {
          input.metaData := Some(NewMetaData(input.fileInfo));
        }
        totalMediaDuration := standardParse(matchDuration.Group(1)).GetOr(0);
        input.metaData := Some(input.metaData.value.(duration := totalMediaDuration));
      }
    }

    method FFmpegProcessOnErrorDataReceived(data: string, standardParse: string -> Option<int>)
      modifies this, input
      ensures State() == LegacyHandleLine(old(State()), data, input != null, InputFileInfo(), standardParse)
    {
      messages := [data] + messages;
      var totalMediaDuration := 0;
      if input != null {
        var fault;
        fault, totalMediaDuration := UpdateInput(data, standardParse);
        if fault.Some? {
          caught := fault;
          return;
        }
      }
      var progressData := LegacyRegexEngine.IsProgressData(data, standardParse);
      if progressData.Some? {
        events := events + [Progress(progressData.value.(total := totalMediaDuration))];
      }
    }

    method OnErrorDataReceived(line: Option<string>, standardParse: string -> Option<int>)
      modifies this, input
      ensures State() == LegacyHandle(old(State()), line, input != null, InputFileInfo(), standardParse)
    {
      events := events + [Data(line)];
      if line.Some? {
        FFmpegProcessOnErrorDataReceived(line.value, standardParse);
      }
    }

    method Run(lines: seq<Option<string>>, standardParse: string -> Option<int>)
      modifies this, input
      ensures State() == LegacyHandleAll(old(State()), lines, input != null, InputFileInfo(), standardParse)
    {
      var i := 0;
      while i < |lines|
        invariant 0 <= i <= |lines|
        invariant State() == LegacyHandleAll(old(State()), lines[..i], input != null, InputFileInfo(), standardParse)
      {
        OnErrorDataReceived(lines[i], standardParse);
        assert lines[..i + 1][..i] == lines[..i];
        i := i + 1;
      }
      assert lines[..|lines|] == lines;
    }

    /** `ExecuteAsync`, lines 50-71 after the wait, as written. */
    method Finish(wait: WaitOutcome) returns (escaped: Option<Fault>)
      modifies this
      ensures events == old(events) + LegacyTerminal(messages, caught, wait).events
      ensures escaped == LegacyTerminal(messages, caught, wait).escaped
      ensures messages == old(messages) && caught == old(caught)
    {
      match wait
      case Cancelled =>
        escaped := Some(TaskCanceled);
      case StartFailed =>
        escaped := Some(InvalidOperation);
      case Exited(exitCode) =>
        escaped := None;
        if exitCode != 0 || caught.Some? {
          if |messages| < 2 {
            escaped := Some(ArgumentOutOfRange);
            return;
          }
          events := events + [Error(FFmpegException(messages[1] + messages[0], caught, exitCode))];
        } else {
          events := events + [Completed];
        }
    }

    /** `ExecuteAsync`, lines 34-73: a process that does not start (`StartFailed`) throws before any event and
      any line; otherwise the lines are handled from empty locals and the terminal step runs. */
    method Execute(lines: seq<Option<string>>, wait: WaitOutcome, standardParse: string -> Option<int>)
      returns (escaped: Option<Fault>)
      modifies this, input
      ensures wait.StartFailed? ==> escaped == Some(InvalidOperation) && State() == old(State())
      ensures !wait.StartFailed? ==>
        var st := LegacyHandleAll(LineState([], None, old(events), old(State()).metaData), lines, input != null,
                                  InputFileInfo(), standardParse);
        messages == st.messages && caught == st.caught
        && events == st.events + LegacyTerminal(st.messages, st.caught, wait).events
        && escaped == LegacyTerminal(st.messages, st.caught, wait).escaped
    {
      if wait.StartFailed? {
        escaped := Some(InvalidOperation);
        return;
      }
      messages := [];
      caught := None;
      Run(lines, standardParse);
      escaped := Finish(wait);
    }
  }

  // ---------------------------------------------------------------------------------------
  // Properties

  lemma LegacyHandleMessages(st: LineState, line: Option<string>, hasInput: bool, fileInfo: Option<FileInfo>,
                             standardParse: string -> Option<int>)
    ensures LegacyHandle(st, line, hasInput, fileInfo, standardParse).messages
            == (if line.Some? then [line.value] else []) + st.messages
  {
  }

  lemma LegacyHandleNoTerminal(st: LineState, line: Option<string>, hasInput: bool, fileInfo: Option<FileInfo>,
                               standardParse: string -> Option<int>)
    requires NoTerminal(st.events)
    ensures NoTerminal(LegacyHandle(st, line, hasInput, fileInfo, standardParse).events)
  {
    var st1 := st.(events := st.events + [Data(line)]);
    assert NoTerminal(st1.events) by {
      forall k | 0 <= k < |st1.events|
        ensures !IsTerminal(st1.events[k])
      {
        if k < |st.events| {
          assert st1.events[k] == st.events[k];
        }
      }
    }
    if line.Some? {
      var r := LegacyHandleLine(st1, line.value, hasInput, fileInfo, standardParse);
      forall k | 0 <= k < |r.events|
        ensures !IsTerminal(r.events[k])
      {
        if k < |st1.events| {
          assert r.events[k] == st1.events[k];
        }
      }
    }
  }

  /** The older messages are the non-null lines, newest first. */
  lemma LegacyMessagesNewestFirst(st: LineState, lines: seq<Option<string>>, hasInput: bool, fileInfo: Option<FileInfo>,
                                  standardParse: string -> Option<int>)
    ensures LegacyHandleAll(st, lines, hasInput, fileInfo, standardParse).messages == Reverse(NonNull(lines)) + st.messages
  {
    forall s, l
      ensures LegacyLineStep(hasInput, fileInfo, standardParse)(s, l).messages == (if l.Some? then [l.value] else []) + s.messages
    {
      LegacyHandleMessages(s, l, hasInput, fileInfo, standardParse);
    }
    FoldMessages(LegacyLineStep(hasInput, fileInfo, standardParse), st, lines);
  }

  lemma LegacyNoTerminalWhileRunning(st: LineState, lines: seq<Option<string>>, hasInput: bool, fileInfo: Option<FileInfo>,
                                     standardParse: string -> Option<int>)
    requires NoTerminal(st.events)
    ensures NoTerminal(LegacyHandleAll(st, lines, hasInput, fileInfo, standardParse).events)
  {
    var inv := (s: LineState) => NoTerminal(s.events);
    forall s, l | inv(s)
      ensures inv(LegacyLineStep(hasInput, fileInfo, standardParse)(s, l))
    {
      LegacyHandleNoTerminal(s, l, hasInput, fileInfo, standardParse);
    }
    FoldInvariant(LegacyLineStep(hasInput, fileInfo, standardParse), inv, st, lines);
  }

  /** The older progress total is only this line's own parsed duration: a progress line that is
      not also a duration line always reports 0, whatever the metadata holds. */
  lemma LegacyProgressTotal(st: LineState, data: string, hasInput: bool, fileInfo: Option<FileInfo>,
                            standardParse: string -> Option<int>)
    requires |LegacyHandleLine(st, data, hasInput, fileInfo, standardParse).events| > |st.events|
    ensures var e := LegacyHandleLine(st, data, hasInput, fileInfo, standardParse).events[|st.events|];
      e.Progress?
      && e.progress.total == (if hasInput && Find(DurationLine, data).Success()
                              then standardParse(Find(DurationLine, data).Group(1)).GetOr(0) else 0)
  {
  }

  /** With an input, a duration line whose video and audio updates did not throw creates the
      metadata when absent (with the input's file identity) and overwrites its duration with
      the standard parse, 0 when the text does not parse; nothing else of the metadata changes,
      the progress total of the line is that same value, and the handler stores that metadata. */
  lemma LegacyDurationOverwrites(st: LineState, data: string, fileInfo: Option<FileInfo>,
                                 standardParse: string -> Option<int>)
    requires Find(DurationLine, data).Success()
    ensures var v := VideoUpdate(data, st.metaData);
      var a := AudioUpdate(data, v.metaData);
      var e := LegacyInputStep(data, st.metaData, fileInfo, standardParse);
      var parsed := standardParse(Find(DurationLine, data).Group(1)).GetOr(0);
      v.fault.None? && a.fault.None? ==>
        e.fault.None? && e.metaData.Some? && e.metaData.value.duration == parsed
        && e.totalMediaDuration == parsed
        && (a.metaData.None? ==> e.metaData.value == NewMetaData(fileInfo).(duration := parsed))
        && (a.metaData.Some? ==> e.metaData.value == a.metaData.value.(duration := parsed))
    ensures var r := LegacyHandleLine(st, data, true, fileInfo, standardParse);
      var e := LegacyInputStep(data, st.metaData, fileInfo, standardParse);
      r.metaData == e.metaData && (e.fault.Some? ==> r.caught == e.fault)
  {
  }

  /** After an exit with at least two captured lines exactly one terminal event is raised:
      Error, carrying `messages[1] + messages[0]`, the caught exception and the exit code, when
      the code is not 0 or an exception was caught, and Completed otherwise. A successful run
      raises Completed whatever was captured; a cancelled or failed wait raises nothing. */
  lemma LegacyExactlyOneTerminal(messages: seq<string>, caught: Option<Fault>, wait: WaitOutcome)
    ensures var o := LegacyTerminal(messages, caught, wait);
      (!wait.Exited? ==> o.events == [] && o.escaped.Some?)
      && (wait.Exited? && caught.None? && wait.exitCode == 0 ==> o == Outcome([Completed], None))
      && (wait.Exited? && |messages| >= 2 ==>
            |o.events| == 1 && o.escaped.None?
            && (o.events[0].Error? <==> caught.Some? || wait.exitCode != 0)
            && (o.events[0].Error? ==>
                  o.events[0] == Error(FFmpegException(messages[1] + messages[0], caught, wait.exitCode)))
            && (!o.events[0].Error? ==> o.events[0] == Completed))
  {
  }

  /** When the tool fails having printed fewer than two lines, the older supervisor raises no
      Error event: it throws `ArgumentOutOfRangeException` out of the run, and the events end
      with the lines' own events. */
  lemma ShortFailureThrows(lines: seq<Option<string>>, code: int, md: Option<MetaData>, hasInput: bool,
                           fileInfo: Option<FileInfo>, standardParse: string -> Option<int>)
    requires |NonNull(lines)| < 2 && code != 0
    ensures var st := LegacyHandleAll(LineState([], None, [], md), lines, hasInput, fileInfo, standardParse);
      var o := LegacyTerminal(st.messages, st.caught, Exited(code));
      o.escaped == Some(ArgumentOutOfRange) && o.events == []
      && NoTerminal(st.events + o.events)
  {
    LegacyMessagesNewestFirst(LineState([], None, [], md), lines, hasInput, fileInfo, standardParse);
    LegacyNoTerminalWhileRunning(LineState([], None, [], md), lines, hasInput, fileInfo, standardParse);
    var st := LegacyHandleAll(LineState([], None, [], md), lines, hasInput, fileInfo, standardParse);
    assert st.events + [] == st.events;
  }

  /** A run in which the tool prints one line and exits with code 1. */
  lemma OneLineFailure(line: string, md: Option<MetaData>, hasInput: bool, fileInfo: Option<FileInfo>,
                       standardParse: string -> Option<int>)
    ensures var st := LegacyHandleAll(LineState([], None, [], md), [Some(line)], hasInput, fileInfo, standardParse);
      LegacyTerminal(st.messages, st.caught, Exited(1)).escaped == Some(ArgumentOutOfRange)
    ensures var st := HandleAll(LineState([], None, [], md), [Some(line)], hasInput, fileInfo);
      Terminal(st.messages, st.caught, Exited(1)).events
      == [Error(FFmpegException(line, st.caught, 1))]
  {
    assert NonNull([Some(line)]) == [line] + NonNull([]);
    ShortFailureThrows([Some(line)], 1, md, hasInput, fileInfo, standardParse);
    ErrorMessageFromLines([Some(line)], md, hasInput, fileInfo);
  }
}
