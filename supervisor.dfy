/** The per-line supervisor of `src/FFmpeg.NET/FFmpegProcess.cs`: every stderr line the tool
    prints is folded into a newest-first message list, a caught-exception slot, the input's
    metadata and the log of raised events; after exit one terminal event is chosen. */
module Supervisor {
  import opened Wrappers
  import opened Text
  import opened Media
  import opened Patterns
  import opened TimeSpans
  import opened RegexEngine
  import ArgumentBuilder

  /** What the handling of lines can change, on values. */
  datatype LineState = LineState(messages: seq<string>, caught: Option<Fault>, events: seq<Event>,
                                 metaData: Option<MetaData>)

  /** The progress step at the end of the handler: `totalMediaDuration` is what this line's
      duration match parsed (0 without one). */
  function ProgressStep(st: LineState, data: string, hasInput: bool, totalMediaDuration: int): LineState {
    match IsProgressData(data)
    case Failure(e) => st.(caught := Some(e))
    case Success(None) => st
    case Success(Some(pd)) =>
      var total := if !hasInput then pd.total
                   else if st.metaData.Some? then st.metaData.value.duration
                   else totalMediaDuration;
      st.(events := st.events + [Progress(pd.(total := total))])
  }

  /** What the input-related steps of one line produce: the input's metadata, the exception
      thrown by one of them, and the duration this line's duration match parsed (0 without). */
  datatype InputEffect = InputEffect(metaData: Option<MetaData>, fault: Option<Fault>, totalMediaDuration: int)

  /** `FFmpegProcessOnErrorDataReceived`, lines 135-149: a duration match creates the metadata when absent, with the input's file
      identity, and then overwrites its duration with the parsed text, unless the parse throws. */
  function DurationStep(data: string, md: Option<MetaData>, fileInfo: Option<FileInfo>): InputEffect {
    var matchDuration := Find(DurationLine, data);
    if !matchDuration.Success() then InputEffect(md, None, 0)
    else
      var created := if md.None? then NewMetaData(fileInfo) else md.value;
      var parsed := TimeSpanLargeTryParse(matchDuration.Group(1));
      if parsed.Thrown? then InputEffect(Some(created), Some(parsed.fault), 0)
      else InputEffect(Some(created.(duration := parsed.Value())), None, parsed.Value())
  }

  /** `FFmpegProcessOnErrorDataReceived`, lines 132-149: the video, audio and duration updates in that order; an exception ends
      them, leaving the metadata as far as it got. */
  function InputStep(data: string, md: Option<MetaData>, fileInfo: Option<FileInfo>): InputEffect {
    var v := VideoUpdate(data, md);
    if v.fault.Some? then InputEffect(v.metaData, v.fault, 0)
    else
      var a := AudioUpdate(data, v.metaData);
      if a.fault.Some? then InputEffect(a.metaData, a.fault, 0)
      else DurationStep(data, a.metaData, fileInfo)
  }

  /** `FFmpegProcessOnErrorDataReceived` on a non-null line: insert it first in the messages,
      then (with an input) the input steps, then the progress test. The first exception ends
      the handling of the line and is kept. */
  function HandleLine(st: LineState, data: string, hasInput: bool, fileInfo: Option<FileInfo>): LineState {
    var st1 := st.(messages := [data] + st.messages);
    if !hasInput then ProgressStep(st1, data, false, 0)
    else
      var e := InputStep(data, st1.metaData, fileInfo);
      if e.fault.Some? then st1.(metaData := e.metaData, caught := e.fault)
      else ProgressStep(st1.(metaData := e.metaData), data, true, e.totalMediaDuration)
  }

  /** `OnDataHandler`: the Data event is raised for every line, null ones included, before the
      line is handled; null lines are not handled. */
  function Handle(st: LineState, line: Option<string>, hasInput: bool, fileInfo: Option<FileInfo>): LineState {
    var st1 := st.(events := st.events + [Data(line)]);
    if line.None? then st1 else HandleLine(st1, line.value, hasInput, fileInfo)
  }

  /** Lines folded through a per-line step, the first one first. */
  function Fold(step: (LineState, Option<string>) -> LineState, st: LineState, lines: seq<Option<string>>): LineState
    decreases |lines|
  {
    if lines == [] then st else step(Fold(step, st, lines[..|lines| - 1]), lines[|lines| - 1])
  }

  function LineStep(hasInput: bool, fileInfo: Option<FileInfo>): (LineState, Option<string>) -> LineState {
    (st: LineState, line: Option<string>) => Handle(st, line, hasInput, fileInfo)
  }

  /** The lines handled in order, the first one first. */
  function HandleAll(st: LineState, lines: seq<Option<string>>, hasInput: bool, fileInfo: Option<FileInfo>): LineState {
    Fold(LineStep(hasInput, fileInfo), st, lines)
  }

  /** How the wait for the tool ended. */
  datatype WaitOutcome = Exited(exitCode: int) | Cancelled | StartFailed

  /** `GetExceptionMessage`. */
  function GetExceptionMessage(messages: seq<string>): string {
    if |messages| > 1 then messages[1] + messages[0] else Concat(messages)
  }

  /** The events raised after the wait, and the exception that escapes instead. */
  datatype Outcome = Outcome(events: seq<Event>, escaped: Option<Fault>)

  /** `ExecuteAsync`, lines 57-91: a cancelled wait escapes as `TaskCanceledException` and a failed start as
      the wait's `InvalidOperationException`; after an exit, a caught exception or a nonzero
      exit code raises Error, anything else raises Completed. */
  function Terminal(messages: seq<string>, caught: Option<Fault>, wait: WaitOutcome): Outcome {
    match wait
    case Cancelled => Outcome([], Some(TaskCanceled))
    case StartFailed => Outcome([], Some(InvalidOperation))
    case Exited(code) =>
      if caught.Some? || code != 0 then
        Outcome([Error(FFmpegException(GetExceptionMessage(messages), caught, code))], None)
      else Outcome([Completed], None)
  }

  /** `GenerateStartInfo`, line 171: the arguments the tool is started with, `-y` (overwrite outputs) first. */
  function CommandLine(arguments: string): (r: string)
    ensures |r| == |arguments| + 3
    ensures r[..3] == "-y " && r[3..] == arguments
  {
    "-y " + arguments
  }

  class FFmpegProcess {
    /** `_parameters.Input`. */
    const input: InputRef?
    /** `_messages`, newest first. */
    var messages: seq<string>
    /** `_caughtException`. */
    var caught: Option<Fault>
    /** Every event raised, in order. */
    var events: seq<Event>

    constructor (input: InputRef?)
      ensures this.input == input && messages == [] && caught.None? && events == []
    {
      this.input := input;
      messages := [];
      caught := None;
      events := [];
    }

    function State(): LineState
      reads this, input
    {
      LineState(messages, caught, events, if input == null then None else input.metaData)
    }

    function InputFileInfo(): Option<FileInfo> {
      if input == null then None else input.fileInfo
    }

    /** `ExecuteAsync` lines 30-31: a run starts with no messages and no caught exception. */
    method Reset()
      modifies this
      ensures messages == [] && caught.None? && events == old(events)
    {
      messages := [];
      caught := None;
    }

    /** `ExecuteAsync`, lines 30-33: reset, then build the arguments; a fault of the builder escapes after
        the reset, before anything is started. */
    method Start(parameters: ArgumentBuilder.FFmpegParameters, f: ArgumentBuilder.Formats)
      returns (commandLine: Result<string, Fault>)
      modifies this
      ensures messages == [] && caught.None? && events == old(events)
      ensures var built := ArgumentBuilder.BuildArguments(parameters, f);
        (commandLine.Success? <==> built.Success?)
        && (built.Success? ==> commandLine.value == CommandLine(built.value))
        && (built.Failure? ==> commandLine.error == built.error)
    {
      Reset();
      var arguments := ArgumentBuilder.FFmpegArgumentBuilder.Build(parameters, f);
      if arguments.Failure? {
        return Failure(arguments.error);
      }
      commandLine := Success(CommandLine(arguments.value));
    }

    /** `FFmpegProcessOnErrorDataReceived`, lines 132-149, on the input object. */
    method UpdateInput(data: string) returns (fault: Option<Fault>, totalMediaDuration: int)
      requires input != null
      modifies input
      ensures InputEffect(input.metaData, fault, totalMediaDuration) == InputStep(data, old(input.metaData), input.fileInfo)
    {
      totalMediaDuration := 0;
      fault := TestVideo(data, input);
      if fault.Some? {
        return;
      }
      fault := TestAudio(data, input);
      if fault.Some? {
        return;
      }
      fault, totalMediaDuration := UpdateDuration(data);
    }

    /** `FFmpegProcessOnErrorDataReceived`, lines 135-149, on the input object. */
    method UpdateDuration(data: string) returns (fault: Option<Fault>, totalMediaDuration: int)
      requires input != null
      modifies input
      ensures InputEffect(input.metaData, fault, totalMediaDuration) == DurationStep(data, old(input.metaData), input.fileInfo)
    {
      fault := None;
      totalMediaDuration := 0;
      var matchDuration := Find(DurationLine, data);
      if matchDuration.Success() {
        if input.metaData.None? {
          input.metaData := Some(NewMetaData(input.fileInfo));
        }
        var parsed := TimeSpanLargeTryParse(matchDuration.Group(1));
        if parsed.Thrown? {
          fault := Some(parsed.fault);
          return;
        }
        totalMediaDuration := parsed.Value();
        input.metaData := Some(input.metaData.value.(duration := totalMediaDuration));
      }
    }

    /** `FFmpegProcessOnErrorDataReceived`, lines 152-160. */
    method RaiseProgress(data: string, totalMediaDuration: int)
      modifies this
      ensures State() == ProgressStep(old(State()), data, input != null, totalMediaDuration)
    {
      var progress := IsProgressData(data);
      if progress.Failure? {
        caught := Some(progress.error);
        return;
      }
      if progress.value.Some? {
        var pd := progress.value.value;
        if input != null {
          pd := pd.(total := if input.metaData.Some? then input.metaData.value.duration else totalMediaDuration);
        }
        events := events + [Progress(pd)];
      }
    }

    method FFmpegProcessOnErrorDataReceived(data: string)
      modifies this, input
      ensures State() == HandleLine(old(State()), data, input != null, InputFileInfo())
    {
      messages := [data] + messages;
      var totalMediaDuration := 0;
      if input != null {
        var fault;
        fault, totalMediaDuration := UpdateInput(data);
        if fault.Some? {
          caught := fault;
          return;
        }
      }
      RaiseProgress(data, totalMediaDuration);
    }

    method OnDataHandler(line: Option<string>)
      modifies this, input
      ensures State() == Handle(old(State()), line, input != null, InputFileInfo())
    {
      events := events + [Data(line)];
      if line.Some? {
        FFmpegProcessOnErrorDataReceived(line.value);
      }
    }

    /** The lines the tool prints, handled one after another. */
    method Run(lines: seq<Option<string>>)
      modifies this, input
      ensures State() == HandleAll(old(State()), lines, input != null, InputFileInfo())
    {
      var i := 0;
      while i < |lines|
        invariant 0 <= i <= |lines|
        invariant State() == HandleAll(old(State()), lines[..i], input != null, InputFileInfo())
      {
        OnDataHandler(lines[i]);
        assert lines[..i + 1][..i] == lines[..i];
        i := i + 1;
      }
      assert lines[..|lines|] == lines;
    }

    /** `ExecuteAsync`, lines 57-91 after the wait; returns the exception that escapes, if any. */
    method Finish(wait: WaitOutcome) returns (escaped: Option<Fault>)
      modifies this
      ensures events == old(events) + Terminal(messages, caught, wait).events
      ensures escaped == Terminal(messages, caught, wait).escaped
      ensures messages == old(messages) && caught == old(caught)
    {
      match wait
      case Cancelled =>
        escaped := Some(TaskCanceled);
      case StartFailed =>
        escaped := Some(InvalidOperation);
      case Exited(exitCode) =>
        escaped := None;
        if caught.Some? || exitCode != 0 {
          var exceptionMessage := GetExceptionMessage(messages);
          events := events + [Error(FFmpegException(exceptionMessage, caught, exitCode))];
        } else {
          events := events + [Completed];
        }
    }

    /** A whole run: reset, the lines handled as they arrive, the terminal step. */
    method Execute(lines: seq<Option<string>>, wait: WaitOutcome) returns (escaped: Option<Fault>)
      modifies this, input
      ensures var st := HandleAll(LineState([], None, old(events), old(State()).metaData), lines, input != null, InputFileInfo());
        messages == st.messages && caught == st.caught
        && events == st.events + Terminal(st.messages, st.caught, wait).events
        && escaped == Terminal(st.messages, st.caught, wait).escaped
    {
      Reset();
      Run(lines);
      escaped := Finish(wait);
    }
  }

  // ---------------------------------------------------------------------------------------
  // Properties of the fold

  /** The list `messages` becomes by `Insert(0, line)` for each line in turn: newest first. */
  function Reverse<T>(s: seq<T>): (r: seq<T>)
    ensures |r| == |s|
    ensures forall k :: 0 <= k < |s| ==> r[k] == s[|s| - 1 - k]
  {
    if s == [] then [] else Reverse(s[1..]) + [s[0]]
  }

  /** The non-null lines, in order. */
  function NonNull(lines: seq<Option<string>>): seq<string> {
    if lines == [] then [] else (if lines[0].Some? then [lines[0].value] else []) + NonNull(lines[1..])
  }

  /** The payloads of the Data events, in order. */
  function DataLines(events: seq<Event>): seq<Option<string>> {
    if events == [] then [] else (if events[0].Data? then [events[0].line] else []) + DataLines(events[1..])
  }

  predicate IsTerminal(e: Event) { e.Completed? || e.Error? }

  lemma {:induction false} ReverseAppend<T>(a: seq<T>, b: seq<T>)
    ensures Reverse(a + b) == Reverse(b) + Reverse(a)
  {
    if a == [] {
      assert a + b == b;
    } else {
      assert (a + b)[1..] == a[1..] + b;
      ReverseAppend(a[1..], b);
    }
  }

  lemma {:induction false} NonNullAppend(a: seq<Option<string>>, b: seq<Option<string>>)
    ensures NonNull(a + b) == NonNull(a) + NonNull(b)
  {
    if a == [] {
      assert a + b == b;
    } else {
      assert (a + b)[1..] == a[1..] + b;
      NonNullAppend(a[1..], b);
    }
  }

  lemma {:induction false} DataLinesAppend(a: seq<Event>, b: seq<Event>)
    ensures DataLines(a + b) == DataLines(a) + DataLines(b)
  {
    if a == [] {
      assert a + b == b;
    } else {
      assert (a + b)[0] == a[0];
      assert (a + b)[1..] == a[1..] + b;
      DataLinesAppend(a[1..], b);
      assert DataLines(a + b) == (if a[0].Data? then [a[0].line] else []) + DataLines(a[1..] + b);
    }
  }

  predicate NoTerminal(events: seq<Event>) {
    forall k :: 0 <= k < |events| ==> !IsTerminal(events[k])
  }

  /** Video and audio data recorded in `a` are still recorded, unchanged, in `b`. */
  predicate KeepsStreams(a: LineState, b: LineState) {
    a.metaData.Some? ==>
      b.metaData.Some?
      && (a.metaData.value.video.Some? ==> b.metaData.value.video == a.metaData.value.video)
      && (a.metaData.value.audio.Some? ==> b.metaData.value.audio == a.metaData.value.audio)
  }

  // Folds over any step

  lemma {:induction false} FoldMessages(step: (LineState, Option<string>) -> LineState, st: LineState, lines: seq<Option<string>>)
    requires forall s, l :: step(s, l).messages == (if l.Some? then [l.value] else []) + s.messages
    ensures Fold(step, st, lines).messages == Reverse(NonNull(lines)) + st.messages
    decreases |lines|
  {
    if lines != [] {
      var init := lines[..|lines| - 1];
      var last := lines[|lines| - 1];
      var prev := Fold(step, st, init);
      var here := if last.Some? then [last.value] else [];
      FoldMessages(step, st, init);
      assert Fold(step, st, lines).messages == here + prev.messages;
      assert lines == init + [last];
      ReverseNonNullSnoc(init, last);
      var tail := Reverse(NonNull(init)) + st.messages;
      assert here + tail == Reverse(NonNull(lines)) + st.messages;
    }
  }

  /** The payload of a line appended at the end comes first once the payloads are reversed. */
  lemma ReverseNonNullSnoc(init: seq<Option<string>>, last: Option<string>)
    ensures Reverse(NonNull(init + [last])) == (if last.Some? then [last.value] else []) + Reverse(NonNull(init))
  {
    var here := if last.Some? then [last.value] else [];
    NonNullAppend(init, [last]);
    assert NonNull([last]) == here + NonNull([]);
    assert NonNull(init + [last]) == NonNull(init) + here;
    ReverseAppend(NonNull(init), here);
    assert Reverse(here) == here;
  }

  lemma {:induction false} FoldData(step: (LineState, Option<string>) -> LineState, st: LineState, lines: seq<Option<string>>)
    requires forall s, l :: DataLines(step(s, l).events) == DataLines(s.events) + [l]
    ensures DataLines(Fold(step, st, lines).events) == DataLines(st.events) + lines
    decreases |lines|
  {
    if lines != [] {
      var init := lines[..|lines| - 1];
      FoldData(step, st, init);
      assert lines == init + [lines[|lines| - 1]];
    }
  }

  lemma {:induction false} FoldInvariant(step: (LineState, Option<string>) -> LineState, inv: LineState -> bool,
                                         st: LineState, lines: seq<Option<string>>)
    requires forall s, l :: inv(s) ==> inv(step(s, l))
    requires inv(st)
    ensures inv(Fold(step, st, lines))
    decreases |lines|
  {
    if lines != [] {
      FoldInvariant(step, inv, st, lines[..|lines| - 1]);
    }
  }

  // One line

  /** Handling a line adds at most one event, a Progress event. */
  lemma HandleLineEvents(st: LineState, data: string, hasInput: bool, fileInfo: Option<FileInfo>)
    ensures var r := HandleLine(st, data, hasInput, fileInfo);
      r.messages == [data] + st.messages
      && (r.events == st.events || (|r.events| == |st.events| + 1 && r.events[..|st.events|] == st.events
                                     && r.events[|st.events|].Progress?))
  {
  }

  lemma HandleMessages(st: LineState, line: Option<string>, hasInput: bool, fileInfo: Option<FileInfo>)
    ensures Handle(st, line, hasInput, fileInfo).messages == (if line.Some? then [line.value] else []) + st.messages
  {
    if line.Some? {
      HandleLineEvents(st.(events := st.events + [Data(line)]), line.value, hasInput, fileInfo);
    }
  }

  lemma HandleLineData(st: LineState, data: string, hasInput: bool, fileInfo: Option<FileInfo>)
    ensures DataLines(HandleLine(st, data, hasInput, fileInfo).events) == DataLines(st.events)
  {
    HandleLineEvents(st, data, hasInput, fileInfo);
    var r := HandleLine(st, data, hasInput, fileInfo).events;
    if r != st.events {
      var e := r[|st.events|];
      assert r == st.events + [e];
      DataLinesAppend(st.events, [e]);
      assert DataLines([e]) == [] + DataLines([]);
    }
  }

  lemma HandleData(st: LineState, line: Option<string>, hasInput: bool, fileInfo: Option<FileInfo>)
    ensures DataLines(Handle(st, line, hasInput, fileInfo).events) == DataLines(st.events) + [line]
  {
    var st1 := st.(events := st.events + [Data(line)]);
    DataLinesAppend(st.events, [Data(line)]);
    assert DataLines([Data(line)]) == [line] + DataLines([]);
    if line.Some? {
      HandleLineData(st1, line.value, hasInput, fileInfo);
    }
  }

  lemma HandleNoTerminal(st: LineState, line: Option<string>, hasInput: bool, fileInfo: Option<FileInfo>)
    requires NoTerminal(st.events)
    ensures NoTerminal(Handle(st, line, hasInput, fileInfo).events)
  {
    var st1 := st.(events := st.events + [Data(line)]);
    assert NoTerminal(st1.events) by {
      forall k | 0 <= k < |st1.events|
        ensures !IsTerminal(st1.events[k])
      {
        if k < |st.events| {
          assert st1.events[k] == st.events[k];
        }
      }
    }
    if line.Some? {
      HandleLineEvents(st1, line.value, hasInput, fileInfo);
      var r := HandleLine(st1, line.value, hasInput, fileInfo);
      forall k | 0 <= k < |r.events|
        ensures !IsTerminal(r.events[k])
      {
        if k < |st1.events| {
          assert r.events[k] == r.events[..|st1.events|][k];
        }
      }
    }
  }

  lemma HandleKeepsFault(st: LineState, line: Option<string>, hasInput: bool, fileInfo: Option<FileInfo>)
    requires st.caught.Some?
    ensures Handle(st, line, hasInput, fileInfo).caught.Some?
  {
  }

  lemma InputStepKeepsStreams(data: string, md: Option<MetaData>, fileInfo: Option<FileInfo>)
    requires md.Some?
    ensures var r := InputStep(data, md, fileInfo).metaData;
      r.Some?
      && (md.value.video.Some? ==> r.value.video == md.value.video)
      && (md.value.audio.Some? ==> r.value.audio == md.value.audio)
  {
    VideoFirstMatchWins(data, md);
    AudioFirstMatchWins(data, VideoUpdate(data, md).metaData);
  }

  lemma ProgressStepMetaData(st: LineState, data: string, hasInput: bool, totalMediaDuration: int)
    ensures ProgressStep(st, data, hasInput, totalMediaDuration).metaData == st.metaData
  {
  }

  lemma HandleKeepsStreams(st: LineState, line: Option<string>, hasInput: bool, fileInfo: Option<FileInfo>)
    ensures KeepsStreams(st, Handle(st, line, hasInput, fileInfo))
  {
    if line.Some? {
      var st1 := st.(events := st.events + [Data(line)]).(messages := [line.value] + st.messages);
      if hasInput {
        if st.metaData.Some? {
          InputStepKeepsStreams(line.value, st.metaData, fileInfo);
        }
        var e := InputStep(line.value, st1.metaData, fileInfo);
        ProgressStepMetaData(st1.(metaData := e.metaData), line.value, true, e.totalMediaDuration);
      } else {
        ProgressStepMetaData(st1, line.value, false, 0);
      }
    }
  }

  // A whole run

  /** The messages are the non-null lines, newest first, in front of what was there. */
  lemma MessagesNewestFirst(st: LineState, lines: seq<Option<string>>, hasInput: bool, fileInfo: Option<FileInfo>)
    ensures HandleAll(st, lines, hasInput, fileInfo).messages == Reverse(NonNull(lines)) + st.messages
  {
    forall s, l
      ensures LineStep(hasInput, fileInfo)(s, l).messages == (if l.Some? then [l.value] else []) + s.messages
    {
      HandleMessages(s, l, hasInput, fileInfo);
    }
    FoldMessages(LineStep(hasInput, fileInfo), st, lines);
  }

  /** One Data event per line, null lines included, in the order of the lines. */
  lemma DataEventsMirrorLines(st: LineState, lines: seq<Option<string>>, hasInput: bool, fileInfo: Option<FileInfo>)
    ensures DataLines(HandleAll(st, lines, hasInput, fileInfo).events) == DataLines(st.events) + lines
  {
    forall s, l
      ensures DataLines(LineStep(hasInput, fileInfo)(s, l).events) == DataLines(s.events) + [l]
    {
      HandleData(s, l, hasInput, fileInfo);
    }
    FoldData(LineStep(hasInput, fileInfo), st, lines);
  }

  /** No line raises a terminal event: Completed and Error come only from the terminal step. */
  lemma NoTerminalWhileRunning(st: LineState, lines: seq<Option<string>>, hasInput: bool, fileInfo: Option<FileInfo>)
    requires NoTerminal(st.events)
    ensures NoTerminal(HandleAll(st, lines, hasInput, fileInfo).events)
  {
    var inv := (s: LineState) => NoTerminal(s.events);
    forall s, l | inv(s)
      ensures inv(LineStep(hasInput, fileInfo)(s, l))
    {
      HandleNoTerminal(s, l, hasInput, fileInfo);
    }
    FoldInvariant(LineStep(hasInput, fileInfo), inv, st, lines);
  }

  /** A caught exception is never cleared by later lines (a later one replaces it). */
  lemma FaultPersists(st: LineState, lines: seq<Option<string>>, hasInput: bool, fileInfo: Option<FileInfo>)
    requires st.caught.Some?
    ensures HandleAll(st, lines, hasInput, fileInfo).caught.Some?
  {
    var inv := (s: LineState) => s.caught.Some?;
    forall s, l | inv(s)
      ensures inv(LineStep(hasInput, fileInfo)(s, l))
    {
      HandleKeepsFault(s, l, hasInput, fileInfo);
    }
    FoldInvariant(LineStep(hasInput, fileInfo), inv, st, lines);
  }

  /** Once video (or audio) data is recorded, no later line changes it: the first descriptor
      wins for the whole run. */
  lemma StreamDataStable(st: LineState, lines: seq<Option<string>>, hasInput: bool, fileInfo: Option<FileInfo>)
    ensures KeepsStreams(st, HandleAll(st, lines, hasInput, fileInfo))
  {
    var inv := (s: LineState) => KeepsStreams(st, s);
    forall s, l | inv(s)
      ensures inv(LineStep(hasInput, fileInfo)(s, l))
    {
      HandleKeepsStreams(s, l, hasInput, fileInfo);
    }
    FoldInvariant(LineStep(hasInput, fileInfo), inv, st, lines);
  }

  /** With an input, a duration line creates the metadata when absent (with the input's file
      identity) and overwrites its duration with the parsed value, 0 when the text does not
      parse, unless an earlier step of the line threw. */
  lemma DurationOverwrites(st: LineState, data: string, fileInfo: Option<FileInfo>)
    requires Find(DurationLine, data).Success()
    requires VideoUpdate(data, st.metaData).fault.None?
    requires AudioUpdate(data, VideoUpdate(data, st.metaData).metaData).fault.None?
    requires !TimeSpanLargeTryParse(Find(DurationLine, data).Group(1)).Thrown?
    ensures var r := HandleLine(st, data, true, fileInfo);
      r.metaData.Some? && r.metaData.value.duration == TimeSpanLargeTryParse(Find(DurationLine, data).Group(1)).Value()
      && (AudioUpdate(data, VideoUpdate(data, st.metaData).metaData).metaData.None? ==> r.metaData.value.fileInfo == fileInfo)
  {
  }

  /** A progress event's total duration is the input metadata's duration when metadata exists
      and 0 otherwise (a line whose own duration match parsed a value always has metadata by
      then); without an input it is 0. */
  lemma ProgressTotal(st: LineState, data: string, hasInput: bool, fileInfo: Option<FileInfo>)
    requires |HandleLine(st, data, hasInput, fileInfo).events| > |st.events|
    ensures var r := HandleLine(st, data, hasInput, fileInfo);
      var e := r.events[|st.events|];
      e.Progress?
      && e.progress.total == (if hasInput && r.metaData.Some? then r.metaData.value.duration else 0)
      && e.progress.processed == TimeSpanLargeTryParse(TimeText(data)).Value()
  {
    HandleLineEvents(st, data, hasInput, fileInfo);
  }

  /** After an exit exactly one terminal event is raised, Error exactly when an exception was
      caught or the exit code is not 0, carrying both; a cancelled or failed wait raises none
      and lets its exception escape. */
  lemma ExactlyOneTerminal(messages: seq<string>, caught: Option<Fault>, wait: WaitOutcome)
    ensures var o := Terminal(messages, caught, wait);
      (wait.Exited? <==> |o.events| == 1 && o.escaped.None?)
      && (!wait.Exited? ==> o.events == [] && o.escaped.Some?)
      && (wait.Exited? ==>
            (o.events[0].Error? <==> caught.Some? || wait.exitCode != 0)
            && (o.events[0].Error? ==> o.events[0].exception.exitCode == wait.exitCode
                                       && o.events[0].exception.inner == caught)
            && (!o.events[0].Error? ==> o.events[0] == Completed))
  {
  }

  /** The error message of a run: the second-newest captured line followed by the newest one;
      with fewer than two, all captured lines. */
  lemma ErrorMessageFromLines(lines: seq<Option<string>>, md: Option<MetaData>, hasInput: bool, fileInfo: Option<FileInfo>)
    ensures var captured := NonNull(lines);
      var m := GetExceptionMessage(HandleAll(LineState([], None, [], md), lines, hasInput, fileInfo).messages);
      (|captured| >= 2 ==> m == captured[|captured| - 2] + captured[|captured| - 1])
      && (|captured| == 1 ==> m == captured[0])
      && (captured == [] ==> m == "")
  {
    MessagesNewestFirst(LineState([], None, [], md), lines, hasInput, fileInfo);
    var captured := NonNull(lines);
    var r := Reverse(captured);
    assert HandleAll(LineState([], None, [], md), lines, hasInput, fileInfo).messages == r;
    if |captured| >= 2 {
      assert r[0] == captured[|captured| - 1] && r[1] == captured[|captured| - 2];
    } else if |captured| == 1 {
      assert Concat(r) == r[0] + Concat([]);
    }
  }
}
