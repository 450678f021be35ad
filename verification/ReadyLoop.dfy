/** The probe of preflight: kubectl runs until a line of its output shows readiness (internal/kubectl/runner.go),
    and preflight judges what came back (internal/preflight/preflight.go, internal/tunnel/tunnel.go).
    Two reader threads, the process and the caller's context race; a run is any sequence of their moves. */
module ReadyLoop {
  import opened Text
  import opened Lines
  import opened Configuration

  const READY_TEXT := "Forwarding from "

  /** `IsReadyOutput`. */
  predicate IsReadyOutput(output: string) {
    Contains(output, READY_TEXT)
  }

  datatype Stream = Stdout | Stderr

  datatype Event = Line(stream: Stream, text: string) | ScanError(stream: Stream)

  /** The lines a child process writes, if it is given the time. */
  datatype Child = Child(out: seq<string>, err: seq<string>)

  datatype Outcome = Looping | ReadyAt(stream: Stream) | Exited(ok: bool) | Cancelled

  /** One reader thread: how many lines it has sent, how many characters of the next line it has sent as a last line
      because its pipe was closed there, and whether it still reads. */
  datatype Reader = Reader(sent: nat, torn: nat, open: bool)

  datatype Loop = Loop(out: Reader, err: Reader, channel: seq<Event>, stdout: string, stderr: string, outcome: Outcome)

  const START := Loop(Reader(0, 0, true), Reader(0, 0, true), [], "", "", Looping)

  /** The moves that can be next. A move that is not possible leaves the state alone. A scanner whose pipe is closed in
      the middle of a line still delivers what it has of that line (`Tear`), and then its error (`BreakScan`). */
  datatype Move =
    | Send(stream: Stream) | Tear(stream: Stream, size: nat) | BreakScan(stream: Stream)
    | Receive | ProcessExits(ok: bool) | ContextDone

  const CHANNEL_CAPACITY := 2

  function LinesOf(child: Child, stream: Stream): seq<string> {
    if stream == Stdout then child.out else child.err
  }

  function ReaderOf(s: Loop, stream: Stream): Reader {
    if stream == Stdout then s.out else s.err
  }

  function WithReader(s: Loop, stream: Stream, reader: Reader): Loop {
    if stream == Stdout then s.(out := reader) else s.(err := reader)
  }

  function Collected(s: Loop, stream: Stream): string {
    if stream == Stdout then s.stdout else s.stderr
  }

  function Collect(s: Loop, stream: Stream, line: string): Loop {
    if stream == Stdout then s.(stdout := s.stdout + line + "\n") else s.(stderr := s.stderr + line + "\n")
  }

  /** The reader has another line, and the channel has room. */
  predicate CanSend(child: Child, s: Loop, stream: Stream) {
    var reader := ReaderOf(s, stream);
    && reader.open && reader.torn == 0 && reader.sent < |LinesOf(child, stream)|
    && |s.channel| < CHANNEL_CAPACITY
  }

  function Step(child: Child, s: Loop, move: Move): Loop {
    if s.outcome != Looping then s
    else
      match move
      case Send(stream) =>
        var reader := ReaderOf(s, stream);
        if CanSend(child, s, stream) then
          WithReader(s, stream, reader.(sent := reader.sent + 1))
            .(channel := s.channel + [Line(stream, LinesOf(child, stream)[reader.sent])])
        else s
      case Tear(stream, size) =>
        var reader := ReaderOf(s, stream);
        if CanSend(child, s, stream) && 0 < size <= |LinesOf(child, stream)[reader.sent]| then
          WithReader(s, stream, reader.(torn := size))
            .(channel := s.channel + [Line(stream, LinesOf(child, stream)[reader.sent][..size])])
        else s
      case BreakScan(stream) =>
        var reader := ReaderOf(s, stream);
        if reader.open && |s.channel| < CHANNEL_CAPACITY then
          WithReader(s, stream, reader.(open := false)).(channel := s.channel + [ScanError(stream)])
        else s
      case Receive =>
        if s.channel == [] then s
        else
          var event, taken := s.channel[0], s.(channel := s.channel[1..]);
          if event.ScanError? then taken
          else
            var collected := Collect(taken, event.stream, event.text);
            if IsReadyOutput(event.text) then collected.(outcome := ReadyAt(event.stream)) else collected
      case ProcessExits(ok) => s.(outcome := Exited(ok))
      case ContextDone => s.(outcome := Cancelled)
  }

  /** The state after a sequence of moves. */
  function Run(child: Child, moves: seq<Move>): Loop {
    if moves == [] then START else Step(child, Run(child, moves[..|moves| - 1]), moves[|moves| - 1])
  }

  // ----- What every run keeps

  /** The lines of one stream that are under way. */
  function Underway(channel: seq<Event>, stream: Stream): seq<string> {
    if channel == [] then []
    else (if channel[0].Line? && channel[0].stream == stream then [channel[0].text]
      else []) + Underway(channel[1..], stream)
  }

  lemma {:induction false} UnderwaySnoc(channel: seq<Event>, event: Event, stream: Stream)
    ensures Underway(channel + [event], stream)
      == Underway(channel, stream) + (if event.Line? && event.stream == stream then [event.text] else [])
  {
    if channel == [] {
      assert [event][1..] == [] && [] + [event] == [event];
    } else {
      assert (channel + [event])[1..] == channel[1..] + [event];
      UnderwaySnoc(channel[1..], event, stream);
    }
  }

  predicate NoneReady(lines: seq<string>) {
    forall line :: line in lines ==> !IsReadyOutput(line)
  }

  predicate InLines(lines: seq<string>, n: nat, m: nat) {
    n <= |lines| && (m > 0 ==> n < |lines| && m <= |lines[n]|)
  }

  /** The first `n` lines, and `m` characters of the next one as a last line. */
  function FirstLines(lines: seq<string>, n: nat, m: nat): seq<string>
    requires InLines(lines, n, m)
  {
    if m > 0 then lines[..n] + [lines[n][..m]] else lines[..n]
  }

  /** The lines sent are collected or under way, in order, and the loop is ready at the first collected line that shows
      readiness. */
  predicate SentKept(sent: seq<string>, underway: seq<string>, collected: string, ready: bool) {
    && |underway| <= |sent|
    && var taken := |sent| - |underway|;
    && underway == sent[taken..] && collected == Terminated(sent[..taken])
    && (if ready then taken > 0 && IsReadyOutput(sent[taken - 1]) && NoneReady(sent[..taken - 1])
        else NoneReady(sent[..taken]))
  }

  /** What a reader has sent are the first lines of its stream, the last of which may be torn. */
  predicate StreamKept(child: Child, s: Loop, stream: Stream) {
    var lines, reader := LinesOf(child, stream), ReaderOf(s, stream);
    && InLines(lines, reader.sent, reader.torn)
    && SentKept(FirstLines(lines, reader.sent, reader.torn), Underway(s.channel, stream), Collected(s, stream),
                s.outcome == ReadyAt(stream))
  }

  predicate Kept(child: Child, s: Loop) {
    StreamKept(child, s, Stdout) && StreamKept(child, s, Stderr) && |s.channel| <= CHANNEL_CAPACITY
  }

  lemma TerminatedSnoc(lines: seq<string>, line: string)
    ensures Terminated(lines + [line]) == Terminated(lines) + line + "\n"
  {
    hide Terminated;
    TerminatedJoin(lines, [line]);
    TerminatedOne(line);
  }

  lemma NoneReadySnoc(lines: seq<string>, line: string)
    ensures NoneReady(lines + [line]) <==> NoneReady(lines) && !IsReadyOutput(line)
  {
    hide IsReadyOutput;
    assert line in lines + [line];
  }

  lemma SendOne(sent: seq<string>, underway: seq<string>, collected: string, text: string)
    requires SentKept(sent, underway, collected, false)
    ensures SentKept(sent + [text], underway + [text], collected, false)
  {
    hide NoneReady, Terminated;
    var taken := |sent| - |underway|;
    assert (sent + [text])[taken..] == sent[taken..] + [text] && (sent + [text])[..taken] == sent[..taken];
  }

  lemma CollectOne(sent: seq<string>, underway: seq<string>, collected: string)
    requires SentKept(sent, underway, collected, false) && underway != []
    ensures SentKept(sent, underway[1..], collected + underway[0] + "\n", IsReadyOutput(underway[0]))
  {
    hide NoneReady, IsReadyOutput, Terminated;
    var taken := |sent| - |underway|;
    assert sent[taken] == underway[0] && sent[..taken + 1] == sent[..taken] + [underway[0]];
    assert sent[taken + 1..] == underway[1..];
    TerminatedSnoc(sent[..taken], underway[0]);
    NoneReadySnoc(sent[..taken], underway[0]);
  }

  /** What a reader sends joins the lines under way. */
  lemma SendKeeps(child: Child, s: Loop, move: Move, other: Stream)
    requires StreamKept(child, s, other) && (move.Send? || move.Tear?)
    ensures StreamKept(child, Step(child, s, move), other)
  {
    hide SentKept, IsReadyOutput, Underway;
    var after := Step(child, s, move);
    if after != s {
      var lines, reader := LinesOf(child, other), ReaderOf(s, other);
      var event := after.channel[|s.channel|];
      UnderwaySnoc(s.channel, event, other);
      if move.stream == other {
        var sent := FirstLines(lines, reader.sent, reader.torn);
        SendOne(sent, Underway(s.channel, other), Collected(s, other), event.text);
        assert FirstLines(lines, ReaderOf(after, other).sent, ReaderOf(after, other).torn) == sent + [event.text];
      } else {
        assert Underway(s.channel, other) + [] == Underway(s.channel, other);
      }
    }
  }

  lemma BreakKeeps(child: Child, s: Loop, stream: Stream, other: Stream)
    requires StreamKept(child, s, other)
    ensures StreamKept(child, Step(child, s, BreakScan(stream)), other)
  {
    hide SentKept, IsReadyOutput, Underway, FirstLines;
    UnderwaySnoc(s.channel, ScanError(stream), other);
    assert Underway(s.channel, other) + [] == Underway(s.channel, other);
  }

  lemma UnderwayHead(channel: seq<Event>, stream: Stream)
    requires channel != []
    ensures Underway(channel, stream) == if channel[0].Line? && channel[0].stream == stream
      then [channel[0].text] + Underway(channel[1..], stream) else Underway(channel[1..], stream)
  {
  }

  lemma ReceiveKeeps(child: Child, s: Loop, stream: Stream)
    requires StreamKept(child, s, stream)
    ensures StreamKept(child, Step(child, s, Receive), stream)
  {
    hide SentKept, IsReadyOutput, Underway, FirstLines;
    if s.outcome == Looping && s.channel != [] {
      UnderwayHead(s.channel, stream);
      if s.channel[0].Line? && s.channel[0].stream == stream {
        var reader := ReaderOf(s, stream);
        CollectOne(FirstLines(LinesOf(child, stream), reader.sent, reader.torn), Underway(s.channel, stream),
                   Collected(s, stream));
      }
    }
  }

  lemma {:induction false} RunKeeps(child: Child, moves: seq<Move>)
    ensures Kept(child, Run(child, moves))
    decreases |moves|
  {
    hide StreamKept, IsReadyOutput;
    StartKept(child);
    if moves != [] {
      var before, move := Run(child, moves[..|moves| - 1]), moves[|moves| - 1];
      RunKeeps(child, moves[..|moves| - 1]);
      match move
      case Send(_) =>
        SendKeeps(child, before, move, Stdout);
        SendKeeps(child, before, move, Stderr);
      case Tear(_, _) =>
        SendKeeps(child, before, move, Stdout);
        SendKeeps(child, before, move, Stderr);
      case BreakScan(stream) =>
        BreakKeeps(child, before, stream, Stdout);
        BreakKeeps(child, before, stream, Stderr);
      case Receive =>
        ReceiveKeeps(child, before, Stdout);
        ReceiveKeeps(child, before, Stderr);
      case ProcessExits(_) => EndKeeps(child, before, move);
      case ContextDone => EndKeeps(child, before, move);
    }
  }

  lemma StartKept(child: Child)
    ensures StreamKept(child, START, Stdout) && StreamKept(child, START, Stderr)
  {
  }

  lemma EndKeeps(child: Child, s: Loop, move: Move)
    requires Kept(child, s) && (move.ProcessExits? || move.ContextDone?)
    ensures Kept(child, Step(child, s, move))
  {
    hide SentKept, Underway, FirstLines;
  }

  /** Collected output: the first lines of a stream, the last of which may be torn. */
  ghost predicate IsPrefix(collected: string, lines: seq<string>) {
    exists n: nat, m: nat :: InLines(lines, n, m) && collected == Terminated(FirstLines(lines, n, m))
  }

  /** Read as text: but for the line end behind the last line, it is a prefix of what the child wrote. */
  lemma PrefixOfText(lines: seq<string>, n: nat, m: nat)
    requires InLines(lines, n, m)
    ensures var collected := Terminated(FirstLines(lines, n, m));
      collected == "" || (collected[|collected| - 1] == '\n' && collected[..|collected| - 1] <= Terminated(lines))
  {
    hide Terminated;
    var collected := Terminated(FirstLines(lines, n, m));
    assert lines == lines[..n] + lines[n..];
    TerminatedJoin(lines[..n], lines[n..]);
    TerminatedEndsLine(lines[..n]);
    if m > 0 {
      TerminatedSnoc(lines[..n], lines[n][..m]);
      TerminatedFirst(lines[n..]);
      assert collected[..|collected| - 1] == Terminated(lines[..n]) + lines[n][..m];
      assert lines[n] == lines[n][..m] + lines[n][m..];
      assert Terminated(lines)
        == Terminated(lines[..n]) + lines[n][..m] + (lines[n][m..] + "\n" + Terminated(lines[n..][1..]));
    }
  }

  lemma TerminatedFirst(lines: seq<string>)
    requires lines != []
    ensures Terminated(lines) == lines[0] + "\n" + Terminated(lines[1..])
  {
  }

  lemma StreamIsPrefix(child: Child, s: Loop, stream: Stream)
    requires StreamKept(child, s, stream)
    ensures IsPrefix(Collected(s, stream), LinesOf(child, stream))
  {
    hide NoneReady, IsReadyOutput, Terminated, Underway;
    var lines, reader := LinesOf(child, stream), ReaderOf(s, stream);
    var sent := FirstLines(lines, reader.sent, reader.torn);
    var taken := |sent| - |Underway(s.channel, stream)|;
    if taken <= reader.sent {
      assert sent[..taken] == FirstLines(lines, taken, 0);
    } else {
      assert sent[..taken] == sent;
    }
  }

  /** In every run, what is returned is an in-order prefix of what the child wrote, stream by stream. Only its last line
      may be torn, by a pipe that was closed under its reader. */
  lemma OutputIsPrefix(child: Child, moves: seq<Move>)
    ensures IsPrefix(Run(child, moves).stdout, child.out) && IsPrefix(Run(child, moves).stderr, child.err)
  {
    hide Run, StreamKept, IsPrefix;
    RunKeeps(child, moves);
    StreamIsPrefix(child, Run(child, moves), Stdout);
    StreamIsPrefix(child, Run(child, moves), Stderr);
  }

  // ----- Progress

  /** Two lines can wait in the channel, and a third one has to. */
  lemma ChannelHoldsTwo(child: Child)
    requires |child.out| >= 3
    ensures var s := Run(child, [Send(Stdout), Send(Stdout), Send(Stdout)]);
      s.channel == [Line(Stdout, child.out[0]), Line(Stdout, child.out[1])]
  {
    hide Run;
    var one := Send(Stdout);
    RunNothing(child);
    RunSnoc(child, [], one);
    RunSnoc(child, [one], one);
    RunSnoc(child, [one, one], one);
    assert [] + [one] == [one] && [one] + [one] == [one, one] && [one, one] + [one] == [one, one, one];
  }

  lemma RunSnoc(child: Child, moves: seq<Move>, move: Move)
    ensures Run(child, moves + [move]) == Step(child, Run(child, moves), move)
  {
    assert (moves + [move])[..|moves|] == moves;
  }

  /** Lines are handed over, and nothing else happens. */
  predicate OnlyTransfers(moves: seq<Move>) {
    forall move :: move in moves ==> move.Send? || move.Receive?
  }

  /** Both readers still read, and have torn no line. */
  predicate Reading(s: Loop) {
    s.outcome == Looping && s.out.open && s.err.open && s.out.torn == 0 && s.err.torn == 0
  }

  /** Collected are the lines up to the first one that shows readiness. */
  ghost predicate StoppedAtFirst(collected: string, lines: seq<string>) {
    exists n :: 0 <= n < |lines| && IsReadyOutput(lines[n]) && NoneReady(lines[..n])
      && collected == Terminated(lines[..n + 1])
  }

  /** The loop stopped at the first ready line of one stream, or there is none and it has collected everything. */
  ghost predicate Finished(child: Child, s: Loop) {
    match s.outcome
    case ReadyAt(stream) => StoppedAtFirst(Collected(s, stream), LinesOf(child, stream))
    case Looping =>
      && NoneReady(child.out) && NoneReady(child.err)
      && s.stdout == Terminated(child.out) && s.stderr == Terminated(child.err)
    case _ => false
  }

  function Unsent(child: Child, s: Loop): int {
    2 * (|child.out| - s.out.sent) + 2 * (|child.err| - s.err.sent) + |s.channel|
  }

  lemma ReadyIsFirst(sent: seq<string>, underway: seq<string>, collected: string)
    requires SentKept(sent, underway, collected, true)
    ensures StoppedAtFirst(collected, sent)
  {
    hide IsReadyOutput, Terminated, NoneReady;
    var n := |sent| - |underway| - 1;
    assert sent[..n + 1] == sent[..|sent| - |underway|];
  }

  lemma FirstOfMore(collected: string, lines: seq<string>, sent: nat)
    requires sent <= |lines| && StoppedAtFirst(collected, lines[..sent])
    ensures StoppedAtFirst(collected, lines)
  {
    hide IsReadyOutput, Terminated, NoneReady;
    var front := lines[..sent];
    var n :| 0 <= n < |front| && IsReadyOutput(front[n]) && NoneReady(front[..n])
      && collected == Terminated(front[..n + 1]);
    assert lines[n] == front[n] && lines[..n] == front[..n] && lines[..n + 1] == front[..n + 1];
  }

  lemma AllCollected(sent: seq<string>, collected: string)
    requires SentKept(sent, [], collected, false)
    ensures NoneReady(sent) && collected == Terminated(sent)
  {
    hide IsReadyOutput, Terminated, NoneReady;
    assert sent[..|sent|] == sent;
  }

  lemma EndIsFinished(child: Child, s: Loop)
    requires Kept(child, s) && s.out.torn == 0 && s.err.torn == 0
    requires s.outcome == Looping ==> s.channel == [] && s.out.sent == |child.out| && s.err.sent == |child.err|
    requires s.outcome.Looping? || s.outcome.ReadyAt?
    ensures Finished(child, s)
  {
    hide IsReadyOutput, Terminated, SentKept, StoppedAtFirst, NoneReady;
    match s.outcome
    case ReadyAt(stream) =>
      var lines, reader := LinesOf(child, stream), ReaderOf(s, stream);
      ReadyIsFirst(lines[..reader.sent], Underway(s.channel, stream), Collected(s, stream));
      FirstOfMore(Collected(s, stream), lines, reader.sent);
    case Looping =>
      assert child.out[..|child.out|] == child.out && child.err[..|child.err|] == child.err;
      AllCollected(child.out, s.stdout);
      AllCollected(child.err, s.stderr);
  }

  /** One transfer brings the loop nearer to its end. */
  lemma TransferStep(child: Child, s: Loop, move: Move)
    requires Reading(s) && s.out.sent <= |child.out| && s.err.sent <= |child.err|
    requires if s.channel != [] then move == Receive
      else if s.out.sent < |child.out| then move == Send(Stdout)
      else s.err.sent < |child.err| && move == Send(Stderr)
    requires forall event :: event in s.channel ==> event.Line?
    ensures var after := Step(child, s, move);
      && Unsent(child, after) < Unsent(child, s)
      && (Reading(after) || after.outcome.ReadyAt?) && after.out.torn == 0 && after.err.torn == 0
  {
    hide IsReadyOutput;
  }

  /** As long as both readers read, the channel holds lines only. */
  predicate ErrorsFromClosed(s: Loop) {
    forall event :: event in s.channel && event.ScanError? ==> !ReaderOf(s, event.stream).open
  }

  lemma StepErrors(child: Child, s: Loop, move: Move)
    requires ErrorsFromClosed(s)
    ensures ErrorsFromClosed(Step(child, s, move))
  {
    hide IsReadyOutput;
  }

  lemma {:induction false} RunErrors(child: Child, moves: seq<Move>)
    ensures ErrorsFromClosed(Run(child, moves))
    decreases |moves|
  {
    hide Step;
    if moves != [] {
      RunErrors(child, moves[..|moves| - 1]);
      StepErrors(child, Run(child, moves[..|moves| - 1]), moves[|moves| - 1]);
    }
  }

  lemma {:induction false} Transfers(child: Child, moves: seq<Move>) returns (later: seq<Move>)
    requires var s := Run(child, moves); Reading(s) || (s.outcome.ReadyAt? && s.out.torn == 0 && s.err.torn == 0)
    ensures OnlyTransfers(later) && Finished(child, Run(child, moves + later))
    decreases Unsent(child, Run(child, moves))
  {
    hide Run, Step, Finished, StreamKept, IsReadyOutput;
    var s := Run(child, moves);
    RunKeeps(child, moves);
    SentInLines(child, s);
    if s.outcome.ReadyAt? || (s.channel == [] && s.out.sent == |child.out| && s.err.sent == |child.err|) {
      later := [];
      assert moves + later == moves;
      EndIsFinished(child, s);
    } else {
      var move := if s.channel != [] then Receive else if s.out.sent < |child.out| then Send(Stdout) else Send(Stderr);
      RunErrors(child, moves);
      TransferStep(child, s, move);
      RunSnoc(child, moves, move);
      var rest := Transfers(child, moves + [move]);
      later := [move] + rest;
      assert moves + later == moves + [move] + rest;
    }
  }

  lemma SentInLines(child: Child, s: Loop)
    requires Kept(child, s)
    ensures s.out.sent <= |child.out| && s.err.sent <= |child.err|
  {
    hide SentKept, Underway;
  }

  /** No run gets stuck: from every state in which both readers read, handing over lines alone leads to the first ready
      line of a stream, or to everything that the child wrote. */
  lemma RunCanFinish(child: Child, moves: seq<Move>)
    requires Reading(Run(child, moves))
    ensures exists later :: OnlyTransfers(later) && Finished(child, Run(child, moves + later))
  {
    var later := Transfers(child, moves);
  }

  /** If the ready line is on standard output, the loop can stop there, whatever has happened before. */
  lemma ReadinessIsReached(child: Child, moves: seq<Move>)
    requires Reading(Run(child, moves)) && !NoneReady(child.out) && NoneReady(child.err)
    ensures exists later ::
      && OnlyTransfers(later)
      && Run(child, moves + later).outcome == ReadyAt(Stdout)
      && StoppedAtFirst(Run(child, moves + later).stdout, child.out)
  {
    hide Run, IsReadyOutput, Terminated;
    var later := Transfers(child, moves);
    assert Finished(child, Run(child, moves + later));
  }

  /** The process and the context end the loop at once, with what was collected so far; and the loop ends with an exit
      or a cancellation only when there was one, never because a scanner broke. */
  lemma EndsIff(child: Child, moves: seq<Move>, ok: bool)
    requires Run(child, moves).outcome == Looping
    ensures Run(child, moves + [ProcessExits(ok)]) == Run(child, moves).(outcome := Exited(ok))
    ensures Run(child, moves + [ContextDone]) == Run(child, moves).(outcome := Cancelled)
  {
    hide Run;
    RunSnoc(child, moves, ProcessExits(ok));
    RunSnoc(child, moves, ContextDone);
  }

  lemma {:induction false} EndHasCause(child: Child, moves: seq<Move>)
    ensures var outcome := Run(child, moves).outcome;
      && (outcome.Exited? ==> ProcessExits(outcome.ok) in moves)
      && (outcome.Cancelled? ==> ContextDone in moves)
    decreases |moves|
  {
    hide Step;
    if moves != [] {
      var before, move := moves[..|moves| - 1], moves[|moves| - 1];
      EndHasCause(child, before);
      StepCause(child, Run(child, before), move);
      assert moves == before + [move];
    }
  }

  lemma StepCause(child: Child, s: Loop, move: Move)
    ensures var outcome := Step(child, s, move).outcome;
      || outcome == s.outcome || outcome.ReadyAt?
      || (outcome.Exited? && move == ProcessExits(outcome.ok)) || (outcome.Cancelled? && move == ContextDone)
  {
    hide IsReadyOutput;
  }

  /** A line torn by a closed pipe is delivered as far as it was read, and no other line of that stream after it. */
  lemma TornIsDelivered(child: Child, moves: seq<Move>, stream: Stream, size: nat)
    requires var s := Run(child, moves);
      && s.outcome == Looping && CanSend(child, s, stream)
      && 0 < size <= |LinesOf(child, stream)[ReaderOf(s, stream).sent]|
    ensures var s, after := Run(child, moves), Run(child, moves + [Tear(stream, size)]);
      && after.channel == s.channel + [Line(stream, LinesOf(child, stream)[ReaderOf(s, stream).sent][..size])]
      && !CanSend(child, after, stream)
  {
    hide Run;
    RunSnoc(child, moves, Tear(stream, size));
  }

  /** A reader whose scanner broke, or whose line was torn, sends no line any more. */
  lemma {:induction false} BrokenSendsNothing(child: Child, moves: seq<Move>, stream: Stream, later: seq<Move>)
    requires var reader := ReaderOf(Run(child, moves), stream); !reader.open || reader.torn > 0
    ensures var before, after := ReaderOf(Run(child, moves), stream), ReaderOf(Run(child, moves + later), stream);
      after.sent == before.sent && after.torn == before.torn && (after.open ==> before.open)
    decreases |later|
  {
    hide Run, Step;
    if later == [] {
      assert moves + later == moves;
    } else {
      var front, last := later[..|later| - 1], later[|later| - 1];
      BrokenSendsNothing(child, moves, stream, front);
      assert moves + front + [last] == moves + later;
      RunSnoc(child, moves + front, last);
      BrokenStep(child, Run(child, moves + front), stream, last);
    }
  }

  lemma BrokenStep(child: Child, s: Loop, stream: Stream, move: Move)
    requires !ReaderOf(s, stream).open || ReaderOf(s, stream).torn > 0
    ensures var before, after := ReaderOf(s, stream), ReaderOf(Step(child, s, move), stream);
      after.sent == before.sent && after.torn == before.torn && (after.open ==> before.open)
  {
    hide IsReadyOutput;
  }

  /** A scanner can break whenever the channel has room for its error. */
  lemma ScannerCanBreak(child: Child, moves: seq<Move>, stream: Stream)
    requires var s := Run(child, moves);
      s.outcome == Looping && ReaderOf(s, stream).open && |s.channel| < CHANNEL_CAPACITY
    ensures !ReaderOf(Run(child, moves + [BreakScan(stream)]), stream).open
  {
    hide Run;
    RunSnoc(child, moves, BreakScan(stream));
  }

  // ----- Preflight

  /** How a kubectl command ended: its error, if any, and its standard output. */
  datatype Completed = Completed(ok: bool, stdout: string)

  /** The answer of the functional probe: no error when the loop saw readiness or the process exited with success. */
  function ProbeResult(s: Loop): Completed {
    Completed(s.outcome.ReadyAt? || s.outcome == Exited(true), s.stdout)
  }

  datatype PreflightResult = PreflightResult(connectivityOK: bool, rbacOK: bool, functionalOK: bool, ok: bool)

  /** The probe fails when the context ends it, and as the process does when that ends it. */
  lemma ProbeOfEnd(child: Child, moves: seq<Move>, ok: bool)
    requires Run(child, moves).outcome == Looping
    ensures !ProbeResult(Run(child, moves + [ContextDone])).ok
    ensures ProbeResult(Run(child, moves + [ProcessExits(ok)])).ok == ok
  {
    hide Run;
    EndsIff(child, moves, ok);
  }

  /** `strings.TrimSpace(s) == "yes"`: the word, between blanks. */
  predicate SaysYes(s: string) {
    exists i :: 0 <= i && i + 3 <= |s| && s[i..i + 3] == "yes" && Blank(s[..i]) && Blank(s[i + 3..])
  }

  /** `Validate`: three commands in a row, each with its early return. */
  ghost function Preflight(version: Completed, rbac: Completed, probe: Completed): PreflightResult {
    if !version.ok then PreflightResult(false, false, false, false)
    else if !rbac.ok then PreflightResult(true, false, false, false)
    else if !SaysYes(rbac.stdout) then PreflightResult(true, false, false, false)
    else if !probe.ok then PreflightResult(true, true, false, false)
    else if !IsReadyOutput(probe.stdout) then PreflightResult(true, true, false, false)
    else PreflightResult(true, true, true, true)
  }

  lemma ReadyTextIsOneLine()
    ensures OneLine(READY_TEXT) && READY_TEXT != ""
  {
  }

  /** Collected lines show readiness exactly when one of them does. */
  lemma CollectedReady(lines: seq<string>)
    ensures IsReadyOutput(Terminated(lines)) <==> !NoneReady(lines)
  {
    hide Contains, Terminated;
    ReadyTextIsOneLine();
    ContainsInLines(lines, READY_TEXT);
  }

  /** A torn line that shows readiness is the beginning of a line that does. */
  lemma TornReady(line: string, m: nat)
    requires m <= |line| && IsReadyOutput(line[..m])
    ensures IsReadyOutput(line)
  {
    hide IndexFrom, READY_TEXT;
    assert line == line[..m] + line[m..];
    OccursInLeft(line[..m], line[m..], READY_TEXT, Index(line[..m], READY_TEXT));
  }

  /** Whatever the interleaving, preflight judges the port-forward functional exactly when the two checks before passed
      and the loop stopped on a line of standard output that shows readiness, and then the child wrote such a line.
      Readiness on standard error, or an exit, never passes. */
  lemma FunctionalIff(child: Child, moves: seq<Move>, version: Completed, rbac: Completed)
    ensures var s := Run(child, moves);
      var result := Preflight(version, rbac, ProbeResult(s));
      && (result.functionalOK <==>
            version.ok && rbac.ok && SaysYes(rbac.stdout) && s.outcome == ReadyAt(Stdout))
      && (result.functionalOK ==> !NoneReady(child.out)) && result.ok == result.functionalOK
      && (result.connectivityOK <==> version.ok)
      && (result.rbacOK <==> version.ok && rbac.ok && SaysYes(rbac.stdout))
  {
    hide IsReadyOutput, Run, Terminated, Underway, SaysYes, Blank;
    var s := Run(child, moves);
    RunKeeps(child, moves);
    var sent := FirstLines(child.out, s.out.sent, s.out.torn);
    var taken := |sent| - |Underway(s.channel, Stdout)|;
    CollectedReady(sent[..taken]);
    if s.outcome == ReadyAt(Stdout) {
      assert sent[taken - 1] in sent[..taken];
      if taken <= s.out.sent {
        assert child.out[taken - 1] == sent[taken - 1];
      } else {
        TornReady(child.out[s.out.sent], s.out.torn);
      }
    }
  }

  /** The answer `yes` passes, whatever blanks and line ends stand around it. */
  lemma YesPasses(front: string, back: string)
    requires Blank(front) && Blank(back)
    ensures SaysYes(front + "yes" + back)
  {
    hide Blank;
    var s := front + "yes" + back;
    assert s[|front|..|front| + 3] == "yes" && s[..|front|] == front && s[|front| + 3..] == back;
  }

  /** So does the line kubectl prints, and the same line with a carriage return; other answers do not. */
  lemma AnswersRead()
    ensures SaysYes("yes\n") && SaysYes("yes\r\n") && !SaysYes("no\n") && !SaysYes("") && !SaysYes("yesno")
  {
    hide SaysYes;
    YesPasses("", "\n");
    YesPasses("", "\r\n");
    assert "" + "yes" + "\n" == "yes\n" && "" + "yes" + "\r\n" == "yes\r\n";
    if SaysYes("no\n") {
      YesIsThere("no\n");
    } else if SaysYes("") {
      YesIsThere("");
    }
    NothingBehindYes();
  }

  lemma NothingBehindYes()
    ensures !SaysYes("yesno")
  {
    var s := "yesno";
    assert s[1..4] == "esn" && s[2..5] == "sno" && s[0..3] == "yes" && s[3..][0] == 'n';
  }

  lemma YesIsThere(s: string)
    requires SaysYes(s)
    ensures 'y' in s
  {
    var i :| 0 <= i && i + 3 <= |s| && s[i..i + 3] == "yes" && Blank(s[..i]) && Blank(s[i + 3..]);
    assert s[i] == s[i..i + 3][0];
  }

  /** What kubectl writes when it forwards a port is a ready line. */
  lemma ForwardingIsReady(front: string, back: string)
    ensures IsReadyOutput(front + "Forwarding from " + back)
  {
    var s := front + "Forwarding from " + back;
    assert s[|front|..|front| + |"Forwarding from "|] == "Forwarding from ";
    assert OccursAt(s, "Forwarding from ", |front|);
  }

  /** Preflight can pass: from the start, if the child writes a ready line on standard output, some run ends
      functional. */
  lemma PreflightCanPass(child: Child, version: Completed, rbac: Completed)
    requires version.ok && rbac.ok && SaysYes(rbac.stdout) && !NoneReady(child.out) && NoneReady(child.err)
    ensures exists moves :: Preflight(version, rbac, ProbeResult(Run(child, moves))).ok
  {
    hide IsReadyOutput, SaysYes, Terminated, Blank;
    assert Reading(Run(child, []));
    ReadinessIsReached(child, []);
    var later :| Run(child, [] + later).outcome == ReadyAt(Stdout);
    FunctionalIff(child, [] + later, version, rbac);
  }

  // ----- The loop itself

  lemma {:induction false} RunStops(child: Child, moves: seq<Move>, n: nat)
    requires n <= |moves| && Run(child, moves[..n]).outcome != Looping
    ensures Run(child, moves) == Run(child, moves[..n])
    decreases |moves|
  {
    if n == |moves| {
      assert moves[..n] == moves;
    } else {
      assert moves[..|moves| - 1][..n] == moves[..n];
      RunStops(child, moves[..|moves| - 1], n);
    }
  }

  /** `RunUntilReady` under a schedule: the threads, the process and the context move in the given order, and each
      receive is a turn of the select loop. It returns at the first ready line, exit or done context. */
  method RunUntilReady(child: Child, schedule: seq<Move>) returns (result: Loop)
    ensures result == Run(child, schedule)
  {
    hide IsReadyOutput, Run;
    var out, err := Reader(0, 0, true), Reader(0, 0, true);
    var channel: seq<Event> := [];
    var stdout, stderr := "", "";
    RunNothing(child);
    assert schedule[..0] == [];
    var i := 0;
    while i < |schedule|
      invariant i <= |schedule|
      invariant Run(child, schedule[..i]) == Loop(out, err, channel, stdout, stderr, Looping)
    {
      var move := schedule[i];
      RunNext(child, schedule, i);
      match move {
        case Send(stream) =>
          var reader, lines := if stream == Stdout then out else err, LinesOf(child, stream);
          if reader.open && reader.torn == 0 && reader.sent < |lines| && |channel| < CHANNEL_CAPACITY {
            channel := channel + [Line(stream, lines[reader.sent])];
            reader := reader.(sent := reader.sent + 1);
            out, err := if stream == Stdout then reader else out, if stream == Stdout then err else reader;
          }
        case Tear(stream, size) =>
          var reader, lines := if stream == Stdout then out else err, LinesOf(child, stream);
          if reader.open && reader.torn == 0 && reader.sent < |lines| && |channel| < CHANNEL_CAPACITY
            && 0 < size <= |lines[reader.sent]| {
            channel := channel + [Line(stream, lines[reader.sent][..size])];
            reader := reader.(torn := size);
            out, err := if stream == Stdout then reader else out, if stream == Stdout then err else reader;
          }
        case BreakScan(stream) =>
          if stream == Stdout && out.open && |channel| < CHANNEL_CAPACITY {
            channel := channel + [ScanError(Stdout)];
            out := out.(open := false);
          } else if stream == Stderr && err.open && |channel| < CHANNEL_CAPACITY {
            channel := channel + [ScanError(Stderr)];
            err := err.(open := false);
          }
        case Receive =>
          if channel != [] {
            var event := channel[0];
            channel := channel[1..];
            if event.Line? {
              if event.stream == Stdout {
                stdout := stdout + event.text + "\n";
              } else {
                stderr := stderr + event.text + "\n";
              }
              if IsReadyOutput(event.text) {
                RunStops(child, schedule, i + 1);
                return Loop(out, err, channel, stdout, stderr, ReadyAt(event.stream));
              }
            }
          }
        case ProcessExits(ok) =>
          RunStops(child, schedule, i + 1);
          return Loop(out, err, channel, stdout, stderr, Exited(ok));
        case ContextDone =>
          RunStops(child, schedule, i + 1);
          return Loop(out, err, channel, stdout, stderr, Cancelled);
      }
      i := i + 1;
    }
    assert schedule[..i] == schedule;
    result := Loop(out, err, channel, stdout, stderr, Looping);
  }

  lemma RunNothing(child: Child)
    ensures Run(child, []) == START
  {
  }

  lemma RunNext(child: Child, schedule: seq<Move>, i: nat)
    requires i < |schedule|
    ensures Run(child, schedule[..i + 1]) == Step(child, Run(child, schedule[..i]), schedule[i])
  {
    assert schedule[..i + 1][..i] == schedule[..i];
  }
}
