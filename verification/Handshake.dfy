/** The readiness handshake between `connect` and its detached supervisor (cmd/dev-connect/main.go): the supervisor's
    two scanners, its wait for kubectl, the ready file, and the parent that polls for it. A run is any sequence of
    moves. */
module Handshake {

  datatype Side = Out | Err

  /** A scanner thread of one port-forward attempt: reading, inside the one-time write of the ready file, or done
      (its completion signal sent). */
  datatype Scanner = Scanning | Writing | Done

  /** One call of `runSupervisedPortForward`. */
  datatype Attempt = Attempt(
    out: Scanner, err: Scanner,
    onceUsed: bool,        // the one-time write was entered
    waited: bool,          // `cmd.Wait` returned
    signals: nat,          // completion signals in the channel
    received: nat,
    closed: bool,
    sentOnClosed: bool)    // a send hit the closed channel

  datatype Parent = Waiting | SawReady | SawExit | TimedOut

  datatype System = System(
    readyFile: bool,
    scanned: bool,         // this supervisor scanned a line that shows readiness
    alive: bool,           // the supervisor process
    attempt: Attempt,
    parent: Parent)

  const FRESH := Attempt(Scanning, Scanning, false, false, 0, 0, false, false)

  function Start(readyFile: bool): System {
    System(readyFile, false, true, FRESH, Waiting)
  }

  datatype Move =
    | ScanLine(side: Side, ready: bool) | WriteReady(side: Side, ok: bool) | EndScan(side: Side)
    | WaitReturns | TakeSignal | CloseChannel | NextAttempt | SupervisorExits
    | ParentTick | ParentWait | ParentTimeout

  function ScannerOf(a: Attempt, side: Side): Scanner {
    if side == Out then a.out else a.err
  }

  function WithScanner(a: Attempt, side: Side, scanner: Scanner): Attempt {
    if side == Out then a.(out := scanner) else a.(err := scanner)
  }

  /** The moves of the supervisor's threads. */
  function AttemptStep(a: Attempt, move: Move): Attempt {
    match move
    case ScanLine(side, ready) =>
      if ScannerOf(a, side) == Scanning && ready && !a.onceUsed
      then WithScanner(a, side, Writing).(onceUsed := true)
      else a
    case WriteReady(side, _) =>
      if ScannerOf(a, side) == Writing then WithScanner(a, side, Scanning) else a
    case EndScan(side) =>
      if ScannerOf(a, side) != Scanning then a
      else if a.closed then WithScanner(a, side, Done).(sentOnClosed := true)
      else WithScanner(a, side, Done).(signals := a.signals + 1)
    case WaitReturns => a.(waited := true)
    case TakeSignal =>
      if a.waited && a.received < 2 && a.signals > 0 then a.(signals := a.signals - 1, received := a.received + 1)
        else a
    case CloseChannel => if a.received == 2 then a.(closed := true) else a
    case NextAttempt => if a.closed then FRESH else a
    case _ => a
  }

  function Step(s: System, move: Move): System {
    match move
    case SupervisorExits => s.(alive := false)
    case ParentTick => if s.parent == Waiting && s.readyFile then s.(parent := SawReady) else s
    case ParentWait => if s.parent == Waiting && !s.alive then s.(parent := SawExit) else s
    case ParentTimeout => if s.parent == Waiting then s.(parent := TimedOut, alive := false) else s
    case _ =>
      if !s.alive then s
      else
        s.(attempt := AttemptStep(s.attempt, move),
           scanned := s.scanned || ScansReady(s.attempt, move),
           readyFile := s.readyFile || WritesFile(s.attempt, move))
  }

  predicate ScansReady(a: Attempt, move: Move) {
    match move
    case ScanLine(side, ready) => ready && ScannerOf(a, side) == Scanning
    case _ => false
  }

  predicate WritesFile(a: Attempt, move: Move) {
    match move
    case WriteReady(side, ok) => ok && ScannerOf(a, side) == Writing
    case _ => false
  }

  function Run(readyFile: bool, moves: seq<Move>): System {
    if moves == [] then Start(readyFile) else Step(Run(readyFile, moves[..|moves| - 1]), moves[|moves| - 1])
  }

  function DoneCount(a: Attempt): nat {
    (if a.out == Done then 1 else 0) + (if a.err == Done then 1 else 0)
  }

  /** What every attempt of every run satisfies: each scanner signals once, signals are taken only after kubectl ended and
      before the channel is closed, and at most one scanner writes. */
  predicate AttemptKept(a: Attempt) {
    && a.signals + a.received == DoneCount(a) && (a.closed ==> a.received == 2) && !a.sentOnClosed
    && (a.received > 0 ==> a.waited)
    && (a.out == Writing || a.err == Writing ==> a.onceUsed) && !(a.out == Writing && a.err == Writing)
  }

  /** And every state: the ready file comes from a scanned line, and a parent that gave up left no supervisor behind. */
  predicate Kept(initialFile: bool, s: System) {
    && AttemptKept(s.attempt)
    && (s.attempt.out == Writing || s.attempt.err == Writing ==> s.scanned)
    && (s.readyFile ==> s.scanned || initialFile)
    && (initialFile ==> s.readyFile)
    && (s.parent == SawReady ==> s.readyFile)
    && (s.parent == SawExit || s.parent == TimedOut ==> !s.alive)
  }

  lemma AttemptStepKeeps(a: Attempt, move: Move)
    requires AttemptKept(a)
    ensures AttemptKept(AttemptStep(a, move))
  {
    match move
    case ScanLine(Out, _) =>
    case ScanLine(Err, _) =>
    case WriteReady(Out, _) =>
    case WriteReady(Err, _) =>
    case EndScan(Out) =>
    case EndScan(Err) =>
    case _ =>
  }

  lemma StepKeeps(initialFile: bool, s: System, move: Move)
    requires Kept(initialFile, s)
    ensures Kept(initialFile, Step(s, move))
  {
    hide AttemptKept;
    AttemptStepKeeps(s.attempt, move);
  }

  lemma {:induction false} RunKeeps(initialFile: bool, moves: seq<Move>)
    ensures Kept(initialFile, Run(initialFile, moves))
    decreases |moves|
  {
    hide Kept;
    if moves != [] {
      RunKeeps(initialFile, moves[..|moves| - 1]);
      StepKeeps(initialFile, Run(initialFile, moves[..|moves| - 1]), moves[|moves| - 1]);
    } else {
      StartKept(initialFile);
    }
  }

  lemma StartKept(initialFile: bool)
    ensures Kept(initialFile, Start(initialFile))
  {
  }

  /** A parent that has reported stays with its report, whatever moves follow; and after any report but readiness
      nothing changes any more: the supervisor stays dead and writes no ready file. */
  lemma {:induction false} ReportIsFinal(readyFile: bool, moves: seq<Move>, later: seq<Move>)
    requires Run(readyFile, moves).parent != Waiting
    ensures Run(readyFile, moves + later).parent == Run(readyFile, moves).parent
    ensures Run(readyFile, moves).parent != SawReady ==> Run(readyFile, moves + later) == Run(readyFile, moves)
    decreases |later|
  {
    hide Step;
    if later == [] {
      assert moves + later == moves;
    } else {
      var front, last := later[..|later| - 1], later[|later| - 1];
      assert (moves + later)[..|moves + later| - 1] == moves + front;
      ReportIsFinal(readyFile, moves, front);
      RunKeeps(readyFile, moves + front);
      ReportStays(readyFile, Run(readyFile, moves + front), last);
    }
  }

  lemma ReportStays(initialFile: bool, s: System, move: Move)
    requires Kept(initialFile, s) && s.parent != Waiting
    ensures Step(s, move).parent == s.parent && (s.parent != SawReady ==> Step(s, move) == s)
  {
  }

  /** If the ready file is absent at the start, then in every run a parent that reports readiness does so after this
      supervisor scanned a readiness line, and a parent that reports anything else leaves the supervisor dead for
      good. */
  lemma ReadyMeansScanned(moves: seq<Move>, later: seq<Move>)
    ensures Run(false, moves).parent == SawReady ==> Run(false, moves).scanned
    ensures Run(false, moves).parent == SawExit || Run(false, moves).parent == TimedOut ==>
      !Run(false, moves + later).alive
  {
    hide Run;
    RunKeeps(false, moves);
    if Run(false, moves).parent != Waiting {
      ReportIsFinal(false, moves, later);
    }
  }

  /** In every run, no scanner signals on a closed channel, and the channel is closed only after
      both signals were taken. */
  lemma SignalsBeforeClose(readyFile: bool, moves: seq<Move>)
    ensures var a := Run(readyFile, moves).attempt;
      && !a.sentOnClosed && (a.received > 0 ==> a.waited)
      && (a.closed ==> a.waited && a.received == 2 && a.signals == 0 && a.out == Done && a.err == Done)
  {
    hide Run;
    RunKeeps(readyFile, moves);
  }

  /** Readiness can be reported without a scanned line exactly when the ready file was there
      before: nothing deletes it. */
  lemma FalseReadyIff(readyFile: bool)
    ensures (exists moves :: Run(readyFile, moves).parent == SawReady && !Run(readyFile, moves).scanned) <==> readyFile
  {
    if readyFile {
      var moves := [ParentTick];
      assert moves[..0] == [];
      assert Run(true, moves) == Step(Start(true), ParentTick);
    } else {
      forall moves ensures !(Run(false, moves).parent == SawReady && !Run(false, moves).scanned) {
        ReadyMeansScanned(moves, []);
      }
    }
  }

  // ----- What can be reached

  lemma RunSnoc(readyFile: bool, moves: seq<Move>, move: Move)
    ensures Run(readyFile, moves + [move]) == Step(Run(readyFile, moves), move)
  {
    assert (moves + [move])[..|moves|] == moves;
  }

  /** In every run: when a scanner that reads meets the first readiness line and tries to write the ready file, the next
      tick of a waiting parent reports readiness if and only if the write succeeded or the file was there already. */
  lemma ReadinessIsReported(readyFile: bool, moves: seq<Move>, side: Side, ok: bool)
    requires var s := Run(readyFile, moves);
      s.alive && s.parent == Waiting && !s.attempt.onceUsed && ScannerOf(s.attempt, side) == Scanning
    ensures Run(readyFile, moves + [ScanLine(side, true), WriteReady(side, ok), ParentTick]).parent == SawReady
       <==> ok || Run(readyFile, moves).readyFile
  {
    hide Run;
    var scan, write := ScanLine(side, true), WriteReady(side, ok);
    RunSnoc(readyFile, moves, scan);
    RunSnoc(readyFile, moves + [scan], write);
    RunSnoc(readyFile, moves + [scan] + [write], ParentTick);
    assert moves + [scan] + [write] + [ParentTick] == moves + [scan, write, ParentTick];
  }

  /** In particular readiness can be reported from an absent file. */
  lemma ReadinessIsReachable(side: Side)
    ensures exists moves :: Run(false, moves).parent == SawReady
  {
    ReadinessIsReported(false, [], side, true);
    assert Run(false, [] + [ScanLine(side, true), WriteReady(side, true), ParentTick]).parent == SawReady;
  }

  /** A line that does not show readiness writes nothing, and neither does a second one that does. */
  lemma OtherLinesWriteNothing(readyFile: bool, moves: seq<Move>, side: Side, ready: bool, ok: bool)
    requires var s := Run(readyFile, moves);
      ScannerOf(s.attempt, side) == Scanning && (ready ==> s.attempt.onceUsed)
    ensures Run(readyFile, moves + [ScanLine(side, ready), WriteReady(side, ok)]).readyFile
       == Run(readyFile, moves).readyFile
  {
    hide Run;
    RunSnoc(readyFile, moves, ScanLine(side, ready));
    RunSnoc(readyFile, moves + [ScanLine(side, ready)], WriteReady(side, ok));
    assert moves + [ScanLine(side, ready)] + [WriteReady(side, ok)]
      == moves + [ScanLine(side, ready), WriteReady(side, ok)];
  }

  /** A waiting parent learns of the end of its supervisor, and its timeout ends it. */
  lemma ParentGivesUp(readyFile: bool, moves: seq<Move>)
    requires Run(readyFile, moves).parent == Waiting
    ensures Run(readyFile, moves + [SupervisorExits, ParentWait]).parent == SawExit
    ensures Run(readyFile, moves + [ParentTimeout]).parent == TimedOut
  {
    hide Run;
    RunSnoc(readyFile, moves, SupervisorExits);
    RunSnoc(readyFile, moves + [SupervisorExits], ParentWait);
    RunSnoc(readyFile, moves, ParentTimeout);
    assert moves + [SupervisorExits] + [ParentWait] == moves + [SupervisorExits, ParentWait];
  }

  /** Moves out of turn change nothing: a scanner that writes the file does not end before, one that does not write
      writes nothing, no signal is taken before kubectl ended, the channel is not closed before both signals were
      taken, and no attempt follows before. */
  lemma OutOfTurn(readyFile: bool, moves: seq<Move>, side: Side, ok: bool)
    ensures var s := Run(readyFile, moves);
      && (ScannerOf(s.attempt, side) != Scanning ==> Run(readyFile, moves + [EndScan(side)]) == s)
      && (ScannerOf(s.attempt, side) != Writing ==> Run(readyFile, moves + [WriteReady(side, ok)]) == s)
      && (!s.attempt.waited ==> Run(readyFile, moves + [TakeSignal]) == s)
      && (s.attempt.received < 2 ==> Run(readyFile, moves + [CloseChannel]) == s)
      && (!s.attempt.closed ==> Run(readyFile, moves + [NextAttempt]) == s)
  {
    hide Run;
    var s := Run(readyFile, moves);
    RunKeeps(readyFile, moves);
    RunSnoc(readyFile, moves, EndScan(side));
    RunSnoc(readyFile, moves, WriteReady(side, ok));
    RunSnoc(readyFile, moves, TakeSignal);
    RunSnoc(readyFile, moves, CloseChannel);
    RunSnoc(readyFile, moves, NextAttempt);
  }

  /** A dead supervisor does nothing: only its parent still moves. */
  lemma DeadDoesNothing(readyFile: bool, moves: seq<Move>, move: Move)
    requires !Run(readyFile, moves).alive && !move.ParentTick? && !move.ParentWait? && !move.ParentTimeout?
    ensures Run(readyFile, moves + [move]) == Run(readyFile, moves)
  {
    hide Run;
    RunSnoc(readyFile, moves, move);
  }

  /** The moves that bring an attempt to its end, whatever each scanner is doing. */
  const ENDING := [WriteReady(Out, true), WriteReady(Err, true), EndScan(Out), EndScan(Err), WaitReturns,
                   TakeSignal, TakeSignal, CloseChannel]

  function After(s: System, moves: seq<Move>): System
    decreases |moves|
  {
    if moves == [] then s else After(Step(s, moves[0]), moves[1..])
  }

  lemma {:induction false} RunAfter(readyFile: bool, moves: seq<Move>, later: seq<Move>)
    ensures Run(readyFile, moves + later) == After(Run(readyFile, moves), later)
    decreases |later|
  {
    hide Run, Step;
    if later == [] {
      assert moves + later == moves;
    } else {
      RunSnoc(readyFile, moves, later[0]);
      RunAfter(readyFile, moves + [later[0]], later[1..]);
      assert moves + [later[0]] + later[1..] == moves + later;
    }
  }

  lemma EndingScans(initialFile: bool, s: System)
    requires Kept(initialFile, s) && s.alive
    ensures var u := Step(Step(s, WriteReady(Out, true)), WriteReady(Err, true));
      var t := Step(Step(u, EndScan(Out)), EndScan(Err));
      t.attempt.out == Done && t.attempt.err == Done && t.alive && Kept(initialFile, t)
  {
    var s1 := Step(s, WriteReady(Out, true));
    StepKeeps(initialFile, s, WriteReady(Out, true));
    var s2 := Step(s1, WriteReady(Err, true));
    StepKeeps(initialFile, s1, WriteReady(Err, true));
    var s3 := Step(s2, EndScan(Out));
    StepKeeps(initialFile, s2, EndScan(Out));
    StepKeeps(initialFile, s3, EndScan(Err));
  }

  lemma EndingWait(initialFile: bool, t: System)
    requires Kept(initialFile, t) && t.alive && t.attempt.out == Done && t.attempt.err == Done
    ensures var u := Step(Step(Step(Step(t, WaitReturns), TakeSignal), TakeSignal), CloseChannel);
      u.alive && u.attempt.closed && Step(u, NextAttempt).attempt == FRESH
  {
  }

  /** No attempt gets stuck: in every run a living supervisor can bring its attempt to the end, with the channel closed,
      and start a fresh one. */
  lemma AttemptCanEnd(readyFile: bool, moves: seq<Move>)
    requires Run(readyFile, moves).alive
    ensures Run(readyFile, moves + ENDING).alive && Run(readyFile, moves + ENDING).attempt.closed
    ensures Run(readyFile, moves + ENDING + [NextAttempt]).attempt == FRESH
  {
    hide Run, Step, Kept;
    var s := Run(readyFile, moves);
    RunKeeps(readyFile, moves);
    EndingScans(readyFile, s);
    var t := Step(Step(Step(Step(s, WriteReady(Out, true)), WriteReady(Err, true)), EndScan(Out)), EndScan(Err));
    EndingWait(readyFile, t);
    RunAfter(readyFile, moves, ENDING);
    AfterEight(s, ENDING);
    RunSnoc(readyFile, moves + ENDING, NextAttempt);
  }

  lemma AfterTwo(s: System, moves: seq<Move>)
    requires |moves| >= 2
    ensures After(s, moves) == After(Step(Step(s, moves[0]), moves[1]), moves[2..])
  {
    hide Step;
    assert moves[1..][1..] == moves[2..];
  }

  lemma AfterEight(s: System, moves: seq<Move>)
    requires |moves| == 8
    ensures var t := Step(Step(Step(Step(s, moves[0]), moves[1]), moves[2]), moves[3]);
      After(s, moves) == Step(Step(Step(Step(t, moves[4]), moves[5]), moves[6]), moves[7])
  {
    hide Step;
    AfterTwo(s, moves);
    var s2 := Step(Step(s, moves[0]), moves[1]);
    AfterTwo(s2, moves[2..]);
    var s4 := Step(Step(s2, moves[2]), moves[3]);
    assert moves[2..][2..] == moves[4..];
    AfterTwo(s4, moves[4..]);
    var s6 := Step(Step(s4, moves[4]), moves[5]);
    assert moves[4..][2..] == moves[6..];
    AfterTwo(s6, moves[6..]);
    assert moves[6..][2..] == [];
  }

  // ----- One session directory, connect after connect

  /** The ready file as the next connect finds it, after the runs of the connects before. */
  function FileBefore(initialFile: bool, runs: seq<seq<Move>>): bool {
    if runs == [] then initialFile
    else Run(FileBefore(initialFile, runs[..|runs| - 1]), runs[|runs| - 1]).readyFile
  }

  /** Once the file is there, it is there for every later connect. */
  lemma {:induction false} FileStays(initialFile: bool, runs: seq<seq<Move>>, i: nat)
    requires i <= |runs| && FileBefore(initialFile, runs[..i])
    ensures FileBefore(initialFile, runs)
    decreases |runs|
  {
    hide Run;
    if i == |runs| {
      assert runs[..i] == runs;
    } else {
      var front := runs[..|runs| - 1];
      assert front[..i] == runs[..i];
      FileStays(initialFile, front, i);
      RunKeeps(FileBefore(initialFile, front), runs[|runs| - 1]);
    }
  }

  /** After the first reported readiness in a session directory, every later connect there starts with the ready file in
      place, and can report readiness without its supervisor having scanned a line. */
  lemma ReadinessSpoilsLater(initialFile: bool, runs: seq<seq<Move>>, i: nat)
    requires i < |runs| && Run(FileBefore(initialFile, runs[..i]), runs[i]).parent == SawReady
    ensures FileBefore(initialFile, runs)
    ensures exists moves ::
      var s := Run(FileBefore(initialFile, runs), moves); s.parent == SawReady && !s.scanned
  {
    hide Run;
    RunKeeps(FileBefore(initialFile, runs[..i]), runs[i]);
    assert runs[..i + 1][..i] == runs[..i];
    FileStays(initialFile, runs, i + 1);
    FalseReadyIff(true);
  }

  /** The other way round: a file that was absent at first is there only after some supervisor scanned a readiness
      line. */
  lemma {:induction false} FileComesFromScan(runs: seq<seq<Move>>)
    requires FileBefore(false, runs)
    ensures exists i :: 0 <= i < |runs| && Run(FileBefore(false, runs[..i]), runs[i]).scanned
    decreases |runs|
  {
    hide Run;
    var front, n := runs[..|runs| - 1], |runs| - 1;
    RunKeeps(FileBefore(false, front), runs[n]);
    if FileBefore(false, front) {
      FileComesFromScan(front);
      var i :| 0 <= i < |front| && Run(FileBefore(false, front[..i]), front[i]).scanned;
      assert front[..i] == runs[..i] && front[i] == runs[i];
    }
  }
}
