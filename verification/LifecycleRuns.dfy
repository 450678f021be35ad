/** Runs of the command line: non-overlapping commands and spontaneous deaths of supervisors. Kills succeed and process
    ids are not reused. */
module LifecycleRuns {
  import opened Text
  import opened Lines
  import opened Markers
  import opened SshConfig
  import opened UserConfig
  import opened Lifecycle
  import opened LifecycleProofs

  datatype Command =
    | Connect(req: Request, faults: ConnectFaults)
    | Disconnect(disconnectFaults: set<CleanupFault>)
    | Status
    | SupervisorDies(pid: nat)

  function Apply(w: World, command: Command): World {
    match command
    case Connect(req, faults) => Connected(w, req, faults).0
    case Disconnect(faults) => Disconnected(w, faults).0
    case Status => w
    case SupervisorDies(pid) => Killed(w, pid)
  }

  /** `status`: connected, stale or disconnected. */
  datatype Report = ReportConnected | ReportStale | ReportDisconnected

  function StatusOf(w: World): Report {
    if w.record.None? then ReportDisconnected
    else if IsStale(w, w.record.value) then ReportStale
    else ReportConnected
  }

  /** Before the first command there are only the users' own files. */
  function StartWorld(files: map<string, string>): World {
    World(None, {}, files, {}, {}, {})
  }

  function Run(files: map<string, string>, commands: seq<Command>): World {
    if commands == [] then StartWorld(files)
    else Apply(Run(files, commands[..|commands| - 1]), commands[|commands| - 1])
  }

  /** Process ids are positive. */
  predicate PositivePids(commands: seq<Command>) {
    forall command :: command in commands && command.Connect? ==> command.req.pid > 0
  }

  /** The supervisors of connects that failed after starting them. */
  ghost function Orphans(files: map<string, string>, commands: seq<Command>): set<nat> {
    if commands == [] then {}
    else
      var before, command := commands[..|commands| - 1], commands[|commands| - 1];
      Orphans(files, before) + (if OrphansOne(Run(files, before), command) then {command.req.pid} else {})
  }

  /** The first failure of an admitted connect is behind the start of its supervisor. */
  ghost predicate OrphansOne(w: World, command: Command) {
    && command.Connect? && Admitted(w, command.faults)
    && exists step :: FirstFailure(command.req, command.faults.steps, step) && Rank(step) > Rank(StartSupervisor)
  }

  /** How many connects failed after starting their supervisor. */
  ghost function OrphanCount(files: map<string, string>, commands: seq<Command>): nat {
    if commands == [] then 0
    else
      var before, command := commands[..|commands| - 1], commands[|commands| - 1];
      OrphanCount(files, before) + (if OrphansOne(Run(files, before), command) then 1 else 0)
  }

  /** The supervisor that the record names. */
  function Recorded(w: World): set<nat> {
    if w.record.Some? && w.record.value.pid > 0 then {w.record.value.pid} else {}
  }

  /** Every live supervisor is the recorded one or was left behind by a failed connect. */
  predicate Kept(w: World, orphans: set<nat>) {
    w.alive <= Recorded(w) + orphans && w.alive <= w.pids
  }

  /** What connect does to the supervisors. */
  lemma ConnectSupervisors(w: World, req: Request, faults: ConnectFaults)
    ensures var (after, outcome) := Connected(w, req, faults);
      match outcome
      case Rejected => after.alive == w.alive && after.pids == w.pids
        && (after.record == w.record || (after.record.None? && w.record.Some? && IsStale(w, w.record.value)))
      case Failed(step) =>
        after.alive == (if Rank(step) > Rank(StartSupervisor) then w.alive + {req.pid} else w.alive)
        && after.pids == (if Rank(step) > Rank(StartSupervisor) then w.pids + {req.pid} else w.pids)
        && (w.record.None? || IsStale(w, w.record.value))
      case Done =>
        after.alive == w.alive + {req.pid} && after.pids == w.pids + {req.pid}
        && after.record.Some? && after.record.value.pid == req.pid && (w.record.None? || IsStale(w, w.record.value))
  {
    hide ActionAt, Exec, Cleaned, FilesRemoved, RolledBack, NoActiveSession;
    NoActiveKeeps(w, faults);
    var w1 := NoActiveSession(w, faults).0;
    if NoActiveSession(w, faults).1 {
      GoesOn(w, faults);
    }
    ExecIsAfter(req, w1, faults.steps);
    var p := Exec(req, w1, NewRecord(req), 0, SIZE, faults.steps);
    if p.failedAt.Some? {
      RollbackKeepsAlive(p, faults.rollback);
    } else {
      ConnectedRecord(req, w1);
    }
  }

  lemma NoActiveKeeps(w: World, faults: ConnectFaults)
    ensures var w1 := NoActiveSession(w, faults).0;
      && w1.alive == w.alive && w1.pids == w.pids
      && (w1.record == w.record || (w1.record.None? && w.record.Some? && IsStale(w, w.record.value)))
  {
    hide Cleaned;
    if w.record.Some? {
      CleanedKeeps(w, w.record.value, faults.stale);
    }
  }

  lemma DisconnectSupervisors(w: World, faults: set<CleanupFault>)
    ensures var after := Disconnected(w, faults).0;
      && after.pids == w.pids && after.alive <= w.alive
      && (after == w || (w.record.Some? && after.alive == w.alive - {w.record.value.pid}))
  {
    hide Cleaned;
    if w.record.Some? {
      CleanedKeeps(Killed(w, w.record.value.pid), w.record.value, faults);
    }
  }

  lemma ApplyKeeps(w: World, orphans: set<nat>, command: Command)
    requires Kept(w, orphans) && (command.Connect? ==> command.req.pid > 0)
    ensures Kept(Apply(w, command), orphans + (if OrphansOne(w, command) then {command.req.pid} else {}))
  {
    hide Connected, Disconnected, Rank, FirstFailure, Admitted;
    match command
    case Connect(req, faults) =>
      ConnectSupervisors(w, req, faults);
      var outcome := Connected(w, req, faults).1;
      OutcomeIff(w, req, faults, if outcome.Failed? then outcome.step else LaunchCode);
    case Disconnect(faults) => DisconnectSupervisors(w, faults);
    case Status =>
    case SupervisorDies(pid) =>
  }

  lemma {:induction false} RunKeeps(files: map<string, string>, commands: seq<Command>)
    requires PositivePids(commands)
    ensures Kept(Run(files, commands), Orphans(files, commands))
    decreases |commands|
  {
    hide Kept, Apply, OrphansOne;
    if commands == [] {
      StartKept(files);
    } else {
      var before, command := commands[..|commands| - 1], commands[|commands| - 1];
      RunKeeps(files, before);
      ApplyKeeps(Run(files, before), Orphans(files, before), command);
    }
  }

  lemma StartKept(files: map<string, string>)
    ensures Kept(StartWorld(files), {})
  {
  }

  lemma {:induction false} OrphansCounted(files: map<string, string>, commands: seq<Command>)
    ensures |Orphans(files, commands)| <= OrphanCount(files, commands)
    decreases |commands|
  {
    hide Run, OrphansOne;
    if commands != [] {
      OrphansCounted(files, commands[..|commands| - 1]);
    }
  }

  lemma SubsetSize(a: set<nat>, b: set<nat>)
    requires a <= b
    ensures |a| <= |b|
  {
    assert b == a + (b - a);
  }

  /** Over every run, every live supervisor is the one the record names or one left behind by a connect that failed
      after starting it; so there is one more at most than there were such connects. */
  lemma SupervisorsBounded(files: map<string, string>, commands: seq<Command>)
    requires PositivePids(commands)
    ensures Run(files, commands).alive <= Recorded(Run(files, commands)) + Orphans(files, commands)
    ensures |Run(files, commands).alive| <= 1 + OrphanCount(files, commands)
  {
    hide Run, Orphans, OrphanCount;
    RunKeeps(files, commands);
    OrphansCounted(files, commands);
    SubsetSize(Run(files, commands).alive, Recorded(Run(files, commands)) + Orphans(files, commands));
    assert |Recorded(Run(files, commands)) + Orphans(files, commands)|
      <= |Recorded(Run(files, commands))| + |Orphans(files, commands)|;
  }

  /** If no connect fails after starting its supervisor, at most one supervisor lives, and it is the recorded one. */
  lemma OneSupervisor(files: map<string, string>, commands: seq<Command>)
    requires PositivePids(commands) && OrphanCount(files, commands) == 0
    ensures Run(files, commands).alive <= Recorded(Run(files, commands)) && |Run(files, commands).alive| <= 1
  {
    hide Run, Orphans, OrphanCount;
    SupervisorsBounded(files, commands);
    OrphansCounted(files, commands);
  }

  /** While no connect fails after starting its supervisor, `status` tells the truth about the supervisors, but for one
      case: it reports connected with none alive exactly when the record has no pid. */
  lemma StatusIsTrue(files: map<string, string>, commands: seq<Command>)
    requires PositivePids(commands) && OrphanCount(files, commands) == 0
    ensures var w := Run(files, commands);
      match StatusOf(w)
      case ReportDisconnected => w.alive == {}
      case ReportStale => w.alive == {}
      case ReportConnected =>
        && (w.alive != {} <==> w.record.value.pid > 0)
        && (w.record.value.pid > 0 ==> w.alive == {w.record.value.pid})
  {
    hide Run, OrphanCount;
    OneSupervisor(files, commands);
  }

  // ----- Runs that go wrong

  const NO_FAULTS := ConnectFaults(false, false, {}, false, {}, {})

  /** A single fault in a step that a request includes is where connect ends. */
  lemma OnlyFault(w: World, req: Request, step: Action)
    requires w.record.None? && (req.managesUserConfig ==> ValidUserConfig(req))
    requires Included(req, step) && Fails(req, step, {step})
    ensures Connected(w, req, NO_FAULTS.(steps := {step})).1 == Failed(step)
  {
    hide Connected, Rank, ActionAt;
    var faults := NO_FAULTS.(steps := {step});
    OutcomeIff(w, req, faults, step);
    OnlyFails(req, step);
  }

  lemma OnlyFails(req: Request, step: Action)
    requires req.managesUserConfig ==> ValidUserConfig(req)
    ensures forall a :: Included(req, a) && Fails(req, a, {step}) ==> a == step
  {
  }

  /** A single run of connect can make `status` report connected with no supervisor alive. */
  lemma FalselyConnected(files: map<string, string>, req: Request)
    requires req.managesUserConfig ==> ValidUserConfig(req)
    ensures var w := Run(files, [Connect(req, NO_FAULTS.(steps := {ModeRecord(OfPrepare)}))]);
      StatusOf(w) == ReportConnected && w.alive == {}
  {
    hide Connected, Rank, ActionAt;
    var faults, start := NO_FAULTS.(steps := {ModeRecord(OfPrepare)}), StartWorld(files);
    var commands := [Connect(req, faults)];
    assert commands[..0] == [];
    OnlyFault(start, req, ModeRecord(OfPrepare));
    OutcomeIff(start, req, faults, ModeRecord(OfPrepare));
    ModeRecordEarly();
    PrepareFailure(start, req, faults, ModeRecord(OfPrepare));
    assert Run(files, commands) == Connected(start, req, faults).0;
  }

  lemma ModeRecordEarly()
    ensures Rank(ModeRecord(OfPrepare)) < Rank(RunPreflight)
  {
  }

  /** A failure to save the pid leaves the supervisor running and the record gone, so the next connect starts another
      one: two supervisors live, and the record names only the second. */
  lemma TwoSupervisors(files: map<string, string>, first: Request, second: Request)
    requires first.pid > 0 && second.pid > 0 && first.pid != second.pid
    requires first.managesUserConfig ==> ValidUserConfig(first)
    requires second.managesUserConfig ==> ValidUserConfig(second)
    ensures var faults := NO_FAULTS.(steps := {WriteRecord(OfPid)});
      var w := Run(files, [Connect(first, faults), Connect(second, NO_FAULTS)]);
      w.alive == {first.pid, second.pid} && Recorded(w) == {second.pid}
  {
    hide Connected, After, Rank, ActionAt;
    var faults, start := NO_FAULTS.(steps := {WriteRecord(OfPid)}), StartWorld(files);
    var commands := [Connect(first, faults), Connect(second, NO_FAULTS)];
    assert commands[..1] == [Connect(first, faults)] && commands[..1][..0] == [];
    OnlyFault(start, first, WriteRecord(OfPid));
    ConnectSupervisors(start, first, faults);
    var w1 := Connected(start, first, faults).0;
    assert Run(files, commands[..1]) == w1;
    EarlyPositions();
    RolledBackRecord(start, first, faults);
    NoFaultsSucceed(w1, second, NO_FAULTS);
    ConnectSupervisors(w1, second, NO_FAULTS);
    assert Run(files, commands) == Connected(w1, second, NO_FAULTS).0;
    assert {} + {first.pid} + {second.pid} == {first.pid, second.pid};
  }

  /** A rollback that meets no error leaves no record. */
  lemma RolledBackRecord(w: World, req: Request, faults: ConnectFaults)
    requires Connected(w, req, faults).1.Failed? && Rank(Connected(w, req, faults).1.step) >= Rank(RunPreflight)
    requires faults.rollback == {}
    ensures Connected(w, req, faults).0.record.None?
  {
    hide ActionAt, Exec, Cleaned, FilesRemoved, NoActiveSession, Rank;
    var w1 := NoActiveSession(w, faults).0;
    ExecIsAfter(req, w1, faults.steps);
  }

  // ----- What is on disk, over every run

  /** The steps that fail between an artifact and the note of it. */
  const GAPS := {ModeUserConfig, WriteSettings, ModeSettings}

  /** A connect that does not fail while it prepares or in one of the three gaps, with a rollback that meets no error,
      and with no option that holds the end marker of its target. */
  ghost predicate Careful(req: Request, faults: ConnectFaults) {
    && Named(req) && req.pid > 0 && faults.rollback == {}
    && (req.managesUserConfig ==> !OptionHolds(req.options, req.knownHostsPath, EndMarker(req.options.alias)))
    && forall step :: FirstFailure(req, faults.steps, step) ==> Rank(step) >= Rank(RunPreflight) && step !in GAPS
  }

  ghost predicate AllCareful(commands: seq<Command>) {
    forall command :: command in commands && command.Connect? ==> Careful(command.req, command.faults)
  }

  /** The users' own files hold no block. */
  ghost predicate NoBlocks(files: map<string, string>) {
    forall path :: !Contains(TextAt(files, path), BEGIN_HEAD)
  }

  function RecordedFiles(w: World): set<string> {
    if w.record.None? then {} else Paths(w.record.value.sshConfigPath) + Paths(w.record.value.knownHostsPath)
  }

  function RecordedProfile(w: World): set<string> {
    if w.record.None? then {} else Paths(w.record.value.profileDir)
  }

  /** The user's text, with nothing added but the block of the record and nothing lost but line ends at its start. */
  predicate OwnText(own: string, text: string, record: Option<SessionRecord>, path: string) {
    if record.Some? && path == record.value.userConfigPath != ""
    then Removed(text, record.value.target) == TrimLeft(own)
    else text in {own, TrimLeft(own)}
  }

  /** Everything of a session that is on disk is named by the record, and the users' text is theirs. */
  ghost predicate Accounted(files: map<string, string>, w: World) {
    && w.sshFiles <= RecordedFiles(w) && w.profiles <= RecordedProfile(w)
    && (w.record.Some? ==> w.record.value.pid > 0 && w.record.value.target != "")
    && forall path :: OwnText(TextAt(files, path), TextAt(w.userConfigs, path), w.record, path)
  }

  /** However far a cleanup of the recorded artifacts comes, the record still names what is left; and if it comes
      through, nothing is left for a record to name. */
  lemma CleanedAccounted(files: map<string, string>, w: World, faults: set<CleanupFault>)
    requires Accounted(files, w) && w.record.Some?
    ensures var (w', ok) := Cleaned(w, w.record.value, faults);
      && Accounted(files, w') && (ok ==> Accounted(files, w'.(record := None)))
  {
    hide Cleaned, BlockRemoved, Removed, TrimLeft, TextAt;
    var state := w.record.value;
    var (w', ok) := Cleaned(w, state, faults);
    CleanedParts(w, state, faults);
    CleanedKeeps(w, state, faults);
    forall path
      ensures OwnText(TextAt(files, path), TextAt(w'.userConfigs, path), w.record, path)
    {
      assert OwnText(TextAt(files, path), TextAt(w.userConfigs, path), w.record, path);
      TextBetween(w, w', state.userConfigPath, state.target, path);
    }
    if ok {
      CleanedThrough(w, state, faults);
      CleanedFully(w, state);
      forall path
        ensures OwnText(TextAt(files, path), TextAt(w'.userConfigs, path), None, path)
      {
        assert OwnText(TextAt(files, path), TextAt(w.userConfigs, path), w.record, path);
        TextRemoved(w, state.userConfigPath, state.target, path);
      }
    }
  }

  lemma TextRemoved(w: World, configPath: string, alias: string, path: string)
    ensures TextAt(BlockRemoved(w, configPath, alias, {}).0.userConfigs, path)
      == if path == configPath != "" && alias != "" then Removed(TextAt(w.userConfigs, path), alias)
        else TextAt(w.userConfigs, path)
  {
    hide Removed;
  }

  /** Two worlds that a removal makes equal hold the same text, but for the block. */
  lemma TextBetween(w: World, w': World, configPath: string, alias: string, path: string)
    requires BlockRemoved(w, configPath, alias, {}).0.userConfigs
      == BlockRemoved(w', configPath, alias, {}).0.userConfigs
    ensures if path == configPath != "" && alias != ""
      then Removed(TextAt(w.userConfigs, path), alias) == Removed(TextAt(w'.userConfigs, path), alias)
      else TextAt(w.userConfigs, path) == TextAt(w'.userConfigs, path)
  {
    hide BlockRemoved, Removed, TextAt;
    TextRemoved(w, configPath, alias, path);
    TextRemoved(w', configPath, alias, path);
  }

  lemma KilledAccounted(files: map<string, string>, w: World, pid: nat)
    requires Accounted(files, w)
    ensures Accounted(files, Killed(w, pid))
  {
    hide OwnText;
  }

  lemma DisconnectAccounted(files: map<string, string>, w: World, faults: set<CleanupFault>)
    requires Accounted(files, w)
    ensures Accounted(files, Disconnected(w, faults).0)
  {
    hide Cleaned, Accounted;
    if w.record.Some? {
      KilledAccounted(files, w, w.record.value.pid);
      CleanedAccounted(files, Killed(w, w.record.value.pid), faults);
    }
  }

  lemma NoActiveAccounted(files: map<string, string>, w: World, faults: ConnectFaults)
    requires Accounted(files, w)
    ensures Accounted(files, NoActiveSession(w, faults).0)
  {
    hide Cleaned, Accounted;
    if w.record.Some? {
      CleanedAccounted(files, w, faults.stale);
    }
  }

  /** An own text holds no block, trimmed or not. */
  lemma OwnHoldsNone(own: string, text: string, alias: string)
    requires !Contains(own, BEGIN_HEAD) && text in {own, TrimLeft(own)}
    ensures !Contains(text, BeginMarker(alias)) && TrimLeft(text) == TrimLeft(own)
  {
    hide IndexFrom, TrimLeft;
    HeadFree(own, BEGIN_HEAD, alias);
    TrimmedHoldsNone(own, alias);
    TrimLeftFixed(own);
  }

  /** A successful connect records everything it makes. */
  lemma DoneAccounted(files: map<string, string>, w: World, req: Request, faults: ConnectFaults)
    requires NoBlocks(files) && Accounted(files, w) && w.record.None? && Careful(req, faults)
    requires req.managesUserConfig ==> ValidUserConfig(req)
    ensures Accounted(files, After(req, w, SIZE))
  {
    hide Rank, ActionAt, Removed, Upserted, TrimLeft, Contains, OptionHolds, BeginMarker, EndMarker, TextAt;
    var after := After(req, w, SIZE);
    ConnectedRecord(req, w);
    EarlyPositions();
    LatePositions();
    forall path
      ensures OwnText(TextAt(files, path), TextAt(after.userConfigs, path), after.record, path)
    {
      var own, text := TextAt(files, path), TextAt(w.userConfigs, path);
      assert OwnText(own, text, w.record, path);
      OwnHoldsNone(own, text, req.options.alias);
      TextAfter(req, w, path);
      if req.managesUserConfig {
        FileComesBack(text, req.options, req.knownHostsPath);
      }
    }
  }

  lemma TextAfter(req: Request, w: World, path: string)
    ensures TextAt(After(req, w, SIZE).userConfigs, path)
      == if req.managesUserConfig && path == req.userConfigPath
        then Upserted(TextAt(w.userConfigs, path), req.options, req.knownHostsPath) else TextAt(w.userConfigs, path)
  {
    hide Upserted, Rank;
    LatePositions();
  }

  /** A connect that fails and is rolled back leaves nothing that has no record. */
  lemma FailedAccounted(files: map<string, string>, w: World, req: Request, step: Action, after: World)
    requires NoBlocks(files) && Accounted(files, w) && w.record.None?
    requires LeftBehind(w, req, Rank(step), after) && Included(req, step) && step !in GAPS
    requires !step.NotePid? && !step.NoteUserConfig? && !step.NoteProfile?
    requires req.managesUserConfig && Rank(step) > Rank(CheckUserConfig) ==>
      OneLine(req.options.alias) && !OptionHolds(req.options, req.knownHostsPath, EndMarker(req.options.alias))
    ensures Accounted(files, after)
  {
    hide Rank, ActionAt, Included, TextLeft, TrimLeft, Contains, OptionHolds, BeginMarker, EndMarker, TextAt, OneLine;
    ThreeGaps(req, step);
    EarlyPositions();
    LatePositions();
    forall path
      ensures OwnText(TextAt(files, path), TextAt(after.userConfigs, path), None, path)
    {
      var own, text := TextAt(files, path), TextAt(w.userConfigs, path);
      assert OwnText(own, text, None, path);
      OwnHoldsNone(own, text, req.options.alias);
      if path == req.userConfigPath && req.managesUserConfig {
        if Rank(step) > Rank(CheckUserConfig) {
          BlockLeftIff(text, req, Rank(step));
        } else {
          NothingWritten(text, req, Rank(step));
        }
      }
    }
  }

  lemma NothingWritten(text: string, req: Request, k: nat)
    requires k <= Rank(CheckUserConfig)
    ensures TextLeft(text, req, k) == text
  {
    hide ActionAt, Upserted, Removed;
  }

  /** Once past the check of the options, they are in order. */
  lemma CheckPassed(w: World, req: Request, faults: ConnectFaults, step: Option<Action>)
    requires if step.Some? then FirstFailure(req, faults.steps, step.value) && Rank(step.value) > Rank(CheckUserConfig)
      else forall a :: Included(req, a) ==> !Fails(req, a, faults.steps)
    ensures req.managesUserConfig ==> ValidUserConfig(req)
  {
    hide Rank, ActionAt, ValidUserConfig;
    assert req.managesUserConfig ==> Included(req, CheckUserConfig);
    assert Fails(req, CheckUserConfig, faults.steps) <==> !ValidUserConfig(req);
  }

  lemma ConnectAccounted(files: map<string, string>, w: World, req: Request, faults: ConnectFaults)
    requires NoBlocks(files) && Accounted(files, w) && Careful(req, faults)
    ensures Accounted(files, Connected(w, req, faults).0)
  {
    hide Accounted, NoActiveSession, Exec, RolledBack, Rank, ActionAt, Included, Fails, OptionHolds, After, LeftBehind;
    var w1 := NoActiveSession(w, faults).0;
    var (after, outcome) := Connected(w, req, faults);
    NoActiveAccounted(files, w, faults);
    match outcome
    case Rejected =>
    case Done =>
      GoesOn(w, faults);
      OutcomeIff(w, req, faults, LaunchCode);
      CheckPassed(w, req, faults, None);
      ExecIsAfter(req, w1, faults.steps);
      DoneAccounted(files, w1, req, faults);
    case Failed(step) =>
      GoesOn(w, faults);
      OutcomeIff(w, req, faults, step);
      FailedConnect(w, req, faults, step);
      NotesDoNotFail(req, step, faults.steps);
      if Rank(step) > Rank(CheckUserConfig) {
        CheckPassed(w, req, faults, Some(step));
      }
      FailedAccounted(files, w1, req, step, after);
  }

  /** Over every run whose connects do not fail while they prepare, in one of the three gaps or in their rollback, and
      however its disconnects fail: every session file, managed block and profile directory on disk is named by the
      record, the record has a pid, and the users' files are otherwise as they wrote them. */
  lemma {:induction false} NothingUnnamed(files: map<string, string>, commands: seq<Command>)
    requires NoBlocks(files) && AllCareful(commands)
    ensures Accounted(files, Run(files, commands))
    decreases |commands|
  {
    hide Accounted, Careful, NoBlocks, Connected, Disconnected, Killed;
    if commands == [] {
      StartAccounted(files);
    } else {
      var before, command := commands[..|commands| - 1], commands[|commands| - 1];
      NothingUnnamed(files, before);
      match command
      case Connect(req, faults) => ConnectAccounted(files, Run(files, before), req, faults);
      case Disconnect(faults) => DisconnectAccounted(files, Run(files, before), faults);
      case Status =>
      case SupervisorDies(pid) => KilledAccounted(files, Run(files, before), pid);
    }
  }

  lemma StartAccounted(files: map<string, string>)
    ensures Accounted(files, StartWorld(files))
  {
    hide TrimLeft, TextAt;
  }
}
