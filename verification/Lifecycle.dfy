/** The lifecycle of a session (cmd/dev-connect/main.go, internal/connect, internal/session, internal/sshconfig,
    internal/vscode/userdata.go): the steps of connect and disconnect on the session record, the files and the live
    supervisors, each step of which can fail. */
module Lifecycle {
  import opened Lines
  import opened SshConfig
  import opened UserConfig

  /** The session record. An empty path means that the artifact was not recorded; pid 0, that no supervisor was. */
  datatype SessionRecord = SessionRecord(
    target: string, pid: nat, sshConfigPath: string, knownHostsPath: string, userConfigPath: string, profileDir: string)

  /** What commands act on. */
  datatype World = World(
    record: Option<SessionRecord>,
    sshFiles: set<string>,               // session SSH files that exist
    userConfigs: map<string, string>,    // the users' SSH configurations, by path
    profiles: set<string>,               // VS Code profile directories that exist
    alive: set<nat>,                     // live supervisors
    pids: set<nat>)                      // process ids used so far

  /** A file that does not exist reads as empty. */
  function TextAt(userConfigs: map<string, string>, path: string): string {
    if path in userConfigs then userConfigs[path] else ""
  }

  // ----- The steps of connect

  /** A save of the record: after preparing, with the pid, with the user configuration, with the profile. */
  datatype SavePoint = OfPrepare | OfPid | OfUserConfig | OfProfile

  datatype Action =
    | MakeSshDir | WriteKnownHosts | ModeKnownHosts | WriteSshConfig | ModeSshConfig
    | MakeSessionDir(point: SavePoint) | WriteRecord(point: SavePoint) | ModeRecord(point: SavePoint)
    | RunPreflight | StartSupervisor | NotePid
    | FindUserConfig | CheckUserConfig | ReadUserConfig | MakeConfigDir | WriteUserConfig | ModeUserConfig
    | NoteUserConfig
    | SetUpRemote | MakeProfile | WriteSettings | ModeSettings | NoteProfile
    | LaunchCode

  const SIZE := 33

  function ActionAt(i: nat): Action {
    if i == 0 then MakeSshDir else if i == 1 then WriteKnownHosts else if i == 2 then ModeKnownHosts
    else if i == 3 then WriteSshConfig else if i == 4 then ModeSshConfig
    else if i == 5 then MakeSessionDir(OfPrepare) else if i == 6 then WriteRecord(OfPrepare)
    else if i == 7 then ModeRecord(OfPrepare)
    else if i == 8 then RunPreflight else if i == 9 then StartSupervisor else if i == 10 then NotePid
    else if i == 11 then MakeSessionDir(OfPid) else if i == 12 then WriteRecord(OfPid)
    else if i == 13 then ModeRecord(OfPid)
    else if i == 14 then FindUserConfig else if i == 15 then CheckUserConfig else if i == 16 then ReadUserConfig
    else if i == 17 then MakeConfigDir else if i == 18 then WriteUserConfig else if i == 19 then ModeUserConfig
    else if i == 20 then NoteUserConfig
    else if i == 21 then MakeSessionDir(OfUserConfig) else if i == 22 then WriteRecord(OfUserConfig)
    else if i == 23 then ModeRecord(OfUserConfig)
    else if i == 24 then SetUpRemote else if i == 25 then MakeProfile else if i == 26 then WriteSettings
    else if i == 27 then ModeSettings else if i == 28 then NoteProfile
    else if i == 29 then MakeSessionDir(OfProfile) else if i == 30 then WriteRecord(OfProfile)
    else if i == 31 then ModeRecord(OfProfile)
    else LaunchCode
  }

  /** The position of an action in the course of connect. */
  function Rank(a: Action): (i: nat)
    ensures i < SIZE
  {
    match a
    case MakeSshDir => 0 case WriteKnownHosts => 1 case ModeKnownHosts => 2
    case WriteSshConfig => 3 case ModeSshConfig => 4
    case MakeSessionDir(point) =>
      (match point case OfPrepare => 5 case OfPid => 11 case OfUserConfig => 21 case OfProfile => 29)
    case WriteRecord(point) =>
      (match point case OfPrepare => 6 case OfPid => 12 case OfUserConfig => 22 case OfProfile => 30)
    case ModeRecord(point) =>
      (match point case OfPrepare => 7 case OfPid => 13 case OfUserConfig => 23 case OfProfile => 31)
    case RunPreflight => 8 case StartSupervisor => 9 case NotePid => 10
    case FindUserConfig => 14 case CheckUserConfig => 15 case ReadUserConfig => 16 case MakeConfigDir => 17
    case WriteUserConfig => 18 case ModeUserConfig => 19 case NoteUserConfig => 20
    case SetUpRemote => 24 case MakeProfile => 25 case WriteSettings => 26 case ModeSettings => 27
    case NoteProfile => 28
    case LaunchCode => 32
  }

  /** What one connect command works with: the resolved names and paths, and the pid its supervisor will get. */
  datatype Request = Request(
    options: ConfigOptions, sshConfigPath: string, knownHostsPath: string, pid: nat,
    managesUserConfig: bool, userConfigPath: string,
    launchesCode: bool, setsUpRemote: bool, isolatedProfile: bool, profileDir: string)

  predicate Included(req: Request, a: Action) {
    match a
    case FindUserConfig => req.managesUserConfig case CheckUserConfig => req.managesUserConfig
    case ReadUserConfig => req.managesUserConfig case MakeConfigDir => req.managesUserConfig
    case WriteUserConfig => req.managesUserConfig case ModeUserConfig => req.managesUserConfig
    case NoteUserConfig => req.managesUserConfig
    case SetUpRemote => req.launchesCode && req.setsUpRemote
    case MakeProfile => HasProfile(req) case WriteSettings => HasProfile(req)
    case ModeSettings => HasProfile(req) case NoteProfile => HasProfile(req)
    case LaunchCode => req.launchesCode
    case MakeSessionDir(point) => SaveIncluded(req, point)
    case WriteRecord(point) => SaveIncluded(req, point)
    case ModeRecord(point) => SaveIncluded(req, point)
    case _ => true
  }

  predicate SaveIncluded(req: Request, point: SavePoint) {
    match point
    case OfUserConfig => req.managesUserConfig
    case OfProfile => HasProfile(req)
    case _ => true
  }

  /** VS Code is launched with a profile directory of its own. */
  predicate HasProfile(req: Request) {
    req.launchesCode && req.isolatedProfile
  }

  /** `validateUserConfigOptions`; the port and the paths were checked before. */
  predicate ValidUserConfig(req: Request) {
    && req.userConfigPath != "" && req.options.alias != "" && '\r' !in req.options.alias && '\n' !in req.options.alias
    && req.options.localHost != "" && req.options.localPort > 0 && req.knownHostsPath != ""
  }

  /** The step fails: one of the three notes never does, and the check of the options does on its own account. */
  predicate Fails(req: Request, a: Action, faults: set<Action>) {
    match a
    case NotePid => false case NoteUserConfig => false case NoteProfile => false
    case CheckUserConfig => !ValidUserConfig(req)
    case _ => a in faults
  }

  /** What a step does when it succeeds. Each write is all or nothing; setting a file mode changes nothing here. */
  function Effect(req: Request, a: Action, w: World, state: SessionRecord): (World, SessionRecord) {
    match a
    case WriteKnownHosts => (w.(sshFiles := w.sshFiles + {req.knownHostsPath}), state)
    case WriteSshConfig => (w.(sshFiles := w.sshFiles + {req.sshConfigPath}), state)
    case WriteRecord(_) => (w.(record := Some(state)), state)
    case StartSupervisor => (w.(alive := w.alive + {req.pid}, pids := w.pids + {req.pid}), state)
    case NotePid => (w, state.(pid := req.pid))
    case WriteUserConfig =>
      (w.(userConfigs := w.userConfigs[req.userConfigPath :=
            Upserted(TextAt(w.userConfigs, req.userConfigPath), req.options, req.knownHostsPath)]), state)
    case NoteUserConfig => (w, state.(userConfigPath := req.userConfigPath))
    case MakeProfile => (w.(profiles := w.profiles + {req.profileDir}), state)
    case NoteProfile => (w, state.(profileDir := req.profileDir))
    case _ => (w, state)
  }

  /** Where a course of steps got to: the world, the record as held in memory, and the step that failed. */
  datatype Progress = Progress(w: World, state: SessionRecord, failedAt: Option<Action>)

  /** The steps `from` up to `to`, until one fails. */
  function Exec(req: Request, w: World, state: SessionRecord, from: nat, until: nat, faults: set<Action>): Progress
    decreases until - from
  {
    if from >= until then Progress(w, state, None)
    else if !Included(req, ActionAt(from)) then Exec(req, w, state, from + 1, until, faults)
    else if Fails(req, ActionAt(from), faults) then Progress(w, state, Some(ActionAt(from)))
    else
      var (w', state') := Effect(req, ActionAt(from), w, state);
      Exec(req, w', state', from + 1, until, faults)
  }

  lemma {:induction false} ExecJoin(req: Request, w: World, state: SessionRecord, from: nat, mid: nat, until: nat,
      faults: set<Action>)
    requires from <= mid <= until
    ensures var p := Exec(req, w, state, from, mid, faults);
      Exec(req, w, state, from, until, faults) == if p.failedAt.Some? then p
        else Exec(req, p.w, p.state, mid, until, faults)
    decreases mid - from
  {
    hide ActionAt, Included, Fails, Effect;
    if from < mid {
      if !Included(req, ActionAt(from)) {
        ExecJoin(req, w, state, from + 1, mid, until, faults);
      } else if !Fails(req, ActionAt(from), faults) {
        var (w', state') := Effect(req, ActionAt(from), w, state);
        ExecJoin(req, w', state', from + 1, mid, until, faults);
      }
    }
  }

  // ----- Where connect stands after its first steps

  /** The record as `Prepare` makes it. */
  function NewRecord(req: Request): SessionRecord {
    SessionRecord(req.options.alias, 0, req.sshConfigPath, req.knownHostsPath, "", "")
  }

  function StateAfter(req: Request, n: nat): SessionRecord {
    NewRecord(req).(
      pid := if n > Rank(NotePid) then req.pid else 0,
      userConfigPath := if req.managesUserConfig && n > Rank(NoteUserConfig) then req.userConfigPath else "",
      profileDir := if HasProfile(req) && n > Rank(NoteProfile) then req.profileDir else "")
  }

  function RecordAfter(req: Request, before: Option<SessionRecord>, n: nat): Option<SessionRecord> {
    if HasProfile(req) && n > Rank(WriteRecord(OfProfile)) then Some(StateAfter(req, Rank(WriteRecord(OfProfile))))
    else if req.managesUserConfig && n > Rank(WriteRecord(OfUserConfig)) then
      Some(StateAfter(req, Rank(WriteRecord(OfUserConfig))))
    else if n > Rank(WriteRecord(OfPid)) then Some(StateAfter(req, Rank(WriteRecord(OfPid))))
    else if n > Rank(WriteRecord(OfPrepare)) then Some(NewRecord(req))
    else before
  }

  function WithBlock(req: Request, w: World): map<string, string> {
    var text := TextAt(w.userConfigs, req.userConfigPath);
    w.userConfigs[req.userConfigPath := Upserted(text, req.options, req.knownHostsPath)]
  }

  /** The world after the first `n` steps, in closed form. */
  function After(req: Request, w: World, n: nat): World {
    World(
      RecordAfter(req, w.record, n),
      if n > Rank(WriteSshConfig) then w.sshFiles + {req.knownHostsPath} + {req.sshConfigPath}
      else if n > Rank(WriteKnownHosts) then w.sshFiles + {req.knownHostsPath} else w.sshFiles,
      if req.managesUserConfig && n > Rank(WriteUserConfig) then WithBlock(req, w) else w.userConfigs,
      if HasProfile(req) && n > Rank(MakeProfile) then w.profiles + {req.profileDir} else w.profiles,
      if n > Rank(StartSupervisor) then w.alive + {req.pid} else w.alive,
      if n > Rank(StartSupervisor) then w.pids + {req.pid} else w.pids)
  }

  predicate Leads(req: Request, w: World, n: nat)
    requires n < SIZE
  {
    (After(req, w, n + 1), StateAfter(req, n + 1))
    == if Included(req, ActionAt(n)) then Effect(req, ActionAt(n), After(req, w, n), StateAfter(req, n))
       else (After(req, w, n), StateAfter(req, n))
  }

  /** Where the steps stand that change something, and those where the rollback changes. */
  lemma EarlyPositions()
    ensures Rank(WriteKnownHosts) == 1 && Rank(WriteSshConfig) == 3 && Rank(WriteRecord(OfPrepare)) == 6
    ensures Rank(RunPreflight) == 8 && Rank(StartSupervisor) == 9 && Rank(NotePid) == 10
    ensures Rank(WriteRecord(OfPid)) == 12 && Rank(FindUserConfig) == 14
  {
  }

  lemma LatePositions()
    ensures Rank(CheckUserConfig) == 15 && Rank(WriteUserConfig) == 18 && Rank(NoteUserConfig) == 20
    ensures Rank(WriteRecord(OfUserConfig)) == 22 && Rank(MakeProfile) == 25 && Rank(NoteProfile) == 28
    ensures Rank(WriteRecord(OfProfile)) == 30
  {
  }

  lemma EarlySteps(req: Request, w: World, n: nat)
    requires n < 14
    ensures Leads(req, w, n)
  {
    hide Upserted, Rank;
    EarlyPositions();
    LatePositions();
  }

  lemma UserConfigSteps(req: Request, w: World, n: nat)
    requires 14 <= n < 24
    ensures Leads(req, w, n)
  {
    hide Upserted, Rank;
    EarlyPositions();
    LatePositions();
  }

  lemma LateSteps(req: Request, w: World, n: nat)
    requires 24 <= n < SIZE
    ensures Leads(req, w, n)
  {
    hide Upserted, Rank;
    EarlyPositions();
    LatePositions();
  }

  /** One more step leads from one closed form to the next. */
  lemma AfterStep(req: Request, w: World, n: nat)
    requires n < SIZE
    ensures Leads(req, w, n)
  {
    hide Leads;
    if n < 14 {
      EarlySteps(req, w, n);
    } else if n < 24 {
      UserConfigSteps(req, w, n);
    } else {
      LateSteps(req, w, n);
    }
  }

  /** The number of steps that were taken. */
  function Taken(p: Progress, until: nat): nat {
    if p.failedAt.Some? then Rank(p.failedAt.value) else until
  }

  lemma {:induction false} ExecFrom(req: Request, w: World, n: nat, until: nat, faults: set<Action>)
    requires n <= until <= SIZE
    ensures var p := Exec(req, After(req, w, n), StateAfter(req, n), n, until, faults);
      var k := Taken(p, until);
      && n <= k <= until && p.w == After(req, w, k) && p.state == StateAfter(req, k)
      && (p.failedAt.Some? ==> k < until && Included(req, p.failedAt.value) && Fails(req, p.failedAt.value, faults))
    decreases until - n
  {
    hide ActionAt, Included, Fails, Effect, After, StateAfter, Rank;
    if n < until {
      AfterStep(req, w, n);
      assert Leads(req, w, n);
      RankBack(n);
      ExecFrom(req, w, n + 1, until, faults);
    }
  }

  lemma RankBack(n: nat)
    requires n < SIZE
    ensures Rank(ActionAt(n)) == n
  {
  }

  lemma ActionBack(a: Action)
    ensures ActionAt(Rank(a)) == a
  {
  }

  /** However connect ends, the world and the record in memory are the closed form for the steps it took. */
  lemma ExecIsAfter(req: Request, w: World, faults: set<Action>)
    ensures var p := Exec(req, w, NewRecord(req), 0, SIZE, faults);
      var k := Taken(p, SIZE);
      && k <= SIZE && p.w == After(req, w, k) && p.state == StateAfter(req, k)
      && (p.failedAt.Some? ==> k < SIZE && Included(req, p.failedAt.value) && Fails(req, p.failedAt.value, faults))
  {
    hide Exec, Included, Fails, Rank;
    ExecFrom(req, w, 0, SIZE, faults);
    assert After(req, w, 0) == w && StateAfter(req, 0) == NewRecord(req);
  }

  // ----- Cleaning up

  /** The steps of a cleanup, and of reading the record before it, that can fail. A failed
      `CleanMode` has written the file before. */
  datatype CleanupFault =
    | LoadRecord | CleanRead | CleanWrite | CleanMode | RemoveSshConfig | RemoveKnownHosts | RemoveProfile | ClearFile

  /** `RemoveManagedBlock`: nothing is written when nothing changes. */
  function BlockRemoved(w: World, path: string, alias: string, faults: set<CleanupFault>): (World, bool) {
    if path == "" || alias == "" then (w, true)
    else if CleanRead in faults then (w, false)
    else
      var text := TextAt(w.userConfigs, path);
      var updated := Removed(text, alias);
      if updated == text then (w, true)
      else if CleanWrite in faults then (w, false)
      else (w.(userConfigs := w.userConfigs[path := updated]), CleanMode !in faults)
  }

  /** `os.Remove`, where a missing file is no error. */
  function FileRemoved(w: World, path: string, fault: CleanupFault, faults: set<CleanupFault>): (World, bool) {
    if path == "" || path !in w.sshFiles then (w, true)
    else if fault in faults then (w, false)
    else (w.(sshFiles := w.sshFiles - {path}), true)
  }

  /** `sshconfig.Cleanup`: it stops at the first file it cannot remove. */
  function FilesRemoved(w: World, configPath: string, knownHostsPath: string, faults: set<CleanupFault>): (World, bool)
  {
    var (w1, ok) := FileRemoved(w, configPath, RemoveSshConfig, faults);
    if !ok then (w1, false) else FileRemoved(w1, knownHostsPath, RemoveKnownHosts, faults)
  }

  function ProfileRemoved(w: World, dir: string, faults: set<CleanupFault>): (World, bool) {
    if dir == "" || dir !in w.profiles then (w, true)
    else if RemoveProfile in faults then (w, false)
    else (w.(profiles := w.profiles - {dir}), true)
  }

  /** `cleanupSessionArtifacts`. */
  function Cleaned(w: World, state: SessionRecord, faults: set<CleanupFault>): (World, bool) {
    var (w1, ok1) := BlockRemoved(w, state.userConfigPath, state.target, faults);
    if !ok1 then (w1, false)
    else
      var (w2, ok2) := FilesRemoved(w1, state.sshConfigPath, state.knownHostsPath, faults);
      if !ok2 then (w2, false) else ProfileRemoved(w2, state.profileDir, faults)
  }

  /** `Store.Clear`. */
  function Cleared(w: World, faults: set<CleanupFault>): (World, bool) {
    if w.record.None? then (w, true)
    else if ClearFile in faults then (w, false)
    else (w.(record := None), true)
  }

  // ----- The commands

  /** `State.IsStale`. */
  predicate IsStale(w: World, state: SessionRecord) {
    state.pid > 0 && state.pid !in w.alive
  }

  /** What can go wrong in one connect: before anything is written, while a stale session is cleaned up, in the steps,
      and while a failed connect is rolled back. */
  datatype ConnectFaults = ConnectFaults(
    loadFails: bool, recordUnreadable: bool, stale: set<CleanupFault>, refused: bool,
    steps: set<Action>, rollback: set<CleanupFault>)

  /** `ensureNoActiveSession`: the world it leaves, and whether connect may go on. */
  function NoActiveSession(w: World, faults: ConnectFaults): (World, bool) {
    if faults.recordUnreadable then (w, false)
    else if w.record.None? then (w, true)
    else if !IsStale(w, w.record.value) then (w, false)
    else
      var (w1, ok) := Cleaned(w, w.record.value, faults.stale);
      if !ok then (w1, false) else Cleared(w1, faults.stale)
  }

  /** What a connect that failed in a step leaves: nothing is undone before preflight, the session files and the record
      from preflight on, all recorded artifacts and the record after that. Errors of the rollback are ignored. */
  function RolledBack(p: Progress, faults: set<CleanupFault>): World
    requires p.failedAt.Some?
  {
    var k := Rank(p.failedAt.value);
    if k < Rank(RunPreflight) then p.w
    else if k < Rank(FindUserConfig) then
      Cleared(FilesRemoved(p.w, p.state.sshConfigPath, p.state.knownHostsPath, faults).0, faults).0
    else Cleared(Cleaned(p.w, p.state, faults).0, faults).0
  }

  datatype Outcome = Rejected | Failed(step: Action) | Done

  /** `connect`. */
  function Connected(w: World, req: Request, faults: ConnectFaults): (World, Outcome) {
    if faults.loadFails then (w, Rejected)
    else
      var (w1, ok) := NoActiveSession(w, faults);
      if !ok || faults.refused then (w1, Rejected)
      else
        var p := Exec(req, w1, NewRecord(req), 0, SIZE, faults.steps);
        if p.failedAt.None? then (p.w, Done) else (RolledBack(p, faults.rollback), Failed(p.failedAt.value))
  }

  /** `TerminateProcess`, which succeeds: pid 0 stands for no process. */
  function Killed(w: World, pid: nat): World {
    w.(alive := w.alive - {pid})
  }

  /** `disconnect`. */
  function Disconnected(w: World, faults: set<CleanupFault>): (World, bool) {
    match w.record
    case None => (w, LoadRecord !in faults)
    case Some(state) =>
      if LoadRecord in faults then (w, false)
      else
        var (w1, ok) := Cleaned(Killed(w, state.pid), state, faults);
        if !ok then (w1, false) else Cleared(w1, faults)
  }
}
