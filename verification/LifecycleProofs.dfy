/** What the lifecycle keeps: over one failed connect, over a disconnect that is repeated, and over
    every run of commands. */
module LifecycleProofs {
  import opened Text
  import opened Lines
  import opened ManagedBlock
  import opened Upsert
  import opened Markers
  import opened SshConfig
  import opened SshConfigReader
  import opened UserConfig
  import opened Configuration
  import opened Lifecycle

  /** What `Prepare` guarantees about a request: the paths are joined from a directory and a name, and the target has a
      name. */
  predicate Named(req: Request) {
    req.sshConfigPath != "" && req.knownHostsPath != "" && req.profileDir != "" && req.options.alias != ""
  }

  /** The operating system gives the supervisor an unused pid. */
  predicate FreshPid(w: World, req: Request) {
    req.pid > 0 && req.pid !in w.pids
  }

  // ----- Where connect ends

  /** The configuration, the session before and the lookups are in order: connect goes on to its steps. */
  predicate Admitted(w: World, faults: ConnectFaults) {
    !faults.loadFails && NoActiveSession(w, faults).1 && !faults.refused
  }

  /** The first step of the request that the faults let fail. */
  ghost predicate FirstFailure(req: Request, faults: set<Action>, step: Action) {
    && Included(req, step) && Fails(req, step, faults)
    && forall a :: Included(req, a) && Fails(req, a, faults) ==> Rank(step) <= Rank(a)
  }

  /** A course that went past a step did not fail there. */
  lemma {:induction false} PassedChecks(req: Request, w: World, state: SessionRecord, from: nat, until: nat,
      faults: set<Action>, a: Action)
    requires from <= Rank(a) < until && Included(req, a)
    ensures var p := Exec(req, w, state, from, until, faults);
      Fails(req, a, faults) ==> p.failedAt.Some? && from <= Rank(p.failedAt.value) <= Rank(a)
    decreases until - from
  {
    hide ActionAt, Included, Fails, Effect, Rank;
    RankBack(from);
    ActionBack(a);
    if Included(req, ActionAt(from)) && !Fails(req, ActionAt(from), faults) && from < Rank(a) {
      var (w', state') := Effect(req, ActionAt(from), w, state);
      PassedChecks(req, w', state', from + 1, until, faults, a);
    } else if !Included(req, ActionAt(from)) && from < Rank(a) {
      PassedChecks(req, w, state, from + 1, until, faults, a);
    }
  }

  /** Connect is rejected exactly when it is not admitted; admitted, it fails exactly at the first step that the faults
      let fail, and succeeds exactly when there is none. */
  lemma OutcomeIff(w: World, req: Request, faults: ConnectFaults, step: Action)
    ensures Connected(w, req, faults).1 == Rejected <==> !Admitted(w, faults)
    ensures Connected(w, req, faults).1 == Failed(step)
       <==> Admitted(w, faults) && FirstFailure(req, faults.steps, step)
    ensures Connected(w, req, faults).1 == Done
       <==> Admitted(w, faults) && forall a :: Included(req, a) ==> !Fails(req, a, faults.steps)
  {
    hide Exec, Included, Fails, RolledBack, NoActiveSession, Rank, ActionAt;
    var w1 := NoActiveSession(w, faults).0;
    ExecIsAfter(req, w1, faults.steps);
    var p := Exec(req, w1, NewRecord(req), 0, SIZE, faults.steps);
    forall a | Included(req, a) && Fails(req, a, faults.steps)
      ensures p.failedAt.Some? && Rank(p.failedAt.value) <= Rank(a)
    {
      PassedChecks(req, w1, NewRecord(req), 0, SIZE, faults.steps, a);
    }
    if p.failedAt.Some? {
      ActionBack(p.failedAt.value);
      ActionBack(step);
    }
  }

  // ----- The course of connect, from the switches of a request

  const PREPARING := {MakeSshDir, WriteKnownHosts, ModeKnownHosts, WriteSshConfig, ModeSshConfig,
                      MakeSessionDir(OfPrepare), WriteRecord(OfPrepare), ModeRecord(OfPrepare)}
  const SAVING_PID := {MakeSessionDir(OfPid), WriteRecord(OfPid), ModeRecord(OfPid)}
  const MANAGING := {FindUserConfig, ReadUserConfig, MakeConfigDir, WriteUserConfig, ModeUserConfig,
                     MakeSessionDir(OfUserConfig), WriteRecord(OfUserConfig), ModeRecord(OfUserConfig)}
  const ISOLATING := {MakeProfile, WriteSettings, ModeSettings,
                      MakeSessionDir(OfProfile), WriteRecord(OfProfile), ModeRecord(OfProfile)}

  /** What a connect has to get done besides checking its options. */
  predicate IsDuty(req: Request, a: Action) {
    || a in PREPARING || a == RunPreflight || a == StartSupervisor || a in SAVING_PID
    || (req.managesUserConfig && a in MANAGING)
    || (req.launchesCode && req.setsUpRemote && a == SetUpRemote)
    || (req.launchesCode && req.isolatedProfile && a in ISOLATING)
    || (req.launchesCode && a == LaunchCode)
  }

  /** The options that the editor of the user's file accepts. */
  predicate AcceptedOptions(req: Request) {
    && req.userConfigPath != "" && req.options.alias != "" && req.options.localHost != ""
    && req.options.localPort > 0 && req.knownHostsPath != ""
    && forall c :: c in req.options.alias ==> c != '\r' && c != '\n'
  }

  /** A connect is done exactly when it is admitted, none of its duties fails, and the options are accepted if it
      manages the user's file. When one of its duties fails, it fails at that duty or before it. */
  lemma DoneIff(w: World, req: Request, faults: ConnectFaults)
    ensures Connected(w, req, faults).1 == Done <==>
      && Admitted(w, faults) && (forall a :: a in faults.steps ==> !IsDuty(req, a))
      && (req.managesUserConfig ==> AcceptedOptions(req))
    ensures forall duty :: Admitted(w, faults) && duty in faults.steps && IsDuty(req, duty) ==>
      && Connected(w, req, faults).1.Failed? && Rank(Connected(w, req, faults).1.step) <= Rank(duty)
  {
    hide Connected, Admitted, Rank, ActionAt, AcceptedOptions, IsDuty, FirstFailure, Included, Fails;
    var outcome := Connected(w, req, faults).1;
    OutcomeIff(w, req, faults, if outcome.Failed? then outcome.step else LaunchCode);
    forall a
      ensures Included(req, a) && Fails(req, a, faults.steps) <==>
        (IsDuty(req, a) && a in faults.steps)
        || (a == CheckUserConfig && req.managesUserConfig && !AcceptedOptions(req))
    {
      DutyFails(req, a, faults.steps);
    }
    FirstOfAll(req, faults.steps, outcome);
    assert req.managesUserConfig && !AcceptedOptions(req) ==>
      Included(req, CheckUserConfig) && Fails(req, CheckUserConfig, faults.steps);
  }

  lemma FirstOfAll(req: Request, steps: set<Action>, outcome: Outcome)
    requires outcome.Failed? ==> FirstFailure(req, steps, outcome.step)
    ensures outcome.Failed? ==>
      forall a :: Included(req, a) && Fails(req, a, steps) ==> Rank(outcome.step) <= Rank(a)
  {
    hide Included, Fails, Rank;
  }

  predicate IsNote(a: Action) {
    a in {NotePid, NoteUserConfig, NoteProfile}
  }

  lemma DutyFails(req: Request, a: Action, steps: set<Action>)
    ensures Included(req, a) && Fails(req, a, steps) <==>
      (IsDuty(req, a) && a in steps) || (a == CheckUserConfig && req.managesUserConfig && !AcceptedOptions(req))
  {
    hide Included, Fails, IsDuty, AcceptedOptions;
    IncludedDuty(req, a);
    DutyFault(req, a, steps);
  }

  lemma IncludedDuty(req: Request, a: Action)
    ensures !IsNote(a) && a != CheckUserConfig ==> (Included(req, a) <==> IsDuty(req, a))
    ensures IsNote(a) || a == CheckUserConfig ==> !IsDuty(req, a)
    ensures Included(req, CheckUserConfig) == req.managesUserConfig
  {
    hide SaveIncluded;
    match a
    case MakeSessionDir(point) => SaveDuty(req, point);
    case WriteRecord(point) => SaveDuty(req, point);
    case ModeRecord(point) => SaveDuty(req, point);
    case _ =>
  }

  lemma SaveDuty(req: Request, point: SavePoint)
    ensures SaveIncluded(req, point) <==> IsDuty(req, MakeSessionDir(point))
    ensures SaveIncluded(req, point) <==> IsDuty(req, WriteRecord(point))
    ensures SaveIncluded(req, point) <==> IsDuty(req, ModeRecord(point))
  {
  }

  lemma DutyFault(req: Request, a: Action, steps: set<Action>)
    ensures !IsNote(a) && a != CheckUserConfig ==> (Fails(req, a, steps) <==> a in steps)
    ensures IsNote(a) ==> !Fails(req, a, steps)
    ensures Fails(req, CheckUserConfig, steps) <==> !AcceptedOptions(req)
  {
  }

  /** The stages of a connect: preparing, preflight, supervisor, its pid, the user's file, the remote host, the profile,
      VS Code. */
  function Stage(a: Action): nat {
    if a in PREPARING then 0
    else if a == RunPreflight then 1
    else if a == StartSupervisor then 2
    else if a == NotePid || a in SAVING_PID then 3
    else if a in {CheckUserConfig, NoteUserConfig} || a in MANAGING then 4
    else if a == SetUpRemote then 5
    else if a == NoteProfile || a in ISOLATING then 6
    else 7
  }

  lemma StagesInOrder(a: Action)
    ensures Stage(a) == if Rank(a) < 8 then 0 else if Rank(a) == 8 then 1 else if Rank(a) == 9 then 2
      else if Rank(a) < 14 then 3 else if Rank(a) < 24 then 4 else if Rank(a) == 24 then 5
      else if Rank(a) < 32 then 6 else 7
  {
  }

  /** A connect fails in the first stage in which a duty fails: no duty of an earlier stage is among the faults. */
  lemma FailsInFirstStage(w: World, req: Request, faults: ConnectFaults, duty: Action)
    requires Connected(w, req, faults).1.Failed? && duty in faults.steps && IsDuty(req, duty)
    ensures Stage(Connected(w, req, faults).1.step) <= Stage(duty)
  {
    hide Connected, Admitted, IsDuty, Rank, ActionAt, Stage;
    OutcomeIff(w, req, faults, Connected(w, req, faults).1.step);
    DoneIff(w, req, faults);
    StagesInOrder(duty);
    StagesInOrder(Connected(w, req, faults).1.step);
  }

  /** What a connect leaves that is done, spelt out: the record with everything that was made, both session files, the
      profile, the supervisor, and the upserted block in the user's file. */
  lemma DoneLeaves(w: World, req: Request, faults: ConnectFaults)
    requires Connected(w, req, faults).1 == Done
    ensures var before, after := NoActiveSession(w, faults).0, Connected(w, req, faults).0;
      && before.record.None?
      && after.record == Some(SessionRecord(
           req.options.alias, req.pid, req.sshConfigPath, req.knownHostsPath,
           if req.managesUserConfig then req.userConfigPath else "",
           if req.launchesCode && req.isolatedProfile then req.profileDir else ""))
      && after.sshFiles == before.sshFiles + {req.knownHostsPath, req.sshConfigPath}
      && after.profiles == before.profiles
           + (if req.launchesCode && req.isolatedProfile then {req.profileDir} else {})
      && after.alive == before.alive + {req.pid}
      && (forall path :: TextAt(after.userConfigs, path) ==
            if req.managesUserConfig && path == req.userConfigPath
            then Upserted(TextAt(before.userConfigs, path), req.options, req.knownHostsPath)
            else TextAt(before.userConfigs, path))
  {
    hide Exec, NoActiveSession, Rank, ActionAt, Upserted, RolledBack;
    GoesOn(w, faults);
    ExecIsAfter(req, NoActiveSession(w, faults).0, faults.steps);
    EarlyPositions();
    LatePositions();
  }

  /** The user's file starts with the block of the session, from which the SSH configuration reader recovers its
      options. */
  ghost predicate HoldsSession(w: World, req: Request) {
    exists rest :: HoldsBlock(TextAt(w.userConfigs, req.userConfigPath), req.options, req.knownHostsPath, rest)
  }

  lemma WrittenHoldsSession(w: World, req: Request)
    requires PlainOptions(req.options, req.knownHostsPath)
    ensures var updated := Upserted(TextAt(w.userConfigs, req.userConfigPath), req.options, req.knownHostsPath);
      HoldsSession(w.(userConfigs := w.userConfigs[req.userConfigPath := updated]), req)
  {
    hide Upserted, HoldsBlock, TrimLeft, Removed;
    var before := TextAt(w.userConfigs, req.userConfigPath);
    var after := w.userConfigs[req.userConfigPath := Upserted(before, req.options, req.knownHostsPath)];
    assert TextAt(after, req.userConfigPath) == Upserted(before, req.options, req.knownHostsPath);
    UpsertedText(before, req.options, req.knownHostsPath);
  }

  /** A managed connect that is done leaves that block in the user's file. */
  lemma DoneHoldsSession(w: World, req: Request, faults: ConnectFaults)
    requires Connected(w, req, faults).1 == Done && req.managesUserConfig
    requires PlainOptions(req.options, req.knownHostsPath)
    ensures HoldsSession(Connected(w, req, faults).0, req)
  {
    hide Connected, NoActiveSession, Upserted, HoldsBlock, TrimLeft, Removed;
    var before := TextAt(NoActiveSession(w, faults).0.userConfigs, req.userConfigPath);
    DoneLeaves(w, req, faults);
    assert TextAt(Connected(w, req, faults).0.userConfigs, req.userConfigPath)
      == Upserted(before, req.options, req.knownHostsPath);
    UpsertedText(before, req.options, req.knownHostsPath);
  }

  /** Preflight comes before the supervisor: a connect that fails there, or while it prepares, leaves the live
      supervisors as they were; a failed connect leaves its own one alive exactly when it failed behind the start. */
  lemma SupervisorAfterFailure(w: World, req: Request, faults: ConnectFaults)
    requires Connected(w, req, faults).1.Failed?
    ensures var (after, outcome) := Connected(w, req, faults);
      after.alive == if outcome.step in PREPARING + {RunPreflight, StartSupervisor} then w.alive
                     else w.alive + {req.pid}
  {
    hide Exec, Cleaned, FilesRemoved, NoActiveSession, Rank, ActionAt, RolledBack;
    var w1 := NoActiveSession(w, faults).0;
    GoesOn(w, faults);
    ExecIsAfter(req, w1, faults.steps);
    var p := Exec(req, w1, NewRecord(req), 0, SIZE, faults.steps);
    RollbackKeepsAlive(p, faults.rollback);
    BeforeStart(p.failedAt.value);
  }

  lemma BeforeStart(step: Action)
    ensures Rank(step) <= Rank(StartSupervisor) <==> step in PREPARING + {RunPreflight, StartSupervisor}
  {
  }

  /** The outcome follows from what connect met: rejected when not admitted, failed at the first step that fails, done
      when no duty fails; and a supervisor runs for the session only if connect came as far as starting it. */
  ghost predicate Explained(w: World, req: Request, faults: ConnectFaults, after: World, outcome: Outcome) {
    match outcome
    case Rejected => !Admitted(w, faults) && after.alive == w.alive
    case Failed(step) =>
      && Admitted(w, faults) && FirstFailure(req, faults.steps, step)
      && after.alive == (if step in PREPARING + {RunPreflight, StartSupervisor} then w.alive else w.alive + {req.pid})
    case Done =>
      && Admitted(w, faults) && (forall a :: a in faults.steps ==> !IsDuty(req, a))
      && after.record.Some? && after.record.value.pid == req.pid && after.alive == w.alive + {req.pid}
  }

  lemma ConnectExplained(w: World, req: Request, faults: ConnectFaults)
    ensures Explained(w, req, faults, Connected(w, req, faults).0, Connected(w, req, faults).1)
  {
    hide Connected, Admitted, FirstFailure, Included, Fails, IsDuty;
    var outcome := Connected(w, req, faults).1;
    OutcomeIff(w, req, faults, if outcome.Failed? then outcome.step else LaunchCode);
    if outcome.Rejected? {
      RejectedKeeps(w, req, faults);
    } else if outcome.Failed? {
      SupervisorAfterFailure(w, req, faults);
    } else if outcome.Done? {
      DoneIff(w, req, faults);
      DoneLeaves(w, req, faults);
      AdmittedKeeps(w, faults);
    }
  }

  lemma AdmittedKeeps(w: World, faults: ConnectFaults)
    requires Admitted(w, faults)
    ensures NoActiveSession(w, faults).0.alive == w.alive
  {
    hide NoActiveSession;
    GoesOn(w, faults);
  }

  lemma RejectedKeeps(w: World, req: Request, faults: ConnectFaults)
    requires Connected(w, req, faults).1 == Rejected
    ensures Connected(w, req, faults).0.alive == w.alive
  {
    hide NoActiveSession, Exec;
    NoActiveContract(w, faults);
  }

  /** When connect is admitted: nothing is unreadable or refused, and there is no session, or one whose supervisor died
      and whose artifacts can be cleaned up. A live session, and one without a pid, keep it out. */
  lemma AdmittedIff(w: World, faults: ConnectFaults)
    ensures Admitted(w, faults) <==>
      && !faults.loadFails && !faults.recordUnreadable && !faults.refused
      && (w.record.Some? ==>
            && w.record.value.pid > 0 && w.record.value.pid !in w.alive
            && Cleaned(w, w.record.value, faults.stale).1 && ClearFile !in faults.stale)
    ensures w.record.Some? ==> Cleaned(w, w.record.value, {}).1
  {
    hide Cleaned;
    if w.record.Some? {
      CleanedFully(w, w.record.value);
      CleanedKeeps(w, w.record.value, faults.stale);
    }
  }

  // ----- A failed connect

  lemma FilesRemovedWhole(w: World, configPath: string, knownHostsPath: string)
    requires configPath != "" && knownHostsPath != ""
    ensures FilesRemoved(w, configPath, knownHostsPath, {})
      == (w.(sshFiles := w.sshFiles - {configPath} - {knownHostsPath}), true)
  {
    assert configPath !in w.sshFiles ==> w.sshFiles - {configPath} == w.sshFiles;
    var w1 := w.(sshFiles := w.sshFiles - {configPath});
    assert knownHostsPath !in w1.sshFiles ==> w1.sshFiles - {knownHostsPath} == w1.sshFiles;
  }

  /** What a cleanup without faults leaves. */
  lemma CleanedWhole(w: World, state: SessionRecord)
    requires state.sshConfigPath != "" && state.knownHostsPath != "" && state.target != ""
    ensures Cleaned(w, state, {}).1
    ensures var w' := Cleaned(w, state, {}).0;
      && w'.record == w.record && w'.alive == w.alive && w'.pids == w.pids
      && w'.sshFiles == w.sshFiles - {state.sshConfigPath} - {state.knownHostsPath}
      && w'.profiles == (if state.profileDir == "" then w.profiles else w.profiles - {state.profileDir})
    ensures forall path ::
      TextAt(Cleaned(w, state, {}).0.userConfigs, path)
      == if path == state.userConfigPath != "" then Removed(TextAt(w.userConfigs, path), state.target)
        else TextAt(w.userConfigs, path)
  {
    hide Removed, FilesRemoved;
    var (w1, ok1) := BlockRemoved(w, state.userConfigPath, state.target, {});
    FilesRemovedWhole(w1, state.sshConfigPath, state.knownHostsPath);
    assert state.profileDir !in w.profiles ==> w.profiles - {state.profileDir} == w.profiles;
  }

  /** What a failed connect leaves, from preflight on and with a rollback that meets no error: `k` steps were taken. */
  ghost predicate LeftBehind(w: World, req: Request, k: nat, after: World) {
    && after.record.None?
    && after.sshFiles == w.sshFiles - {req.sshConfigPath} - {req.knownHostsPath}
    && after.alive == (if k > Rank(StartSupervisor) then w.alive + {req.pid} else w.alive)
    && after.profiles == ProfilesLeft(w.profiles, req, k)
    && ConfigsLeft(w.userConfigs, req, k, after.userConfigs)
  }

  function ProfilesLeft(profiles: set<string>, req: Request, k: nat): set<string> {
    if !(HasProfile(req)) || k <= Rank(MakeProfile) then profiles
    else if k <= Rank(NoteProfile) then profiles + {req.profileDir}
    else profiles - {req.profileDir}
  }

  ghost predicate ConfigsLeft(before: map<string, string>, req: Request, k: nat, after: map<string, string>) {
    forall path :: TextAt(after, path) ==
      if path == req.userConfigPath && req.managesUserConfig then TextLeft(TextAt(before, path), req, k)
        else TextAt(before, path)
  }

  function TextLeft(text: string, req: Request, k: nat): string {
    var upserted := Upserted(text, req.options, req.knownHostsPath);
    if k <= Rank(WriteUserConfig) then text
    else if k <= Rank(NoteUserConfig) then upserted
    else Removed(upserted, req.options.alias)
  }

  lemma ClearedWhole(w: World)
    ensures Cleared(w, {}).0 == w.(record := None)
  {
  }

  /** Up to the start of the supervisor only session files and the record are rolled back. */
  lemma EarlyRollback(w: World, req: Request, k: nat)
    requires Named(req) && Rank(RunPreflight) <= k < Rank(FindUserConfig)
    ensures LeftBehind(w, req, k,
      Cleared(FilesRemoved(After(req, w, k), req.sshConfigPath, req.knownHostsPath, {}).0, {}).0)
  {
    hide ActionAt, Upserted, Removed, FilesRemoved, Cleared, ConfigsLeft;
    var p := After(req, w, k);
    FilesRemovedWhole(p, req.sshConfigPath, req.knownHostsPath);
    ClearedWhole(FilesRemoved(p, req.sshConfigPath, req.knownHostsPath, {}).0);
    FilesBackOut(w.sshFiles, req.knownHostsPath, req.sshConfigPath);
    ConfigsUntouched(w.userConfigs, req, k);
  }

  lemma ConfigsUntouched(before: map<string, string>, req: Request, k: nat)
    requires k <= Rank(WriteUserConfig)
    ensures ConfigsLeft(before, req, k, before)
  {
    hide ActionAt, Upserted, Removed;
  }

  lemma FilesBackOut(files: set<string>, known: string, config: string)
    ensures files + {known} + {config} - {config} - {known} == files - {config} - {known}
  {
  }

  lemma LateProfiles(w: World, req: Request, k: nat)
    requires k < SIZE
    ensures var p, dir := After(req, w, k).profiles, StateAfter(req, k).profileDir;
      (if dir == "" then p else p - {dir}) == ProfilesLeft(w.profiles, req, k) || req.profileDir == ""
  {
    hide ActionAt, Rank;
    EarlyPositions();
    LatePositions();
    if HasProfile(req) && k > Rank(NoteProfile) {
      assert w.profiles + {req.profileDir} - {req.profileDir} == w.profiles - {req.profileDir};
    }
  }

  lemma LateConfigs(w: World, req: Request, k: nat, after: map<string, string>)
    requires Rank(FindUserConfig) <= k < SIZE
    requires req.managesUserConfig ==> req.userConfigPath != "" || k <= Rank(CheckUserConfig)
    requires var p, state := After(req, w, k), StateAfter(req, k);
      forall path :: TextAt(after, path) ==
        if path == state.userConfigPath != "" then Removed(TextAt(p.userConfigs, path), state.target)
          else TextAt(p.userConfigs, path)
    ensures ConfigsLeft(w.userConfigs, req, k, after)
  {
    hide ActionAt, Upserted, Removed;
  }

  /** From the user's configuration on, everything that the record in memory names is rolled back. */
  lemma LateRollback(w: World, req: Request, k: nat)
    requires Named(req) && Rank(FindUserConfig) <= k < SIZE
    requires req.managesUserConfig ==> req.userConfigPath != "" || k <= Rank(CheckUserConfig)
    ensures LeftBehind(w, req, k, Cleared(Cleaned(After(req, w, k), StateAfter(req, k), {}).0, {}).0)
  {
    hide ActionAt, Upserted, Removed, Cleaned, Cleared, TextAt, ConfigsLeft, ProfilesLeft;
    var p, state := After(req, w, k), StateAfter(req, k);
    CleanedWhole(p, state);
    ClearedWhole(Cleaned(p, state, {}).0);
    FilesBackOut(w.sshFiles, req.knownHostsPath, req.sshConfigPath);
    LateProfiles(w, req, k);
    LateConfigs(w, req, k, Cleaned(p, state, {}).0.userConfigs);
  }

  /** What `ensureNoActiveSession` hands on: a world without a record, and nothing else that lives. */
  lemma GoesOn(w: World, faults: ConnectFaults)
    requires NoActiveSession(w, faults).1
    ensures var w1 := NoActiveSession(w, faults).0; w1.record.None? && w1.alive == w.alive && w1.pids == w.pids
    ensures w.record.None? ==> NoActiveSession(w, faults).0 == w
    ensures w.record.Some? ==> IsStale(w, w.record.value)
  {
    hide Cleaned;
    if w.record.Some? {
      CleanedKeeps(w, w.record.value, faults.stale);
    }
  }

  /** A cleanup touches files only. */
  lemma CleanedKeeps(w: World, state: SessionRecord, faults: set<CleanupFault>)
    ensures var w' := Cleaned(w, state, faults).0; w'.record == w.record && w'.alive == w.alive && w'.pids == w.pids
  {
    hide Removed;
  }

  /** An admitted connect that fails undoes nothing up to the end of its preparation. What it leaves then depends on the
      step: a record only if nothing but the record's mode could not be set, and the files written so far. */
  lemma PrepareFailure(w: World, req: Request, faults: ConnectFaults, step: Action)
    requires Admitted(w, faults) && FirstFailure(req, faults.steps, step) && Rank(step) < Rank(RunPreflight)
    ensures var w1, after := NoActiveSession(w, faults).0, Connected(w, req, faults).0;
      && after == w1.(record := after.record, sshFiles := after.sshFiles)
      && after.record == (if step == ModeRecord(OfPrepare) then Some(NewRecord(req)) else None)
      && after.sshFiles == w1.sshFiles
        + (if step in {MakeSshDir, WriteKnownHosts} then {} else {req.knownHostsPath})
        + (if step in {MakeSshDir, WriteKnownHosts, ModeKnownHosts, WriteSshConfig} then {} else {req.sshConfigPath})
  {
    hide Exec, NoActiveSession, Rank, ActionAt, FirstFailure;
    OutcomeIff(w, req, faults, step);
    GoesOn(w, faults);
    ExecIsAfter(req, NoActiveSession(w, faults).0, faults.steps);
    PrepareRanks(step);
    EarlyPositions();
    LatePositions();
  }

  lemma PrepareRanks(step: Action)
    requires Rank(step) < Rank(RunPreflight)
    ensures Rank(step) > Rank(WriteRecord(OfPrepare)) <==> step == ModeRecord(OfPrepare)
    ensures Rank(step) <= Rank(WriteKnownHosts) <==> step in {MakeSshDir, WriteKnownHosts}
    ensures Rank(step) <= Rank(WriteSshConfig)
       <==> step in {MakeSshDir, WriteKnownHosts, ModeKnownHosts, WriteSshConfig}
  {
  }

  /** Which of the session's files are new after such a failure. */
  lemma PrepareFailureFiles(w: World, req: Request, faults: ConnectFaults, step: Action)
    requires Admitted(w, faults) && FirstFailure(req, faults.steps, step) && Rank(step) < Rank(RunPreflight)
    requires var files := NoActiveSession(w, faults).0.sshFiles;
      req.knownHostsPath !in files && req.sshConfigPath !in files && req.knownHostsPath != req.sshConfigPath
    ensures var after := Connected(w, req, faults).0;
      && (after.record.Some? <==> step == ModeRecord(OfPrepare))
      && (req.knownHostsPath in after.sshFiles <==> step !in {MakeSshDir, WriteKnownHosts})
      && (req.sshConfigPath in after.sshFiles
          <==> step !in {MakeSshDir, WriteKnownHosts, ModeKnownHosts, WriteSshConfig})
  {
    hide Connected, NoActiveSession, Admitted, FirstFailure, Rank, ActionAt;
    PrepareFailure(w, req, faults, step);
  }

  /** After a failed preparation every later connect is rejected, and changes nothing, if and only if the record was
      written: it has no pid, so it is never stale. A disconnect without faults takes away the record and the files it
      names; without a record, a disconnect changes nothing, and the files that were written stay. */
  lemma PrepareFailureLocksIff(w: World, req: Request, faults: ConnectFaults, step: Action, later: Request,
      laterFaults: ConnectFaults)
    requires Admitted(w, faults) && FirstFailure(req, faults.steps, step) && Rank(step) < Rank(RunPreflight)
    requires !laterFaults.loadFails && !laterFaults.recordUnreadable && !laterFaults.refused
    ensures var after := Connected(w, req, faults).0;
      && (Connected(after, later, laterFaults).1 == Rejected <==> step == ModeRecord(OfPrepare))
      && (step == ModeRecord(OfPrepare) ==>
            Connected(after, later, laterFaults).0 == after && Disconnected(after, {}).0.record.None?)
      && (step != ModeRecord(OfPrepare) ==> Disconnected(after, {}).0 == after)
  {
    hide Exec, Cleaned, Rank, ActionAt, FirstFailure, RolledBack;
    PrepareFailure(w, req, faults, step);
    var after := Connected(w, req, faults).0;
    if step == ModeRecord(OfPrepare) {
      NoPidNoConnect(after, later, laterFaults);
      DisconnectedFully(after, after.record.value);
    }
  }

  lemma NoPidNoConnect(w: World, req: Request, faults: ConnectFaults)
    requires w.record.Some? && (w.record.value.pid == 0 || w.record.value.pid in w.alive)
    ensures Connected(w, req, faults) == (w, Rejected)
  {
    hide Exec, Cleaned;
  }

  /** Preparing a session fails exactly for one of the reasons of its lookups, or because a step that writes its files
      and its record does. */
  lemma PrepareFailsIff(cfg: Config, targetName: string, gatewayOverride: string, port: Option<Allocation>,
      req: Request, w: World, steps: set<Action>)
    requires Acceptable(cfg) && cfg.gateways != map[] && cfg.hostKeys != map[]
    ensures
      || Prepare(cfg, targetName, gatewayOverride, port).Refused?
      || Exec(req, w, NewRecord(req), 0, Rank(RunPreflight), steps).failedAt.Some?
      <==>
      || targetName !in cfg.targets || targetName == ""
      || (gatewayOverride != "" && gatewayOverride !in cfg.gateways)
      || port.None? || port.value.host == "" || port.value.port <= 0
      || Blank(HostKey(cfg, HostKeyRef(targetName, cfg.targets[targetName])))
      || exists step :: step in steps && Rank(step) < Rank(RunPreflight)
  {
    hide Prepare, Blank, HostKey, Acceptable, Exec, Rank, ActionAt;
    PrepareRefusedIff(cfg, targetName, gatewayOverride, port);
    var p := Exec(req, w, NewRecord(req), 0, Rank(RunPreflight), steps);
    EarlyPositions();
    ExecFrom(req, w, 0, Rank(RunPreflight), steps);
    assert After(req, w, 0) == w && StateAfter(req, 0) == NewRecord(req);
    forall step | Rank(step) < Rank(RunPreflight)
      ensures Included(req, step) && (Fails(req, step, steps) <==> step in steps)
    {
      PrepareStep(req, step, steps);
    }
    if step :| step in steps && Rank(step) < Rank(RunPreflight) {
      PassedChecks(req, w, NewRecord(req), 0, Rank(RunPreflight), steps, step);
    }
  }

  lemma PrepareStep(req: Request, step: Action, steps: set<Action>)
    requires Rank(step) < Rank(RunPreflight)
    ensures Included(req, step) && (Fails(req, step, steps) <==> step in steps)
  {
  }

  /** Exactly what a connect leaves that failed at preflight or later, when its rollback meets no error. */
  lemma FailedConnect(w: World, req: Request, faults: ConnectFaults, step: Action)
    requires Named(req) && faults.rollback == {}
    requires Admitted(w, faults) && FirstFailure(req, faults.steps, step) && Rank(step) >= Rank(RunPreflight)
    ensures LeftBehind(NoActiveSession(w, faults).0, req, Rank(step), Connected(w, req, faults).0)
  {
    hide Exec, LeftBehind, Cleaned, Cleared, FilesRemoved, After, Rank, ActionAt, FirstFailure;
    var w1 := NoActiveSession(w, faults).0;
    OutcomeIff(w, req, faults, step);
    GoesOn(w, faults);
    ExecIsAfter(req, w1, faults.steps);
    if Rank(step) < Rank(FindUserConfig) {
      EarlyRollback(w1, req, Rank(step));
    } else {
      CheckedBefore(req, w1, faults.steps);
      LateRollback(w1, req, Rank(step));
    }
  }

  lemma CheckedBefore(req: Request, w: World, faults: set<Action>)
    ensures var p := Exec(req, w, NewRecord(req), 0, SIZE, faults);
      req.managesUserConfig && (p.failedAt.None? || Rank(p.failedAt.value) > Rank(CheckUserConfig)) ==>
        req.userConfigPath != ""
  {
    hide Exec;
    if req.managesUserConfig {
      PassedChecks(req, w, NewRecord(req), 0, SIZE, faults, CheckUserConfig);
    }
  }

  // ----- When a failed connect leaves nothing behind

  /** Nothing of the session is left on disk. */
  predicate Clean(w: World, req: Request) {
    && w.record.None? && req.sshConfigPath !in w.sshFiles && req.knownHostsPath !in w.sshFiles
    && req.profileDir !in w.profiles
    && !Contains(TextAt(w.userConfigs, req.userConfigPath), BeginMarker(req.options.alias))
  }

  /** The user's configuration holds no block of the target yet, and no option holds the target's end marker. */
  predicate Unmanaged(w: World, req: Request) {
    && OneLine(req.options.alias) && !OptionHolds(req.options, req.knownHostsPath, EndMarker(req.options.alias))
    && !Contains(TextAt(w.userConfigs, req.userConfigPath), BeginMarker(req.options.alias))
  }

  lemma UpsertedHoldsBlock(content: string, o: ConfigOptions, knownHostsPath: string)
    ensures Contains(Upserted(content, o, knownHostsPath), BeginMarker(o.alias))
  {
    hide RemoveBlocks, IndexFrom, BeginMarker, EndMarker, ConfigText, TrimLeft;
    var text, begin := Upserted(content, o, knownHostsPath), BeginMarker(o.alias);
    assert text[0..|begin|] == begin;
    assert OccursAt(text, begin, 0);
  }

  lemma TrimmedHoldsNone(content: string, alias: string)
    requires !Contains(content, BeginMarker(alias))
    ensures !Contains(TrimLeft(content), BeginMarker(alias))
  {
    hide IndexFrom;
    IndexTrimmed(content, BeginMarker(alias));
  }

  /** The target's block is left in the user's file only if the file was written and its path not yet noted. */
  lemma BlockLeftIff(text: string, req: Request, k: nat)
    requires OneLine(req.options.alias) && !OptionHolds(req.options, req.knownHostsPath, EndMarker(req.options.alias))
    requires !Contains(text, BeginMarker(req.options.alias))
    ensures Contains(TextLeft(text, req, k), BeginMarker(req.options.alias))
      <==> Rank(WriteUserConfig) < k <= Rank(NoteUserConfig)
    ensures !(Rank(WriteUserConfig) < k <= Rank(NoteUserConfig)) ==> TextLeft(text, req, k) in {text, TrimLeft(text)}
  {
    hide ActionAt, Contains, OptionHolds, Upserted, Removed, TrimLeft, BeginMarker, EndMarker;
    UpsertedHoldsBlock(text, req.options, req.knownHostsPath);
    FileComesBack(text, req.options, req.knownHostsPath);
    TrimmedHoldsNone(text, req.options.alias);
  }

  /** A connect whose first failure is at preflight or later, with a rollback that meets no error, leaves nothing
      behind except in three cases: the user's file was written but its mode could not be set, or the profile
      directory was made but its settings were not completed. In those three the rollback does not know of the
      artifact. */
  lemma CleanAfterFailureIff(w: World, req: Request, faults: ConnectFaults, step: Action)
    requires Named(req) && faults.rollback == {}
    requires Admitted(w, faults) && FirstFailure(req, faults.steps, step) && Rank(step) >= Rank(RunPreflight)
    requires req.profileDir !in NoActiveSession(w, faults).0.profiles && Unmanaged(NoActiveSession(w, faults).0, req)
    ensures Clean(Connected(w, req, faults).0, req) <==> step !in {ModeUserConfig, WriteSettings, ModeSettings}
  {
    hide Connected, NoActiveSession, Contains, OptionHolds, TextLeft, BeginMarker, EndMarker, Rank, Included, Fails;
    hide ConfigsLeft, ProfilesLeft, TextAt, ActionAt, Admitted;
    var w1, after := NoActiveSession(w, faults).0, Connected(w, req, faults).0;
    FailedConnect(w, req, faults, step);
    ConfigLeftAt(w1.userConfigs, req, Rank(step), after.userConfigs);
    BlockLeftIff(TextAt(w1.userConfigs, req.userConfigPath), req, Rank(step));
    ProfileLeftIff(w1.profiles, req, Rank(step));
    assert !step.NotePid? && !step.NoteUserConfig? && !step.NoteProfile? by { NotesDoNotFail(req, step, faults.steps); }
    ThreeGaps(req, step);
  }

  lemma NotesDoNotFail(req: Request, step: Action, faults: set<Action>)
    requires Fails(req, step, faults)
    ensures !step.NotePid? && !step.NoteUserConfig? && !step.NoteProfile?
  {
  }

  lemma ConfigLeftAt(before: map<string, string>, req: Request, k: nat, after: map<string, string>)
    requires ConfigsLeft(before, req, k, after)
    ensures var path := req.userConfigPath;
      TextAt(after, path) == if req.managesUserConfig then TextLeft(TextAt(before, path), req, k)
        else TextAt(before, path)
  {
    hide TextLeft;
  }

  lemma ProfileLeftIff(profiles: set<string>, req: Request, k: nat)
    requires req.profileDir !in profiles
    ensures req.profileDir in ProfilesLeft(profiles, req, k)
      <==> HasProfile(req) && Rank(MakeProfile) < k <= Rank(NoteProfile)
  {
    hide ActionAt;
  }

  /** The steps that can fail between an artifact and the note of it. */
  lemma ThreeGaps(req: Request, step: Action)
    requires Included(req, step) && !step.NotePid? && !step.NoteUserConfig? && !step.NoteProfile?
    ensures req.managesUserConfig && Rank(WriteUserConfig) < Rank(step) <= Rank(NoteUserConfig)
      <==> step == ModeUserConfig
    ensures HasProfile(req) && Rank(MakeProfile) < Rank(step) <= Rank(NoteProfile)
       <==> step in {WriteSettings, ModeSettings}
  {
    hide ActionAt;
  }

  /** A failed connect leaves its supervisor running exactly when its first failure is behind the start: no rollback
      stops it. Other supervisors are left alone. */
  lemma SupervisorLeftIff(w: World, req: Request, faults: ConnectFaults, step: Action)
    requires FreshPid(w, req) && w.alive <= w.pids
    requires Admitted(w, faults) && FirstFailure(req, faults.steps, step)
    ensures var after := Connected(w, req, faults).0;
      && (req.pid in after.alive <==> Rank(step) > Rank(StartSupervisor))
      && after.alive <= w.alive + {req.pid} && w.alive <= after.alive
  {
    hide Exec, Cleaned, FilesRemoved, NoActiveSession, Rank, ActionAt, FirstFailure, RolledBack;
    var w1 := NoActiveSession(w, faults).0;
    OutcomeIff(w, req, faults, step);
    GoesOn(w, faults);
    ExecIsAfter(req, w1, faults.steps);
    var p := Exec(req, w1, NewRecord(req), 0, SIZE, faults.steps);
    RollbackKeepsAlive(p, faults.rollback);
  }

  lemma RollbackKeepsAlive(p: Progress, faults: set<CleanupFault>)
    requires p.failedAt.Some?
    ensures RolledBack(p, faults).alive == p.w.alive && RolledBack(p, faults).pids == p.w.pids
  {
    hide Cleaned, Rank;
    CleanedKeeps(p.w, p.state, faults);
  }

  // ----- Disconnect

  /** The artifacts of a record are gone. */
  predicate ArtifactsGone(w: World, state: SessionRecord) {
    && state.sshConfigPath !in w.sshFiles - {""} && state.knownHostsPath !in w.sshFiles - {""}
    && state.profileDir !in w.profiles - {""}
    && (state.userConfigPath != "" && state.target != "" ==>
          Settled(TextAt(w.userConfigs, state.userConfigPath), BeginMarker(state.target), EndMarker(state.target)))
  }

  /** The artifacts of a record and its supervisor are gone. */
  predicate Gone(w: World, state: SessionRecord) {
    ArtifactsGone(w, state) && state.pid !in w.alive
  }

  lemma EndNotEmpty(alias: string)
    ensures EndMarker(alias) != ""
  {
  }

  /** What a removal does to the texts: none but the one of `path` changes, and that one only by the removal. */
  lemma BlockRemovedTexts(w: World, path: string, alias: string, faults: set<CleanupFault>)
    ensures var (w', ok) := BlockRemoved(w, path, alias, faults);
      && w' == w.(userConfigs := w'.userConfigs)
      && (forall other ::
            other != path ==> TextAt(w'.userConfigs, other) == TextAt(w.userConfigs, other))
      && TextAt(w'.userConfigs, path) in {TextAt(w.userConfigs, path), Removed(TextAt(w.userConfigs, path), alias)}
      && (ok && path != "" && alias != "" ==>
            && TextAt(w'.userConfigs, path) == Removed(TextAt(w.userConfigs, path), alias)
            && Settled(TextAt(w'.userConfigs, path), BeginMarker(alias), EndMarker(alias)))
      && var settled := Settled(TextAt(w.userConfigs, path), BeginMarker(alias), EndMarker(alias));
      && (path == "" || alias == "" ==> ok && w' == w)
      && (path != "" && alias != "" ==>
            && (ok <==> CleanRead !in faults && (settled || faults !! {CleanWrite, CleanMode}))
            && (settled || CleanRead in faults || CleanWrite in faults ==> w' == w))
  {
    hide RemoveBlocks, Settled, BeginMarker, EndMarker;
    EndNotEmpty(alias);
    RemoveFixedIffSettled(TextAt(w.userConfigs, path), BeginMarker(alias), EndMarker(alias));
    if BlockRemoved(w, path, alias, faults).1 && path != "" && alias != "" {
      BlockRemovedSettles(w, path, alias, faults);
    }
  }

  /** A cleanup goes block, files, profile, and stops at the first part that fails. */
  lemma CleanedStops(w: World, state: SessionRecord, faults: set<CleanupFault>)
    ensures !BlockRemoved(w, state.userConfigPath, state.target, faults).1 ==>
      Cleaned(w, state, faults) == (BlockRemoved(w, state.userConfigPath, state.target, faults).0, false)
    ensures RemoveSshConfig in faults && state.sshConfigPath in w.sshFiles - {""} ==>
      && !Cleaned(w, state, faults).1
      && Cleaned(w, state, faults).0.sshFiles == w.sshFiles && Cleaned(w, state, faults).0.profiles == w.profiles
    ensures RemoveProfile in faults && state.profileDir in w.profiles - {""} ==> !Cleaned(w, state, faults).1
  {
    hide BlockRemoved;
    BlockRemovedKeeps(w, state.userConfigPath, state.target, faults);
  }

  /** A cleanup that comes through takes away all artifacts; one without faults does come through. */
  lemma CleanedGone(w: World, state: SessionRecord, faults: set<CleanupFault>)
    ensures Cleaned(w, state, faults).1 ==> ArtifactsGone(Cleaned(w, state, faults).0, state)
    ensures faults == {} ==> Cleaned(w, state, faults).1
  {
    hide Removed, Settled, BlockRemoved, BeginMarker, EndMarker;
    CleanedFully(w, state);
    BlockRemovedKeeps(w, state.userConfigPath, state.target, faults);
    if state.userConfigPath != "" && state.target != ""
      && BlockRemoved(w, state.userConfigPath, state.target, faults).1 {
      BlockRemovedSettles(w, state.userConfigPath, state.target, faults);
    }
  }

  lemma BlockRemovedSettles(w: World, path: string, alias: string, faults: set<CleanupFault>)
    requires BlockRemoved(w, path, alias, faults).1 && path != "" && alias != ""
    ensures var text := TextAt(BlockRemoved(w, path, alias, faults).0.userConfigs, path);
      Settled(text, BeginMarker(alias), EndMarker(alias))
  {
    hide RemoveBlocks, Settled;
    RemoveSettles(TextAt(w.userConfigs, path), BeginMarker(alias), EndMarker(alias));
  }

  /** Disconnect clears the record only after every recorded artifact is gone; otherwise it keeps
      the record as it is. */
  lemma DisconnectClearsLast(w: World, faults: set<CleanupFault>)
    requires w.record.Some?
    ensures var after := Disconnected(w, faults).0;
      && (after.record == None || after.record == w.record) && (Disconnected(w, faults).1 <==> after.record == None)
      && (after.record == None ==> Gone(after, w.record.value))
      && (LoadRecord !in faults ==> w.record.value.pid !in after.alive)
  {
    hide Cleaned, ArtifactsGone;
    var state := w.record.value;
    CleanedGone(Killed(w, state.pid), state, faults);
    CleanedKeeps(Killed(w, state.pid), state, faults);
    RecordNotArtifact(Cleaned(Killed(w, state.pid), state, faults).0, state);
  }

  lemma RecordNotArtifact(w: World, state: SessionRecord)
    ensures ArtifactsGone(w.(record := None), state) <==> ArtifactsGone(w, state)
  {
    hide Settled;
  }

  lemma BlockRemovedKeeps(w: World, path: string, alias: string, faults: set<CleanupFault>)
    ensures var w' := BlockRemoved(w, path, alias, faults).0; w' == w.(userConfigs := w'.userConfigs)
  {
    hide Removed;
  }

  /** The session files, in the order they are taken away: the first that cannot be removed stays, and so does the other
      one if it comes later; a missing file is no error. */
  lemma FilesRemovedContract(w: World, configPath: string, knownHostsPath: string, faults: set<CleanupFault>)
    requires configPath != "" && knownHostsPath != "" && configPath != knownHostsPath
    ensures var (w', ok) := FilesRemoved(w, configPath, knownHostsPath, faults);
      var configStays := configPath in w.sshFiles && RemoveSshConfig in faults;
      var knownStays := knownHostsPath in w.sshFiles && (configStays || RemoveKnownHosts in faults);
      && w' == w.(sshFiles := w.sshFiles - (if configStays then {} else {configPath})
                              - (if knownStays then {} else {knownHostsPath}))
      && (ok <==> !configStays && !knownStays)
  {
  }

  /** `ensureNoActiveSession` lets connect go on only without a record; a session that is not stale it leaves alone. */
  lemma NoActiveContract(w: World, faults: ConnectFaults)
    ensures var (w1, ok) := NoActiveSession(w, faults);
      && (if ok then w1.record.None? else w1.record == w.record) && w1.alive == w.alive && w1.pids == w.pids
      && (w.record.None? || !IsStale(w, w.record.value) ==> w1 == w && (ok ==> w.record.None?))
      && (ok && w.record.Some? ==> IsStale(w, w.record.value) && ArtifactsGone(w1, w.record.value))
      && (!faults.recordUnreadable && w.record.None? ==> ok)
      && (!faults.recordUnreadable && faults.stale == {} && w.record.Some? && IsStale(w, w.record.value) ==> ok)
  {
    hide Cleaned, ArtifactsGone;
    if w.record.Some? {
      CleanedGone(w, w.record.value, faults.stale);
      CleanedKeeps(w, w.record.value, faults.stale);
      RecordNotArtifact(Cleaned(w, w.record.value, faults.stale).0, w.record.value);
    }
  }

  /** Each part of a cleanup is a stretch of the way: finishing it later gives what doing it at
      once would have given. */
  lemma BlockRemovedResumes(w: World, path: string, alias: string, faults: set<CleanupFault>)
    ensures var w1 := BlockRemoved(w, path, alias, faults).0;
      BlockRemoved(w1, path, alias, {}).0.userConfigs == BlockRemoved(w, path, alias, {}).0.userConfigs
    ensures BlockRemoved(w, path, alias, {}).1
  {
    hide RemoveBlocks;
    RemoveIdempotent(TextAt(w.userConfigs, path), BeginMarker(alias), EndMarker(alias));
  }

  /** What a disconnect without faults leaves, in closed form. */
  function FullyDisconnected(w: World, state: SessionRecord): World {
    World(None, w.sshFiles - Paths(state.sshConfigPath) - Paths(state.knownHostsPath),
          BlockRemoved(w, state.userConfigPath, state.target, {}).0.userConfigs,
          w.profiles - Paths(state.profileDir), w.alive - {state.pid}, w.pids)
  }

  function Paths(path: string): set<string> {
    if path == "" then {} else {path}
  }

  lemma FileRemovedParts(w: World, path: string, fault: CleanupFault, faults: set<CleanupFault>)
    ensures var (w', ok) := FileRemoved(w, path, fault, faults);
      && w' == w.(sshFiles := w'.sshFiles) && w'.sshFiles in {w.sshFiles, w.sshFiles - Paths(path)}
      && (ok ==> w'.sshFiles == w.sshFiles - Paths(path)) && (fault !in faults ==> ok)
  {
    assert path !in w.sshFiles ==> w.sshFiles - {path} == w.sshFiles;
  }

  lemma ProfileRemovedParts(w: World, dir: string, faults: set<CleanupFault>)
    ensures var (w', ok) := ProfileRemoved(w, dir, faults);
      && w' == w.(profiles := w'.profiles) && w'.profiles in {w.profiles, w.profiles - Paths(dir)}
      && (ok ==> w'.profiles == w.profiles - Paths(dir)) && (RemoveProfile !in faults ==> ok)
  {
    assert dir !in w.profiles ==> w.profiles - {dir} == w.profiles;
  }

  /** How far a cleanup may have come. */
  predicate PartlyCleaned(w: World, state: SessionRecord, w': World) {
    && w' == w.(sshFiles := w'.sshFiles, userConfigs := w'.userConfigs, profiles := w'.profiles)
    && w'.sshFiles in {w.sshFiles, w.sshFiles - Paths(state.sshConfigPath),
                       w.sshFiles - Paths(state.sshConfigPath) - Paths(state.knownHostsPath)}
    && w'.profiles in {w.profiles, w.profiles - Paths(state.profileDir)}
    && BlockRemoved(w', state.userConfigPath, state.target, {}).0.userConfigs
       == BlockRemoved(w, state.userConfigPath, state.target, {}).0.userConfigs
  }

  lemma SameConfigsSameRemoval(w: World, w': World, path: string, alias: string, faults: set<CleanupFault>)
    requires w.userConfigs == w'.userConfigs
    ensures BlockRemoved(w, path, alias, faults).0.userConfigs == BlockRemoved(w', path, alias, faults).0.userConfigs
  {
    hide Removed;
  }

  lemma CleanedParts(w: World, state: SessionRecord, faults: set<CleanupFault>)
    ensures PartlyCleaned(w, state, Cleaned(w, state, faults).0)
  {
    hide BlockRemoved, FileRemoved, ProfileRemoved;
    var (w1, ok1) := BlockRemoved(w, state.userConfigPath, state.target, faults);
    BlockRemovedKeeps(w, state.userConfigPath, state.target, faults);
    BlockRemovedResumes(w, state.userConfigPath, state.target, faults);
    var (w2, ok2) := FileRemoved(w1, state.sshConfigPath, RemoveSshConfig, faults);
    FileRemovedParts(w1, state.sshConfigPath, RemoveSshConfig, faults);
    var (w3, ok3) := FileRemoved(w2, state.knownHostsPath, RemoveKnownHosts, faults);
    FileRemovedParts(w2, state.knownHostsPath, RemoveKnownHosts, faults);
    ProfileRemovedParts(w3, state.profileDir, faults);
    var w' := Cleaned(w, state, faults).0;
    assert w'.userConfigs == w1.userConfigs;
    SameConfigsSameRemoval(w1, w', state.userConfigPath, state.target, {});
  }

  /** A cleanup without faults goes all the way. */
  lemma CleanedFully(w: World, state: SessionRecord)
    ensures Cleaned(w, state, {}).1
    ensures Cleaned(w, state, {}).0 == w.(
        sshFiles := w.sshFiles - Paths(state.sshConfigPath) - Paths(state.knownHostsPath),
        userConfigs := BlockRemoved(w, state.userConfigPath, state.target, {}).0.userConfigs,
        profiles := w.profiles - Paths(state.profileDir))
  {
    hide BlockRemoved, FileRemoved, ProfileRemoved;
    var w1 := BlockRemoved(w, state.userConfigPath, state.target, {}).0;
    BlockRemovedKeeps(w, state.userConfigPath, state.target, {});
    BlockRemovedResumes(w, state.userConfigPath, state.target, {});
    var w2 := FileRemoved(w1, state.sshConfigPath, RemoveSshConfig, {}).0;
    FileRemovedParts(w1, state.sshConfigPath, RemoveSshConfig, {});
    FileRemovedParts(w2, state.knownHostsPath, RemoveKnownHosts, {});
    ProfileRemovedParts(FileRemoved(w2, state.knownHostsPath, RemoveKnownHosts, {}).0, state.profileDir, {});
  }

  lemma BlockRemovedThrough(w: World, path: string, alias: string, faults: set<CleanupFault>)
    requires BlockRemoved(w, path, alias, faults).1
    ensures BlockRemoved(w, path, alias, faults) == BlockRemoved(w, path, alias, {})
  {
    hide Removed;
  }

  /** A cleanup that reports no error did all of it. */
  lemma CleanedThrough(w: World, state: SessionRecord, faults: set<CleanupFault>)
    requires Cleaned(w, state, faults).1
    ensures Cleaned(w, state, faults) == Cleaned(w, state, {})
  {
    hide BlockRemoved, FileRemoved, ProfileRemoved;
    BlockRemovedThrough(w, state.userConfigPath, state.target, faults);
    var w1 := BlockRemoved(w, state.userConfigPath, state.target, {}).0;
    FileRemovedParts(w1, state.sshConfigPath, RemoveSshConfig, faults);
    FileRemovedParts(w1, state.sshConfigPath, RemoveSshConfig, {});
    var w2 := FileRemoved(w1, state.sshConfigPath, RemoveSshConfig, {}).0;
    FileRemovedParts(w2, state.knownHostsPath, RemoveKnownHosts, faults);
    FileRemovedParts(w2, state.knownHostsPath, RemoveKnownHosts, {});
    var w3 := FileRemoved(w2, state.knownHostsPath, RemoveKnownHosts, {}).0;
    ProfileRemovedParts(w3, state.profileDir, faults);
    ProfileRemovedParts(w3, state.profileDir, {});
  }

  lemma DisconnectedFully(w: World, state: SessionRecord)
    requires w.record == Some(state)
    ensures Disconnected(w, {}) == (FullyDisconnected(w, state), true)
  {
    hide Cleaned, BlockRemoved;
    CleanedFully(Killed(w, state.pid), state);
    SameConfigsSameRemoval(Killed(w, state.pid), w, state.userConfigPath, state.target, {});
  }

  /** Nothing is lost by starting over from where a cleanup stopped. */
  lemma PartlyThenFully(w: World, state: SessionRecord, w': World)
    requires PartlyCleaned(Killed(w, state.pid), state, w')
    ensures FullyDisconnected(w', state) == FullyDisconnected(w, state)
  {
    hide BlockRemoved;
    var config, known, profile := Paths(state.sshConfigPath), Paths(state.knownHostsPath), Paths(state.profileDir);
    SameConfigsSameRemoval(Killed(w, state.pid), w, state.userConfigPath, state.target, {});
    assert w'.sshFiles - config - known == w.sshFiles - config - known;
    assert w'.profiles - profile == w.profiles - profile;
    assert w'.alive - {state.pid} == w.alive - {state.pid};
  }

  /** However a disconnect fails, a later one without faults leaves what it would have left at once. */
  lemma DisconnectResumes(w: World, faults: set<CleanupFault>)
    ensures Disconnected(Disconnected(w, faults).0, {}).0 == Disconnected(w, {}).0
  {
    hide Cleaned, FullyDisconnected, PartlyCleaned;
    if w.record.Some? && LoadRecord !in faults {
      var state := w.record.value;
      var w' := Cleaned(Killed(w, state.pid), state, faults).0;
      CleanedKeeps(Killed(w, state.pid), state, faults);
      CleanedParts(Killed(w, state.pid), state, faults);
      PartlyThenFully(w, state, w');
      DisconnectedFully(w, state);
      DisconnectedFully(w', state);
      if Disconnected(w, faults).1 {
        CleanedThrough(Killed(w, state.pid), state, faults);
      }
    }
  }

  /** The world after disconnecting again and again. */
  function DisconnectedEach(w: World, attempts: seq<set<CleanupFault>>): World
    decreases |attempts|
  {
    if attempts == [] then w else DisconnectedEach(Disconnected(w, attempts[0]).0, attempts[1..])
  }

  lemma {:induction false} DisconnectedStays(w: World, attempts: seq<set<CleanupFault>>)
    requires w.record.None?
    ensures DisconnectedEach(w, attempts) == w
    decreases |attempts|
  {
    if attempts != [] {
      DisconnectedStays(w, attempts[1..]);
    }
  }

  /** Repeated attempts converge: as soon as one of them meets no error, the world is the one a single disconnect
      without errors would have left, whatever went wrong before, and whatever attempts follow. */
  lemma {:induction false} DisconnectConverges(w: World, attempts: seq<set<CleanupFault>>)
    requires {} in attempts
    ensures DisconnectedEach(w, attempts) == Disconnected(w, {}).0
    ensures DisconnectedEach(w, attempts).record.None?
    decreases |attempts|
  {
    hide Cleaned;
    if w.record.Some? {
      DisconnectedFully(w, w.record.value);
    }
    if attempts[0] == {} {
      DisconnectedStays(Disconnected(w, {}).0, attempts[1..]);
    } else {
      DisconnectResumes(w, attempts[0]);
      DisconnectConverges(Disconnected(w, attempts[0]).0, attempts[1..]);
    }
  }

  // ----- Connect, then disconnect

  /** A connect without faults, whose options pass their check, succeeds. */
  lemma NoFaultsSucceed(w: World, req: Request, faults: ConnectFaults)
    requires w.record.None? && !faults.loadFails && !faults.recordUnreadable && !faults.refused && faults.steps == {}
    requires req.managesUserConfig ==> ValidUserConfig(req)
    ensures Connected(w, req, faults) == (After(req, w, SIZE), Done)
  {
    hide Exec, After;
    ExecIsAfter(req, w, {});
  }

  /** Connecting and disconnecting leaves the world as it was: no record, no session files, no profile, no supervisor,
      and the user's configuration as it was but for leading line ends, when it held no block of the target before. */
  lemma ConnectThenDisconnect(w: World, req: Request, faults: ConnectFaults)
    requires Named(req) && FreshPid(w, req) && w.record.None? && w.alive <= w.pids
    requires Connected(w, req, faults).1 == Done
    requires req.managesUserConfig ==> Unmanaged(w, req) && req.userConfigPath != ""
    requires req.sshConfigPath !in w.sshFiles && req.knownHostsPath !in w.sshFiles && req.profileDir !in w.profiles
    ensures var after := Disconnected(Connected(w, req, faults).0, {}).0;
      && after == w.(userConfigs := after.userConfigs, pids := w.pids + {req.pid})
      && (forall path :: TextAt(after.userConfigs, path) ==
            if req.managesUserConfig && path == req.userConfigPath then TrimLeft(TextAt(w.userConfigs, path))
              else TextAt(w.userConfigs, path))
  {
    hide Exec, Cleaned, Rank, ActionAt, Fails, Included, TextAt, TrimLeft, Unmanaged;
    ExecIsAfter(req, w, faults.steps);
    var connected, state := After(req, w, SIZE), StateAfter(req, SIZE);
    CleanedWhole(Killed(connected, req.pid), state);
    ConnectedRecord(req, w);
    TextsComeBack(w, req, Cleaned(Killed(connected, req.pid), state, {}).0.userConfigs);
    assert w.sshFiles + {req.knownHostsPath} + {req.sshConfigPath} - {req.sshConfigPath} - {req.knownHostsPath}
      == w.sshFiles;
    assert w.profiles + {req.profileDir} - {req.profileDir} == w.profiles;
    assert w.alive + {req.pid} - {req.pid} == w.alive;
  }

  lemma TextsComeBack(w: World, req: Request, after: map<string, string>)
    requires req.managesUserConfig ==> Unmanaged(w, req) && req.userConfigPath != ""
    requires var connected, state := After(req, w, SIZE), StateAfter(req, SIZE);
      forall path :: TextAt(after, path) ==
        if path == state.userConfigPath != "" then Removed(TextAt(connected.userConfigs, path), state.target)
        else TextAt(connected.userConfigs, path)
    ensures forall path ::
      TextAt(after, path) ==
        if req.managesUserConfig && path == req.userConfigPath then TrimLeft(TextAt(w.userConfigs, path))
        else TextAt(w.userConfigs, path)
  {
    hide ActionAt, Removed, Upserted, Contains, OptionHolds, TrimLeft, BeginMarker, EndMarker;
    if req.managesUserConfig {
      FileComesBack(TextAt(w.userConfigs, req.userConfigPath), req.options, req.knownHostsPath);
    }
  }

  /** A successful connect has saved the record as it holds it in memory. */
  lemma ConnectedRecord(req: Request, w: World)
    ensures After(req, w, SIZE).record == Some(StateAfter(req, SIZE))
  {
    hide Rank, Upserted;
    EarlyPositions();
    LatePositions();
  }
}
