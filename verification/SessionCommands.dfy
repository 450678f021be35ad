/** The commands as they are carried out: step by step on the session record, the files and the supervisors, with an
    early return and a rollback at each step that can fail. */
module SessionCommands {
  import opened Lines
  import opened SshConfig
  import opened SshConfigReader
  import opened UserConfig
  import opened Markers
  import opened ManagedBlock
  import opened Lifecycle
  import opened LifecycleProofs

  /** One step of a course: it fails and ends the course, or has its effect and the course goes on. */
  lemma ExecStep(req: Request, w: World, state: SessionRecord, a: Action, at: nat, until: nat, faults: set<Action>)
    requires at == Rank(a) < until && Included(req, a)
    ensures Exec(req, w, state, at, until, faults) ==
      if Fails(req, a, faults) then Progress(w, state, Some(a))
      else Exec(req, Effect(req, a, w, state).0, Effect(req, a, w, state).1, at + 1, until, faults)
  {
    hide ActionAt, Included, Fails, Effect, Rank;
    ActionBack(a);
  }

  lemma ExecNothing(req: Request, w: World, state: SessionRecord, at: nat, faults: set<Action>)
    ensures Exec(req, w, state, at, at, faults) == Progress(w, state, None)
  {
  }

  /** Steps that a request leaves out do nothing. */
  lemma {:induction false} ExecSkips(req: Request, w: World, state: SessionRecord, from: nat, mid: nat, until: nat,
      faults: set<Action>)
    requires from <= mid <= until && forall i :: from <= i < mid ==> !Included(req, ActionAt(i))
    ensures Exec(req, w, state, from, until, faults) == Exec(req, w, state, mid, until, faults)
    decreases mid - from
  {
    hide ActionAt, Included, Fails, Effect;
    if from < mid {
      ExecSkips(req, w, state, from + 1, mid, until, faults);
    }
  }

  /** The machine a command runs on, and the session record it holds in memory. */
  class Machine {
    var w: World
    var state: SessionRecord

    constructor (w: World, state: SessionRecord)
      ensures this.w == w && this.state == state
    {
      this.w, this.state := w, state;
    }

    // ----- Parts of connect

    /** `WriteSessionFiles`. */
    method WriteSessionFiles(req: Request, faults: set<Action>) returns (failed: Option<Action>)
      modifies this
      ensures Progress(w, state, failed) == Exec(req, old(w), old(state), 0, 5, faults)
      ensures failed.None? <==>
        faults !! {MakeSshDir, WriteKnownHosts, ModeKnownHosts, WriteSshConfig, ModeSshConfig}
      ensures failed.None? ==> w == old(w).(sshFiles := old(w).sshFiles + {req.knownHostsPath} + {req.sshConfigPath})
    {
      hide Exec;
      ExecStep(req, w, state, MakeSshDir, 0, 5, faults);
      if MakeSshDir in faults {
        return Some(MakeSshDir);
      }
      ExecStep(req, w, state, WriteKnownHosts, 1, 5, faults);
      if WriteKnownHosts in faults {
        return Some(WriteKnownHosts);
      }
      w := w.(sshFiles := w.sshFiles + {req.knownHostsPath});
      ExecStep(req, w, state, ModeKnownHosts, 2, 5, faults);
      if ModeKnownHosts in faults {
        return Some(ModeKnownHosts);
      }
      ExecStep(req, w, state, WriteSshConfig, 3, 5, faults);
      if WriteSshConfig in faults {
        return Some(WriteSshConfig);
      }
      w := w.(sshFiles := w.sshFiles + {req.sshConfigPath});
      ExecStep(req, w, state, ModeSshConfig, 4, 5, faults);
      if ModeSshConfig in faults {
        return Some(ModeSshConfig);
      }
      ExecNothing(req, w, state, 5, faults);
      failed := None;
    }

    /** `Store.Save`. */
    method Save(req: Request, point: SavePoint, faults: set<Action>) returns (failed: Option<Action>)
      requires SaveIncluded(req, point)
      modifies this
      ensures var first := Rank(MakeSessionDir(point));
        Progress(w, state, failed) == Exec(req, old(w), old(state), first, first + 3, faults)
      ensures failed.None? <==> faults !! {MakeSessionDir(point), WriteRecord(point), ModeRecord(point)}
      ensures w == old(w).(record := w.record) && state == old(state)
      ensures w.record == if faults !! {MakeSessionDir(point), WriteRecord(point)} then Some(state) else old(w).record
    {
      hide Exec;
      var first := Rank(MakeSessionDir(point));
      ExecStep(req, w, state, MakeSessionDir(point), first, first + 3, faults);
      if MakeSessionDir(point) in faults {
        return Some(MakeSessionDir(point));
      }
      ExecStep(req, w, state, WriteRecord(point), first + 1, first + 3, faults);
      if WriteRecord(point) in faults {
        return Some(WriteRecord(point));
      }
      w := w.(record := Some(state));
      ExecStep(req, w, state, ModeRecord(point), first + 2, first + 3, faults);
      if ModeRecord(point) in faults {
        return Some(ModeRecord(point));
      }
      ExecNothing(req, w, state, first + 3, faults);
      failed := None;
    }

    /** `UpsertManagedBlock`, and the path lookup before it. */
    method UpsertManagedBlock(req: Request, faults: set<Action>) returns (failed: Option<Action>)
      requires req.managesUserConfig
      modifies this
      ensures Progress(w, state, failed) == Exec(req, old(w), old(state), 14, 20, faults)
      ensures failed.None? && PlainOptions(req.options, req.knownHostsPath) ==> HoldsSession(w, req)
    {
      hide Exec, Upserted, ValidUserConfig, HoldsSession, PlainOptions;
      ExecStep(req, w, state, FindUserConfig, 14, 20, faults);
      if FindUserConfig in faults {
        return Some(FindUserConfig);
      }
      ExecStep(req, w, state, CheckUserConfig, 15, 20, faults);
      if !ValidUserConfig(req) {
        return Some(CheckUserConfig);
      }
      ExecStep(req, w, state, ReadUserConfig, 16, 20, faults);
      if ReadUserConfig in faults {
        return Some(ReadUserConfig);
      }
      var content := TextAt(w.userConfigs, req.userConfigPath);
      var updated := Upserted(content, req.options, req.knownHostsPath);
      if PlainOptions(req.options, req.knownHostsPath) {
        WrittenHoldsSession(w, req);
      }
      failed := WriteConfigFile(req, updated, faults);
    }

    /** `writeUserConfig`. */
    method WriteConfigFile(req: Request, updated: string, faults: set<Action>) returns (failed: Option<Action>)
      requires req.managesUserConfig
      requires updated == Upserted(TextAt(w.userConfigs, req.userConfigPath), req.options, req.knownHostsPath)
      modifies this
      ensures Progress(w, state, failed) == Exec(req, old(w), old(state), 17, 20, faults)
      ensures failed.None? <==> faults !! {MakeConfigDir, WriteUserConfig, ModeUserConfig}
      ensures w == if faults !! {MakeConfigDir, WriteUserConfig}
        then old(w).(userConfigs := old(w).userConfigs[req.userConfigPath := updated]) else old(w)
    {
      hide Exec, Upserted;
      ExecStep(req, w, state, MakeConfigDir, 17, 20, faults);
      if MakeConfigDir in faults {
        return Some(MakeConfigDir);
      }
      ExecStep(req, w, state, WriteUserConfig, 18, 20, faults);
      if WriteUserConfig in faults {
        return Some(WriteUserConfig);
      }
      w := w.(userConfigs := w.userConfigs[req.userConfigPath := updated]);
      ExecStep(req, w, state, ModeUserConfig, 19, 20, faults);
      if ModeUserConfig in faults {
        return Some(ModeUserConfig);
      }
      ExecNothing(req, w, state, 20, faults);
      failed := None;
    }

    /** `PrepareUserDataDir`. */
    method PrepareUserDataDir(req: Request, faults: set<Action>) returns (failed: Option<Action>)
      requires HasProfile(req)
      modifies this
      ensures Progress(w, state, failed) == Exec(req, old(w), old(state), 25, 28, faults)
      ensures failed.None? <==> faults !! {MakeProfile, WriteSettings, ModeSettings}
      ensures w == old(w).(profiles := if MakeProfile in faults then old(w).profiles
                                       else old(w).profiles + {req.profileDir})
    {
      hide Exec;
      ExecStep(req, w, state, MakeProfile, 25, 28, faults);
      if MakeProfile in faults {
        return Some(MakeProfile);
      }
      w := w.(profiles := w.profiles + {req.profileDir});
      ExecStep(req, w, state, WriteSettings, 26, 28, faults);
      if WriteSettings in faults {
        return Some(WriteSettings);
      }
      ExecStep(req, w, state, ModeSettings, 27, 28, faults);
      if ModeSettings in faults {
        return Some(ModeSettings);
      }
      ExecNothing(req, w, state, 28, faults);
      failed := None;
    }

    // ----- Cleaning up

    /** `RemoveManagedBlock`: the file is read, and written back only if it changed. */
    method RemoveManagedBlock(path: string, alias: string, faults: set<CleanupFault>) returns (ok: bool)
      modifies this`w
      ensures (w, ok) == BlockRemoved(old(w), path, alias, faults)
      ensures w == old(w).(userConfigs := w.userConfigs)
      ensures forall other :: other != path ==> TextAt(w.userConfigs, other) == TextAt(old(w).userConfigs, other)
      ensures ok && path != "" && alias != "" ==>
        && TextAt(w.userConfigs, path) == Removed(TextAt(old(w).userConfigs, path), alias)
        && Settled(TextAt(w.userConfigs, path), BeginMarker(alias), EndMarker(alias))
      ensures !ok ==>
        TextAt(w.userConfigs, path)
        in {TextAt(old(w).userConfigs, path), Removed(TextAt(old(w).userConfigs, path), alias)}
      ensures path == "" || alias == "" ==> ok && w == old(w)
      ensures path != "" && alias != "" ==>
        var settled := Settled(TextAt(old(w).userConfigs, path), BeginMarker(alias), EndMarker(alias));
        && (ok <==> CleanRead !in faults && (settled || faults !! {CleanWrite, CleanMode}))
        && (settled || CleanRead in faults || CleanWrite in faults ==> w == old(w))
    {
      hide Removed, Settled, BeginMarker, EndMarker;
      BlockRemovedTexts(w, path, alias, faults);
      if path == "" || alias == "" {
        return true;
      }
      if CleanRead in faults {
        return false;
      }
      var content := TextAt(w.userConfigs, path);
      var updated := Removed(content, alias);
      if updated == content {
        return true;
      }
      if CleanWrite in faults {
        return false;
      }
      w := w.(userConfigs := w.userConfigs[path := updated]);
      ok := CleanMode !in faults;
    }

    /** `Cleanup` of the session files: the loop over the two paths. */
    method CleanupFiles(configPath: string, knownHostsPath: string, faults: set<CleanupFault>) returns (ok: bool)
      modifies this`w
      ensures (w, ok) == FilesRemoved(old(w), configPath, knownHostsPath, faults)
      ensures w == old(w).(sshFiles := w.sshFiles)
      ensures ok ==> configPath !in w.sshFiles - {""} && knownHostsPath !in w.sshFiles - {""}
    {
      var paths := [(configPath, RemoveSshConfig), (knownHostsPath, RemoveKnownHosts)];
      var i := 0;
      while i < |paths|
        invariant i <= 2
        invariant i == 0 ==> w == old(w)
        invariant i == 1 ==> (w, true) == FileRemoved(old(w), configPath, RemoveSshConfig, faults)
        invariant i == 2 ==> (w, true) == FilesRemoved(old(w), configPath, knownHostsPath, faults)
      {
        var (path, fault) := paths[i];
        if path != "" && path in w.sshFiles {
          if fault in faults {
            return false;
          }
          w := w.(sshFiles := w.sshFiles - {path});
        }
        i := i + 1;
      }
      ok := true;
    }

    method CleanupUserDataDir(dir: string, faults: set<CleanupFault>) returns (ok: bool)
      modifies this`w
      ensures (w, ok) == ProfileRemoved(old(w), dir, faults)
      ensures if ok then w == old(w).(profiles := w.profiles) && dir !in w.profiles - {""} else w == old(w)
    {
      if dir == "" || dir !in w.profiles {
        return true;
      }
      if RemoveProfile in faults {
        return false;
      }
      w := w.(profiles := w.profiles - {dir});
      ok := true;
    }

    /** `cleanupSessionArtifacts`. */
    method CleanupSessionArtifacts(recorded: SessionRecord, faults: set<CleanupFault>) returns (ok: bool)
      modifies this`w
      ensures (w, ok) == Cleaned(old(w), recorded, faults)
      ensures ok ==> ArtifactsGone(w, recorded)
      ensures PartlyCleaned(old(w), recorded, w) && (faults == {} ==> ok)
    {
      hide BlockRemoved, FilesRemoved, ProfileRemoved, ArtifactsGone, PartlyCleaned;
      CleanedGone(w, recorded, faults);
      CleanedParts(w, recorded, faults);
      ok := RemoveManagedBlock(recorded.userConfigPath, recorded.target, faults);
      if !ok {
        return;
      }
      ok := CleanupFiles(recorded.sshConfigPath, recorded.knownHostsPath, faults);
      if !ok {
        return;
      }
      ok := CleanupUserDataDir(recorded.profileDir, faults);
    }

    /** `Store.Clear`. */
    method Clear(faults: set<CleanupFault>) returns (ok: bool)
      modifies this`w
      ensures (w, ok) == Cleared(old(w), faults)
      ensures ok <==> w.record.None?
      ensures w == old(w).(record := w.record) && (!ok ==> w == old(w)) && (ClearFile !in faults ==> ok)
    {
      if w.record.None? {
        return true;
      }
      if ClearFile in faults {
        return false;
      }
      w := w.(record := None);
      ok := true;
    }

    /** What connect does about its session files and record when preflight, the supervisor or the
        save of its pid fails. */
    method RollBackFiles(ghost failed: Action, faults: set<CleanupFault>)
      requires Rank(RunPreflight) <= Rank(failed) < Rank(FindUserConfig)
      modifies this`w
      ensures w == RolledBack(Progress(old(w), state, Some(failed)), faults)
    {
      hide FilesRemoved, Cleared;
      var _ := CleanupFiles(state.sshConfigPath, state.knownHostsPath, faults);
      var _ := Clear(faults);
    }

    /** What connect does when a later step fails. */
    method RollBackAll(ghost failed: Action, faults: set<CleanupFault>)
      requires Rank(FindUserConfig) <= Rank(failed)
      modifies this`w
      ensures w == RolledBack(Progress(old(w), state, Some(failed)), faults)
    {
      hide Cleaned, Cleared;
      var _ := CleanupSessionArtifacts(state, faults);
      var _ := Clear(faults);
    }

    /** `ensureNoActiveSession`. */
    method EnsureNoActiveSession(faults: ConnectFaults) returns (ok: bool)
      modifies this`w
      ensures (w, ok) == NoActiveSession(old(w), faults)
      ensures (if ok then w.record.None? else w.record == old(w).record) && w.alive == old(w).alive
      ensures old(w).record.None? || !IsStale(old(w), old(w).record.value) ==>
        w == old(w) && (ok ==> old(w).record.None?)
      ensures ok && old(w).record.Some? ==>
        IsStale(old(w), old(w).record.value) && ArtifactsGone(w, old(w).record.value)
      ensures !faults.recordUnreadable && old(w).record.None? ==> ok
      ensures !faults.recordUnreadable && faults.stale == {} && old(w).record.Some? ==>
        IsStale(old(w), old(w).record.value) ==> ok
    {
      hide Cleaned, Cleared, ArtifactsGone;
      NoActiveContract(w, faults);
      if faults.recordUnreadable {
        return false;
      }
      if w.record.None? {
        return true;
      }
      if !IsStale(w, w.record.value) {
        return false;
      }
      ok := CleanupSessionArtifacts(w.record.value, faults.stale);
      if !ok {
        return;
      }
      ok := Clear(faults.stale);
    }

    // ----- The commands

    /** `Prepare`, from the first file on. */
    method Prepare(req: Request, faults: set<Action>) returns (failed: Option<Action>)
      modifies this
      ensures Progress(w, state, failed) == Exec(req, old(w), old(state), 0, 8, faults)
    {
      hide Exec;
      ExecJoin(req, w, state, 0, 5, 8, faults);
      failed := WriteSessionFiles(req, faults);
      if failed.Some? {
        return;
      }
      failed := Save(req, OfPrepare, faults);
    }

    /** Preflight, the start of the supervisor, and the save of its pid. */
    method StartTunnel(req: Request, faults: set<Action>) returns (failed: Option<Action>)
      modifies this
      ensures Progress(w, state, failed) == Exec(req, old(w), old(state), 8, 14, faults)
    {
      hide Exec;
      ExecStep(req, w, state, RunPreflight, 8, 14, faults);
      if RunPreflight in faults {
        return Some(RunPreflight);
      }
      ExecStep(req, w, state, StartSupervisor, 9, 14, faults);
      if StartSupervisor in faults {
        return Some(StartSupervisor);
      }
      w := w.(alive := w.alive + {req.pid}, pids := w.pids + {req.pid});
      ExecStep(req, w, state, NotePid, 10, 14, faults);
      state := state.(pid := req.pid);
      failed := Save(req, OfPid, faults);
    }

    /** The block in the user's SSH configuration, and the save of its path. */
    method ManageUserConfig(req: Request, faults: set<Action>) returns (failed: Option<Action>)
      requires req.managesUserConfig
      modifies this
      ensures Progress(w, state, failed) == Exec(req, old(w), old(state), 14, 24, faults)
    {
      hide Exec;
      ExecJoin(req, w, state, 14, 20, 24, faults);
      failed := UpsertManagedBlock(req, faults);
      if failed.Some? {
        return;
      }
      ExecStep(req, w, state, NoteUserConfig, 20, 24, faults);
      state := state.(userConfigPath := req.userConfigPath);
      failed := Save(req, OfUserConfig, faults);
    }

    /** The profile directory, and the save of its path. */
    method IsolateProfile(req: Request, faults: set<Action>) returns (failed: Option<Action>)
      requires HasProfile(req)
      modifies this
      ensures Progress(w, state, failed) == Exec(req, old(w), old(state), 25, 32, faults)
    {
      hide Exec;
      ExecJoin(req, w, state, 25, 28, 32, faults);
      failed := PrepareUserDataDir(req, faults);
      if failed.Some? {
        return;
      }
      ExecStep(req, w, state, NoteProfile, 28, 32, faults);
      state := state.(profileDir := req.profileDir);
      failed := Save(req, OfProfile, faults);
    }

    /** Remote setup, profile directory and launch. */
    method LaunchCodeSteps(req: Request, faults: set<Action>) returns (failed: Option<Action>)
      requires req.launchesCode
      modifies this
      ensures Progress(w, state, failed) == Exec(req, old(w), old(state), 24, SIZE, faults)
    {
      hide Exec;
      if !req.setsUpRemote {
        ExecSkips(req, w, state, 24, 25, SIZE, faults);
      } else {
        ExecStep(req, w, state, SetUpRemote, 24, SIZE, faults);
        if SetUpRemote in faults {
          return Some(SetUpRemote);
        }
      }
      if req.isolatedProfile {
        ExecJoin(req, w, state, 25, 32, SIZE, faults);
        failed := IsolateProfile(req, faults);
        if failed.Some? {
          return;
        }
      } else {
        ExecSkips(req, w, state, 25, 32, SIZE, faults);
      }
      ExecStep(req, w, state, LaunchCode, 32, SIZE, faults);
      if LaunchCode in faults {
        return Some(LaunchCode);
      }
      ExecNothing(req, w, state, SIZE, faults);
      failed := None;
    }

    /** `connect`. */
    method Connect(req: Request, faults: ConnectFaults) returns (outcome: Outcome)
      modifies this
      ensures (w, outcome) == Connected(old(w), req, faults)
      ensures Explained(old(w), req, faults, w, outcome)
    {
      hide Exec, NoActiveSession, RolledBack, Effect, Fails, Explained;
      ConnectExplained(w, req, faults);
      if faults.loadFails {
        return Rejected;
      }
      var ok := EnsureNoActiveSession(faults);
      if !ok || faults.refused {
        return Rejected;
      }
      state := NewRecord(req);
      var steps := faults.steps;

      ExecJoin(req, w, state, 0, 8, SIZE, steps);
      FailureRank(req, w, state, 0, 8, steps);
      var failed := Prepare(req, steps);
      if failed.Some? {
        NothingRolledBack(Progress(w, state, failed), faults.rollback);
        return Failed(failed.value);
      }

      ExecJoin(req, w, state, 8, 14, SIZE, steps);
      FailureRank(req, w, state, 8, 14, steps);
      failed := StartTunnel(req, steps);
      if failed.Some? {
        RollBackFiles(failed.value, faults.rollback);
        return Failed(failed.value);
      }

      if req.managesUserConfig {
        ExecJoin(req, w, state, 14, 24, SIZE, steps);
        FailureRank(req, w, state, 14, 24, steps);
        failed := ManageUserConfig(req, steps);
        if failed.Some? {
          RollBackAll(failed.value, faults.rollback);
          return Failed(failed.value);
        }
      } else {
        ExecSkips(req, w, state, 14, 24, SIZE, steps);
      }

      if req.launchesCode {
        FailureRank(req, w, state, 24, SIZE, steps);
        failed := LaunchCodeSteps(req, steps);
        if failed.Some? {
          RollBackAll(failed.value, faults.rollback);
          return Failed(failed.value);
        }
      } else {
        ExecSkips(req, w, state, 24, SIZE, SIZE, steps);
        ExecNothing(req, w, state, SIZE, steps);
      }
      outcome := Done;
    }

    /** `disconnect`. The error of the kill is ignored; errors of the cleanup keep the record. */
    method Disconnect(faults: set<CleanupFault>) returns (ok: bool)
      modifies this`w
      ensures (w, ok) == Disconnected(old(w), faults)
      ensures LoadRecord in faults ==> !ok && w == old(w)
      ensures old(w).record.None? ==> w == old(w) && (LoadRecord !in faults ==> ok)
      ensures old(w).record.Some? ==>
        && (ok <==> w.record.None?) && (!ok ==> w.record == old(w).record)
        && (ok ==> Gone(w, old(w).record.value))
        && (LoadRecord !in faults ==> old(w).record.value.pid !in w.alive)
    {
      hide Cleaned, Gone;
      if w.record.Some? {
        DisconnectClearsLast(w, faults);
      }
      if LoadRecord in faults {
        return false;
      }
      if w.record.Some? {
        var recorded := w.record.value;
        w := w.(alive := w.alive - {recorded.pid});
        ok := CleanupSessionArtifacts(recorded, faults);
        if !ok {
          return;
        }
      }
      ok := Clear(faults);
    }
  }

  /** Where the failing step of a stretch of steps stands. */
  lemma {:induction false} FailureRank(req: Request, w: World, state: SessionRecord, from: nat, until: nat,
      faults: set<Action>)
    requires from <= until <= SIZE
    ensures var p := Exec(req, w, state, from, until, faults);
      p.failedAt.Some? ==> from <= Rank(p.failedAt.value) < until
    decreases until - from
  {
    hide ActionAt, Included, Fails, Effect, Rank;
    if from < until {
      RankBack(from);
      if !Included(req, ActionAt(from)) {
        FailureRank(req, w, state, from + 1, until, faults);
      } else if !Fails(req, ActionAt(from), faults) {
        var (w', state') := Effect(req, ActionAt(from), w, state);
        FailureRank(req, w', state', from + 1, until, faults);
      }
    }
  }

  lemma NothingRolledBack(p: Progress, faults: set<CleanupFault>)
    requires p.failedAt.Some? && Rank(p.failedAt.value) < Rank(RunPreflight)
    ensures RolledBack(p, faults) == p.w
  {
  }
}
