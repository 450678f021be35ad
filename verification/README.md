# Verification of dev-connect

A Dafny model of the two parts of dev-connect that carry algorithmic weight, with proofs about all inputs, all runs and
all interleavings.

**The managed-block editor and its printers.** dev-connect keeps marked blocks inside the user's own SSH configuration,
finding, cutting and re-inserting them by substring search; it prints SSH configurations, kubectl command lines,
environments and a remote setup script, each of which something else reads. `Text` and `Lines` hold the string functions
they use; `ManagedBlock`, `Upsert`, `Markers`, `Segments` and `UserConfig` are the editor; `SshConfig` and
`SshConfigReader`, `RemoteSetup`, `Environment` and `Commands` are the printers, each with an independent reader.

**The session and tunnel lifecycle.** Connect, disconnect and the death of supervisors act on a session record, files and
live processes, and every step can fail. `Configuration` is what a session is resolved from; `Lifecycle` describes the
course of connect as 33 steps and the commands as functions of the faults they meet; `SessionCommands` carries the
commands out imperatively and is proved to do just that; `LifecycleProofs` and `LifecycleRuns` hold what is true of one
failed connect, of repeated disconnects and of every run. `ReadyLoop`, `Handshake`, `Supervisor` and `SessionLock` are the
concurrent parts: state machines whose runs are all sequences of moves.

A character stands for a byte of a file, except in environment names, where case folding sees code points. `Exec`, `Run`
and the closed form `After` are specifications: the methods are proved against them, and the lemmas speak of them.
The start of a supervisor is one step of `Lifecycle`; that its failure leaves no supervisor alive is what `Handshake` proves.

## What the code does not do

These are properties one would expect that are false of the code. Each has a lemma with the exact condition.

- The marker search does not look for the end of the line, so removing alias `dev1` destroys the block of `dev10`
  (`Segments.RemovalIsFilterIff`, `Segments.PrefixClobbers`).
- An option that holds the end marker of its alias breaks the undo of an upsert (`UserConfig.ConnectThenDisconnectIff`, and
  for options that hold begin markers as well `UserConfig.UndoneEverywhereIffOnEmpty`).
- The supervisor's command line names the target without a `--` before it, so that a target that looks like a flag cannot be
  read back and no supervisor runs for it (`Commands.SupervisorCallBack`, `Commands.SameCommand`, `Commands.FlagTarget`).
- A failed connect leaves the managed block behind when the user's file was written but its mode could not be set, and the
  VS Code profile directory when its settings could not be completed, because the record in memory learns of an artifact
  only after the call that makes it succeeded (`LifecycleProofs.CleanAfterFailureIff`).
- A connect that fails after its supervisor started does not stop it (`LifecycleProofs.SupervisorLeftIff`), so that two can
  live (`LifecycleRuns.TwoSupervisors`).
- A failed preparation is not rolled back: the files written so far stay (`LifecycleProofs.PrepareFailure`), and if the
  record was written it has no pid, is never stale and locks out every later connect
  (`LifecycleProofs.PrepareFailureLocksIff`), while status reports connected (`LifecycleRuns.StatusIsTrue`,
  `LifecycleRuns.FalselyConnected`).
- Nothing deletes the ready file, so that an old one is taken for readiness (`Handshake.FalseReadyIff`), from the first
  readiness in a session directory on (`Handshake.ReadinessSpoilsLater`).
- A proxy value with newlines can end the here-document early (`RemoteSetup.SetupKeptIff`).
- The two ways to merge an environment disagree when a name stands twice in the base (`Environment.MergesAgreeIff`).

## Model

| member | source | states |
|---|---|---|
| ManagedBlock.RemoveManagedBlock | internal/sshconfig/userconfig.go:136-154 | The removal loop, for any text and any pair of markers, ends and returns what cutting block after block gives |
| ManagedBlock.SkipNewlines | internal/sshconfig/userconfig.go:149-151 | The inner loop leaves exactly the rest of the text without its leading line ends |
| Text.TrimLeftTakes | internal/sshconfig/userconfig.go:129 | Trimming takes away carriage returns and line feeds in any order and number, and stops at anything else |
| ManagedBlock.RemoveSettles | internal/sshconfig/userconfig.go:136-154 | From every text, also when a cut joins text into a new marker, removal ends with no begin marker and no leading line end, or with a first begin marker that no end marker follows |
| ManagedBlock.RemoveFixedIffSettled | internal/sshconfig/userconfig.go:140-147 | Removal leaves a text as it is if and only if the text is in that final form |
| ManagedBlock.RemoveIdempotent | internal/sshconfig/userconfig.go:136-154 | Removing twice is removing once |
| ManagedBlock.RemoveIsSubsequence | internal/sshconfig/userconfig.go:152 | The result arises from the text by deleting characters only |
| Upsert.UpsertThenRemove | internal/sshconfig/userconfig.go:53-63 | For every file text, upsert then remove gives what remove alone gives without its leading line ends, if the body holds no end marker |
| Upsert.SecondUpsert | internal/sshconfig/userconfig.go:53-63 | A second upsert gives exactly what it would have given on the original text |
| Upsert.RemoveCrlfBlock | internal/sshconfig/userconfig.go:145-152 | A block in a file with CRLF line ends is taken out too, with all line ends behind it |
| Upsert.UpsertThenRemoveIff | internal/sshconfig/userconfig.go:53-79 | For a body without a begin marker the undo law holds on a text if and only if the body holds no end marker |
| Upsert.UndoneEverywhereIff | internal/sshconfig/userconfig.go:53-79 | For any body, whatever markers it holds, the undo law holds on every file if and only if removal takes the whole block away, that is, if it holds on the empty file |
| Markers.BeginInBegin | internal/sshconfig/userconfig.go:166-168 | The begin marker of one alias stands in that of another exactly when the one alias is a prefix of the other, or the other holds a whole marker |
| Markers.AliasMarkerPair | internal/sshconfig/userconfig.go:166-172 | The two markers of a one-line alias never stand inside each other |
| Segments.RemoveRefinesFilter | internal/sshconfig/userconfig.go:136-154 | On the list of segments of a file, removal is the filter that takes out the alias's blocks, with the line ends behind each of them and at the start |
| Segments.OthersSurvive | internal/sshconfig/userconfig.go:136-154 | That filter keeps every block of every other alias, in order, and all of the user's text but line ends |
| Segments.RemoveFromPlainFile | internal/sshconfig/userconfig.go:136-154 | For a file of terminated marker-free segments and blocks, in which no alias goes on behind the removed one: all of the above for the loop itself |
| Segments.RemoveEachRefinesFilter | internal/sshconfig/userconfig.go:66-79 | Removing any list of aliases depends only on the set of them |
| Segments.RemovalsCommute | internal/sshconfig/userconfig.go:66-79 | Removals of two aliases commute |
| Segments.PrefixClobbers | internal/sshconfig/userconfig.go:140-148 | On every such file, with any aliases, removal is the filter on the file in which each block of a longer alias has been replaced by the rest of that alias's name |
| Segments.RemovalIsFilterIff | internal/sshconfig/userconfig.go:140-148 | On every such file, removal takes out the blocks of the alias and nothing else if and only if the alias is no proper prefix of another one in the file; in any case exactly those blocks survive whose alias it is no prefix of |
| UserConfig.BodyHoldsIff | internal/sshconfig/userconfig.go:114-126 | The rendered body holds a marker of its own alias exactly when host, user, quoted identity file or quoted known_hosts path does |
| UserConfig.UpsertedText | internal/sshconfig/userconfig.go:53-63 | For every file and one-line options, the text after an upsert is the begin marker line, a body from which the SSH configuration reader recovers exactly the options, and the end marker line; then, if anything is left of the file by a removal, one empty line and that |
| UserConfig.ConnectThenDisconnectIff | internal/sshconfig/userconfig.go:53-79 | For the options of a session: the user's file comes back after upsert and removal if and only if no option holds the end marker (for options without the begin marker) |
| UserConfig.UndoneEverywhereIffOnEmpty | internal/sshconfig/userconfig.go:53-79 | For all options of a session, whatever markers they hold: every user's file comes back if and only if the empty one does |
| UserConfig.FileComesBack | internal/sshconfig/userconfig.go:53-79 | A file that held no block of the alias comes back as it was, but for leading line ends |
| UserConfig.Reconnect | internal/sshconfig/userconfig.go:53-63 | An upsert with new options replaces the block of the same alias without a trace of the old one |
| UserConfig.RenderedBodyIsPlain | internal/sshconfig/userconfig.go:114-126 | Options that hold no marker head render to a body of the kind that well-formed files consist of |
| SshConfig.LineSlice.InsertAt | internal/sshconfig/sshconfig.go:104-111 | The two appends on one backing array, in place or with a larger copy, insert one line into the list and change nothing else |
| SshConfig.RenderConfig | internal/sshconfig/sshconfig.go:95-124 | The printer, splice by splice, gives the lines of the option table in order |
| SshConfig.TwoPassesEscape | internal/sshconfig/sshconfig.go:126-130 | The two replacement passes are a one-pass escape of both characters |
| SshConfig.UnquoteQuoted | internal/sshconfig/sshconfig.go:126-130 | A quoted value reads back as itself, for every string |
| SshConfigReader.ReadPrinted | internal/sshconfig/sshconfig.go:95-124 | Each printed keyword is read back from exactly one line, with its value |
| SshConfigReader.ReadBack | internal/sshconfig/sshconfig.go:95-124 | Reading the rendered text line by line recovers every option and the known_hosts path, for all newline-free options; the first line names the host, no keyword stands twice, and no other identities are offered |
| SshConfigReader.StrictCheckingOnce | internal/sshconfig/sshconfig.go:101 | Exactly one line sets StrictHostKeyChecking, and it says yes |
| SshConfigReader.MarkerInBody | internal/sshconfig/sshconfig.go:95-124 | A marker stands in the rendered text exactly when it stands in one of the printed values |
| RemoteSetup.ShellQuoteRoundTrip | internal/vscode/remote_setup.go:184-186 | Under the shell's quoting rules a quoted value reads as itself, for every string |
| RemoteSetup.RunServerEnv | internal/vscode/remote_setup.go:101-120 | Running the export lines sets exactly the configured proxies, under both names each, for all values |
| RemoteSetup.SetupSets | internal/vscode/remote_setup.go:101-120 | Spelt out: each proxy that is given stands under its upper-case and its lower-case name, and nothing else changes |
| RemoteSetup.RenderRemoteSetupScript | internal/vscode/remote_setup.go:81-160 | The loop-free growth of the list and the join give header, here-document and tail |
| RemoteSetup.SetupKeptIff | internal/vscode/remote_setup.go:122-128 | For all values, with newlines or without, the shell, by the script's own redirect and quoted delimiter, writes the whole setup file to its place in the home directory and goes on behind it, if and only if no line of the rendered exports is the delimiter |
| RemoteSetup.RemoteSetupRoundTrip | internal/vscode/remote_setup.go:122-128 | For newline-free values the setup file written there holds exactly the export lines, and running them sets exactly the configured proxies |
| Environment.MergeEnv | internal/kubectl/runner.go:398-420 | The nested loops give the base with each override assigned to the first entry of its name or appended |
| Environment.PrefixIsKey | internal/kubectl/runner.go:409 | The prefix test finds exactly the entries of the name |
| Environment.MergedLookups | internal/kubectl/runner.go:398-420 | Every overridden name has its last override under first-match lookup, every other name its old value, and no name stands more often than before, or once |
| Environment.MergedKeeps | internal/kubectl/runner.go:398-420 | Entries of other names, and entries without a name, keep their positions |
| Environment.MergedNameless | internal/kubectl/runner.go:402-406 | No entry without a name is lost: those of the overrides follow those of the base |
| Environment.MergedDistinct | internal/kubectl/runner.go:398-420 | Distinct names stay distinct |
| Environment.MergeCommandEnv | cmd/dev-connect/main.go:444-448 | After the append-only merge every name has its last override under last-wins lookup, or else its value in the base |
| Environment.MergesAgreeIff | cmd/dev-connect/main.go:444-448 | The two merges agree on a name under last-wins lookup if and only if no second entry of that name in the base shadows the override; on a base with distinct names they always agree |
| Environment.SetProcessEnv | internal/proxy/env.go:51-60 | Overwrites the first entry of the name in the array itself, or returns a longer copy |
| Environment.CanonMeans | internal/proxy/env.go:62-71 | On Windows two ASCII names are the same exactly when they differ in the case of letters at most, elsewhere exactly when they are equal |
| Environment.SpellingsOfProxy | internal/proxy/env.go:51-71 | On Windows one setting serves every spelling of its name |
| Environment.BuildEnvForOS | internal/proxy/env.go:24-49 | Works on a fresh copy; the caller's array is not modified |
| Environment.KubectlBaseEnvFrom | cmd/dev-connect/main.go:610-636 | Proxy settings, then KUBECONFIG, on a fresh array; the caller's array is not modified |
| Environment.ClusterEnvLookup | cmd/dev-connect/main.go:610-636 | Every configured name has its configured value, every other name its first-match value from before, and a name that stood once at most still does (case-folded on Windows) |
| Environment.ClusterEnvSettings | internal/proxy/env.go:30-47 | The names that are set, spelt out, with the lower-case names where names are exact |
| Environment.ClusterEnvEntries | internal/proxy/env.go:30-47 | The entries that are there afterwards, as they are written, on every platform |
| Environment.OtherNamesKept | cmd/dev-connect/main.go:610-636 | Names that no setting has keep their first-match value and their number; without settings all names do |
| Environment.ClusterEnvDistinct | cmd/dev-connect/main.go:610-636 | Uniqueness of names survives the chain |
| Configuration.ConfigFile.Validate | internal/config/config.go:221-285 | For every order in which the maps are walked: accepts exactly the acceptable configurations, fills in the default host keys in place, and reports a defect that is there |
| Configuration.ConfigFile.CheckTargets | internal/config/config.go:252-272 | The loop over the targets, with defaults written into the map it walks |
| Configuration.AcceptableIff | internal/config/config.go:221-285 | A configuration is accepted exactly when no error applies to it: every error has its own defect, and every defect has its error |
| Configuration.DefaultingIdempotent | internal/config/config.go:261-266 | Filling in the defaults gives each target without a host key its own name for one and changes nothing else; it changes neither the verdict nor, done again, the configuration |
| Configuration.SelectedClusterFailsIff | cmd/dev-connect/main.go:638-668 | In an accepted configuration the choice of the cluster fails exactly on an unknown explicit name, several contexts without a name, or a context to follow without any cluster |
| Configuration.ChosenClusterIff | cmd/dev-connect/main.go:638-668 | Which cluster is chosen: the one named, else that of the context named, else that of the only context there is, and without contexts the one with no settings |
| Configuration.PrepareRefusedIff | internal/connect/connect.go:50-105 | In an accepted configuration with gateways and host keys, the lookups and checks before the first write refuse exactly an unknown target or override, a failed or unusable port, a nameless target or a blank host key |
| LifecycleProofs.PrepareFailsIff | internal/connect/connect.go:50-134 | The whole of prepare, with its writes: in such a configuration it fails exactly for one of these reasons, or because a step that writes its files or its record fails |
| Configuration.PreparedIsComplete | internal/connect/connect.go:56-81 | A prepared session has the configured target, the validated gateway that the override names, or else the target, the key pinned under the name the target gives, or else its own, which is not blank, and the allocated port |
| Commands.PortForwardServiceCommand | internal/kubectl/command.go:85-126 | The appends give the command line of the options |
| Commands.PortForwardBack | internal/kubectl/command.go:85-126 | The command line determines every option: read back, none is lost or swapped |
| Commands.PreflightTries | cmd/dev-connect/main.go:155-176 | Read back from its command line, preflight forwards the allocated port to the port of the prepared gateway's service, in its namespace, with the context and kubeconfig of the chosen cluster |
| Commands.BuildSupervisorArgs | cmd/dev-connect/main.go:513-541 | The appends give the supervisor's command line |
| Commands.SupervisorCallBack | cmd/dev-connect/main.go:513-541 | The supervisor's flag parser reads back exactly the call, whatever the values look like, if and only if the target is no flag and the log settings are given |
| Commands.SameCommand | cmd/dev-connect/main.go:335-367 | With configuration and record unchanged, the supervisor runs exactly the command preflight tried, on the same cluster and kubectl, and reconnects exactly when not switched off, if and only if the target is no flag; otherwise it runs nothing |
| Commands.SupervisorRunsIff | cmd/dev-connect/main.go:327-357 | Started with the record of its target, the supervisor runs if and only if the target is no flag, session directory and ready file were given, a cluster can be chosen, and the recorded gateway is configured |
| Commands.FlagTarget | cmd/dev-connect/main.go:513-541 | A target named `-x` is prepared, and then no supervisor runs for it |
| Commands.ReloadedConfig | cmd/dev-connect/main.go:335-342 | Reloading with defaults filled in changes nothing the supervisor uses |
| ReadyLoop.RunKeeps | internal/kubectl/runner.go:156-204 | In every interleaving the lines of a stream are collected, under way or unsent, in order, of which only the last one sent can be torn, and the loop stops at the first collected line that shows readiness |
| ReadyLoop.RunUntilReady | internal/kubectl/runner.go:156-204 | The loop with its two readers, channel and buffers, under any schedule, ends in the state of that run |
| ReadyLoop.RunCanFinish | internal/kubectl/runner.go:156-204 | No run gets stuck: while both readers read, handing over lines alone leads to the first ready line of a stream, or to everything the child wrote |
| ReadyLoop.ReadinessIsReached | internal/kubectl/runner.go:167-185 | If only standard output has a ready line, that way the loop stops at the first one, with the output up to it |
| ReadyLoop.EndsIff | internal/kubectl/runner.go:186-203 | An exit ends the loop with that exit, and a done context with a cancellation, with what was collected so far |
| ReadyLoop.EndHasCause | internal/kubectl/runner.go:169-172 | The loop ends with an exit or a cancellation only when there was one, never because a scanner broke |
| ReadyLoop.ChannelHoldsTwo | internal/kubectl/runner.go:156 | Two lines can wait in the channel, and a third one has to |
| ReadyLoop.TornIsDelivered | internal/kubectl/runner.go:374-382 | A line torn by a closed pipe is delivered as far as it was read |
| ReadyLoop.BrokenSendsNothing | internal/kubectl/runner.go:374-382 | A reader that broke or tore a line sends no line any more |
| ReadyLoop.OutputIsPrefix | internal/kubectl/runner.go:156-204 | What is returned of each stream are its first lines, in order; only the last of them may be torn, by a pipe that was closed under its reader |
| ReadyLoop.PrefixOfText | internal/kubectl/runner.go:156-204 | Read as text, such output is a prefix of what the child wrote, but for the line end behind its last line |
| ReadyLoop.CollectedReady | internal/tunnel/tunnel.go:82-84 | Collected output shows readiness exactly when one of its lines does |
| ReadyLoop.FunctionalIff | internal/preflight/preflight.go:42-92 | With this runner, preflight reports a functional port-forward exactly when both checks before passed and the loop stopped on a stdout line with the readiness text, and then the child wrote such a line; it reports success exactly then, and each earlier flag for its own check and those before it |
| ReadyLoop.PreflightCanPass | internal/preflight/preflight.go:42-85 | If both checks pass and only standard output has a ready line, some run passes preflight |
| ReadyLoop.YesPasses | internal/preflight/preflight.go:64 | The answer yes passes, whatever blanks and line ends stand around it |
| ReadyLoop.AnswersRead | internal/preflight/preflight.go:64 | The line kubectl prints passes with either line end; no, nothing, and yes with something behind it do not |
| ReadyLoop.ForwardingIsReady | internal/tunnel/tunnel.go:82-84 | What kubectl writes when it forwards a port is a ready line |
| Handshake.ReportIsFinal | cmd/dev-connect/main.go:495-510 | A parent that has reported stays with its report, whatever moves follow; after any report but readiness nothing changes any more |
| Handshake.RunKeeps | cmd/dev-connect/main.go:397-442 | The invariant of the two scanners, their signals, the ready file and the parent, over every run |
| Handshake.ReadyMeansScanned | cmd/dev-connect/main.go:484-510 | If the ready file is absent at the start, the parent reports ready only after this supervisor scanned a readiness line, and every other report leaves the supervisor dead for good |
| Handshake.ReadinessIsReported | cmd/dev-connect/main.go:432-439 | In every run: when a scanner meets the first readiness line and tries to write the ready file, the next tick of a waiting parent reports readiness if and only if the write succeeded or the file was there already |
| Handshake.ReadinessIsReachable | cmd/dev-connect/main.go:484-500 | Readiness can be reported from an absent file |
| Handshake.OtherLinesWriteNothing | cmd/dev-connect/main.go:432-439 | A line that does not show readiness writes nothing, and neither does a second one that does |
| Handshake.ParentGivesUp | cmd/dev-connect/main.go:501-508 | A waiting parent learns of the end of its supervisor, and its timeout ends it |
| Handshake.AttemptCanEnd | cmd/dev-connect/main.go:413-425 | No attempt gets stuck: a living supervisor can always bring its attempt to the end, with the channel closed, and start a fresh one |
| Handshake.OutOfTurn | cmd/dev-connect/main.go:413-425 | A scanner does not end while it writes, no signal is taken before kubectl ended, the channel is not closed before both were taken, and no attempt follows before |
| Handshake.SignalsBeforeClose | cmd/dev-connect/main.go:413-421 | No scanner signals on a closed channel; it is closed only after kubectl ended and both signals were received |
| Handshake.FalseReadyIff | cmd/dev-connect/main.go:465-499 | A report of readiness without a scanned line is possible if and only if the ready file was there before |
| Handshake.ReadinessSpoilsLater | cmd/dev-connect/main.go:465-510 | After the first reported readiness in a session directory, every later connect there starts with the ready file in place, and can report readiness without a scanned line |
| Handshake.FileComesFromScan | cmd/dev-connect/main.go:397-442 | A ready file that was absent at first is there only after the supervisor of some connect scanned a readiness line |
| Supervisor.RunTunnelSupervisor | cmd/dev-connect/main.go:369-394 | The wait behind attempt k is min(2^(k-1), 30) seconds, and the loop ends only on a done context or with reconnecting disabled, in the first round that says so |
| Supervisor.TotalWait | cmd/dev-connect/main.go:369-394 | After n >= 5 attempts the waits add up to 31 + 30(n-5) seconds |
| SessionLock.Lock.Acquire | internal/session/session.go:139-148 | Succeeds exactly when no file is there, and then owns the new file |
| SessionLock.Lock.Release | internal/session/session.go:151-163 | Removes the file once; a lock already released touches nothing |
| SessionLock.AcquireAsMove | internal/session/session.go:139-148 | Acquiring with the lock objects is one move of the machine whose interleavings are studied |
| SessionLock.ReleaseAsMoves | internal/session/session.go:151-163 | Releasing a lock object that nobody interrupts is its close and its removal in a row, and leaves the other lock objects as they are |
| SessionLock.MutualExclusion | internal/session/session.go:139-163 | In every interleaving at most one lock is unreleased |
| SessionLock.OnlyOwnerRemoves | internal/session/session.go:151-163 | A file vanishes only in the release of its own lock; moving a released lock changes nothing |
| SessionLock.AcquirableIff | internal/session/session.go:139-163 | If no removal failed, a lock can be acquired exactly when every lock was released |
| SessionCommands.Machine.Connect | cmd/dev-connect/main.go:136-251 | Connect, with its early returns and rollbacks, does the steps of its course up to the first that fails, and then the rollback of that stage; it is rejected when not admitted, and done only if none of the duties its request has is among the faults; a supervisor of its own lives only if it came behind the start |
| SessionCommands.Machine.EnsureNoActiveSession | cmd/dev-connect/main.go:262-278 | Lets connect go on only with no record left, and does so when there is none or its supervisor died and nothing fails; leaves a live or unfinished session as it is; after cleaning up a stale one its artifacts are gone |
| SessionCommands.Machine.WriteSessionFiles | internal/sshconfig/sshconfig.go:37-61 | Succeeds exactly if none of the writes and modes of the session files fails, and then both files are there |
| SessionCommands.Machine.Save | internal/session/session.go:85-101 | Succeeds exactly if directory, write and mode do; the record is the one held in memory exactly if it was written |
| SessionCommands.Machine.UpsertManagedBlock | internal/sshconfig/userconfig.go:53-63 | Check, read, compute and write of the user's file; when it succeeds the file starts with a block from which the options of the session are read back |
| SessionCommands.Machine.WriteConfigFile | internal/sshconfig/userconfig.go:156-164 | The write of the user's file, which stands even if its mode cannot be set |
| SessionCommands.Machine.PrepareUserDataDir | internal/vscode/userdata.go:17-42 | The profile directory, which stands even if its settings cannot be written |
| SessionCommands.Machine.RemoveManagedBlock | internal/sshconfig/userconfig.go:66-79 | Succeeds exactly if the file can be read and either holds nothing to remove, and is then not written, or can be written back; the alias's blocks are then gone for good; no other file changes |
| SessionCommands.Machine.CleanupFiles | internal/sshconfig/sshconfig.go:64-74 | The loop over the two files stops at the first that cannot be removed; a missing file is no error |
| SessionCommands.Machine.CleanupSessionArtifacts | cmd/dev-connect/main.go:891-902 | Without an error every recorded artifact is gone; with one the cleanup is on its way, so that a later one finishes it |
| SessionCommands.Machine.Clear | internal/session/session.go:121-126 | Succeeds exactly if no record is left; otherwise nothing has changed |
| SessionCommands.Machine.Disconnect | cmd/dev-connect/main.go:763-784 | Of a recorded session: succeeds exactly if the record is gone, and then so are its artifacts and its supervisor; otherwise the record stays as it was. The supervisor is killed unless the record could not be read |
| Lifecycle.ExecIsAfter | cmd/dev-connect/main.go:136-251 | However connect ends, world and record in memory are the closed form for the steps it took |
| LifecycleProofs.OutcomeIff | cmd/dev-connect/main.go:136-251 | Connect is rejected exactly when not admitted; admitted, it fails exactly at the first included step that the faults let fail, and succeeds exactly when there is none |
| LifecycleProofs.AdmittedIff | cmd/dev-connect/main.go:142-165 | Connect is admitted exactly when nothing is unreadable or refused and there is no session, or one whose supervisor died and that can be cleaned up |
| LifecycleProofs.DoneIff | cmd/dev-connect/main.go:136-251 | From the request's own switches: connect is done exactly when it is admitted, none of its duties fails and, if it manages the user's file, the editor accepts the options; if a duty fails, connect fails there or before |
| LifecycleProofs.FailsInFirstStage | cmd/dev-connect/main.go:165-250 | Connect fails in the first stage in which a duty fails: preparing, preflight, supervisor, its pid, user's file, remote host, profile, VS Code |
| LifecycleProofs.DoneLeaves | cmd/dev-connect/main.go:165-251 | What a connect leaves that is done, spelt out: the record with everything it made, both session files, profile, supervisor and block |
| LifecycleProofs.DoneHoldsSession | cmd/dev-connect/main.go:193-211 | And in the user's file a block from which the options of the session are read back |
| LifecycleProofs.SupervisorAfterFailure | cmd/dev-connect/main.go:172-191 | A connect that fails while it prepares, at preflight or at the start leaves the live supervisors as they were; one that fails later leaves its own alive |
| LifecycleProofs.FailedConnect | cmd/dev-connect/main.go:172-250 | Exactly what a connect leaves whose first failure is at preflight or later, when its rollback meets no error |
| LifecycleProofs.CleanAfterFailureIff | cmd/dev-connect/main.go:172-250 | Such a connect leaves no record, session files, managed block or profile if and only if its first failure is not between an artifact and the note of it: setting the mode of the user's file, or writing the profile's settings or their mode |
| LifecycleProofs.SupervisorLeftIff | cmd/dev-connect/main.go:178-250 | A failed connect leaves its supervisor running if and only if its first failure is behind the start |
| LifecycleProofs.PrepareFailure | internal/connect/connect.go:82-121 | Exactly what a connect leaves whose first failure is in its preparation: a record only if just the mode of the record could not be set, and the files written so far |
| LifecycleProofs.PrepareFailureFiles | internal/connect/connect.go:82-121 | Which of the session's files, absent before, are there after such a failure, step by step |
| LifecycleProofs.PrepareFailureLocksIff | internal/connect/connect.go:103-121 | After such a failure every later connect is rejected, and changes nothing, if and only if it was the mode of the record that could not be set; a disconnect then takes the record away, and in the other cases changes nothing |
| LifecycleProofs.DisconnectClearsLast | cmd/dev-connect/main.go:773-781 | The record is cleared only after every recorded artifact is gone; a disconnect that fails keeps it unchanged |
| LifecycleProofs.CleanedStops | cmd/dev-connect/main.go:891-902 | A cleanup goes block, files, profile, and stops at the first part that fails |
| LifecycleProofs.DisconnectResumes | cmd/dev-connect/main.go:763-784 | However a disconnect fails, a later one without faults leaves what it would have left at once |
| LifecycleProofs.DisconnectConverges | cmd/dev-connect/main.go:763-784 | Any sequence of attempts with one that meets no error ends in the world a single disconnect without errors leaves |
| LifecycleProofs.ConnectThenDisconnect | cmd/dev-connect/main.go:763-784 | Connecting and disconnecting leaves the world as it was, the user's file but for leading line ends |
| LifecycleRuns.SupervisorsBounded | cmd/dev-connect/main.go:142-191 | Over every run of commands and deaths, every live supervisor is the recorded one or one left by a connect whose first failure was behind the start; there is one more at most than there were such connects |
| LifecycleRuns.OneSupervisor | cmd/dev-connect/main.go:262-278 | If no connect failed after starting its supervisor, at most one lives and it is the one in the record |
| LifecycleRuns.StatusIsTrue | cmd/dev-connect/main.go:794-815 | In such runs disconnected and stale mean that no supervisor lives; connected means that the recorded one lives, and no other, if and only if the record has a pid, and else that none does |
| LifecycleRuns.FalselyConnected | cmd/dev-connect/main.go:808-811 | One connect that could not set the mode of its record makes status report connected with no supervisor alive |
| LifecycleRuns.TwoSupervisors | cmd/dev-connect/main.go:184-191 | A failure to save the pid, followed by another connect, leaves two live supervisors, of which the record names one |
| LifecycleRuns.NothingUnnamed | cmd/dev-connect/main.go:136-278 | Over every run, from user files without blocks, whose connects have no option with an end marker and do not fail in their preparation, in one of the three gaps or in their rollback, and however its disconnects fail: every session file, block and profile directory on disk is named by the record, which has a pid, and each user's text is theirs but for the recorded block and leading line ends |

## Left out

- Cobra wiring, help, version and list output, JSON and text responses, logging: thin wrappers around what is modelled.
- YAML and JSON: the parsed configuration is given, and saving and loading the record is the identity on its fields.
- Real processes, signals, ports, timers and file permissions: steps with stated outcomes. Setting a file mode is a step that
  can fail and changes nothing else. Removing a profile directory is all or nothing, as every write is.
- Discovery of kubectl and VS Code, default directories and the search order of configuration files: precedence chains.
- RemoteSetup.RenderRemoteSetupScript: the merge of VS Code settings on the remote host and the second here-document are an
  arbitrary `tail` behind the first one, because they are foreign code and printed JSON.
- `StartUntilReady` and the retry loop of the tunnel package: reached only through a test hook.
- The loops of `startTunnelSupervisor` and of the supervisor's scanners: modelled on values, as a step function over states,
  since their point is the interleaving; their channel is a pair of counters there, and blocking is a move not taken.
- Session SSH files exist or do not; their contents are `SshConfig`. User configurations, session files and profiles are
  separate name spaces, so that one path in two roles is not modelled.
- SessionCommands.Machine.Connect: whether the lookups of `Configuration.Prepare` and the choice of the cluster succeed enters
  as one fault, `refused`, because nothing is written before they are done.
- UserConfig.ConnectThenDisconnectIff: options that hold the begin marker are left to `UserConfig.UndoneEverywhereIffOnEmpty`,
  because with them the law can hold on one file by luck and fail on another.
- LifecycleRuns.SupervisorsBounded: process ids are not reused and kills succeed, because a reused id makes any record look alive.
- Commands.SupervisorCallBack: of the flags the parser knows only those a supervisor is given; any other one it takes for an
  error, and nothing depends on which error a target that looks like a flag leads to.
- `Prepare` checks for an empty SSH directory behind joining it from a directory and a name; the check is left out.
- Environment.ClusterEnvLookup: case folding covers the characters that can equal an ASCII letter; other letters fold to themselves.
