/** Command lines: kubectl port-forward (internal/kubectl/command.go) and the detached supervisor
    (cmd/dev-connect/main.go), each with the reader on its other side. */
module Commands {
  import opened Text
  import opened Lines
  import opened Environment
  import opened Configuration

  // ----- kubectl port-forward

  datatype PortForwardOptions = PortForwardOptions(
    namespace: string, service: string, localPort: int, remotePort: int, contextName: string, kubeconfig: string)

  /** An option that is given only when it has a value. */
  function Flag(name: string, value: string): seq<string> {
    if value == "" then [] else [name, value]
  }

  function BaseArgs(kubeconfig: string, contextName: string, namespace: string): seq<string> {
    Flag("--kubeconfig", kubeconfig) + Flag("--context", contextName) + Flag("-n", namespace)
  }

  function PortForwardArgs(o: PortForwardOptions): seq<string> {
    BaseArgs(o.kubeconfig, o.contextName, o.namespace)
    + ["port-forward", "service/" + o.service, Itoa(o.localPort) + ":" + Itoa(o.remotePort)]
  }

  /** `PortForwardServiceCommand`, with the appends of `baseArgs`. */
  method PortForwardServiceCommand(o: PortForwardOptions) returns (args: seq<string>)
    ensures args == PortForwardArgs(o)
  {
    args := [];
    if o.kubeconfig != "" {
      args := args + ["--kubeconfig", o.kubeconfig];
    }
    if o.contextName != "" {
      args := args + ["--context", o.contextName];
    }
    if o.namespace != "" {
      args := args + ["-n", o.namespace];
    }
    assert args == BaseArgs(o.kubeconfig, o.contextName, o.namespace);
    args := args + ["port-forward", "service/" + o.service, Itoa(o.localPort) + ":" + Itoa(o.remotePort)];
  }

  /** The value of a leading option, and the arguments behind it. */
  function TakeFlag(args: seq<string>, name: string): (string, seq<string>) {
    if |args| >= 2 && args[0] == name then (args[1], args[2..]) else ("", args)
  }

  function TakePrefix(s: string, prefix: string): Option<string> {
    if prefix <= s then Some(s[|prefix|..]) else None
  }

  /** `local:remote`. */
  function ReadPorts(s: string): Option<(int, int)> {
    var i := Find(s, ':');
    if i == |s| || Atoi(s[..i]).None? || Atoi(s[i + 1..]).None? then None
    else Some((Atoi(s[..i]).value, Atoi(s[i + 1..]).value))
  }

  /** Read a port-forward command line. */
  function ReadPortForward(args: seq<string>): Option<PortForwardOptions> {
    var (kubeconfig, rest1) := TakeFlag(args, "--kubeconfig");
    var (contextName, rest2) := TakeFlag(rest1, "--context");
    var (namespace, rest3) := TakeFlag(rest2, "-n");
    if |rest3| != 3 || rest3[0] != "port-forward" || TakePrefix(rest3[1], "service/").None?
      || ReadPorts(rest3[2]).None? then None
    else
      var ports := ReadPorts(rest3[2]).value;
      var service := TakePrefix(rest3[1], "service/").value;
      Some(PortForwardOptions(namespace, service, ports.0, ports.1, contextName, kubeconfig))
  }

  lemma PortsBack(local: int, remote: int)
    ensures ReadPorts(Itoa(local) + ":" + Itoa(remote)) == Some((local, remote))
  {
    hide Itoa, Atoi;
    AtoiItoa(local);
    AtoiItoa(remote);
    var s := Itoa(local) + [':'] + Itoa(remote);
    FindIs(Itoa(local), ':', Itoa(remote));
    assert s[..|Itoa(local)|] == Itoa(local) && s[|Itoa(local)| + 1..] == Itoa(remote);
  }

  lemma TakeFlagBack(name: string, value: string, rest: seq<string>)
    requires rest == [] || rest[0] != name
    ensures TakeFlag(Flag(name, value) + rest, name) == (value, rest)
  {
    if value != "" {
      assert ([name, value] + rest)[2..] == rest;
    } else {
      assert [] + rest == rest;
    }
  }

  /** The command line determines every option: none is lost, swapped or taken for another one. */
  lemma PortForwardBack(o: PortForwardOptions)
    ensures ReadPortForward(PortForwardArgs(o)) == Some(o)
  {
    hide Itoa, ReadPorts;
    var tail := ["port-forward", "service/" + o.service, Itoa(o.localPort) + ":" + Itoa(o.remotePort)];
    var rest2 := Flag("-n", o.namespace) + tail;
    var rest1 := Flag("--context", o.contextName) + rest2;
    assert PortForwardArgs(o) == Flag("--kubeconfig", o.kubeconfig) + rest1;
    WordsDiffer();
    TakeFlagBack("--kubeconfig", o.kubeconfig, rest1);
    TakeFlagBack("--context", o.contextName, rest2);
    TakeFlagBack("-n", o.namespace, tail);
    PortsBack(o.localPort, o.remotePort);
  }

  lemma WordsDiffer()
    ensures "--context" != "--kubeconfig" && "-n" != "--kubeconfig" && "-n" != "--context"
    ensures "port-forward" != "--kubeconfig" && "port-forward" != "--context" && "port-forward" != "-n"
  {
    assert |"--context"| == 9 && |"--kubeconfig"| == 12 && "port-forward"[0] == 'p';
  }

  // ----- The arguments of the supervisor

  datatype CliOptions = CliOptions(
    configPath: string, contextName: string, clusterName: string, gatewayName: string, kubectlPath: string,
    logLevel: string, logFormat: string, noReconnect: bool)

  /** What a supervisor process is told. */
  datatype SupervisorCall = SupervisorCall(options: CliOptions, target: string, sessionDir: string, readyFile: string)

  function OptionalArgs(o: CliOptions): seq<string> {
    Flag("--config", o.configPath) + Flag("--context", o.contextName) + Flag("--cluster", o.clusterName)
    + Flag("--gateway", o.gatewayName) + Flag("--kubectl-path", o.kubectlPath)
    + Flag("--log-level", o.logLevel) + Flag("--log-format", o.logFormat)
    + (if o.noReconnect then ["--no-reconnect"] else [])
  }

  function SupervisorArgs(c: SupervisorCall): seq<string> {
    OptionalArgs(c.options)
    + ["tunnel-supervisor", c.target, "--session-dir", c.sessionDir, "--ready-file", c.readyFile]
  }

  /** `supervisorArgs`; `c.options.configPath` is the path the configuration was loaded from. */
  method BuildSupervisorArgs(c: SupervisorCall) returns (args: seq<string>)
    ensures args == SupervisorArgs(c)
  {
    hide Flag;
    var o := c.options;
    args := AppendFlag([], "--config", o.configPath);
    args := AppendFlag(args, "--context", o.contextName);
    args := AppendFlag(args, "--cluster", o.clusterName);
    args := AppendFlag(args, "--gateway", o.gatewayName);
    args := AppendFlag(args, "--kubectl-path", o.kubectlPath);
    args := AppendFlag(args, "--log-level", o.logLevel);
    args := AppendFlag(args, "--log-format", o.logFormat);
    if o.noReconnect {
      args := args + ["--no-reconnect"];
    }
    args := args + ["tunnel-supervisor", c.target, "--session-dir", c.sessionDir, "--ready-file", c.readyFile];
  }

  method AppendFlag(before: seq<string>, name: string, value: string) returns (args: seq<string>)
    ensures args == before + Flag(name, value)
  {
    args := before;
    if value != "" {
      args := args + [name, value];
    }
  }

  /** The flags of the command line, by the field each one sets. */
  datatype Field =
    | ConfigPath | ContextName | ClusterName | GatewayName | KubectlPath | LogLevel | LogFormat | SessionDir | ReadyFile

  function FlagName(field: Field): string {
    match field
    case ConfigPath => "--config"
    case ContextName => "--context"
    case ClusterName => "--cluster"
    case GatewayName => "--gateway"
    case KubectlPath => "--kubectl-path"
    case LogLevel => "--log-level"
    case LogFormat => "--log-format"
    case SessionDir => "--session-dir"
    case ReadyFile => "--ready-file"
  }

  /** The field that a flag sets, if it takes a value. */
  function FieldOf(arg: string): Option<Field> {
    if arg == "--config" then Some(ConfigPath)
    else if arg == "--context" then Some(ContextName)
    else if arg == "--cluster" then Some(ClusterName)
    else if arg == "--gateway" then Some(GatewayName)
    else if arg == "--kubectl-path" then Some(KubectlPath)
    else if arg == "--log-level" then Some(LogLevel)
    else if arg == "--log-format" then Some(LogFormat)
    else if arg == "--session-dir" then Some(SessionDir)
    else if arg == "--ready-file" then Some(ReadyFile)
    else None
  }

  /** What a command line sets: the fields, the one switch, and the arguments that are no flags. */
  datatype Parsed = Parsed(fields: map<Field, string>, noReconnect: bool, positional: seq<string>)

  predicate IsPositional(arg: string) {
    arg == "" || arg[0] != '-' || |arg| == 1
  }

  /** Read a command line in the manner of a flag parser: a flag takes the next argument whatever it looks like. Only
      the flags that a supervisor is given are known. */
  function ParseArgs(args: seq<string>, sofar: Parsed): Option<Parsed>
    decreases |args|
  {
    if args == [] then Some(sofar)
    else if IsPositional(args[0]) then ParseArgs(args[1..], sofar.(positional := sofar.positional + [args[0]]))
    else if args[0] == "--no-reconnect" then ParseArgs(args[1..], sofar.(noReconnect := true))
    else if FieldOf(args[0]).Some? && |args| > 1 then
      ParseArgs(args[2..], sofar.(fields := sofar.fields[FieldOf(args[0]).value := args[1]]))
    else None
  }

  function FieldOr(parsed: Parsed, field: Field, default: string): string {
    if field in parsed.fields then parsed.fields[field] else default
  }

  /** The supervisor's view of its command line, with the defaults of the flags. */
  function ReadSupervisorCall(args: seq<string>): Option<SupervisorCall> {
    var parsed := ParseArgs(args, Parsed(map[], false, []));
    if parsed.None? || |parsed.value.positional| != 2 || parsed.value.positional[0] != "tunnel-supervisor" then None
    else
      var p := parsed.value;
      Some(SupervisorCall(
        CliOptions(FieldOr(p, ConfigPath, ""), FieldOr(p, ContextName, ""), FieldOr(p, ClusterName, ""),
          FieldOr(p, GatewayName, ""), FieldOr(p, KubectlPath, ""), FieldOr(p, LogLevel, "info"),
          FieldOr(p, LogFormat, "text"), p.noReconnect),
        p.positional[1], FieldOr(p, SessionDir, ""), FieldOr(p, ReadyFile, "")))
  }

  lemma FlagNameReads(field: Field)
    ensures FieldOf(FlagName(field)) == Some(field) && !IsPositional(FlagName(field))
      && FlagName(field) != "--no-reconnect"
  {
    assert FlagName(field)[0] == '-' && |FlagName(field)| > 1;
    assert |"--no-reconnect"| == 14 && |FlagName(KubectlPath)| == 14 && "--no-reconnect"[2] != FlagName(KubectlPath)[2];
  }

  function SetField(sofar: Parsed, field: Field, value: string): Parsed {
    if value == "" then sofar else sofar.(fields := sofar.fields[field := value])
  }

  lemma ParseFlag(field: Field, value: string, rest: seq<string>, sofar: Parsed)
    ensures ParseArgs(Flag(FlagName(field), value) + rest, sofar) == ParseArgs(rest, SetField(sofar, field, value))
  {
    hide FieldOf, FlagName, IsPositional;
    FlagNameReads(field);
    if value == "" {
      assert [] + rest == rest;
    } else {
      assert ([FlagName(field), value] + rest)[2..] == rest;
    }
  }

  lemma ParseAlways(field: Field, value: string, rest: seq<string>, sofar: Parsed)
    ensures ParseArgs([FlagName(field), value] + rest, sofar)
      == ParseArgs(rest, sofar.(fields := sofar.fields[field := value]))
  {
    hide FieldOf, FlagName, IsPositional;
    FlagNameReads(field);
    assert ([FlagName(field), value] + rest)[2..] == rest;
  }

  lemma ParsePositional(arg: string, rest: seq<string>, sofar: Parsed)
    requires IsPositional(arg)
    ensures ParseArgs([arg] + rest, sofar) == ParseArgs(rest, sofar.(positional := sofar.positional + [arg]))
  {
    hide FieldOf;
    assert ([arg] + rest)[1..] == rest;
  }

  lemma ParseSwitch(rest: seq<string>, sofar: Parsed)
    ensures ParseArgs(["--no-reconnect"] + rest, sofar) == ParseArgs(rest, sofar.(noReconnect := true))
  {
    hide FieldOf;
    assert (["--no-reconnect"] + rest)[1..] == rest;
    assert |"--no-reconnect"| == 14;
  }

  /** `parse(x + (y + ...))`, one flag at a time, without looking into the flags. */
  lemma ParseFlags(fields: seq<(Field, string)>, rest: seq<string>, sofar: Parsed)
    ensures ParseArgs(FlagArgs(fields) + rest, sofar) == ParseArgs(rest, SetFields(sofar, fields))
    decreases |fields|
  {
    hide ParseArgs, SetField, Flag;
    if fields == [] {
      assert [] + rest == rest;
    } else {
      var later := FlagArgs(fields[1..]);
      ParseFlag(fields[0].0, fields[0].1, later + rest, sofar);
      ParseFlags(fields[1..], rest, SetField(sofar, fields[0].0, fields[0].1));
      assert Flag(FlagName(fields[0].0), fields[0].1) + later + rest
        == Flag(FlagName(fields[0].0), fields[0].1) + (later + rest);
    }
  }

  function FlagArgs(fields: seq<(Field, string)>): seq<string> {
    if fields == [] then [] else Flag(FlagName(fields[0].0), fields[0].1) + FlagArgs(fields[1..])
  }

  function SetFields(sofar: Parsed, fields: seq<(Field, string)>): Parsed
    decreases |fields|
  {
    if fields == [] then sofar else SetFields(SetField(sofar, fields[0].0, fields[0].1), fields[1..])
  }

  function OptionList(o: CliOptions): seq<(Field, string)> {
    [(ConfigPath, o.configPath), (ContextName, o.contextName), (ClusterName, o.clusterName),
     (GatewayName, o.gatewayName), (KubectlPath, o.kubectlPath), (LogLevel, o.logLevel), (LogFormat, o.logFormat)]
  }

  function Switch(o: CliOptions): seq<string> {
    if o.noReconnect then ["--no-reconnect"] else []
  }

  lemma {:induction false} FlagArgsJoin(x: seq<(Field, string)>, y: seq<(Field, string)>)
    ensures FlagArgs(x + y) == FlagArgs(x) + FlagArgs(y)
  {
    hide Flag;
    if x == [] {
      assert x + y == y;
    } else {
      assert (x + y)[1..] == x[1..] + y;
      FlagArgsJoin(x[1..], y);
    }
  }

  lemma FlagArgsSnoc(x: seq<(Field, string)>, field: Field, value: string)
    ensures FlagArgs(x + [(field, value)]) == FlagArgs(x) + Flag(FlagName(field), value)
  {
    hide Flag, FlagName;
    FlagArgsJoin(x, [(field, value)]);
    assert FlagArgs([(field, value)]) == Flag(FlagName(field), value) + FlagArgs([(field, value)][1..]);
    assert FlagArgs([(field, value)][1..]) == [];
  }

  lemma OptionalArgsAreFlags(o: CliOptions)
    ensures OptionalArgs(o) == FlagArgs(OptionList(o)) + Switch(o)
  {
    hide Flag, FlagArgs;
    var l := OptionList(o);
    FlagArgsEmpty();
    assert l[..0] == [] && l[..1] == l[..0] + [l[0]] && l[..2] == l[..1] + [l[1]] && l[..3] == l[..2] + [l[2]];
    assert l[..4] == l[..3] + [l[3]] && l[..5] == l[..4] + [l[4]] && l[..6] == l[..5] + [l[5]] && l == l[..6] + [l[6]];
    FlagArgsSnoc(l[..0], ConfigPath, o.configPath);
    FlagArgsSnoc(l[..1], ContextName, o.contextName);
    FlagArgsSnoc(l[..2], ClusterName, o.clusterName);
    FlagArgsSnoc(l[..3], GatewayName, o.gatewayName);
    FlagArgsSnoc(l[..4], KubectlPath, o.kubectlPath);
    FlagArgsSnoc(l[..5], LogLevel, o.logLevel);
    FlagArgsSnoc(l[..6], LogFormat, o.logFormat);
    assert [] + Flag("--config", o.configPath) == Flag("--config", o.configPath);
  }

  lemma FlagArgsEmpty()
    ensures FlagArgs([]) == []
  {
  }

  /** The subcommand, its argument and its two flags, which are always given. */
  lemma ParseCommand(c: SupervisorCall, sofar: Parsed)
    requires IsPositional(c.target)
    ensures
      ParseArgs(["tunnel-supervisor", c.target, "--session-dir", c.sessionDir, "--ready-file", c.readyFile], sofar)
      == Some(sofar.(positional := sofar.positional + ["tunnel-supervisor", c.target],
                     fields := sofar.fields[SessionDir := c.sessionDir][ReadyFile := c.readyFile]))
  {
    hide ParseArgs, IsPositional;
    var ready := [FlagName(ReadyFile), c.readyFile] + [];
    var dir := [FlagName(SessionDir), c.sessionDir] + ready;
    var s1 := sofar.(positional := sofar.positional + ["tunnel-supervisor"]);
    var s2 := s1.(positional := s1.positional + [c.target]);
    var s3 := s2.(fields := s2.fields[SessionDir := c.sessionDir]);
    assert IsPositional("tunnel-supervisor") by { WordIsPositional(); }
    ParsePositional("tunnel-supervisor", [c.target] + dir, sofar);
    ParsePositional(c.target, dir, s1);
    ParseAlways(SessionDir, c.sessionDir, ready, s2);
    ParseAlways(ReadyFile, c.readyFile, [], s3);
    ParseNothing(s3.(fields := s3.fields[ReadyFile := c.readyFile]));
    assert ["tunnel-supervisor", c.target, "--session-dir", c.sessionDir, "--ready-file", c.readyFile]
        == ["tunnel-supervisor"] + ([c.target] + dir);
    assert s2.positional == sofar.positional + ["tunnel-supervisor", c.target];
  }

  lemma WordIsPositional()
    ensures IsPositional("tunnel-supervisor")
  {
    assert "tunnel-supervisor"[0] == 't';
  }

  lemma ParseNothing(sofar: Parsed)
    ensures ParseArgs([], sofar) == Some(sofar)
  {
  }

  /** The fields a supervisor reads. */
  lemma ParseSupervisorArgs(c: SupervisorCall)
    requires IsPositional(c.target)
    ensures var given := SetFields(Parsed(map[], false, []), OptionList(c.options));
      ParseArgs(SupervisorArgs(c), Parsed(map[], false, []))
      == Some(Parsed(given.fields[SessionDir := c.sessionDir][ReadyFile := c.readyFile], c.options.noReconnect,
                     ["tunnel-supervisor", c.target]))
  {
    hide ParseArgs, FlagArgs, SetFields, Flag, IsPositional, OptionList;
    var start := Parsed(map[], false, []);
    var command := ["tunnel-supervisor", c.target, "--session-dir", c.sessionDir, "--ready-file", c.readyFile];
    var given := SetFields(start, OptionList(c.options));
    OptionalArgsAreFlags(c.options);
    assert SupervisorArgs(c) == FlagArgs(OptionList(c.options)) + (Switch(c.options) + command);
    ParseFlags(OptionList(c.options), Switch(c.options) + command, start);
    SetFieldsOnly(start, OptionList(c.options));
    if c.options.noReconnect {
      ParseSwitch(command, given);
      ParseCommand(c, given.(noReconnect := true));
    } else {
      assert [] + command == command;
      ParseCommand(c, given);
    }
    assert [] + ["tunnel-supervisor", c.target] == ["tunnel-supervisor", c.target];
  }

  lemma {:induction false} SetFieldsOnly(sofar: Parsed, fields: seq<(Field, string)>)
    ensures SetFields(sofar, fields).positional == sofar.positional
      && SetFields(sofar, fields).noReconnect == sofar.noReconnect
    decreases |fields|
  {
    if fields != [] {
      SetFieldsOnly(SetField(sofar, fields[0].0, fields[0].1), fields[1..]);
    }
  }

  /** What a field holds after a list of assignments: the last one that has a value. */
  function LastValue(fields: seq<(Field, string)>, field: Field): Option<string> {
    if fields == [] then None
    else
      var later := LastValue(fields[1..], field);
      if later.Some? then later else if fields[0].0 == field && fields[0].1 != "" then Some(fields[0].1) else None
  }

  lemma {:induction false} SetFieldsHold(sofar: Parsed, fields: seq<(Field, string)>, field: Field)
    ensures var after := SetFields(sofar, fields).fields;
      if LastValue(fields, field).Some? then field in after && after[field] == LastValue(fields, field).value
      else (field in after <==> field in sofar.fields) && (field in after ==> after[field] == sofar.fields[field])
    decreases |fields|
  {
    if fields != [] {
      SetFieldsHold(SetField(sofar, fields[0].0, fields[0].1), fields[1..], field);
    }
  }

  /** What a parser takes for an argument is no flag. */
  lemma {:induction false} ParsedPositionals(args: seq<string>, sofar: Parsed)
    requires forall arg :: arg in sofar.positional ==> IsPositional(arg)
    ensures var p := ParseArgs(args, sofar);
      p.Some? ==> forall arg :: arg in p.value.positional ==> IsPositional(arg)
    decreases |args|
  {
    hide IsPositional, FieldOf;
    if args == [] {
    } else if IsPositional(args[0]) {
      ParsedPositionals(args[1..], sofar.(positional := sofar.positional + [args[0]]));
    } else if args[0] == "--no-reconnect" {
      ParsedPositionals(args[1..], sofar.(noReconnect := true));
    } else if FieldOf(args[0]).Some? && |args| > 1 {
      ParsedPositionals(args[2..], sofar.(fields := sofar.fields[FieldOf(args[0]).value := args[1]]));
    }
  }

  /** Whatever is read from a command line, its target is no flag. */
  lemma ReadTargetIsPositional(args: seq<string>)
    ensures var call := ReadSupervisorCall(args); call.Some? ==> IsPositional(call.value.target)
  {
    hide ParseArgs, IsPositional;
    ParsedPositionals(args, Parsed(map[], false, []));
  }

  /** Log settings that are not given read as the defaults of their flags. */
  function WithLogDefaults(o: CliOptions): CliOptions {
    o.(logLevel := if o.logLevel == "" then "info" else o.logLevel,
       logFormat := if o.logFormat == "" then "text" else o.logFormat)
  }

  lemma SupervisorReads(c: SupervisorCall)
    requires IsPositional(c.target)
    ensures ReadSupervisorCall(SupervisorArgs(c)) == Some(c.(options := WithLogDefaults(c.options)))
  {
    hide ParseArgs, SetFields, LastValue, SupervisorArgs, OptionList;
    ParseSupervisorArgs(c);
    var start, list := Parsed(map[], false, []), OptionList(c.options);
    SetFieldsHold(start, list, ConfigPath);
    SetFieldsHold(start, list, ContextName);
    SetFieldsHold(start, list, ClusterName);
    SetFieldsHold(start, list, GatewayName);
    SetFieldsHold(start, list, KubectlPath);
    SetFieldsHold(start, list, LogLevel);
    SetFieldsHold(start, list, LogFormat);
    OptionValues(c.options);
  }

  /** The supervisor reads back exactly the call it was started with, whatever the values look like, if and only if the
      target is no flag and the log settings are given. The log settings always are: they were checked against their
      lists. Nothing checks the target, and no `--` is written before it. */
  lemma SupervisorCallBack(c: SupervisorCall)
    ensures ReadSupervisorCall(SupervisorArgs(c)) == Some(c)
       <==> IsPositional(c.target) && c.options.logLevel != "" && c.options.logFormat != ""
  {
    hide ReadSupervisorCall, SupervisorArgs, IsPositional;
    ReadTargetIsPositional(SupervisorArgs(c));
    if IsPositional(c.target) {
      SupervisorReads(c);
    }
  }

  function NonEmpty(value: string): Option<string> {
    if value == "" then None else Some(value)
  }

  lemma {:induction false} LastValueSole(fields: seq<(Field, string)>, i: nat)
    requires i < |fields| && forall j :: 0 <= j < |fields| && j != i ==> fields[j].0 != fields[i].0
    ensures LastValue(fields, fields[i].0) == NonEmpty(fields[i].1)
  {
    if i > 0 {
      LastValueSole(fields[1..], i - 1);
    } else {
      LastValueAbsent(fields[1..], fields[0].0);
    }
  }

  lemma {:induction false} LastValueAbsent(fields: seq<(Field, string)>, field: Field)
    requires forall j :: 0 <= j < |fields| ==> fields[j].0 != field
    ensures LastValue(fields, field).None?
  {
    if fields != [] {
      LastValueAbsent(fields[1..], field);
    }
  }

  lemma OptionValues(o: CliOptions)
    ensures LastValue(OptionList(o), ConfigPath) == NonEmpty(o.configPath)
    ensures LastValue(OptionList(o), ContextName) == NonEmpty(o.contextName)
    ensures LastValue(OptionList(o), ClusterName) == NonEmpty(o.clusterName)
    ensures LastValue(OptionList(o), GatewayName) == NonEmpty(o.gatewayName)
    ensures LastValue(OptionList(o), KubectlPath) == NonEmpty(o.kubectlPath)
    ensures LastValue(OptionList(o), LogLevel) == NonEmpty(o.logLevel)
    ensures LastValue(OptionList(o), LogFormat) == NonEmpty(o.logFormat)
  {
    hide LastValue;
    var list := OptionList(o);
    LastValueSole(list, 0);
    LastValueSole(list, 1);
    LastValueSole(list, 2);
    LastValueSole(list, 3);
    LastValueSole(list, 4);
    LastValueSole(list, 5);
    LastValueSole(list, 6);
  }

  // ----- The same command in preflight and in the supervisor

  /** The part of the session record that the supervisor uses. */
  datatype Record = Record(target: string, gateway: string, namespace: string, localPort: int, reconnect: bool)

  /** The record `Prepare` saves. */
  function SavedRecord(targetName: string, p: Prepared, noReconnect: bool): Record {
    Record(targetName, p.gatewayName, p.gateway.namespace, p.allocation.port, !noReconnect)
  }

  /** What preflight runs: the prepared session on the chosen cluster. */
  function PreflightCommand(p: Prepared, cluster: Cluster): PortForwardOptions {
    PortForwardOptions(p.gateway.namespace, p.gateway.service, p.allocation.port, p.gateway.port,
                       cluster.kubernetesContext, cluster.kubeconfig)
  }

  /** Read back from its command line, preflight forwards the allocated port to the port of the prepared gateway's
      service, in its namespace, with the context and the kubeconfig of the chosen cluster. */
  lemma PreflightTries(cfg: Config, targetName: string, gatewayOverride: string, port: Option<Allocation>,
      cluster: Cluster)
    requires Acceptable(cfg) && Prepare(cfg, targetName, gatewayOverride, port).Ready?
    ensures var p := Prepare(cfg, targetName, gatewayOverride, port).prepared;
      var read := ReadPortForward(PortForwardArgs(PreflightCommand(p, cluster)));
      && targetName in cfg.targets
      && var name := if gatewayOverride != "" then gatewayOverride else cfg.targets[targetName].gateway;
      && name in cfg.gateways && port.Some? && read.Some?
      && read.value.service == cfg.gateways[name].service && read.value.namespace == cfg.gateways[name].namespace
      && read.value.localPort == port.value.port && read.value.remotePort == cfg.gateways[name].port
      && read.value.contextName == cluster.kubernetesContext && read.value.kubeconfig == cluster.kubeconfig
  {
    hide ReadPortForward, PortForwardArgs, Prepare;
    PreparedIsComplete(cfg, targetName, gatewayOverride, port);
    PortForwardBack(PreflightCommand(Prepare(cfg, targetName, gatewayOverride, port).prepared, cluster));
  }

  datatype SupervisorPlan = SupervisorPlan(
    command: PortForwardOptions, cluster: Cluster, kubectlPath: string, reconnects: bool)

  /** What the supervisor runs: rebuilt from its command line, the configuration it loads and the session record. */
  ghost function RunTunnelSupervisor(args: seq<string>, cfg: Config, record: Record): Option<SupervisorPlan> {
    match ReadSupervisorCall(args)
    case None => None
    case Some(call) =>
      match SelectedCluster(cfg, call.options.clusterName, call.options.contextName)
      case Chosen(cluster) =>
        if call.sessionDir == "" || call.readyFile == "" || record.target != call.target
          || record.gateway !in cfg.gateways then None
        else
          var gateway := cfg.gateways[record.gateway];
          Some(SupervisorPlan(
            PortForwardOptions(record.namespace, gateway.service, record.localPort, gateway.port,
                               cluster.kubernetesContext, cluster.kubeconfig),
            cluster, call.options.kubectlPath, record.reconnect && !call.options.noReconnect))
      case _ => None
  }

  /** With the configuration unchanged and the record read back as saved, the supervisor runs exactly the command that
      preflight tried, on the same cluster and kubectl, and reconnects exactly when the user did not switch it off, if
      and only if the target is no flag. Otherwise it runs nothing. */
  lemma SameCommand(cfg: Config, c: SupervisorCall, port: Option<Allocation>, cluster: Cluster)
    requires Prepare(cfg, c.target, c.options.gatewayName, port).Ready?
    requires SelectedCluster(cfg, c.options.clusterName, c.options.contextName) == Chosen(cluster)
    requires c.sessionDir != "" && c.readyFile != ""
    ensures var p := Prepare(cfg, c.target, c.options.gatewayName, port).prepared;
      var plan := RunTunnelSupervisor(SupervisorArgs(c), cfg, SavedRecord(c.target, p, c.options.noReconnect));
      var tried := SupervisorPlan(PreflightCommand(p, cluster), cluster, c.options.kubectlPath, !c.options.noReconnect);
      && (plan == Some(tried) <==> IsPositional(c.target))
      && (plan.None? <==> !IsPositional(c.target))
  {
    hide ReadSupervisorCall, SupervisorArgs, SelectedCluster, IsPositional;
    ReadTargetIsPositional(SupervisorArgs(c));
    if IsPositional(c.target) {
      SupervisorReads(c);
    }
  }

  /** A target named `-x` is prepared and probed like any other one, and then no supervisor runs for it. */
  lemma FlagTarget(cfg: Config, c: SupervisorCall, port: Option<Allocation>)
    requires c.target == "-x" && Prepare(cfg, c.target, c.options.gatewayName, port).Ready?
    ensures var p := Prepare(cfg, c.target, c.options.gatewayName, port).prepared;
      RunTunnelSupervisor(SupervisorArgs(c), cfg, SavedRecord(c.target, p, c.options.noReconnect)).None?
  {
    hide ReadSupervisorCall, SupervisorArgs, SelectedCluster;
    ReadTargetIsPositional(SupervisorArgs(c));
  }

  /** Started with these arguments and the record of its target, the supervisor runs if and only if the target is no
      flag, a session directory and a ready file were given, a cluster can be chosen, and the record names a gateway
      that is configured. With the record of another target it does not run, unless its own was misread. */
  lemma SupervisorRunsIff(cfg: Config, c: SupervisorCall, record: Record)
    ensures record.target == c.target ==>
      (RunTunnelSupervisor(SupervisorArgs(c), cfg, record).Some? <==>
        && IsPositional(c.target) && c.sessionDir != "" && c.readyFile != ""
        && SelectedCluster(cfg, c.options.clusterName, c.options.contextName).Chosen?
        && record.gateway in cfg.gateways)
    ensures record.target != c.target && IsPositional(c.target) ==>
      RunTunnelSupervisor(SupervisorArgs(c), cfg, record).None?
  {
    hide ReadSupervisorCall, SupervisorArgs, SelectedCluster, IsPositional;
    ReadTargetIsPositional(SupervisorArgs(c));
    if IsPositional(c.target) {
      SupervisorReads(c);
    }
  }

  /** The reloaded configuration has its defaults filled in; that changes neither the choice of the
      cluster nor the gateways. */
  lemma ReloadedConfig(cfg: Config, args: seq<string>, record: Record)
    ensures RunTunnelSupervisor(args, Defaulted(cfg), record) == RunTunnelSupervisor(args, cfg, record)
  {
    hide ReadSupervisorCall;
    if |cfg.contexts| == 1 {
      OnlyOne(cfg.contexts.Keys, OnlyContext(Defaulted(cfg)), OnlyContext(cfg));
    }
  }

  lemma OnlyOne(names: set<string>, a: string, b: string)
    requires |names| == 1 && a in names && b in names
    ensures a == b
  {
    assert |names - {a}| == 0;
    assert b !in names - {a};
  }
}
