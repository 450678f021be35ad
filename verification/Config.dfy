/** The configuration: its validation, and the lookups that connect makes in an accepted one
    (internal/config/config.go, cmd/dev-connect/main.go, internal/connect/connect.go). */
module Configuration {
  import opened Lines
  import opened Environment

  datatype Context = Context(cluster: string, gateway: string)
  datatype Cluster = Cluster(kubeconfig: string, kubernetesContext: string, kubectlPath: string, proxy: ProxyConfig)
  datatype Gateway = Gateway(namespace: string, service: string, port: int)
  datatype Target = Target(gateway: string, user: string, identityFile: string, hostKeyRef: string)
  datatype Ssh = Ssh(serverAliveInterval: Option<int>, serverAliveCountMax: Option<int>, tcpKeepAlive: Option<bool>,
                     manageUserConfig: bool, userConfigPath: string)
  datatype Config = Config(
    apiVersion: string, kind: string, contexts: map<string, Context>, clusters: map<string, Cluster>,
    gateways: map<string, Gateway>, targets: map<string, Target>, hostKeys: map<string, string>, ssh: Ssh)

  const API_VERSION := "dev-connect/v1"
  const KIND := "DevConnectConfig"
  const EMPTY_CLUSTER := Cluster("", "", "", ProxyConfig(false, "", "", ""))

  // ----- Validation

  datatype ConfigError =
    | UnsupportedApiVersion | UnsupportedKind | NegativeInterval | NegativeCountMax
    | ContextMissingCluster(name: string) | ContextUnknownCluster(name: string)
    | ContextMissingGateway(name: string) | ContextUnknownGateway(name: string)
    | TargetMissingGateway(name: string) | TargetUnknownGateway(name: string)
    | TargetUnknownHostKey(name: string, hostKey: string)
    | GatewayMissingNamespace(name: string) | GatewayMissingService(name: string) | GatewayInvalidPort(name: string)

  /** The host key a target refers to: its own name unless it names another. */
  function HostKeyRef(name: string, target: Target): string {
    if target.hostKeyRef == "" then name else target.hostKeyRef
  }

  function HostKey(cfg: Config, hostKeyRef: string): string {
    if hostKeyRef in cfg.hostKeys then cfg.hostKeys[hostKeyRef] else ""
  }

  predicate Negative(setting: Option<int>) {
    setting.Some? && setting.value < 0
  }

  predicate ContextOk(cfg: Config, context: Context) {
    && context.cluster != "" && (cfg.clusters != map[] ==> context.cluster in cfg.clusters)
    && context.gateway != "" && (cfg.gateways != map[] ==> context.gateway in cfg.gateways)
  }

  predicate TargetOk(cfg: Config, name: string, target: Target) {
    && target.gateway != "" && (cfg.gateways != map[] ==> target.gateway in cfg.gateways)
    && (cfg.hostKeys != map[] ==> HostKey(cfg, HostKeyRef(name, target)) != "")
  }

  predicate GatewayOk(gateway: Gateway) {
    gateway.namespace != "" && gateway.service != "" && gateway.port > 0
  }

  /** What makes a configuration acceptable. No order of the maps enters. */
  predicate Acceptable(cfg: Config) {
    && cfg.apiVersion == API_VERSION && cfg.kind == KIND
    && !Negative(cfg.ssh.serverAliveInterval) && !Negative(cfg.ssh.serverAliveCountMax)
    && (forall name :: name in cfg.contexts ==> ContextOk(cfg, cfg.contexts[name]))
    && (forall name :: name in cfg.targets ==> TargetOk(cfg, name, cfg.targets[name]))
    && (forall name :: name in cfg.gateways ==> GatewayOk(cfg.gateways[name]))
  }

  /** The reported error names a defect that is there. */
  predicate Explains(error: ConfigError, cfg: Config) {
    match error
    case UnsupportedApiVersion => cfg.apiVersion != "dev-connect/v1"
    case UnsupportedKind => cfg.kind != "DevConnectConfig"
    case NegativeInterval => cfg.ssh.serverAliveInterval.Some? && cfg.ssh.serverAliveInterval.value < 0
    case NegativeCountMax => cfg.ssh.serverAliveCountMax.Some? && cfg.ssh.serverAliveCountMax.value < 0
    case ContextMissingCluster(name) => name in cfg.contexts && cfg.contexts[name].cluster == ""
    case ContextUnknownCluster(name) =>
      name in cfg.contexts && |cfg.clusters| > 0 && cfg.contexts[name].cluster !in cfg.clusters
    case ContextMissingGateway(name) => name in cfg.contexts && cfg.contexts[name].gateway == ""
    case ContextUnknownGateway(name) =>
      name in cfg.contexts && |cfg.gateways| > 0 && cfg.contexts[name].gateway !in cfg.gateways
    case TargetMissingGateway(name) => name in cfg.targets && cfg.targets[name].gateway == ""
    case TargetUnknownGateway(name) =>
      name in cfg.targets && |cfg.gateways| > 0 && cfg.targets[name].gateway !in cfg.gateways
    case TargetUnknownHostKey(name, hostKey) =>
      && name in cfg.targets && |cfg.hostKeys| > 0
      && hostKey == (if cfg.targets[name].hostKeyRef == "" then name else cfg.targets[name].hostKeyRef)
      && (hostKey in cfg.hostKeys ==> cfg.hostKeys[hostKey] == "")
    case _ => ExplainsGateway(error, cfg.gateways)
  }

  predicate ExplainsGateway(error: ConfigError, gateways: map<string, Gateway>) {
    match error
    case GatewayMissingNamespace(name) => name in gateways && gateways[name].namespace == ""
    case GatewayMissingService(name) => name in gateways && gateways[name].service == ""
    case GatewayInvalidPort(name) => name in gateways && gateways[name].port <= 0
    case _ => false
  }

  function DefaultedTarget(name: string, target: Target): Target {
    target.(hostKeyRef := HostKeyRef(name, target))
  }

  /** The targets of `done` have their default host key filled in, the others are as they were. */
  function DefaultedIn(targets: map<string, Target>, done: set<string>): map<string, Target> {
    map name | name in targets :: if name in done then DefaultedTarget(name, targets[name]) else targets[name]
  }

  function Defaulted(cfg: Config): Config {
    cfg.(targets := DefaultedIn(cfg.targets, cfg.targets.Keys))
  }

  function CheckContext(cfg: Config, name: string, context: Context): Option<ConfigError> {
    if context.cluster == "" then Some(ContextMissingCluster(name))
    else if cfg.clusters != map[] && context.cluster !in cfg.clusters then Some(ContextUnknownCluster(name))
    else if context.gateway == "" then Some(ContextMissingGateway(name))
    else if cfg.gateways != map[] && context.gateway !in cfg.gateways then Some(ContextUnknownGateway(name))
    else None
  }

  function CheckGateway(name: string, gateway: Gateway): Option<ConfigError> {
    if gateway.namespace == "" then Some(GatewayMissingNamespace(name))
    else if gateway.service == "" then Some(GatewayMissingService(name))
    else if gateway.port <= 0 then Some(GatewayInvalidPort(name))
    else None
  }

  /** A parsed configuration file. `Validate` fills in defaults in place, in whatever order the maps are walked. */
  class ConfigFile {
    var cfg: Config

    constructor (cfg: Config)
      ensures this.cfg == cfg
    {
      this.cfg := cfg;
    }

    method Validate() returns (error: Option<ConfigError>, ghost done: set<string>)
      modifies this
      ensures error.None? <==> Acceptable(old(cfg))
      ensures error.None? ==> cfg == Defaulted(old(cfg))
      ensures error.Some? ==> Explains(error.value, old(cfg)) && PartlyDefaulted(old(cfg), cfg, done)
    {
      hide ContextOk, TargetOk, GatewayOk, CheckContext, CheckGateway, ExplainsGateway;
      done := {};
      NothingDefaulted(cfg);
      error := CheckHead(cfg);
      if error.Some? {
        return;
      }
      error := CheckContexts(cfg);
      if error.Some? {
        return;
      }
      error, done := CheckTargets();
      if error.Some? {
        return;
      }
      error := CheckGateways(cfg.gateways);
    }

    /** The loop over the targets, which writes the default host key of each target into the map. */
    method CheckTargets() returns (error: Option<ConfigError>, ghost done: set<string>)
      modifies this
      ensures error.None? <==> (forall name :: name in old(cfg).targets ==>
        TargetOk(old(cfg), name, old(cfg).targets[name]))
      ensures error.None? ==> cfg == Defaulted(old(cfg)) && done == old(cfg).targets.Keys
      ensures error.Some? ==> Explains(error.value, old(cfg))
      ensures PartlyDefaulted(old(cfg), cfg, done)
    {
      hide TargetOk, Explains, DefaultedIn;
      ghost var before := cfg;
      var rest := cfg.targets.Keys;
      done := {};
      NothingDefaulted(cfg);
      while rest != {}
        invariant rest !! done && rest + done == before.targets.Keys
        invariant PartlyDefaulted(before, cfg, done)
        invariant forall name :: name in done ==> TargetOk(before, name, before.targets[name])
        decreases |rest|
      {
        var name :| name in rest;
        error, done := CheckTarget(name, before, done);
        if error.Some? {
          return;
        }
        rest := rest - {name};
      }
      error := None;
    }

    /** One target: check its gateway, fill in its host key, check that. */
    method CheckTarget(name: string, ghost before: Config, ghost done: set<string>)
      returns (error: Option<ConfigError>, ghost done': set<string>)
      requires PartlyDefaulted(before, cfg, done) && name in before.targets && name !in done
      modifies this
      ensures error.None? <==> TargetOk(before, name, before.targets[name])
      ensures error.Some? ==> Explains(error.value, before)
      ensures PartlyDefaulted(before, cfg, done') && (error.None? ==> done' == done + {name})
    {
      done' := done;
      var target := cfg.targets[name];
      if target.gateway == "" {
        return Some(TargetMissingGateway(name)), done;
      }
      if cfg.gateways != map[] && target.gateway !in cfg.gateways {
        return Some(TargetUnknownGateway(name)), done;
      }
      DefaultOne(before.targets, done, name);
      done' := done + {name};
      var hostKeyRef := target.hostKeyRef;
      if hostKeyRef == "" {
        hostKeyRef := name;
        target := target.(hostKeyRef := hostKeyRef);
        cfg := cfg.(targets := cfg.targets[name := target]);
      }
      if cfg.hostKeys != map[] && HostKey(cfg, hostKeyRef) == "" {
        return Some(TargetUnknownHostKey(name, hostKeyRef)), done';
      }
      error := None;
    }
  }

  /** The configuration after some of its targets were filled in. */
  predicate PartlyDefaulted(before: Config, after: Config, done: set<string>) {
    done <= before.targets.Keys && after == before.(targets := DefaultedIn(before.targets, done))
  }

  lemma DefaultOne(targets: map<string, Target>, done: set<string>, name: string)
    requires name in targets && name !in done
    ensures DefaultedIn(targets, done + {name})
      == DefaultedIn(targets, done)[name := DefaultedTarget(name, targets[name])]
    ensures DefaultedTarget(name, targets[name]) == targets[name] ==>
      DefaultedIn(targets, done + {name}) == DefaultedIn(targets, done)
  {
  }

  lemma NothingDefaulted(cfg: Config)
    ensures DefaultedIn(cfg.targets, {}) == cfg.targets
    ensures DefaultedIn(cfg.targets, cfg.targets.Keys - cfg.targets.Keys) == cfg.targets
    ensures cfg == cfg.(targets := DefaultedIn(cfg.targets, {}))
  {
  }

  method CheckHead(cfg: Config) returns (error: Option<ConfigError>)
    ensures error.None? <==>
      && cfg.apiVersion == API_VERSION && cfg.kind == KIND
      && !Negative(cfg.ssh.serverAliveInterval) && !Negative(cfg.ssh.serverAliveCountMax)
    ensures error.Some? ==> Explains(error.value, cfg)
  {
    if cfg.apiVersion != API_VERSION {
      return Some(UnsupportedApiVersion);
    }
    if cfg.kind != KIND {
      return Some(UnsupportedKind);
    }
    if Negative(cfg.ssh.serverAliveInterval) {
      return Some(NegativeInterval);
    }
    if Negative(cfg.ssh.serverAliveCountMax) {
      return Some(NegativeCountMax);
    }
    error := None;
  }

  method CheckContexts(cfg: Config) returns (error: Option<ConfigError>)
    ensures error.None? <==> forall name :: name in cfg.contexts ==> ContextOk(cfg, cfg.contexts[name])
    ensures error.Some? ==> Explains(error.value, cfg)
  {
    error := None;
    var rest := cfg.contexts.Keys;
    while rest != {}
      invariant rest <= cfg.contexts.Keys && error.None?
      invariant forall name :: name in cfg.contexts && name !in rest ==> ContextOk(cfg, cfg.contexts[name])
      decreases |rest|
    {
      var name :| name in rest;
      error := CheckContext(cfg, name, cfg.contexts[name]);
      if error.Some? {
        return;
      }
      rest := rest - {name};
    }
  }

  method CheckGateways(gateways: map<string, Gateway>) returns (error: Option<ConfigError>)
    ensures error.None? <==> forall name :: name in gateways ==> GatewayOk(gateways[name])
    ensures error.Some? ==> ExplainsGateway(error.value, gateways)
  {
    error := None;
    var rest := gateways.Keys;
    while rest != {}
      invariant rest <= gateways.Keys && error.None?
      invariant forall name :: name in gateways && name !in rest ==> GatewayOk(gateways[name])
      decreases |rest|
    {
      var name :| name in rest;
      error := CheckGateway(name, gateways[name]);
      if error.Some? {
        return;
      }
      rest := rest - {name};
    }
  }

  /** A configuration is acceptable exactly when no error applies to it: each error has its own defect, and every defect
      has its error. */
  lemma AcceptableIff(cfg: Config)
    ensures Acceptable(cfg) <==> forall error :: !Explains(error, cfg)
  {
    if Acceptable(cfg) {
      forall error
        ensures !Explains(error, cfg)
      {
        AcceptableHasNoDefect(cfg, error);
      }
    } else {
      var error := Defect(cfg);
    }
  }

  lemma AcceptableHasNoDefect(cfg: Config, error: ConfigError)
    requires Acceptable(cfg)
    ensures !Explains(error, cfg)
  {
    match error
    case ContextMissingCluster(name) => assert name in cfg.contexts ==> ContextOk(cfg, cfg.contexts[name]);
    case ContextUnknownCluster(name) => assert name in cfg.contexts ==> ContextOk(cfg, cfg.contexts[name]);
    case ContextMissingGateway(name) => assert name in cfg.contexts ==> ContextOk(cfg, cfg.contexts[name]);
    case ContextUnknownGateway(name) => assert name in cfg.contexts ==> ContextOk(cfg, cfg.contexts[name]);
    case TargetMissingGateway(name) => assert name in cfg.targets ==> TargetOk(cfg, name, cfg.targets[name]);
    case TargetUnknownGateway(name) => assert name in cfg.targets ==> TargetOk(cfg, name, cfg.targets[name]);
    case TargetUnknownHostKey(name, _) => assert name in cfg.targets ==> TargetOk(cfg, name, cfg.targets[name]);
    case GatewayMissingNamespace(name) => assert name in cfg.gateways ==> GatewayOk(cfg.gateways[name]);
    case GatewayMissingService(name) => assert name in cfg.gateways ==> GatewayOk(cfg.gateways[name]);
    case GatewayInvalidPort(name) => assert name in cfg.gateways ==> GatewayOk(cfg.gateways[name]);
    case _ =>
  }

  /** The defect of a configuration that is not acceptable. */
  lemma Defect(cfg: Config) returns (error: ConfigError)
    requires !Acceptable(cfg)
    ensures Explains(error, cfg)
  {
    if cfg.apiVersion != API_VERSION {
      error := UnsupportedApiVersion;
    } else if cfg.kind != KIND {
      error := UnsupportedKind;
    } else if Negative(cfg.ssh.serverAliveInterval) {
      error := NegativeInterval;
    } else if Negative(cfg.ssh.serverAliveCountMax) {
      error := NegativeCountMax;
    } else if name :| name in cfg.contexts && !ContextOk(cfg, cfg.contexts[name]) {
      error := ContextDefect(cfg, name);
    } else if name :| name in cfg.targets && !TargetOk(cfg, name, cfg.targets[name]) {
      error := TargetDefect(cfg, name);
    } else {
      var name :| name in cfg.gateways && !GatewayOk(cfg.gateways[name]);
      error := if cfg.gateways[name].namespace == "" then GatewayMissingNamespace(name)
               else if cfg.gateways[name].service == "" then GatewayMissingService(name) else GatewayInvalidPort(name);
    }
  }

  lemma ContextDefect(cfg: Config, name: string) returns (error: ConfigError)
    requires name in cfg.contexts && !ContextOk(cfg, cfg.contexts[name])
    ensures Explains(error, cfg)
  {
    var context := cfg.contexts[name];
    error := if context.cluster == "" then ContextMissingCluster(name)
             else if context.gateway == "" then ContextMissingGateway(name)
             else if cfg.clusters != map[] && context.cluster !in cfg.clusters then ContextUnknownCluster(name)
             else ContextUnknownGateway(name);
  }

  lemma TargetDefect(cfg: Config, name: string) returns (error: ConfigError)
    requires name in cfg.targets && !TargetOk(cfg, name, cfg.targets[name])
    ensures Explains(error, cfg)
  {
    var target := cfg.targets[name];
    error := if target.gateway == "" then TargetMissingGateway(name)
             else if cfg.gateways != map[] && target.gateway !in cfg.gateways then TargetUnknownGateway(name)
             else TargetUnknownHostKey(name, HostKeyRef(name, target));
  }

  /** Filling in the defaults gives each target without a host key its own name for one and changes nothing else; it
      changes neither the verdict nor, done again, the configuration. */
  lemma DefaultingIdempotent(cfg: Config)
    ensures Defaulted(cfg) == cfg.(targets := Defaulted(cfg).targets)
      && Defaulted(cfg).targets.Keys == cfg.targets.Keys
      && forall name :: name in cfg.targets ==>
        Defaulted(cfg).targets[name]
        == if cfg.targets[name].hostKeyRef == "" then cfg.targets[name].(hostKeyRef := name) else cfg.targets[name]
    ensures Defaulted(Defaulted(cfg)) == Defaulted(cfg)
    ensures Acceptable(Defaulted(cfg)) <==> Acceptable(cfg)
  {
    assert Defaulted(cfg).targets.Keys == cfg.targets.Keys;
    forall name | name in cfg.targets
      ensures Defaulted(cfg).targets[name] == DefaultedTarget(name, cfg.targets[name])
      ensures TargetOk(Defaulted(cfg), name, Defaulted(cfg).targets[name]) <==> TargetOk(cfg, name, cfg.targets[name])
    {
    }
    assert Defaulted(Defaulted(cfg)).targets == Defaulted(cfg).targets;
  }

  // ----- Choosing the cluster

  datatype Choice<+T> = Chosen(value: T) | UnknownName(name: string) | Ambiguous

  /** The only context of a configuration that has one. */
  ghost function OnlyContext(cfg: Config): string
    requires |cfg.contexts| == 1
    ensures OnlyContext(cfg) in cfg.contexts
  {
    assert cfg.contexts.Keys != {};
    var name :| name in cfg.contexts; name
  }

  ghost function ClusterOfContext(cfg: Config, contextName: string): Choice<Cluster> {
    if contextName !in cfg.contexts then UnknownName(contextName)
    else if cfg.contexts[contextName].cluster !in cfg.clusters then UnknownName(cfg.contexts[contextName].cluster)
    else Chosen(cfg.clusters[cfg.contexts[contextName].cluster])
  }

  /** `selectedCluster`. */
  ghost function SelectedCluster(cfg: Config, clusterName: string, contextName: string): Choice<Cluster> {
    if clusterName != "" then
      if clusterName in cfg.clusters then Chosen(cfg.clusters[clusterName]) else UnknownName(clusterName)
    else if contextName != "" then ClusterOfContext(cfg, contextName)
    else if |cfg.contexts| == 0 then Chosen(EMPTY_CLUSTER)
    else if |cfg.contexts| == 1 then ClusterOfContext(cfg, OnlyContext(cfg))
    else Ambiguous
  }

  /** In an accepted configuration the choice fails exactly on an explicit name that is not there, on several contexts
      without a name, or where a context has to be followed and no cluster is configured at all. */
  lemma SelectedClusterFailsIff(cfg: Config, clusterName: string, contextName: string)
    requires Acceptable(cfg)
    ensures !SelectedCluster(cfg, clusterName, contextName).Chosen? <==>
      if clusterName != "" then clusterName !in cfg.clusters
      else if contextName != "" then contextName !in cfg.contexts || cfg.clusters == map[]
      else |cfg.contexts| > 1 || (|cfg.contexts| == 1 && cfg.clusters == map[])
  {
    if clusterName == "" && contextName == "" && |cfg.contexts| == 1 {
      assert ContextOk(cfg, cfg.contexts[OnlyContext(cfg)]);
    } else if clusterName == "" && contextName in cfg.contexts {
      assert ContextOk(cfg, cfg.contexts[contextName]);
    }
  }

  /** Which cluster is chosen: the one that is named; else that of the context that is named; else that of the only
      context there is; and, without contexts, the one with no settings. */
  lemma ChosenClusterIff(cfg: Config, clusterName: string, contextName: string, cluster: Cluster)
    ensures SelectedCluster(cfg, clusterName, contextName) == Chosen(cluster) <==>
      if clusterName != "" then clusterName in cfg.clusters && cluster == cfg.clusters[clusterName]
      else if contextName != "" then IsClusterOf(cfg, contextName, cluster)
      else if cfg.contexts == map[] then cluster == Cluster("", "", "", ProxyConfig(false, "", "", ""))
      else exists name :: cfg.contexts.Keys == {name} && IsClusterOf(cfg, name, cluster)
  {
    if clusterName == "" && contextName == "" && cfg.contexts != map[] {
      assert cfg.contexts.Keys != {};
      if |cfg.contexts| == 1 {
        var only := OnlyContext(cfg);
        SoleName(cfg.contexts.Keys, only);
      } else {
        forall name
          ensures cfg.contexts.Keys != {name}
        {
          assert |{name}| == 1;
        }
      }
    }
  }

  /** The context names this cluster, and the cluster is configured. */
  predicate IsClusterOf(cfg: Config, contextName: string, cluster: Cluster) {
    && contextName in cfg.contexts && cfg.contexts[contextName].cluster in cfg.clusters
    && cluster == cfg.clusters[cfg.contexts[contextName].cluster]
  }

  lemma SoleName(names: set<string>, name: string)
    requires |names| == 1 && name in names
    ensures names == {name}
  {
    assert |names - {name}| == 0;
    assert names - {name} == {};
  }

  // ----- Preparing a session: everything that can fail before a file is written

  datatype Allocation = Allocation(host: string, port: int)

  datatype Prepared = Prepared(
    target: Target, gatewayName: string, gateway: Gateway, hostKey: string, allocation: Allocation)

  datatype PrepareError =
    | UnknownTarget | UnknownGateway | MissingHostKey | NoPort
    | MissingAlias | MissingLocalHost | InvalidPort | BlankHostKey

  /** `unicode.IsSpace`. */
  predicate IsSpace(c: char) {
    || c == ' ' || '\t' <= c <= '\r' || c == '\U{85}' || c == '\U{A0}' || c == '\U{1680}'
    || '\U{2000}' <= c <= '\U{200A}' || c == '\U{2028}' || c == '\U{2029}'
    || c == '\U{202F}' || c == '\U{205F}' || c == '\U{3000}'
  }

  /** `strings.TrimSpace(s) == ""`. */
  predicate Blank(s: string) {
    forall i :: 0 <= i < |s| ==> IsSpace(s[i])
  }

  datatype Preparation = Ready(prepared: Prepared) | Refused(error: PrepareError)

  /** The lookups of `Prepare` and the checks of `WriteSessionFiles`, in order; `port` is the
      outcome of the allocation. */
  function Prepare(cfg: Config, targetName: string, gatewayOverride: string, port: Option<Allocation>): Preparation {
    if targetName !in cfg.targets then Refused(UnknownTarget)
    else
      var target := cfg.targets[targetName];
      var gatewayName := if gatewayOverride == "" then target.gateway else gatewayOverride;
      var hostKey := HostKey(cfg, HostKeyRef(targetName, target));
      if gatewayName !in cfg.gateways then Refused(UnknownGateway)
      else if hostKey == "" then Refused(MissingHostKey)
      else if port.None? then Refused(NoPort)
      else if targetName == "" then Refused(MissingAlias)
      else if port.value.host == "" then Refused(MissingLocalHost)
      else if port.value.port <= 0 then Refused(InvalidPort)
      else if Blank(hostKey) then Refused(BlankHostKey)
      else Ready(Prepared(target, gatewayName, cfg.gateways[gatewayName], hostKey, port.value))
  }

  /** In an accepted configuration with gateways and host keys, preparing is refused exactly on an unknown target or
      override, a failed or unusable allocation, a nameless target, or a host key of blanks. */
  lemma PrepareRefusedIff(cfg: Config, targetName: string, gatewayOverride: string, port: Option<Allocation>)
    requires Acceptable(cfg) && cfg.gateways != map[] && cfg.hostKeys != map[]
    ensures Prepare(cfg, targetName, gatewayOverride, port).Refused? <==>
      || targetName !in cfg.targets || targetName == ""
      || (gatewayOverride != "" && gatewayOverride !in cfg.gateways)
      || port.None? || port.value.host == "" || port.value.port <= 0
      || Blank(HostKey(cfg, HostKeyRef(targetName, cfg.targets[targetName])))
  {
    if targetName in cfg.targets {
      assert TargetOk(cfg, targetName, cfg.targets[targetName]);
    }
  }

  /** A prepared session has the configured target, the validated gateway that the override names, or else the target,
      the key pinned for the target, under the name the target gives or else its own, and the allocated port. */
  lemma PreparedIsComplete(cfg: Config, targetName: string, gatewayOverride: string, port: Option<Allocation>)
    requires Acceptable(cfg) && Prepare(cfg, targetName, gatewayOverride, port).Ready?
    ensures var p := Prepare(cfg, targetName, gatewayOverride, port).prepared;
      && targetName in cfg.targets && p.target == cfg.targets[targetName]
      && p.gatewayName == (if gatewayOverride != "" then gatewayOverride else p.target.gateway)
      && p.gatewayName in cfg.gateways && p.gateway == cfg.gateways[p.gatewayName]
      && p.gateway.namespace != "" && p.gateway.service != "" && p.gateway.port > 0
      && var keyName := if p.target.hostKeyRef != "" then p.target.hostKeyRef else targetName;
      && keyName in cfg.hostKeys && p.hostKey == cfg.hostKeys[keyName] && !Blank(p.hostKey)
      && port == Some(p.allocation) && p.allocation.port > 0 && p.allocation.host != ""
  {
    var p := Prepare(cfg, targetName, gatewayOverride, port).prepared;
    assert GatewayOk(cfg.gateways[p.gatewayName]);
  }

  /** Spaces and line ends are blank, and a key is not. */
  lemma BlankMeans(c: char)
    ensures Blank([c]) <==> IsSpace(c)
    ensures c in " \t\r\n" ==> IsSpace(c)
    ensures '!' <= c <= '~' ==> !IsSpace(c)
  {
    assert [c][0] == c;
  }
}
