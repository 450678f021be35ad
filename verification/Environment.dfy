/** Process environments for kubectl (internal/kubectl/runner.go, internal/proxy/env.go, cmd/dev-connect/main.go):
    lists of `NAME=VALUE` entries, overwritten in place. */
module Environment {
  import opened Text
  import opened Lines

  // ----- Entries and names

  function Pair(name: string, value: string): string {
    name + "=" + value
  }

  /** The name of an entry: what `strings.Cut(entry, "=")` puts before the separator. */
  function NameOf(entry: string): Option<string> {
    var i := Find(entry, '=');
    if i == |entry| then None else Some(entry[..i])
  }

  /** The value of an entry with a name. */
  function ValueOf(entry: string): string
    requires NameOf(entry).Some?
  {
    entry[Find(entry, '=') + 1..]
  }

  lemma PairParts(name: string, value: string)
    requires '=' !in name
    ensures NameOf(Pair(name, value)) == Some(name) && ValueOf(Pair(name, value)) == value
  {
    FindIs(name, '=', value);
    assert Pair(name, value)[..|name|] == name;
    assert Pair(name, value)[|name| + 1..] == value;
  }

  lemma PairBack(entry: string)
    requires NameOf(entry).Some?
    ensures entry == Pair(NameOf(entry).value, ValueOf(entry)) && '=' !in NameOf(entry).value
  {
  }

  /** Simple case folding of the characters that can equal an ASCII letter under `strings.EqualFold`. */
  function FoldChar(c: char): char {
    if 'A' <= c <= 'Z' then c - 'A' + 'a'
    else if c == '\U{017F}' then 's'
    else if c == '\U{212A}' then 'k'
    else c
  }

  function Fold(s: string): (r: string)
    ensures |r| == |s| && forall i :: 0 <= i < |s| ==> r[i] == FoldChar(s[i])
  {
    seq(|s|, i requires 0 <= i < |s| => FoldChar(s[i]))
  }

  /** What names are compared by: case-folded on Windows, exact elsewhere. */
  function Canon(windows: bool, name: string): string {
    if windows then Fold(name) else name
  }

  predicate IsAsciiLetter(c: char) {
    'A' <= c <= 'Z' || 'a' <= c <= 'z'
  }

  /** The same character, or the same ASCII letter in another case. */
  predicate SameLetter(a: char, b: char) {
    a == b || (IsAsciiLetter(a) && IsAsciiLetter(b) && (a as int - b as int == 32 || b as int - a as int == 32))
  }

  predicate IsAscii(s: string) {
    forall c :: c in s ==> c < '\U{80}'
  }

  /** On Windows two ASCII names are the same exactly when they differ in the case of letters at most; elsewhere
      exactly when they are equal. Beyond ASCII two characters equal a letter: the long s and the Kelvin sign. */
  lemma CanonMeans(a: string, b: string)
    requires IsAscii(a) && IsAscii(b)
    ensures Canon(true, a) == Canon(true, b) <==> |a| == |b| && forall i :: 0 <= i < |a| ==> SameLetter(a[i], b[i])
    ensures Canon(false, a) == Canon(false, b) <==> a == b
    ensures Canon(true, "\U{017F}") == Canon(true, "S") && Canon(true, "\U{212A}") == Canon(true, "K")
  {
    forall i | 0 <= i < |a| && i < |b|
      ensures FoldChar(a[i]) == FoldChar(b[i]) <==> SameLetter(a[i], b[i])
    {
      assert a[i] in a && b[i] in b;
      FoldMeans(a[i], b[i]);
    }
    if |a| == |b| {
      assert Fold(a) == Fold(b) <==> forall i :: 0 <= i < |a| ==> Fold(a)[i] == Fold(b)[i];
    }
    assert Fold("\U{017F}")[0] == Fold("S")[0] && Fold("\U{212A}")[0] == Fold("K")[0];
  }

  lemma FoldMeans(a: char, b: char)
    requires a < '\U{80}' && b < '\U{80}'
    ensures FoldChar(a) == FoldChar(b) <==> SameLetter(a, b)
  {
  }

  /** `hasEnvKey`. */
  predicate HasKey(windows: bool, entry: string, key: string) {
    NameOf(entry).Some? && Canon(windows, NameOf(entry).value) == Canon(windows, key)
  }

  /** First-match lookup. */
  function First(windows: bool, env: seq<string>, name: string): Option<string> {
    if env == [] then None
    else if HasKey(windows, env[0], name) then Some(ValueOf(env[0]))
    else First(windows, env[1..], name)
  }

  /** Last-wins lookup, as a started process sees a list with repeated names. */
  function Last(windows: bool, env: seq<string>, name: string): Option<string> {
    if env == [] then None
    else
      var later := Last(windows, env[1..], name);
      if later.Some? then later
      else if HasKey(windows, env[0], name) then Some(ValueOf(env[0]))
      else None
  }

  function Count(windows: bool, env: seq<string>, name: string): nat {
    if env == [] then 0 else (if HasKey(windows, env[0], name) then 1 else 0) + Count(windows, env[1..], name)
  }

  /** No name stands twice. */
  ghost predicate Distinct(windows: bool, env: seq<string>) {
    forall name: string :: Count(windows, env, name) <= 1
  }

  // ----- Setting one name

  /** Overwrite the first entry of a name, or append one. */
  function Assign(windows: bool, env: seq<string>, key: string, value: string): seq<string> {
    if env == [] then [Pair(key, value)]
    else if HasKey(windows, env[0], key) then [Pair(key, value)] + env[1..]
    else [env[0]] + Assign(windows, env[1..], key, value)
  }

  predicate SameKey(windows: bool, a: string, b: string) {
    Canon(windows, a) == Canon(windows, b)
  }

  lemma {:induction false} FirstAssigned(windows: bool, env: seq<string>, key: string, value: string, name: string)
    requires '=' !in key
    ensures First(windows, Assign(windows, env, key, value), name)
      == if SameKey(windows, key, name) then Some(value) else First(windows, env, name)
  {
    hide NameOf, ValueOf, Pair, Canon;
    PairParts(key, value);
    if env == [] {
      assert [Pair(key, value)][1..] == [];
    } else if HasKey(windows, env[0], key) {
      assert ([Pair(key, value)] + env[1..])[1..] == env[1..];
    } else {
      FirstAssigned(windows, env[1..], key, value, name);
      assert ([env[0]] + Assign(windows, env[1..], key, value))[1..] == Assign(windows, env[1..], key, value);
    }
  }

  lemma {:induction false} CountAssigned(windows: bool, env: seq<string>, key: string, value: string, name: string)
    requires '=' !in key
    ensures Count(windows, Assign(windows, env, key, value), name)
      == if SameKey(windows, key, name) && Count(windows, env, name) == 0 then 1 else Count(windows, env, name)
  {
    hide NameOf, ValueOf, Pair, Canon;
    PairParts(key, value);
    if env == [] {
      assert [Pair(key, value)][1..] == [];
    } else if HasKey(windows, env[0], key) {
      assert ([Pair(key, value)] + env[1..])[1..] == env[1..];
    } else {
      CountAssigned(windows, env[1..], key, value, name);
      assert ([env[0]] + Assign(windows, env[1..], key, value))[1..] == Assign(windows, env[1..], key, value);
    }
  }

  lemma {:induction false} LastIffCount(windows: bool, env: seq<string>, name: string)
    ensures Last(windows, env, name).Some? <==> Count(windows, env, name) > 0
  {
    if env != [] {
      LastIffCount(windows, env[1..], name);
    }
  }

  /** Under last-wins lookup an assignment shows only if the name stood once at most. */
  lemma {:induction false} LastAssigned(windows: bool, env: seq<string>, key: string, value: string, name: string)
    requires '=' !in key
    ensures Last(windows, Assign(windows, env, key, value), name)
      == if SameKey(windows, key, name) && Count(windows, env, name) <= 1 then Some(value) else Last(windows, env, name)
  {
    hide NameOf, ValueOf, Pair, Canon;
    PairParts(key, value);
    if env == [] {
      assert [Pair(key, value)][1..] == [];
    } else if HasKey(windows, env[0], key) {
      assert ([Pair(key, value)] + env[1..])[1..] == env[1..];
      LastIffCount(windows, env[1..], name);
    } else {
      LastAssigned(windows, env[1..], key, value, name);
      assert ([env[0]] + Assign(windows, env[1..], key, value))[1..] == Assign(windows, env[1..], key, value);
    }
  }

  /** Entries of other names keep their positions. */
  lemma {:induction false} AssignKeeps(windows: bool, env: seq<string>, key: string, value: string)
    ensures |env| <= |Assign(windows, env, key, value)| <= |env| + 1
    ensures forall i :: 0 <= i < |env| && !HasKey(windows, env[i], key) ==>
      Assign(windows, env, key, value)[i] == env[i]
  {
    hide HasKey;
    if env != [] && !HasKey(windows, env[0], key) {
      AssignKeeps(windows, env[1..], key, value);
      assert forall i :: 0 < i < |env| ==> env[i] == env[1..][i - 1];
    }
  }

  /** One entry further on, without a match before it. */
  lemma {:induction false} AssignAt(windows: bool, env: seq<string>, key: string, value: string, i: nat)
    requires i <= |env| && forall j :: 0 <= j < i ==> !HasKey(windows, env[j], key)
    requires i < |env| ==> HasKey(windows, env[i], key)
    ensures Assign(windows, env, key, value) == if i < |env| then env[i := Pair(key, value)]
      else env + [Pair(key, value)]
  {
    hide HasKey;
    if i > 0 {
      AssignAt(windows, env[1..], key, value, i - 1);
      assert env == [env[0]] + env[1..];
    }
  }

  // ----- mergeEnv and mergeCommandEnv

  /** One override: an entry without a separator is appended, any other one assigned. */
  function Override(env: seq<string>, entry: string): seq<string> {
    if NameOf(entry).None? then env + [entry] else Assign(false, env, NameOf(entry).value, ValueOf(entry))
  }

  function Merged(base: seq<string>, overrides: seq<string>): seq<string>
    decreases |overrides|
  {
    if overrides == [] then base else Merged(Override(base, overrides[0]), overrides[1..])
  }

  /** `strings.HasPrefix(existing, key+"=")` finds the entries of `key`. */
  lemma PrefixIsKey(entry: string, key: string)
    requires '=' !in key
    ensures key + "=" <= entry <==> HasKey(false, entry, key)
  {
    if key + "=" <= entry {
      var value := entry[|key| + 1..];
      assert entry == Pair(key, value);
      PairParts(key, value);
    }
    if HasKey(false, entry, key) {
      PairBack(entry);
      assert entry[..|key| + 1] == key + "=";
    }
  }

  /** `mergeEnv`. */
  method MergeEnv(base: seq<string>, overrides: seq<string>) returns (env: seq<string>)
    ensures env == Merged(base, overrides)
  {
    env := base;
    var n := 0;
    while n < |overrides|
      invariant n <= |overrides|
      invariant Merged(env, overrides[n..]) == Merged(base, overrides)
    {
      var override := overrides[n];
      assert overrides[n..][0] == override && overrides[n..][1..] == overrides[n + 1..];
      var cut := Find(override, '=');
      if cut == |override| {
        env := env + [override];
      } else {
        env := ReplaceOrAppend(env, override[..cut], override);
      }
      n := n + 1;
    }
  }

  /** The inner loop of `mergeEnv`: overwrite the first entry that starts with `key=`, or append. */
  method ReplaceOrAppend(before: seq<string>, key: string, override: string) returns (env: seq<string>)
    requires NameOf(override) == Some(key)
    ensures env == Override(before, override)
  {
    hide HasKey, Find;
    env := before;
    PairBack(override);
    var i := 0;
    while i < |env|
      invariant i <= |env| && env == before
      invariant forall j :: 0 <= j < i ==> !HasKey(false, env[j], key)
    {
      PrefixIsKey(env[i], key);
      if key + "=" <= env[i] {
        AssignAt(false, env, key, ValueOf(override), i);
        env := env[i := override];
        return;
      }
      i := i + 1;
    }
    AssignAt(false, env, key, ValueOf(override), i);
    env := env + [override];
  }

  /** `mergeCommandEnv`. */
  method MergeCommandEnv(base: seq<string>, overrides: seq<string>) returns (env: seq<string>)
    ensures env == base + overrides
    ensures forall name: string ::
      Last(false, env, name)
      == if Last(false, overrides, name).Some? then Last(false, overrides, name) else Last(false, base, name)
  {
    hide Last;
    env := base;
    env := env + overrides;
    forall name: string
      ensures Last(false, env, name)
        == if Last(false, overrides, name).Some? then Last(false, overrides, name) else Last(false, base, name)
    {
      LastJoin(false, base, overrides, name);
    }
  }

  lemma {:induction false} LastJoin(windows: bool, x: seq<string>, y: seq<string>, name: string)
    ensures Last(windows, x + y, name) == if Last(windows, y, name).Some? then Last(windows, y, name)
      else Last(windows, x, name)
    ensures Count(windows, x + y, name) == Count(windows, x, name) + Count(windows, y, name)
    ensures First(windows, x + y, name) == if First(windows, x, name).Some? then First(windows, x, name)
      else First(windows, y, name)
  {
    hide HasKey;
    if x == [] {
      assert x + y == y;
    } else {
      assert (x + y)[1..] == x[1..] + y;
      LastJoin(windows, x[1..], y, name);
    }
  }

  lemma NamelessSingle(entry: string, name: string)
    requires NameOf(entry).None?
    ensures First(false, [entry], name).None? && Last(false, [entry], name).None? && Count(false, [entry], name) == 0
  {
    assert [entry][1..] == [];
  }

  /** What one override does to all three lookups. */
  lemma Overridden(env: seq<string>, entry: string, name: string)
    ensures var hit := HasKey(false, entry, name); var after := Override(env, entry);
      && First(false, after, name) == (if hit then Some(ValueOf(entry)) else First(false, env, name))
      && Count(false, after, name) == (if hit && Count(false, env, name) == 0 then 1 else Count(false, env, name))
      && Last(false, after, name) == (if hit && Count(false, env, name) <= 1 then Some(ValueOf(entry))
        else Last(false, env, name))
  {
    hide First, Last, Count, Assign;
    if NameOf(entry).None? {
      NamelessSingle(entry, name);
      LastJoin(false, env, [entry], name);
    } else {
      PairBack(entry);
      FirstAssigned(false, env, NameOf(entry).value, ValueOf(entry), name);
      CountAssigned(false, env, NameOf(entry).value, ValueOf(entry), name);
      LastAssigned(false, env, NameOf(entry).value, ValueOf(entry), name);
    }
  }

  /** After merging, every overridden name has its last override under first-match lookup, every other name its value
      from before, and no name stands more often than it did, or once. */
  lemma {:induction false} MergedLookups(base: seq<string>, overrides: seq<string>, name: string)
    ensures var last := Last(false, overrides, name); var env := Merged(base, overrides);
      && First(false, env, name) == (if last.Some? then last else First(false, base, name))
      && Count(false, env, name) == (if last.Some? && Count(false, base, name) == 0 then 1
        else Count(false, base, name))
      && Last(false, env, name) == (if last.Some? && Count(false, base, name) <= 1 then last
        else Last(false, base, name))
    decreases |overrides|
  {
    hide HasKey, First, Count, Override;
    if overrides != [] {
      Overridden(base, overrides[0], name);
      MergedLookups(Override(base, overrides[0]), overrides[1..], name);
    }
  }

  /** Entries of names that are not overridden, and entries without a name, keep their positions. */
  lemma {:induction false} MergedKeeps(base: seq<string>, overrides: seq<string>, i: nat)
    requires i < |base| && (NameOf(base[i]).None? || Last(false, overrides, NameOf(base[i]).value).None?)
    ensures i < |Merged(base, overrides)| && Merged(base, overrides)[i] == base[i]
    decreases |overrides|
  {
    if overrides != [] {
      var entry := overrides[0];
      if NameOf(entry).Some? {
        AssignKeeps(false, base, NameOf(entry).value, ValueOf(entry));
      }
      MergedKeeps(Override(base, entry), overrides[1..], i);
    }
  }

  /** The entries without a name, in order. */
  function Nameless(env: seq<string>): seq<string> {
    if env == [] then []
    else if NameOf(env[0]).None? then [env[0]] + Nameless(env[1..])
    else Nameless(env[1..])
  }

  lemma {:induction false} NamelessJoin(x: seq<string>, y: seq<string>)
    ensures Nameless(x + y) == Nameless(x) + Nameless(y)
  {
    hide NameOf;
    if x == [] {
      assert x + y == y;
    } else {
      assert (x + y)[1..] == x[1..] + y;
      NamelessJoin(x[1..], y);
    }
  }

  lemma {:induction false} NamelessAssigned(windows: bool, env: seq<string>, key: string, value: string)
    requires '=' !in key
    ensures Nameless(Assign(windows, env, key, value)) == Nameless(env)
  {
    hide NameOf, ValueOf, Pair, Canon;
    PairParts(key, value);
    if env == [] {
      assert [Pair(key, value)][1..] == [];
    } else if HasKey(windows, env[0], key) {
      assert ([Pair(key, value)] + env[1..])[1..] == env[1..];
    } else {
      NamelessAssigned(windows, env[1..], key, value);
      assert ([env[0]] + Assign(windows, env[1..], key, value))[1..] == Assign(windows, env[1..], key, value);
    }
  }

  /** No entry without a name is lost: those of the overrides follow those of the base. */
  lemma {:induction false} MergedNameless(base: seq<string>, overrides: seq<string>)
    ensures Nameless(Merged(base, overrides)) == Nameless(base) + Nameless(overrides)
    decreases |overrides|
  {
    hide NameOf, Assign, ValueOf;
    if overrides == [] {
      assert Nameless(base) + [] == Nameless(base);
    } else {
      var entry := overrides[0];
      NamelessJoin(base, [entry]);
      assert Nameless([entry]) == (if NameOf(entry).None? then [entry] else []) by { NamelessOne(entry); }
      if NameOf(entry).Some? {
        NameHasNoSeparator(entry);
        NamelessAssigned(false, base, NameOf(entry).value, ValueOf(entry));
      }
      MergedNameless(Override(base, entry), overrides[1..]);
    }
  }

  lemma NamelessOne(entry: string)
    ensures Nameless([entry]) == if NameOf(entry).None? then [entry] else []
  {
    hide NameOf;
    assert [entry][1..] == [];
  }

  lemma NameHasNoSeparator(entry: string)
    requires NameOf(entry).Some?
    ensures '=' !in NameOf(entry).value
  {
  }

  /** Distinct names stay distinct. */
  lemma MergedDistinct(base: seq<string>, overrides: seq<string>)
    requires Distinct(false, base)
    ensures Distinct(false, Merged(base, overrides))
  {
    forall name: string ensures Count(false, Merged(base, overrides), name) <= 1 {
      MergedLookups(base, overrides, name);
    }
  }

  /** The name is overridden, stands at least twice in the base, and its last value there is not the override. */
  predicate Shadowed(base: seq<string>, overrides: seq<string>, name: string) {
    && Last(false, overrides, name).Some? && Count(false, base, name) > 1
    && Last(false, base, name) != Last(false, overrides, name)
  }

  /** The two merges agree on a name, under last-wins lookup, exactly when the override is not shadowed by a second
      entry of that name in the base. In particular they agree on every base with distinct names. */
  lemma MergesAgreeIff(base: seq<string>, overrides: seq<string>, name: string)
    ensures Last(false, Merged(base, overrides), name) == Last(false, base + overrides, name)
       <==> !Shadowed(base, overrides, name)
    ensures Distinct(false, base) ==> !Shadowed(base, overrides, name)
  {
    hide Last, Count, Merged;
    MergedLookups(base, overrides, name);
    LastJoin(false, base, overrides, name);
  }

  // ----- The environment of a cluster: buildEnvForOS and setProcessEnv

  datatype ProxyConfig = ProxyConfig(enabled: bool, httpProxy: string, httpsProxy: string, noProxy: string)

  /** `set` and `setProcessEnv`: overwrite the first entry of the name in the array itself, or return a longer copy. */
  method SetProcessEnv(windows: bool, env: array<string>, key: string, value: string) returns (r: array<string>)
    modifies env
    ensures r == env || fresh(r)
    ensures r[..] == Assign(windows, old(env[..]), key, value)
  {
    hide HasKey;
    var i := 0;
    while i < env.Length
      invariant i <= env.Length && env[..] == old(env[..])
      invariant forall j :: 0 <= j < i ==> !HasKey(windows, env[j], key)
    {
      if HasKey(windows, env[i], key) {
        AssignAt(windows, env[..], key, value, i);
        env[i] := Pair(key, value);
        return env;
      }
      i := i + 1;
    }
    AssignAt(windows, env[..], key, value, i);
    r := Longer(env[..], Pair(key, value));
  }

  /** A longer copy of a list. */
  method Longer(env: seq<string>, entry: string) returns (r: array<string>)
    ensures fresh(r) && r[..] == env + [entry]
  {
    var entries := env + [entry];
    r := new string[|entries|](i requires 0 <= i < |entries| => entries[i]);
  }

  /** One proxy setting under its upper-case name and, where names are exact, its lower-case name. */
  function WithProxy(windows: bool, env: seq<string>, upper: string, lower: string, value: string): seq<string> {
    if value == "" then env
    else if windows then Assign(windows, env, upper, value)
    else Assign(windows, Assign(windows, env, upper, value), lower, value)
  }

  function WithProxies(windows: bool, env: seq<string>, config: ProxyConfig): seq<string> {
    if !config.enabled then env
    else
      var http := WithProxy(windows, env, "HTTP_PROXY", "http_proxy", config.httpProxy);
      var https := WithProxy(windows, http, "HTTPS_PROXY", "https_proxy", config.httpsProxy);
      WithProxy(windows, https, "NO_PROXY", "no_proxy", config.noProxy)
  }

  method SetProxy(windows: bool, env: array<string>, upper: string, lower: string, value: string)
    returns (r: array<string>)
    modifies env
    ensures r == env || fresh(r)
    ensures r[..] == WithProxy(windows, old(env[..]), upper, lower, value)
  {
    r := env;
    if value != "" {
      r := SetProcessEnv(windows, r, upper, value);
      if !windows {
        r := SetProcessEnv(windows, r, lower, value);
      }
    }
  }

  /** `buildEnvForOS`. It works on a copy: nothing of the caller is modified. */
  method BuildEnvForOS(windows: bool, base: array<string>, config: ProxyConfig) returns (env: array<string>)
    ensures fresh(env)
    ensures env[..] == WithProxies(windows, base[..], config)
  {
    env := new string[base.Length](i requires 0 <= i < base.Length reads base => base[i]);
    assert env[..] == base[..];
    if !config.enabled {
      return;
    }
    env := SetProxy(windows, env, "HTTP_PROXY", "http_proxy", config.httpProxy);
    env := SetProxy(windows, env, "HTTPS_PROXY", "https_proxy", config.httpsProxy);
    env := SetProxy(windows, env, "NO_PROXY", "no_proxy", config.noProxy);
  }

  function ClusterEnv(windows: bool, base: seq<string>, config: ProxyConfig, kubeconfig: string): seq<string> {
    var env := WithProxies(windows, base, config);
    if kubeconfig == "" then env else Assign(windows, env, "KUBECONFIG", kubeconfig)
  }

  /** `kubectlBaseEnvFrom`. It has no `modifies` clause: the caller's array keeps its contents. */
  method KubectlBaseEnvFrom(windows: bool, base: array<string>, config: ProxyConfig, kubeconfig: string)
    returns (env: array<string>)
    ensures fresh(env)
    ensures env[..] == ClusterEnv(windows, base[..], config, kubeconfig)
  {
    env := BuildEnvForOS(windows, base, config);
    if kubeconfig != "" {
      env := SetProcessEnv(windows, env, "KUBECONFIG", kubeconfig);
    }
  }

  /** The value that a setting gives to a name, if it sets that name at all. */
  function ProxyValue(windows: bool, upper: string, lower: string, value: string, name: string): Option<string> {
    if value != "" && (SameKey(windows, upper, name) || (!windows && lower == name)) then Some(value) else None
  }

  function ProxiesValue(windows: bool, config: ProxyConfig, name: string): Option<string> {
    if !config.enabled then None
    else
      var http := ProxyValue(windows, "HTTP_PROXY", "http_proxy", config.httpProxy, name);
      var https := ProxyValue(windows, "HTTPS_PROXY", "https_proxy", config.httpsProxy, name);
      if http.Some? then http else if https.Some? then https
      else ProxyValue(windows, "NO_PROXY", "no_proxy", config.noProxy, name)
  }

  /** The value that the configuration gives to a name. */
  function ConfiguredValue(windows: bool, config: ProxyConfig, kubeconfig: string, name: string): Option<string> {
    if kubeconfig != "" && SameKey(windows, "KUBECONFIG", name) then Some(kubeconfig)
    else ProxiesValue(windows, config, name)
  }

  lemma FixedNames()
    ensures '=' !in "HTTP_PROXY" && '=' !in "HTTPS_PROXY" && '=' !in "NO_PROXY" && '=' !in "KUBECONFIG"
    ensures '=' !in "http_proxy" && '=' !in "https_proxy" && '=' !in "no_proxy"
  {
  }

  lemma CanonLength(windows: bool, a: string, b: string)
    ensures SameKey(windows, a, b) ==> |a| == |b|
  {
  }

  /** No name belongs to two settings, whichever way names are compared. */
  lemma SettingsDisjoint(windows: bool, name: string)
    ensures SameKey(windows, "HTTPS_PROXY", name) || (!windows && name == "https_proxy") ==> |name| == 11
    ensures SameKey(windows, "HTTP_PROXY", name) || (!windows && name == "http_proxy") ==> |name| == 10
    ensures SameKey(windows, "NO_PROXY", name) || (!windows && name == "no_proxy") ==> |name| == 8
    ensures SameKey(windows, "KUBECONFIG", name)
      ==> |name| == 10 && !SameKey(windows, "HTTP_PROXY", name) && name != "http_proxy"
  {
    CanonLength(windows, "HTTPS_PROXY", name);
    CanonLength(windows, "HTTP_PROXY", name);
    CanonLength(windows, "NO_PROXY", name);
    CanonLength(windows, "KUBECONFIG", name);
    if SameKey(windows, "KUBECONFIG", name) {
      assert Canon(windows, "KUBECONFIG")[0] == Canon(windows, name)[0];
      assert windows ==> Fold("KUBECONFIG")[0] == 'k' && Fold("HTTP_PROXY")[0] == 'h' && Fold("http_proxy")[0] == 'h';
    }
  }

  lemma ProxyLookup(windows: bool, env: seq<string>, upper: string, lower: string, value: string, name: string)
    requires '=' !in upper && '=' !in lower
    ensures var given := ProxyValue(windows, upper, lower, value, name);
      var after := WithProxy(windows, env, upper, lower, value);
      && First(windows, after, name) == (if given.Some? then given else First(windows, env, name))
      && Count(windows, after, name) == (if given.Some? && Count(windows, env, name) == 0 then 1
        else Count(windows, env, name))
  {
    hide First, Count, Assign, Fold;
    if value != "" {
      FirstAssigned(windows, env, upper, value, name);
      CountAssigned(windows, env, upper, value, name);
      FirstAssigned(windows, Assign(windows, env, upper, value), lower, value, name);
      CountAssigned(windows, Assign(windows, env, upper, value), lower, value, name);
    }
  }

  lemma ProxiesLookup(windows: bool, base: seq<string>, config: ProxyConfig, name: string)
    ensures var given := ProxiesValue(windows, config, name); var env := WithProxies(windows, base, config);
      && First(windows, env, name) == (if given.Some? then given else First(windows, base, name))
      && Count(windows, env, name) == (if given.Some? && Count(windows, base, name) == 0 then 1
        else Count(windows, base, name))
  {
    hide First, Count, WithProxy, SameKey;
    if config.enabled {
      FixedNames();
      SettingsDisjoint(windows, name);
      var http := WithProxy(windows, base, "HTTP_PROXY", "http_proxy", config.httpProxy);
      var https := WithProxy(windows, http, "HTTPS_PROXY", "https_proxy", config.httpsProxy);
      ProxyLookup(windows, base, "HTTP_PROXY", "http_proxy", config.httpProxy, name);
      ProxyLookup(windows, http, "HTTPS_PROXY", "https_proxy", config.httpsProxy, name);
      ProxyLookup(windows, https, "NO_PROXY", "no_proxy", config.noProxy, name);
    }
  }

  /** The whole chain: every configured name has its configured value, every other name its value from before, and a
      name that stood once at most still does. */
  lemma ClusterEnvLookup(windows: bool, base: seq<string>, config: ProxyConfig, kubeconfig: string, name: string)
    ensures var given := ConfiguredValue(windows, config, kubeconfig, name);
      var env := ClusterEnv(windows, base, config, kubeconfig);
      && First(windows, env, name) == (if given.Some? then given else First(windows, base, name))
      && Count(windows, env, name) == (if given.Some? && Count(windows, base, name) == 0 then 1
        else Count(windows, base, name))
  {
    hide First, Count, WithProxies, ProxiesValue, Assign, SameKey;
    ProxiesLookup(windows, base, config, name);
    if kubeconfig != "" {
      FixedNames();
      var env := WithProxies(windows, base, config);
      FirstAssigned(windows, env, "KUBECONFIG", kubeconfig, name);
      CountAssigned(windows, env, "KUBECONFIG", kubeconfig, name);
    }
  }

  /** A setting that is given stands under its upper-case name and, where names are exact, under its lower-case name. */
  predicate Shows(windows: bool, env: seq<string>, upper: string, lower: string, value: string) {
    value != "" ==>
      First(windows, env, upper) == Some(value) && (!windows ==> First(windows, env, lower) == Some(value))
  }

  /** The names a configuration sets, spelt out. */
  lemma ClusterEnvSettings(windows: bool, base: seq<string>, config: ProxyConfig, kubeconfig: string)
    ensures var env := ClusterEnv(windows, base, config, kubeconfig);
      && (kubeconfig != "" ==> First(windows, env, "KUBECONFIG") == Some(kubeconfig))
      && (config.enabled ==> Shows(windows, env, "HTTP_PROXY", "http_proxy", config.httpProxy))
      && (config.enabled ==> Shows(windows, env, "HTTPS_PROXY", "https_proxy", config.httpsProxy))
      && (config.enabled ==> Shows(windows, env, "NO_PROXY", "no_proxy", config.noProxy))
  {
    hide First, Count, ClusterEnv, SameKey;
    SettingShows(windows, base, config, kubeconfig, "KUBECONFIG");
    SettingShows(windows, base, config, kubeconfig, "HTTP_PROXY");
    SettingShows(windows, base, config, kubeconfig, "http_proxy");
    SettingShows(windows, base, config, kubeconfig, "HTTPS_PROXY");
    SettingShows(windows, base, config, kubeconfig, "https_proxy");
    SettingShows(windows, base, config, kubeconfig, "NO_PROXY");
    SettingShows(windows, base, config, kubeconfig, "no_proxy");
  }

  lemma SettingShows(windows: bool, base: seq<string>, config: ProxyConfig, kubeconfig: string, name: string)
    ensures var value := First(windows, ClusterEnv(windows, base, config, kubeconfig), name);
      && (name == "KUBECONFIG" && kubeconfig != "" ==> value == Some(kubeconfig))
      && (config.enabled && config.httpProxy != "" && (name == "HTTP_PROXY" || (!windows && name == "http_proxy"))
          ==> value == Some(config.httpProxy))
      && (config.enabled && config.httpsProxy != "" && (name == "HTTPS_PROXY" || (!windows && name == "https_proxy"))
          ==> value == Some(config.httpsProxy))
      && (config.enabled && config.noProxy != "" && (name == "NO_PROXY" || (!windows && name == "no_proxy"))
          ==> value == Some(config.noProxy))
  {
    hide First, Count, ClusterEnv, Canon;
    ClusterEnvLookup(windows, base, config, kubeconfig, name);
    SettingsDisjoint(windows, name);
  }

  /** Names that no setting has keep their value and their number, and without settings all names do. */
  lemma OtherNamesKept(windows: bool, base: seq<string>, config: ProxyConfig, kubeconfig: string, name: string)
    requires kubeconfig == "" || !SameKey(windows, "KUBECONFIG", name)
    requires config.enabled ==>
      && !SameKey(windows, "HTTP_PROXY", name) && !SameKey(windows, "HTTPS_PROXY", name)
      && !SameKey(windows, "NO_PROXY", name)
      && (!windows ==> name != "http_proxy" && name != "https_proxy" && name != "no_proxy")
    ensures var env := ClusterEnv(windows, base, config, kubeconfig);
      First(windows, env, name) == First(windows, base, name) && Count(windows, env, name) == Count(windows, base, name)
  {
    hide First, Count, ClusterEnv, SameKey;
    ClusterEnvLookup(windows, base, config, kubeconfig, name);
  }

  /** Name uniqueness survives. */
  lemma ClusterEnvDistinct(windows: bool, base: seq<string>, config: ProxyConfig, kubeconfig: string)
    requires Distinct(windows, base)
    ensures Distinct(windows, ClusterEnv(windows, base, config, kubeconfig))
  {
    forall name: string ensures Count(windows, ClusterEnv(windows, base, config, kubeconfig), name) <= 1 {
      ClusterEnvLookup(windows, base, config, kubeconfig, name);
    }
  }

  /** So on Windows one setting serves every spelling of its name. */
  lemma SpellingsOfProxy(base: seq<string>, config: ProxyConfig, kubeconfig: string, name: string)
    requires config.enabled && config.httpProxy != "" && IsAscii(name) && |name| == |"HTTP_PROXY"|
    requires forall i :: 0 <= i < |name| ==> SameLetter("HTTP_PROXY"[i], name[i])
    ensures First(true, ClusterEnv(true, base, config, kubeconfig), name) == Some(config.httpProxy)
  {
    hide First, Count, ClusterEnv, Canon, SameLetter;
    ClusterEnvLookup(true, base, config, kubeconfig, name);
    CanonMeans("HTTP_PROXY", name);
    SettingsDisjoint(true, name);
  }

  /** An assignment puts its entry into the list as it is written, and leaves the entries of other names there. */
  lemma {:induction false} AssignHolds(windows: bool, env: seq<string>, key: string, value: string, other: string)
    ensures Pair(key, value) in Assign(windows, env, key, value)
    ensures other in env && !HasKey(windows, other, key) ==> other in Assign(windows, env, key, value)
  {
    hide HasKey, Pair;
    if env != [] && !HasKey(windows, env[0], key) {
      AssignHolds(windows, env[1..], key, value, other);
    }
  }

  /** Spelt out as entries: the kubeconfig and the upper-case proxy settings, on every platform. */
  lemma ClusterEnvEntries(windows: bool, base: seq<string>, config: ProxyConfig, kubeconfig: string)
    ensures var env := ClusterEnv(windows, base, config, kubeconfig);
      && (kubeconfig != "" ==> "KUBECONFIG=" + kubeconfig in env)
      && (config.enabled && config.httpProxy != "" ==> "HTTP_PROXY=" + config.httpProxy in env)
      && (config.enabled && config.httpsProxy != "" ==> "HTTPS_PROXY=" + config.httpsProxy in env)
      && (config.enabled && config.noProxy != "" ==> "NO_PROXY=" + config.noProxy in env)
  {
    hide Assign, HasKey, WithProxy, Pair;
    if config.enabled {
      ProxyEntries(windows, base, config);
      var env := WithProxies(windows, base, config);
      FixedNames();
      SettingsApart(windows);
      PairHasKey(windows, "HTTP_PROXY", config.httpProxy, "KUBECONFIG");
      PairHasKey(windows, "HTTPS_PROXY", config.httpsProxy, "KUBECONFIG");
      PairHasKey(windows, "NO_PROXY", config.noProxy, "KUBECONFIG");
      AssignHolds(windows, env, "KUBECONFIG", kubeconfig, Pair("HTTP_PROXY", config.httpProxy));
      AssignHolds(windows, env, "KUBECONFIG", kubeconfig, Pair("HTTPS_PROXY", config.httpsProxy));
      AssignHolds(windows, env, "KUBECONFIG", kubeconfig, Pair("NO_PROXY", config.noProxy));
    }
    AssignHolds(windows, WithProxies(windows, base, config), "KUBECONFIG", kubeconfig, "");
    PairTexts(config, kubeconfig);
  }

  lemma ProxyEntries(windows: bool, base: seq<string>, config: ProxyConfig)
    requires config.enabled
    ensures var env := WithProxies(windows, base, config);
      && (config.httpProxy != "" ==> Pair("HTTP_PROXY", config.httpProxy) in env)
      && (config.httpsProxy != "" ==> Pair("HTTPS_PROXY", config.httpsProxy) in env)
      && (config.noProxy != "" ==> Pair("NO_PROXY", config.noProxy) in env)
  {
    hide Assign, HasKey, WithProxy, Pair, SameKey;
    FixedNames();
    SettingsApart(windows);
    var http, https := Pair("HTTP_PROXY", config.httpProxy), Pair("HTTPS_PROXY", config.httpsProxy);
    var env1 := WithProxy(windows, base, "HTTP_PROXY", "http_proxy", config.httpProxy);
    var env2 := WithProxy(windows, env1, "HTTPS_PROXY", "https_proxy", config.httpsProxy);
    PairHasKey(windows, "HTTP_PROXY", config.httpProxy, "HTTPS_PROXY");
    PairHasKey(windows, "HTTP_PROXY", config.httpProxy, "https_proxy");
    PairHasKey(windows, "HTTP_PROXY", config.httpProxy, "NO_PROXY");
    PairHasKey(windows, "HTTP_PROXY", config.httpProxy, "no_proxy");
    PairHasKey(windows, "HTTPS_PROXY", config.httpsProxy, "NO_PROXY");
    PairHasKey(windows, "HTTPS_PROXY", config.httpsProxy, "no_proxy");
    LowerApart(config);
    ProxyHolds(windows, base, "HTTP_PROXY", "http_proxy", config.httpProxy, "");
    ProxyHolds(windows, env1, "HTTPS_PROXY", "https_proxy", config.httpsProxy, http);
    ProxyHolds(windows, env2, "NO_PROXY", "no_proxy", config.noProxy, http);
    ProxyHolds(windows, env2, "NO_PROXY", "no_proxy", config.noProxy, https);
  }

  lemma LowerApart(config: ProxyConfig)
    ensures !HasKey(false, Pair("HTTP_PROXY", config.httpProxy), "http_proxy")
    ensures !HasKey(false, Pair("HTTPS_PROXY", config.httpsProxy), "https_proxy")
    ensures !HasKey(false, Pair("NO_PROXY", config.noProxy), "no_proxy")
  {
    hide HasKey, Pair, SameKey;
    FixedNames();
    CaseApart();
    PairHasKey(false, "HTTP_PROXY", config.httpProxy, "http_proxy");
    PairHasKey(false, "HTTPS_PROXY", config.httpsProxy, "https_proxy");
    PairHasKey(false, "NO_PROXY", config.noProxy, "no_proxy");
  }

  lemma PairTexts(config: ProxyConfig, kubeconfig: string)
    ensures Pair("KUBECONFIG", kubeconfig) == "KUBECONFIG=" + kubeconfig
    ensures Pair("HTTP_PROXY", config.httpProxy) == "HTTP_PROXY=" + config.httpProxy
    ensures Pair("HTTPS_PROXY", config.httpsProxy) == "HTTPS_PROXY=" + config.httpsProxy
    ensures Pair("NO_PROXY", config.noProxy) == "NO_PROXY=" + config.noProxy
  {
    assert "KUBECONFIG" + "=" == "KUBECONFIG=" && "HTTP_PROXY" + "=" == "HTTP_PROXY=";
    assert "HTTPS_PROXY" + "=" == "HTTPS_PROXY=" && "NO_PROXY" + "=" == "NO_PROXY=";
  }

  /** No name of a setting is a name of a later one. */
  lemma SettingsApart(windows: bool)
    ensures !SameKey(windows, "HTTP_PROXY", "HTTPS_PROXY") && !SameKey(windows, "HTTP_PROXY", "https_proxy")
    ensures !SameKey(windows, "HTTP_PROXY", "NO_PROXY") && !SameKey(windows, "HTTP_PROXY", "no_proxy")
    ensures !SameKey(windows, "HTTPS_PROXY", "NO_PROXY") && !SameKey(windows, "HTTPS_PROXY", "no_proxy")
    ensures !SameKey(windows, "HTTP_PROXY", "KUBECONFIG") && !SameKey(windows, "HTTPS_PROXY", "KUBECONFIG")
    ensures !SameKey(windows, "NO_PROXY", "KUBECONFIG")
  {
    CanonLength(windows, "HTTP_PROXY", "HTTPS_PROXY");
    CanonLength(windows, "HTTP_PROXY", "https_proxy");
    CanonLength(windows, "HTTP_PROXY", "NO_PROXY");
    CanonLength(windows, "HTTP_PROXY", "no_proxy");
    CanonLength(windows, "HTTPS_PROXY", "NO_PROXY");
    CanonLength(windows, "HTTPS_PROXY", "no_proxy");
    CanonLength(windows, "HTTPS_PROXY", "KUBECONFIG");
    CanonLength(windows, "NO_PROXY", "KUBECONFIG");
    KubeconfigApart(windows);
  }

  lemma KubeconfigApart(windows: bool)
    ensures !SameKey(windows, "HTTP_PROXY", "KUBECONFIG")
  {
    assert "HTTP_PROXY"[0] == 'H' && "KUBECONFIG"[0] == 'K';
    assert Fold("HTTP_PROXY")[0] == 'h' && Fold("KUBECONFIG")[0] == 'k';
  }

  lemma PairHasKey(windows: bool, name: string, value: string, key: string)
    requires '=' !in name
    ensures HasKey(windows, Pair(name, value), key) <==> SameKey(windows, name, key)
  {
    hide Pair, NameOf, Canon;
    PairParts(name, value);
  }

  lemma CaseApart()
    ensures !SameKey(false, "HTTP_PROXY", "http_proxy") && !SameKey(false, "HTTPS_PROXY", "https_proxy")
    ensures !SameKey(false, "NO_PROXY", "no_proxy")
  {
    assert "HTTP_PROXY"[0] == 'H' && "http_proxy"[0] == 'h' && "HTTPS_PROXY"[0] == 'H' && "https_proxy"[0] == 'h';
    assert "NO_PROXY"[0] == 'N' && "no_proxy"[0] == 'n';
  }

  /** One setting puts in its upper-case entry, and leaves an entry of another name there. */
  lemma ProxyHolds(windows: bool, env: seq<string>, upper: string, lower: string, value: string, other: string)
    requires !windows ==> !HasKey(windows, Pair(upper, value), lower)
    ensures value != "" ==> Pair(upper, value) in WithProxy(windows, env, upper, lower, value)
    ensures other in env && !HasKey(windows, other, upper) && (!windows ==> !HasKey(windows, other, lower)) ==>
      other in WithProxy(windows, env, upper, lower, value)
  {
    hide Assign, HasKey, Pair;
    var after := Assign(windows, env, upper, value);
    AssignHolds(windows, env, upper, value, other);
    AssignHolds(windows, after, lower, value, Pair(upper, value));
    AssignHolds(windows, after, lower, value, other);
  }
}
