/** The remote proxy setup script (internal/vscode/remote_setup.go), and the shell rules that read it back:
    quoting (sections 2.2.1 to 2.2.3 of POSIX.1-2017 XCU) and here-documents (section 2.7.4). */
module RemoteSetup {
  import opened Text
  import opened Lines

  // ----- Quoting

  /** `shellQuote`. */
  function ShellQuote(value: string): string {
    "'" + ReplaceAll(value, "'", "'\\''") + "'"
  }

  datatype Mode = Plain | Single | Double

  predicate IsNameChar(c: char) {
    'A' <= c <= 'Z' || 'a' <= c <= 'z' || '0' <= c <= '9' || c == '_'
  }

  /** The end of the variable name at the front of `s`. */
  function NameEnd(s: string): (n: nat)
    ensures n <= |s|
  {
    if s != "" && IsNameChar(s[0]) then 1 + NameEnd(s[1..]) else 0
  }

  type Env = map<string, string>

  function Lookup(env: Env, name: string): string {
    if name in env then env[name] else ""
  }

  function Prepend(front: string, rest: Option<string>): Option<string> {
    if rest.None? then None else Some(front + rest.value)
  }

  /** The value of one shell word. A character that would be special outside quotes, an unclosed quote, or an
      expansion other than `$NAME` between double quotes is not understood. */
  function EvalWord(s: string, mode: Mode, env: Env): Option<string>
    decreases |s|
  {
    if s == "" then (if mode == Plain then Some("") else None)
    else
      match mode
      case Single =>
        if s[0] == '\'' then EvalWord(s[1..], Plain, env) else Prepend([s[0]], EvalWord(s[1..], Single, env))
      case Double =>
        if s[0] == '"' then EvalWord(s[1..], Plain, env)
        else if s[0] == '$' then
          var n := NameEnd(s[1..]);
          if n == 0 then None else Prepend(Lookup(env, s[1..][..n]), EvalWord(s[1..][n..], Double, env))
        else if s[0] == '\\' || s[0] == '`' then None
        else Prepend([s[0]], EvalWord(s[1..], Double, env))
      case Plain =>
        if s[0] == '\'' then EvalWord(s[1..], Single, env)
        else if s[0] == '"' then EvalWord(s[1..], Double, env)
        else if s[0] == '\\' then
          if |s| == 1 then None
          else if s[1] == '\n' then EvalWord(s[2..], Plain, env)
          else Prepend([s[1]], EvalWord(s[2..], Plain, env))
        else if IsNameChar(s[0]) then Prepend([s[0]], EvalWord(s[1..], Plain, env))
        else None
  }

  /** Between single quotes, the replaced value followed by its closing quote reads as the value. */
  lemma {:induction false} EvalReplaced(value: string, rest: string, env: Env)
    ensures EvalWord(ReplaceAll(value, "'", "'\\''") + "'" + rest, Single, env)
      == Prepend(value, EvalWord(rest, Plain, env))
  {
    var quoted := ReplaceAll(value, "'", "'\\''");
    if value == "" {
      assert (quoted + "'" + rest)[1..] == rest;
      assert forall r: string :: "" + r == r;
    } else {
      var later := ReplaceAll(value[1..], "'", "'\\''") + "'" + rest;
      EvalReplaced(value[1..], rest, env);
      PrependTwice(value, EvalWord(rest, Plain, env));
      if value[0] == '\'' {
        assert quoted + "'" + rest == "'\\''" + later;
        EvalEscapedQuote(later, env);
      } else {
        assert quoted + "'" + rest == [value[0]] + later;
        assert ([value[0]] + later)[1..] == later;
      }
    }
  }

  lemma PrependTwice(value: string, rest: Option<string>)
    requires value != ""
    ensures Prepend([value[0]], Prepend(value[1..], rest)) == Prepend(value, rest)
  {
    if rest.Some? {
      assert [value[0]] + (value[1..] + rest.value) == value + rest.value;
    }
  }

  /** Inside single quotes, `'\''` closes them, adds a protected quote and opens them again. */
  lemma EvalEscapedQuote(rest: string, env: Env)
    ensures EvalWord("'\\''" + rest, Single, env) == Prepend("'", EvalWord(rest, Single, env))
  {
    var s := "'\\''" + rest;
    assert s[1..] == "\\''" + rest;
    assert ("\\''" + rest)[2..] == "'" + rest;
    assert ("'" + rest)[1..] == rest;
    assert EvalWord("'" + rest, Plain, env) == EvalWord(rest, Single, env);
    assert EvalWord("\\''" + rest, Plain, env) == Prepend("'", EvalWord("'" + rest, Plain, env));
    assert EvalWord(s, Single, env) == EvalWord("\\''" + rest, Plain, env);
  }

  /** `shellQuote` round-trips through the shell for every string: nothing in it is ever read unquoted. */
  lemma ShellQuoteRoundTrip(value: string, env: Env)
    ensures EvalWord(ShellQuote(value), Plain, env) == Some(value)
  {
    var quoted := ReplaceAll(value, "'", "'\\''");
    EvalReplaced(value, "", env);
    assert ShellQuote(value)[1..] == quoted + "'" + "";
    assert value + "" == value;
  }

  lemma {:induction false} EvalPlainTail(s: string, env: Env)
    ensures EvalWord("\"" + s, Plain, env) == EvalWord(s, Double, env)
  {
    assert ("\"" + s)[1..] == s;
  }

  predicate IsName(name: string) {
    name != "" && forall i :: 0 <= i < |name| ==> IsNameChar(name[i])
  }

  lemma {:induction false} NameEndsAtQuote(name: string)
    requires forall i :: 0 <= i < |name| ==> IsNameChar(name[i])
    ensures NameEnd(name + "\"") == |name|
  {
    if name != "" {
      assert (name + "\"")[1..] == name[1..] + "\"";
      NameEndsAtQuote(name[1..]);
    }
  }

  /** `"$NAME"` reads as the value of the variable. */
  lemma EvalReference(name: string, env: Env)
    requires IsName(name)
    ensures EvalWord("\"$" + name + "\"", Plain, env) == Some(Lookup(env, name))
  {
    var s := "\"$" + name + "\"";
    var inner := "$" + name + "\"";
    assert s == "\"" + inner;
    EvalPlainTail(inner, env);
    NameEndsAtQuote(name);
    assert inner[1..] == name + "\"";
    assert inner[1..][..|name|] == name && inner[1..][|name|..] == "\"";
    assert EvalWord("\"", Double, env) == EvalWord("", Plain, env);
    assert Lookup(env, name) + "" == Lookup(env, name);
  }

  // ----- The file of exports

  /** Run one line of the setup file: a comment, or the export of one variable. */
  function RunLine(line: string, env: Env): Option<Env> {
    if line != "" && line[0] == '#' then Some(env)
    else if "export " <= line then
      var rest := line[7..];
      var i := Find(rest, '=');
      if i == |rest| || !IsName(rest[..i]) then None
      else
        match EvalWord(rest[i + 1..], Plain, env)
        case None => None
        case Some(value) => Some(env[rest[..i] := value])
    else None
  }

  function Run(lines: seq<string>, env: Env): Option<Env> {
    if lines == [] then Some(env)
    else
      match RunLine(lines[0], env)
      case None => None
      case Some(next) => Run(lines[1..], next)
  }

  lemma {:induction false} RunJoin(x: seq<string>, y: seq<string>, env: Env)
    ensures Run(x + y, env) == match Run(x, env) case None => None case Some(next) => Run(y, next)
  {
    if x == [] {
      assert x + y == y;
    } else {
      assert (x + y)[1..] == x[1..] + y;
      if RunLine(x[0], env).Some? {
        RunJoin(x[1..], y, RunLine(x[0], env).value);
      }
    }
  }

  lemma NameHasNoEquals(name: string)
    requires IsName(name)
    ensures '=' !in name && '\n' !in name
  {
    assert forall i :: 0 <= i < |name| ==> IsNameChar(name[i]);
  }

  lemma RunExport(name: string, word: string, env: Env)
    requires IsName(name)
    ensures RunLine("export " + name + "=" + word, env)
      == match EvalWord(word, Plain, env) case None => None case Some(value) => Some(env[name := value])
  {
    hide EvalWord, Find, IsNameChar;
    var line := "export " + name + "=" + word;
    var rest := name + ['='] + word;
    assert line == "export " + rest;
    assert line[..7] == "export " && line[7..] == rest;
    NameHasNoEquals(name);
    FindIs(name, '=', word);
    assert rest[..|name|] == name && rest[|name| + 1..] == word;
  }

  // ----- The renderer

  datatype SetupOptions = SetupOptions(httpProxy: string, httpsProxy: string, noProxy: string)

  const FIRST_LINE := "# BEGIN dev-connect remote proxy"
  const LAST_LINE := "# END dev-connect remote proxy"

  function Export(name: string, word: string): string {
    "export " + name + "=" + word
  }

  /** The two exports of a proxy setting, under its upper-case and its lower-case name. */
  function ProxyLines(upper: string, lower: string, value: string): seq<string> {
    if value == "" then [] else [Export(upper, ShellQuote(value)), Export(lower, ShellQuote(value))]
  }

  function NoProxyLines(value: string): seq<string> {
    if value == "" then [] else [Export("NO_PROXY", ShellQuote(value)), Export("no_proxy", "\"$NO_PROXY\"")]
  }

  /** The lines of the setup file. */
  function ServerEnv(o: SetupOptions): seq<string> {
    [FIRST_LINE]
    + ProxyLines("HTTPS_PROXY", "https_proxy", o.httpsProxy)
    + ProxyLines("HTTP_PROXY", "http_proxy", o.httpProxy)
    + NoProxyLines(o.noProxy)
    + [LAST_LINE]
  }

  const DELIMITER := "DEV_CONNECT_SERVER_ENV"

  const SERVER_DIRECTORY := "\"$HOME/.vscode-server"
  const MAKE_DIRECTORY := "mkdir -p " + SERVER_DIRECTORY + "\" " + SERVER_DIRECTORY + "/data/Machine\""
  const SETUP_FILE := "/.vscode-server/server-env-setup"
  const WRITE_FILE := "cat > " + "\"$HOME" + SETUP_FILE + "\" <<'"

  /** The lines of the script before the here-document. */
  function Header(): seq<string> {
    ["set -eu", MAKE_DIRECTORY, "", WRITE_FILE + DELIMITER + "'"]
  }

  /** The script: header, here-document, and whatever follows it. */
  function Script(o: SetupOptions, tail: string): string {
    Terminated(Header()) + Terminated(ServerEnv(o)) + DELIMITER + "\n" + tail
  }

  method RenderRemoteSetupScript(o: SetupOptions, tail: string) returns (script: string)
    ensures script == Script(o, tail)
  {
    hide ShellQuote, Terminated, JoinLines;
    var serverEnv := [FIRST_LINE];
    if o.httpsProxy != "" {
      var word := ShellQuote(o.httpsProxy);
      serverEnv := serverEnv + [Export("HTTPS_PROXY", word), Export("https_proxy", word)];
    }
    if o.httpProxy != "" {
      var word := ShellQuote(o.httpProxy);
      serverEnv := serverEnv + [Export("HTTP_PROXY", word), Export("http_proxy", word)];
    }
    if o.noProxy != "" {
      serverEnv := serverEnv + [Export("NO_PROXY", ShellQuote(o.noProxy)), Export("no_proxy", "\"$NO_PROXY\"")];
    }
    serverEnv := serverEnv + [LAST_LINE];
    assert serverEnv == ServerEnv(o);
    JoinedIsTerminated(Header());
    JoinedIsTerminated(serverEnv);
    script := JoinLines(Header()) + "\n" + JoinLines(serverEnv) + "\n" + DELIMITER + "\n" + tail;
    assert script == (JoinLines(Header()) + "\n") + (JoinLines(serverEnv) + "\n") + DELIMITER + "\n" + tail;
  }

  // ----- What the shell makes of it

  /** A here-document: the lines before the first one that is the delimiter, and the lines after it. */
  function HereDocument(lines: seq<string>, delimiter: string): Option<(seq<string>, seq<string>)> {
    if lines == [] then None
    else if lines[0] == delimiter then Some(([], lines[1..]))
    else
      match HereDocument(lines[1..], delimiter)
      case None => None
      case Some((body, rest)) => Some(([lines[0]] + body, rest))
  }

  lemma {:induction false} HereDocumentIs(body: seq<string>, delimiter: string, rest: seq<string>)
    requires delimiter !in body
    ensures HereDocument(body + [delimiter] + rest, delimiter) == Some((body, rest))
  {
    var lines := body + [delimiter] + rest;
    if body == [] {
      assert lines[1..] == rest;
    } else {
      assert lines[1..] == body[1..] + [delimiter] + rest;
      HereDocumentIs(body[1..], delimiter, rest);
      assert body == [body[0]] + body[1..];
    }
  }

  /** The environment as configured: every proxy setting that is given, under both its names. */
  function Configured(o: SetupOptions, env: Env): Env {
    var https := if o.httpsProxy == "" then env else env["HTTPS_PROXY" := o.httpsProxy]["https_proxy" := o.httpsProxy];
    var http := if o.httpProxy == "" then https else https["HTTP_PROXY" := o.httpProxy]["http_proxy" := o.httpProxy];
    if o.noProxy == "" then http else http["NO_PROXY" := o.noProxy]["no_proxy" := o.noProxy]
  }

  lemma RunTwo(first: string, second: string, env: Env)
    ensures Run([first, second], env)
      == match RunLine(first, env) case None => None case Some(next) => RunLine(second, next)
  {
    hide RunLine;
    assert [first, second][1..] == [second];
    assert forall e: Env :: Run([second], e) == RunLine(second, e) by {
      forall e: Env ensures Run([second], e) == RunLine(second, e) { RunOne(second, e); }
    }
  }

  lemma RunOne(line: string, env: Env)
    ensures Run([line], env) == RunLine(line, env)
  {
    hide RunLine;
    assert [line][1..] == [];
  }

  lemma RunProxyLines(upper: string, lower: string, value: string, env: Env)
    requires IsName(upper) && IsName(lower)
    ensures Run(ProxyLines(upper, lower, value), env)
      == Some(if value == "" then env else env[upper := value][lower := value])
  {
    hide RunLine, ShellQuote, EvalWord, IsName;
    if value != "" {
      RunTwo(Export(upper, ShellQuote(value)), Export(lower, ShellQuote(value)), env);
      RunExport(upper, ShellQuote(value), env);
      RunExport(lower, ShellQuote(value), env[upper := value]);
      ShellQuoteRoundTrip(value, env);
      ShellQuoteRoundTrip(value, env[upper := value]);
    }
  }

  lemma ProxyNames()
    ensures IsName("HTTPS_PROXY") && IsName("https_proxy") && IsName("HTTP_PROXY") && IsName("http_proxy")
    ensures IsName("NO_PROXY") && IsName("no_proxy")
  {
  }

  lemma RunNoProxyLines(value: string, env: Env)
    ensures Run(NoProxyLines(value), env)
      == Some(if value == "" then env else env["NO_PROXY" := value]["no_proxy" := value])
  {
    hide RunLine, ShellQuote, EvalWord, IsName;
    ProxyNames();
    if value != "" {
      var word := "\"$NO_PROXY\"";
      RunTwo(Export("NO_PROXY", ShellQuote(value)), Export("no_proxy", word), env);
      RunExport("NO_PROXY", ShellQuote(value), env);
      RunExport("no_proxy", word, env["NO_PROXY" := value]);
      ShellQuoteRoundTrip(value, env);
      EvalReference("NO_PROXY", env["NO_PROXY" := value]);
      assert "\"$" + "NO_PROXY" + "\"" == word;
    }
  }

  /** Running the setup file sets exactly the configured values, for all values. */
  lemma RunServerEnv(o: SetupOptions, env: Env)
    ensures Run(ServerEnv(o), env) == Some(Configured(o, env))
    ensures ServerEnv(o)[0] == "# BEGIN dev-connect remote proxy"
    ensures ServerEnv(o)[|ServerEnv(o)| - 1] == "# END dev-connect remote proxy"
  {
    hide RunLine, Run, ProxyLines, NoProxyLines, IsName;
    var https := ProxyLines("HTTPS_PROXY", "https_proxy", o.httpsProxy);
    var http := ProxyLines("HTTP_PROXY", "http_proxy", o.httpProxy);
    var no := NoProxyLines(o.noProxy);
    ProxyNames();
    var env1 := if o.httpsProxy == "" then env else env["HTTPS_PROXY" := o.httpsProxy]["https_proxy" := o.httpsProxy];
    var env2 := if o.httpProxy == "" then env1 else env1["HTTP_PROXY" := o.httpProxy]["http_proxy" := o.httpProxy];
    RunComment(FIRST_LINE, env);
    RunJoin([FIRST_LINE], https, env);
    RunProxyLines("HTTPS_PROXY", "https_proxy", o.httpsProxy, env);
    RunJoin([FIRST_LINE] + https, http, env);
    RunProxyLines("HTTP_PROXY", "http_proxy", o.httpProxy, env1);
    RunJoin([FIRST_LINE] + https + http, no, env);
    RunNoProxyLines(o.noProxy, env2);
    RunJoin([FIRST_LINE] + https + http + no, [LAST_LINE], env);
    RunComment(LAST_LINE, Configured(o, env));
  }

  /** Spelt out: each proxy that is given stands under its upper-case and its lower-case name, and nothing else
      changes. */
  lemma SetupSets(o: SetupOptions, env: Env)
    ensures Run(ServerEnv(o), env).Some?
    ensures var after := Run(ServerEnv(o), env).value;
      && Lookup(after, "HTTPS_PROXY") == (if o.httpsProxy != "" then o.httpsProxy else Lookup(env, "HTTPS_PROXY"))
      && Lookup(after, "https_proxy") == (if o.httpsProxy != "" then o.httpsProxy else Lookup(env, "https_proxy"))
      && Lookup(after, "HTTP_PROXY") == (if o.httpProxy != "" then o.httpProxy else Lookup(env, "HTTP_PROXY"))
      && Lookup(after, "http_proxy") == (if o.httpProxy != "" then o.httpProxy else Lookup(env, "http_proxy"))
      && Lookup(after, "NO_PROXY") == (if o.noProxy != "" then o.noProxy else Lookup(env, "NO_PROXY"))
      && Lookup(after, "no_proxy") == (if o.noProxy != "" then o.noProxy else Lookup(env, "no_proxy"))
      && forall name ::
        name !in {"HTTPS_PROXY", "https_proxy", "HTTP_PROXY", "http_proxy", "NO_PROXY", "no_proxy"} ==>
          Lookup(after, name) == Lookup(env, name)
  {
    hide Run, ServerEnv;
    RunServerEnv(o, env);
    SixNames();
  }

  lemma SixNames()
    ensures var names := ["HTTPS_PROXY", "https_proxy", "HTTP_PROXY", "http_proxy", "NO_PROXY", "no_proxy"];
      forall i, j :: 0 <= i < j < |names| ==> names[i] != names[j]
  {
    assert |"HTTPS_PROXY"| == 11 && |"https_proxy"| == 11 && |"HTTP_PROXY"| == 10 && |"http_proxy"| == 10;
    assert "HTTPS_PROXY"[0] == 'H' && "https_proxy"[0] == 'h' && "HTTP_PROXY"[0] == 'H' && "http_proxy"[0] == 'h';
    assert |"NO_PROXY"| == 8 && |"no_proxy"| == 8 && "NO_PROXY"[0] == 'N' && "no_proxy"[0] == 'n';
  }

  lemma RunComment(line: string, env: Env)
    requires line != "" && line[0] == '#'
    ensures Run([line], env) == Some(env)
  {
    RunOne(line, env);
  }

  predicate PlainSetup(o: SetupOptions) {
    OneLine(o.httpProxy) && OneLine(o.httpsProxy) && OneLine(o.noProxy)
  }

  lemma {:induction false} ReplacedOneLine(value: string, c: char, subst: string)
    requires OneLine(value) && OneLine(subst)
    ensures OneLine(ReplaceAll(value, [c], subst))
  {
    if value != "" {
      assert value == [value[0]] + value[1..];
      ReplacedOneLine(value[1..], c, subst);
    }
  }

  /** Every line of the setup file is one line, starts with a comment sign or a small letter, and so is no delimiter. */
  lemma ServerEnvLines(o: SetupOptions)
    requires PlainSetup(o)
    ensures AllOneLine(ServerEnv(o)) && DELIMITER !in ServerEnv(o)
  {
    hide ShellQuote, ProxyLines, NoProxyLines, Export, IsName;
    ProxyNames();
    ProxyLinesPlain("HTTPS_PROXY", "https_proxy", o.httpsProxy);
    ProxyLinesPlain("HTTP_PROXY", "http_proxy", o.httpProxy);
    NoProxyLinesPlain(o.noProxy);
    CommentsPlain();
  }

  predicate PlainLine(line: string) {
    OneLine(line) && line != "" && line[0] in {'#', 'e'}
  }

  lemma CommentsPlain()
    ensures PlainLine(FIRST_LINE) && PlainLine(LAST_LINE) && DELIMITER[0] == 'D'
  {
  }

  lemma ExportPlain(name: string, word: string)
    requires IsName(name) && OneLine(word)
    ensures PlainLine(Export(name, word))
  {
    NameHasNoEquals(name);
  }

  lemma ProxyLinesPlain(upper: string, lower: string, value: string)
    requires OneLine(value)
    requires IsName(upper) && IsName(lower)
    ensures forall line :: line in ProxyLines(upper, lower, value) ==> PlainLine(line)
  {
    hide ReplaceAll, Export;
    ReplacedOneLine(value, '\'', "'\\''");
    ExportPlain(upper, ShellQuote(value));
    ExportPlain(lower, ShellQuote(value));
  }

  lemma NoProxyLinesPlain(value: string)
    requires OneLine(value)
    ensures forall line :: line in NoProxyLines(value) ==> PlainLine(line)
  {
    hide ReplaceAll, Export, IsName;
    ProxyNames();
    ReplacedOneLine(value, '\'', "'\\''");
    ExportPlain("NO_PROXY", ShellQuote(value));
    ExportPlain("no_proxy", "\"$NO_PROXY\"");
  }

  /** The lines of the setup file as the shell splits them: an export of a value with newlines is several of them. */
  function SetupLines(o: SetupOptions): seq<string> {
    SplitLines(Terminated(ServerEnv(o)))
  }

  /** A file that a script writes from a here-document, and the lines of the script behind it. */
  datatype WrittenFile = WrittenFile(path: string, body: seq<string>, rest: seq<string>)

  /** `cat > WORD <<'NAME'`: the path the word stands for, and the delimiter. Without the quotes the body would be
      expanded; that is not understood. */
  function ReadRedirect(line: string, env: Env): Option<(string, string)> {
    if !("cat > " <= line) then None
    else
      var rest := line[6..];
      var i := Find(rest, ' ');
      if i == |rest| || !("<<'" <= rest[i + 1..]) then None
      else
        var name := rest[i + 1..][3..];
        var j := Find(name, '\'');
        if j == |name| || j + 1 != |name| || EvalWord(rest[..i], Plain, env).None? then None
        else Some((EvalWord(rest[..i], Plain, env).value, name[..j]))
  }

  /** The first file that a script writes from a here-document. */
  function ReadScript(lines: seq<string>, env: Env): Option<WrittenFile> {
    if lines == [] then None
    else
      match ReadRedirect(lines[0], env)
      case None => ReadScript(lines[1..], env)
      case Some((path, delimiter)) =>
        match HereDocument(lines[1..], delimiter)
        case None => None
        case Some((body, rest)) => Some(WrittenFile(path, body, rest))
  }

  /** For all values the shell writes the whole setup file, to its place in the home directory, and goes on behind it,
      if and only if no line of the rendered exports is the delimiter. */
  lemma SetupKeptIff(o: SetupOptions, tail: string, env: Env)
    ensures ReadScript(SplitLines(Script(o, tail)), env)
         == Some(WrittenFile(Lookup(env, "HOME") + "/.vscode-server/server-env-setup", SetupLines(o), SplitLines(tail)))
       <==> "DEV_CONNECT_SERVER_ENV" !in SetupLines(o)
  {
    hide Script, SplitLines, Header, SetupLines, HereDocument, ReadRedirect, ReadScript, Lookup;
    ScriptLines(o, tail);
    var body := SetupLines(o) + [DELIMITER] + SplitLines(tail);
    ReadBehindHeader(body, env);
    if DELIMITER in SetupLines(o) {
      HereDocumentCut(SetupLines(o), DELIMITER, [DELIMITER] + SplitLines(tail));
      assert SetupLines(o) + ([DELIMITER] + SplitLines(tail)) == body;
    } else {
      HereDocumentIs(SetupLines(o), DELIMITER, SplitLines(tail));
    }
  }

  /** The header of the script ends with the redirect. */
  lemma ReadBehindHeader(body: seq<string>, env: Env)
    ensures ReadScript(Header() + body, env)
      == match HereDocument(body, DELIMITER)
         case None => None
         case Some((lines, rest)) => Some(WrittenFile(Lookup(env, "HOME") + SETUP_FILE, lines, rest))
  {
    hide ReadRedirect, HereDocument, MAKE_DIRECTORY, WRITE_FILE, DELIMITER, Lookup, SETUP_FILE;
    var lines := Header() + body;
    NoRedirects(env);
    HeaderRedirect(env);
    assert lines[1..][0] == Header()[1] && lines[1..][1..] == lines[2..];
    assert lines[2..][0] == Header()[2] && lines[2..][1..] == lines[3..];
    assert lines[3..][0] == Header()[3] && lines[3..][1..] == body;
    assert ReadScript(lines, env) == ReadScript(lines[1..], env);
    assert ReadScript(lines[1..], env) == ReadScript(lines[2..], env);
    assert ReadScript(lines[2..], env) == ReadScript(lines[3..], env);
  }

  lemma NoRedirects(env: Env)
    ensures ReadRedirect("set -eu", env).None? && ReadRedirect("", env).None?
    ensures ReadRedirect(MAKE_DIRECTORY, env).None?
  {
    assert "set -eu"[0] == 's' && MAKE_DIRECTORY[0] == 'm' && "cat > "[0] == 'c';
  }

  /** Between double quotes, characters that are not special stand for themselves. */
  lemma {:induction false} EvalLiteral(s: string, env: Env)
    requires forall i :: 0 <= i < |s| ==> s[i] !in {'$', '`', '\\', '"'}
    ensures EvalWord(s + "\"", Double, env) == Some(s)
  {
    if s == "" {
      assert EvalWord("\"", Double, env) == EvalWord("", Plain, env);
      assert s + "\"" == "\"";
    } else {
      assert (s + "\"")[1..] == s[1..] + "\"";
      EvalLiteral(s[1..], env);
      assert [s[0]] + s[1..] == s;
    }
  }

  lemma SetupFilePlain()
    ensures forall i :: 0 <= i < |SETUP_FILE| ==> SETUP_FILE[i] !in {'$', '`', '\\', '"', ' '}
    ensures SETUP_FILE != "" && SETUP_FILE[0] == '/'
  {
  }

  lemma EvalHome(env: Env)
    ensures EvalWord("\"$HOME" + SETUP_FILE + "\"", Plain, env) == Some(Lookup(env, "HOME") + SETUP_FILE)
  {
    hide SETUP_FILE, Lookup;
    SetupFilePlain();
    var name, inner := "HOME", "$HOME" + SETUP_FILE + "\"";
    assert "\"$HOME" + SETUP_FILE + "\"" == "\"" + inner;
    EvalPlainTail(inner, env);
    assert inner[1..] == name + (SETUP_FILE + "\"");
    NameEndsAtSlash(name, SETUP_FILE + "\"");
    assert inner[1..][..4] == name && inner[1..][4..] == SETUP_FILE + "\"";
    EvalLiteral(SETUP_FILE, env);
  }

  lemma {:induction false} NameEndsAtSlash(name: string, rest: string)
    requires forall i :: 0 <= i < |name| ==> IsNameChar(name[i])
    requires rest != "" && rest[0] == '/'
    ensures NameEnd(name + rest) == |name|
  {
    if name == "" {
      assert name + rest == rest;
    } else {
      assert (name + rest)[1..] == name[1..] + rest;
      NameEndsAtSlash(name[1..], rest);
    }
  }

  lemma RedirectIs(word: string, name: string, env: Env)
    requires ' ' !in word && '\'' !in name && EvalWord(word, Plain, env).Some?
    ensures ReadRedirect("cat > " + (word + [' '] + ("<<'" + (name + ['\'']))), env)
      == Some((EvalWord(word, Plain, env).value, name))
  {
    hide EvalWord, Find;
    var quoted := name + ['\''];
    var rest := word + [' '] + ("<<'" + quoted);
    assert ("cat > " + rest)[..6] == "cat > " && ("cat > " + rest)[6..] == rest;
    FindIs(word, ' ', "<<'" + quoted);
    assert rest[..|word|] == word && rest[|word| + 1..] == "<<'" + quoted;
    assert ("<<'" + quoted)[3..] == quoted;
    FindIs(name, '\'', "");
    assert quoted + "" == quoted && quoted[..|name|] == name;
  }

  lemma HeaderRedirect(env: Env)
    ensures ReadRedirect(Header()[3], env) == Some((Lookup(env, "HOME") + SETUP_FILE, DELIMITER))
  {
    hide EvalWord, ReadRedirect, SETUP_FILE, DELIMITER, MAKE_DIRECTORY, Lookup;
    var word := "\"$HOME" + SETUP_FILE + "\"";
    EvalHome(env);
    SetupFilePlain();
    DelimiterPlain();
    RedirectIs(word, DELIMITER, env);
    assert Header()[3] == "cat > " + (word + [' '] + ("<<'" + (DELIMITER + ['\''])));
  }

  lemma DelimiterPlain()
    ensures '\'' !in DELIMITER
  {
  }

  /** A here-document ends at the first delimiter, so its body is shorter than lines that hold one. */
  lemma {:induction false} HereDocumentCut(lines: seq<string>, delimiter: string, rest: seq<string>)
    requires delimiter in lines
    ensures HereDocument(lines + rest, delimiter).Some?
    ensures |HereDocument(lines + rest, delimiter).value.0| < |lines|
  {
    if lines[0] != delimiter {
      assert (lines + rest)[1..] == lines[1..] + rest;
      HereDocumentCut(lines[1..], delimiter, rest);
    }
  }

  /** For newline-free values the shell reads the setup file whole, its lines are the exports, and running them sets
      exactly the configured proxies. */
  lemma RemoteSetupRoundTrip(o: SetupOptions, tail: string, env: Env)
    requires PlainSetup(o)
    ensures ReadScript(SplitLines(Script(o, tail)), env)
         == Some(WrittenFile(Lookup(env, "HOME") + "/.vscode-server/server-env-setup", ServerEnv(o), SplitLines(tail)))
    ensures Run(ServerEnv(o), env) == Some(Configured(o, env))
  {
    hide ServerEnv, Run, ReadScript, Script, Configured, SplitLines, Terminated, Lookup;
    ServerEnvLines(o);
    RunServerEnv(o, env);
    SplitTerminated(ServerEnv(o), "");
    SplitNothing();
    assert Terminated(ServerEnv(o)) + "" == Terminated(ServerEnv(o)) && ServerEnv(o) + [] == ServerEnv(o);
    SetupKeptIff(o, tail, env);
  }

  lemma ScriptLines(o: SetupOptions, tail: string)
    ensures SplitLines(Script(o, tail)) == Header() + (SetupLines(o) + [DELIMITER] + SplitLines(tail))
  {
    hide SplitLines, ServerEnv, Terminated, Header, DELIMITER;
    HeaderOneLine();
    ShortLines();
    var file := Terminated(ServerEnv(o));
    TerminatedEndsLine(ServerEnv(o));
    assert Script(o, tail) == Terminated(Header()) + (file + (DELIMITER + "\n" + tail));
    SplitTerminated(Header(), file + (DELIMITER + "\n" + tail));
    SplitJoin(file, DELIMITER + "\n" + tail);
    SplitFirst(DELIMITER, tail);
    assert SetupLines(o) + ([DELIMITER] + SplitLines(tail)) == SetupLines(o) + [DELIMITER] + SplitLines(tail);
  }

  lemma HeaderOneLine()
    ensures AllOneLine(Header())
  {
    hide OneLine;
    assert OneLine(Header()[0]) by { ShortLines(); }
    MakeDirectoryOneLine();
    assert OneLine(Header()[2]) by { ShortLines(); }
    WriteFileOneLine();
  }

  lemma ShortLines()
    ensures OneLine("") && OneLine("set -eu") && OneLine(DELIMITER) && OneLine(SERVER_DIRECTORY)
    ensures OneLine(SETUP_FILE)
  {
  }

  lemma MakeDirectoryOneLine()
    ensures OneLine(MAKE_DIRECTORY)
  {
    hide SERVER_DIRECTORY;
    ShortLines();
  }

  lemma WriteFileOneLine()
    ensures OneLine(WRITE_FILE + DELIMITER + "'")
  {
    hide SETUP_FILE, DELIMITER;
    ShortLines();
  }
}
