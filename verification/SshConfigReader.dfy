/** A line reader for SSH client configurations, and the round trip of the printer through it. */
module SshConfigReader {
  import opened Text
  import opened Lines
  import opened SshConfig

  function SkipSpaces(s: string): string {
    if s != "" && s[0] == ' ' then SkipSpaces(s[1..]) else s
  }

  /** Keyword and value of a line: the indentation is skipped, and the keyword ends at the first space. */
  function ReadLine(line: string): (string, string) {
    var s := SkipSpaces(line);
    var i := Find(s, ' ');
    if i == |s| then (s, "") else (s[..i], s[i + 1..])
  }

  /** The value of the first line with a keyword. */
  function First(lines: seq<string>, keyword: string): Option<string> {
    if lines == [] then None
    else if ReadLine(lines[0]).0 == keyword then Some(ReadLine(lines[0]).1)
    else First(lines[1..], keyword)
  }

  /** How many lines have a keyword. */
  function Count(lines: seq<string>, keyword: string): nat {
    if lines == [] then 0
    else (if ReadLine(lines[0]).0 == keyword then 1 else 0) + Count(lines[1..], keyword)
  }

  function ReadInt(value: Option<string>): Option<int> {
    if value.None? then Some(0) else Atoi(value.value)
  }

  function ReadQuoted(value: Option<string>): Option<string> {
    if value.None? then Some("") else Unquote(value.value)
  }

  function ReadPlain(value: Option<string>): string {
    if value.None? then "" else value.value
  }

  function ReadFlag(value: Option<string>): Option<bool> {
    if value == Some("yes") then Some(true) else if value == Some("no") then Some(false) else None
  }

  /** No keyword stands twice. */
  predicate NoneTwice(lines: seq<string>) {
    forall key: Key :: Count(lines, KeyName(key)) <= 1
  }

  /** Read the options back. The first line must name the host that the others are about, no keyword may stand twice,
      host key checking must be on, and no identities but the configured one may be offered. */
  function ReadConfig(text: string): Option<(ConfigOptions, string)> {
    var lines := SplitLines(text);
    var port, interval, countMax := ReadInt(First(lines, "Port")), ReadInt(First(lines, "ServerAliveInterval")),
      ReadInt(First(lines, "ServerAliveCountMax"));
    var identity, known := ReadQuoted(First(lines, "IdentityFile")), ReadQuoted(First(lines, "UserKnownHostsFile"));
    var tcp := ReadFlag(First(lines, "TCPKeepAlive"));
    if port.None? || interval.None? || countMax.None? || identity.None? || known.None? || tcp.None? then None
    else if First(lines, "StrictHostKeyChecking") != Some("yes") then None
    else if First(lines, "IdentitiesOnly") != Some("yes") then None
    else if lines == [] || ReadLine(lines[0]).0 != "Host" || !NoneTwice(lines) then None
    else
      var options := ConfigOptions(
        ReadPlain(First(lines, "Host")), ReadPlain(First(lines, "User")), identity.value,
        ReadPlain(First(lines, "HostName")), port.value, interval.value, countMax.value, tcp.value);
      Some((options, known.value))
  }

  // ----- Keywords

  predicate IsLetter(c: char) {
    'A' <= c <= 'Z' || 'a' <= c <= 'z'
  }

  predicate IsWord(s: string) {
    s != "" && forall i :: 0 <= i < |s| ==> IsLetter(s[i])
  }

  lemma LongNames()
    ensures IsWord("UserKnownHostsFile") && IsWord("StrictHostKeyChecking")
    ensures IsWord("ServerAliveInterval") && IsWord("ServerAliveCountMax")
  {
  }

  lemma ShortNames()
    ensures IsWord("Host") && IsWord("HostName") && IsWord("Port") && IsWord("User")
    ensures IsWord("IdentityFile") && IsWord("IdentitiesOnly") && IsWord("TCPKeepAlive")
  {
  }

  lemma KeyNameIsWord(key: Key)
    ensures IsWord(KeyName(key))
  {
    hide IsWord;
    LongNames();
    ShortNames();
  }

  lemma KeyNamesDiffer(a: Key, b: Key)
    requires KeyName(a) == KeyName(b)
    ensures a == b
  {
    assert KeyName(a)[0] == KeyName(b)[0] && |KeyName(a)| == |KeyName(b)|;
    if a.ServerAliveInterval? {
      assert KeyName(a)[11] == KeyName(b)[11];
    } else if a.ServerAliveCountMax? {
      assert KeyName(a)[11] == KeyName(b)[11];
    }
  }

  lemma ReadWordLine(name: string, value: string)
    requires name != "" && ' ' !in name
    ensures ReadLine(name + " " + value) == (name, value)
    ensures ReadLine("  " + (name + " " + value)) == (name, value)
  {
    hide Find;
    var s := name + [' '] + value;
    assert name[0] in name && s[0] == name[0];
    SkipIndent(s);
    FindIs(name, ' ', value);
    assert s[..|name|] == name && s[|name| + 1..] == value;
  }

  lemma ReadEntryLine(entry: Entry)
    ensures ReadLine(EntryLine(entry)) == (KeyName(entry.key), entry.value)
  {
    hide KeyName, ReadLine;
    var name := KeyName(entry.key);
    KeyNameIsWord(entry.key);
    ReadWordLine(name, entry.value);
    assert "" + name + " " + entry.value == name + " " + entry.value;
    assert "  " + name + " " + entry.value == "  " + (name + " " + entry.value);
  }

  lemma SkipIndent(s: string)
    requires s != "" && s[0] != ' '
    ensures SkipSpaces(s) == s && SkipSpaces("  " + s) == s
  {
    assert ("  " + s)[1..] == " " + s && (" " + s)[1..] == s;
  }

  // ----- The values of the printed keys

  function FirstOf(entries: seq<Entry>, key: Key): Option<string> {
    if entries == [] then None
    else if entries[0].key == key then Some(entries[0].value)
    else FirstOf(entries[1..], key)
  }

  function CountOf(entries: seq<Entry>, key: Key): nat {
    if entries == [] then 0 else (if entries[0].key == key then 1 else 0) + CountOf(entries[1..], key)
  }

  /** Reading the lines of entries reads the entries. */
  lemma {:induction false} ReadEntryLines(entries: seq<Entry>, key: Key)
    ensures First(EntryLines(entries), KeyName(key)) == FirstOf(entries, key)
    ensures Count(EntryLines(entries), KeyName(key)) == CountOf(entries, key)
  {
    hide KeyName, ReadLine, EntryLine;
    if entries != [] {
      ReadEntryLine(entries[0]);
      assert EntryLines(entries)[1..] == EntryLines(entries[1..]);
      ReadEntryLines(entries[1..], key);
      if KeyName(entries[0].key) == KeyName(key) {
        KeyNamesDiffer(entries[0].key, key);
      }
    }
  }

  /** The row of a key. */
  function RowOf(key: Key): (i: nat)
    ensures i < 11
  {
    match key
    case Host => 0
    case HostName => 1
    case Port => 2
    case User => 3
    case UserKnownHostsFile => 4
    case StrictHostKeyChecking => 5
    case IdentityFile => 6
    case IdentitiesOnly => 7
    case ServerAliveInterval => 8
    case ServerAliveCountMax => 9
    case TCPKeepAlive => 10
  }

  lemma RowsKeyed(o: ConfigOptions, knownHostsPath: string, i: nat)
    requires i < 11
    ensures RowOf(Rows(o, knownHostsPath)[i].1.key) == i
  {
    hide QuoteConfigValue, Itoa;
  }

  lemma FirstWhen(condition: bool, entry: Entry, rest: seq<Entry>, key: Key)
    ensures FirstOf(When(condition, entry) + rest, key)
      == if condition && entry.key == key then Some(entry.value) else FirstOf(rest, key)
    ensures CountOf(When(condition, entry) + rest, key)
      == (if condition && entry.key == key then 1 else 0) + CountOf(rest, key)
  {
    if condition {
      assert ([entry] + rest)[1..] == rest;
    } else {
      assert [] + rest == rest;
    }
  }

  /** From row `from` on, a key is read from its own row, if that row stands. */
  lemma {:induction false} ReadRows(o: ConfigOptions, knownHostsPath: string, from: nat, key: Key)
    requires from <= 11
    ensures var rows := Rows(o, knownHostsPath); var stands := from <= RowOf(key) && rows[RowOf(key)].0;
      && FirstOf(Standing(rows[from..]), key) == (if stands then Some(rows[RowOf(key)].1.value) else None)
      && CountOf(Standing(rows[from..]), key) == (if stands then 1 else 0)
    decreases 11 - from
  {
    hide Rows, RowOf, When;
    RowCount(o, knownHostsPath);
    if from < 11 {
      var rows := Rows(o, knownHostsPath);
      assert rows[from..][1..] == rows[from + 1..];
      ReadRows(o, knownHostsPath, from + 1, key);
      FirstWhen(rows[from].0, rows[from].1, Standing(rows[from + 1..]), key);
      RowsKeyed(o, knownHostsPath, from);
      RowsKeyed(o, knownHostsPath, RowOf(key));
      KeyOfRow(rows[RowOf(key)].1.key, key);
    }
  }

  lemma RowCount(o: ConfigOptions, knownHostsPath: string)
    ensures |Rows(o, knownHostsPath)| == 11
  {
  }

  lemma KeyOfRow(a: Key, b: Key)
    requires RowOf(a) == RowOf(b)
    ensures a == b
  {
  }

  /** What a key is set to, if its line is printed. */
  function Printed(o: ConfigOptions, knownHostsPath: string, key: Key): Option<string> {
    var row := Rows(o, knownHostsPath)[RowOf(key)];
    if row.0 then Some(row.1.value) else None
  }

  // ----- The round trip

  /** Every option is on one line. */
  predicate PlainOptions(o: ConfigOptions, knownHostsPath: string) {
    OneLine(o.alias) && OneLine(o.user) && OneLine(o.identityFile) && OneLine(o.localHost) && OneLine(knownHostsPath)
  }

  lemma ValueOneLine(o: ConfigOptions, knownHostsPath: string, i: nat)
    requires PlainOptions(o, knownHostsPath) && i < 11
    ensures OneLine(Rows(o, knownHostsPath)[i].1.value)
  {
    hide QuoteConfigValue, Itoa;
    AtoiItoa(o.localPort);
    AtoiItoa(o.serverAliveInterval);
    AtoiItoa(o.serverAliveCountMax);
    QuotedOneLine(o.identityFile);
    QuotedOneLine(knownHostsPath);
  }

  lemma LineOneLine(entry: Entry)
    requires OneLine(entry.value)
    ensures OneLine(EntryLine(entry))
  {
    hide KeyName;
    KeyNameIsWord(entry.key);
  }

  lemma {:induction false} StandingOneLine(rows: seq<(bool, Entry)>)
    requires forall i :: 0 <= i < |rows| ==> OneLine(rows[i].1.value)
    ensures AllOneLine(EntryLines(Standing(rows)))
  {
    hide EntryLine, OneLine;
    if rows != [] {
      StandingOneLine(rows[1..]);
      LineOneLine(rows[0].1);
      EntryLinesJoin(When(rows[0].0, rows[0].1), Standing(rows[1..]));
    }
  }

  lemma SplitConfig(o: ConfigOptions, knownHostsPath: string)
    requires PlainOptions(o, knownHostsPath)
    ensures SplitLines(ConfigText(o, knownHostsPath)) == EntryLines(Entries(o, knownHostsPath))
  {
    hide Rows, EntryLines, Standing, OneLine, Terminated;
    var rows := Rows(o, knownHostsPath);
    RowCount(o, knownHostsPath);
    forall i | 0 <= i < |rows| ensures OneLine(rows[i].1.value) {
      ValueOneLine(o, knownHostsPath, i);
    }
    StandingOneLine(rows);
    var lines := EntryLines(Entries(o, knownHostsPath));
    SplitTerminated(lines, "");
    assert Terminated(lines) + "" == Terminated(lines);
    assert lines + SplitLines("") == lines;
  }

  /** Each printed key is read back once, with its value, and no other line has its keyword. */
  lemma ReadPrinted(o: ConfigOptions, knownHostsPath: string, key: Key)
    requires PlainOptions(o, knownHostsPath)
    ensures var lines := SplitLines(ConfigText(o, knownHostsPath));
      && First(lines, KeyName(key)) == Printed(o, knownHostsPath, key)
      && Count(lines, KeyName(key)) == (if Printed(o, knownHostsPath, key).Some? then 1 else 0)
  {
    hide Rows, KeyName, EntryLines, First, Count, FirstOf, CountOf, RowOf, ConfigText, SplitLines;
    SplitConfig(o, knownHostsPath);
    RowCount(o, knownHostsPath);
    ReadEntryLines(Entries(o, knownHostsPath), key);
    ReadRows(o, knownHostsPath, 0, key);
    assert Rows(o, knownHostsPath)[0..] == Rows(o, knownHostsPath);
  }

  lemma ReadValue(o: ConfigOptions, knownHostsPath: string, key: Key, keyword: string)
    requires PlainOptions(o, knownHostsPath) && keyword == KeyName(key)
    ensures First(SplitLines(ConfigText(o, knownHostsPath)), keyword) == Printed(o, knownHostsPath, key)
  {
    hide *;
    ReadPrinted(o, knownHostsPath, key);
  }

  /** The options as the reader sees them: a keepalive setting that is not positive is not printed and reads as 0. */
  function Effective(o: ConfigOptions): ConfigOptions {
    o.(serverAliveInterval := if o.serverAliveInterval > 0 then o.serverAliveInterval else 0,
       serverAliveCountMax := if o.serverAliveCountMax > 0 then o.serverAliveCountMax else 0)
  }

  /** What each row of the table holds. */
  lemma PrintedValues(o: ConfigOptions, k: string)
    ensures Printed(o, k, Host) == Some(o.alias) && Printed(o, k, HostName) == Some(o.localHost)
    ensures Printed(o, k, Port) == Some(Itoa(o.localPort)) && Printed(o, k, StrictHostKeyChecking) == Some("yes")
    ensures Printed(o, k, User) == if o.user != "" then Some(o.user) else None
    ensures Printed(o, k, UserKnownHostsFile) == Some(QuoteConfigValue(k))
    ensures Printed(o, k, IdentityFile) == if o.identityFile != "" then Some(QuoteConfigValue(o.identityFile)) else None
    ensures Printed(o, k, ServerAliveInterval)
      == if o.serverAliveInterval > 0 then Some(Itoa(o.serverAliveInterval)) else None
    ensures Printed(o, k, ServerAliveCountMax)
      == if o.serverAliveCountMax > 0 then Some(Itoa(o.serverAliveCountMax)) else None
    ensures Printed(o, k, TCPKeepAlive) == Some(if o.tcpKeepAlive then "yes" else "no")
    ensures Printed(o, k, IdentitiesOnly) == Some("yes")
  {
    hide QuoteConfigValue, Itoa;
  }

  lemma HostFirst(o: ConfigOptions, knownHostsPath: string)
    requires PlainOptions(o, knownHostsPath)
    ensures var lines := SplitLines(ConfigText(o, knownHostsPath)); lines != [] && ReadLine(lines[0]).0 == "Host"
  {
    hide ReadLine, SplitLines, ConfigText, QuoteConfigValue, Itoa;
    SplitConfig(o, knownHostsPath);
    var rows := Rows(o, knownHostsPath);
    assert Standing(rows) == When(rows[0].0, rows[0].1) + Standing(rows[1..]);
    ReadEntryLine(rows[0].1);
  }

  /** Reading a rendered configuration recovers every option and the known_hosts path. */
  lemma ReadBack(o: ConfigOptions, knownHostsPath: string)
    requires PlainOptions(o, knownHostsPath)
    ensures ReadConfig(ConfigText(o, knownHostsPath)) == Some((Effective(o), knownHostsPath))
  {
    hide Printed, QuoteConfigValue, Unquote, Itoa, Atoi, SplitLines, ConfigText, First, Count, ReadLine;
    forall key: Key
      ensures Count(SplitLines(ConfigText(o, knownHostsPath)), KeyName(key)) <= 1
    {
      ReadPrinted(o, knownHostsPath, key);
    }
    ReadValue(o, knownHostsPath, Host, "Host");
    ReadValue(o, knownHostsPath, HostName, "HostName");
    ReadValue(o, knownHostsPath, Port, "Port");
    ReadValue(o, knownHostsPath, User, "User");
    ReadValue(o, knownHostsPath, UserKnownHostsFile, "UserKnownHostsFile");
    ReadValue(o, knownHostsPath, StrictHostKeyChecking, "StrictHostKeyChecking");
    ReadValue(o, knownHostsPath, IdentityFile, "IdentityFile");
    ReadValue(o, knownHostsPath, ServerAliveInterval, "ServerAliveInterval");
    ReadValue(o, knownHostsPath, ServerAliveCountMax, "ServerAliveCountMax");
    ReadValue(o, knownHostsPath, TCPKeepAlive, "TCPKeepAlive");
    ReadValue(o, knownHostsPath, IdentitiesOnly, "IdentitiesOnly");
    HostFirst(o, knownHostsPath);
    PrintedValues(o, knownHostsPath);
    AtoiItoa(o.localPort);
    AtoiItoa(o.serverAliveInterval);
    AtoiItoa(o.serverAliveCountMax);
    UnquoteQuoted(o.identityFile);
    UnquoteQuoted(knownHostsPath);
  }

  /** Host key checking is switched on by exactly one line, and no line switches it off. */
  lemma StrictCheckingOnce(o: ConfigOptions, knownHostsPath: string)
    requires PlainOptions(o, knownHostsPath)
    ensures var lines := SplitLines(ConfigText(o, knownHostsPath));
      First(lines, "StrictHostKeyChecking") == Some("yes") && Count(lines, "StrictHostKeyChecking") == 1
  {
    hide First, Count, SplitLines, ConfigText, Printed;
    ReadPrinted(o, knownHostsPath, StrictHostKeyChecking);
    PrintedValues(o, knownHostsPath);
  }

  // ----- Markers inside a rendered body

  lemma LineHeadHasNoHash(key: Key)
    ensures forall i :: 0 <= i < |LineHead(key)| ==> LineHead(key)[i] != '#'
  {
    hide KeyName;
    KeyNameIsWord(key);
  }

  lemma MarkerInLine(entry: Entry, marker: string)
    requires marker != "" && marker[0] == '#'
    ensures Contains(EntryLine(entry), marker) <==> Contains(entry.value, marker)
  {
    hide IndexFrom, LineHead;
    var head, value := LineHead(entry.key), entry.value;
    LineHeadHasNoHash(entry.key);
    var i, j := Index(head + value, marker), Index(value, marker);
    if i >= 0 {
      OccurrenceAt(head + value, marker, i, i);
      OccursInRight(head, value, marker, i);
    }
    if j >= 0 {
      OccursInRight(head, value, marker, |head| + j);
    }
  }

  /** A marker stands in the rendered body exactly when it stands in one of the printed values. */
  lemma MarkerInBody(o: ConfigOptions, knownHostsPath: string, marker: string)
    requires OneLine(marker) && marker != "" && marker[0] == '#'
    ensures Contains(ConfigText(o, knownHostsPath), marker)
       <==> exists entry :: entry in Entries(o, knownHostsPath) && Contains(entry.value, marker)
  {
    hide Entries, EntryLine, IndexFrom, Contains;
    var entries := Entries(o, knownHostsPath);
    ContainsInLines(EntryLines(entries), marker);
    forall i | 0 <= i < |entries|
      ensures Contains(EntryLines(entries)[i], marker) <==> Contains(entries[i].value, marker)
    {
      MarkerInLine(entries[i], marker);
    }
  }
}
