/** Rendering the SSH client configuration of a session (internal/sshconfig/sshconfig.go), and reading it back. */
module SshConfig {
  import opened Text
  import opened Lines

  /** The options the printer reads. */
  datatype ConfigOptions = ConfigOptions(
    alias: string, user: string, identityFile: string, localHost: string, localPort: int,
    serverAliveInterval: int, serverAliveCountMax: int, tcpKeepAlive: bool)

  // ----- Quoting

  /** `quoteConfigValue`: two replacement passes between quotes. */
  function QuoteConfigValue(value: string): string {
    var escaped := ReplaceAll(value, "\\", "\\\\");
    "\"" + ReplaceAll(escaped, "\"", "\\\"") + "\""
  }

  /** Escape both special characters in one pass. */
  function Escape(value: string): string {
    if value == "" then ""
    else (if value[0] == '\\' || value[0] == '"' then ['\\', value[0]] else [value[0]]) + Escape(value[1..])
  }

  predicate Protectable(c: char) {
    c == '\\' || c == '"' || c == '\''
  }

  /** Read a quoted word up to its closing quote, which must end the text; a backslash protects a
      quote or a backslash. */
  function ReadEscaped(s: string): Option<string> {
    if s == "" then None
    else if s[0] == '"' then (if |s| == 1 then Some("") else None)
    else
      var protects := s[0] == '\\' && |s| > 1 && Protectable(s[1]);
      var rest := ReadEscaped(if protects then s[2..] else s[1..]);
      if rest.None? then None else Some([if protects then s[1] else s[0]] + rest.value)
  }

  function Unquote(s: string): Option<string> {
    if s != "" && s[0] == '"' then ReadEscaped(s[1..]) else None
  }

  lemma ReplaceOne(x: char, c: char, subst: string)
    ensures ReplaceAll([x], [c], subst) == if x == c then subst else [x]
  {
    assert [c] <= [x] <==> c == x;
    assert [x][1..] == "";
    assert ReplaceAll("", [c], subst) == "";
  }

  /** The two passes do not interfere: together they are the one-pass escape. */
  lemma {:induction false} TwoPassesEscape(value: string)
    ensures ReplaceAll(ReplaceAll(value, "\\", "\\\\"), "\"", "\\\"") == Escape(value)
  {
    if value != "" {
      var first, rest := [value[0]], value[1..];
      assert value == first + rest;
      ReplaceCharJoin(first, rest, '\\', "\\\\");
      ReplaceOne(value[0], '\\', "\\\\");
      var pass := ReplaceAll(first, "\\", "\\\\");
      ReplaceCharJoin(pass, ReplaceAll(rest, "\\", "\\\\"), '"', "\\\"");
      ReplaceOne(value[0], '"', "\\\"");
      if value[0] == '\\' {
        ReplaceCharJoin("\\", "\\", '"', "\\\"");
        ReplaceOne('\\', '"', "\\\"");
        assert pass == "\\" + "\\";
      }
      TwoPassesEscape(rest);
    }
  }

  lemma {:induction false} ReadEscapedBack(value: string)
    ensures ReadEscaped(Escape(value) + "\"") == Some(value)
  {
    if value != "" {
      ReadEscapedBack(value[1..]);
      var rest := Escape(value[1..]) + "\"";
      if value[0] == '\\' || value[0] == '"' {
        assert (Escape(value) + "\"")[2..] == rest;
        assert value == [value[0]] + value[1..];
      } else {
        assert (Escape(value) + "\"")[1..] == rest;
        assert value == [value[0]] + value[1..];
      }
    }
  }

  /** A quoted value reads back as itself, for every string. */
  lemma UnquoteQuoted(value: string)
    ensures Unquote(QuoteConfigValue(value)) == Some(value)
  {
    TwoPassesEscape(value);
    ReadEscapedBack(value);
    assert QuoteConfigValue(value)[1..] == Escape(value) + "\"";
  }

  lemma {:induction false} EscapeOneLine(value: string)
    requires OneLine(value)
    ensures OneLine(Escape(value))
  {
    if value != "" {
      assert value == [value[0]] + value[1..];
      EscapeOneLine(value[1..]);
    }
  }

  lemma QuotedOneLine(value: string)
    requires OneLine(value)
    ensures OneLine(QuoteConfigValue(value))
  {
    TwoPassesEscape(value);
    EscapeOneLine(value);
  }

  // ----- The lines

  datatype Key =
    | Host | HostName | Port | User | UserKnownHostsFile | StrictHostKeyChecking | IdentityFile | IdentitiesOnly
    | ServerAliveInterval | ServerAliveCountMax | TCPKeepAlive

  function KeyName(key: Key): string {
    match key
    case Host => "Host"
    case HostName => "HostName"
    case Port => "Port"
    case User => "User"
    case UserKnownHostsFile => "UserKnownHostsFile"
    case StrictHostKeyChecking => "StrictHostKeyChecking"
    case IdentityFile => "IdentityFile"
    case IdentitiesOnly => "IdentitiesOnly"
    case ServerAliveInterval => "ServerAliveInterval"
    case ServerAliveCountMax => "ServerAliveCountMax"
    case TCPKeepAlive => "TCPKeepAlive"
  }

  datatype Entry = Entry(key: Key, value: string)

  /** The part of a line before its value. */
  function LineHead(key: Key): string {
    (if key == Host then "" else "  ") + KeyName(key) + " "
  }

  function EntryLine(entry: Entry): string {
    LineHead(entry.key) + entry.value
  }

  function EntryLines(entries: seq<Entry>): (lines: seq<string>)
    ensures |lines| == |entries|
    ensures forall i :: 0 <= i < |entries| ==> lines[i] == EntryLine(entries[i])
  {
    seq(|entries|, i requires 0 <= i < |entries| => EntryLine(entries[i]))
  }

  function When<T>(condition: bool, item: T): seq<T> {
    if condition then [item] else []
  }

  /** The entries of a session as a table, in the order they are printed: the condition under which each stands, key and
      value. */
  function Rows(o: ConfigOptions, knownHostsPath: string): seq<(bool, Entry)> {
    [(true, Entry(Host, o.alias)),
     (true, Entry(HostName, o.localHost)),
     (true, Entry(Port, Itoa(o.localPort))),
     (o.user != "", Entry(User, o.user)),
     (true, Entry(UserKnownHostsFile, QuoteConfigValue(knownHostsPath))),
     (true, Entry(StrictHostKeyChecking, "yes")),
     (o.identityFile != "", Entry(IdentityFile, QuoteConfigValue(o.identityFile))),
     (true, Entry(IdentitiesOnly, "yes")),
     (o.serverAliveInterval > 0, Entry(ServerAliveInterval, Itoa(o.serverAliveInterval))),
     (o.serverAliveCountMax > 0, Entry(ServerAliveCountMax, Itoa(o.serverAliveCountMax))),
     (true, Entry(TCPKeepAlive, if o.tcpKeepAlive then "yes" else "no"))]
  }

  /** The rows that stand. */
  function Standing(rows: seq<(bool, Entry)>): seq<Entry> {
    if rows == [] then [] else When(rows[0].0, rows[0].1) + Standing(rows[1..])
  }

  function Entries(o: ConfigOptions, knownHostsPath: string): seq<Entry> {
    Standing(Rows(o, knownHostsPath))
  }

  function ConfigText(o: ConfigOptions, knownHostsPath: string): string {
    Terminated(EntryLines(Entries(o, knownHostsPath)))
  }

  // ----- The printer: splices into a slice

  /** Write `tail` over an array from position `at` on. */
  method Overwrite(a: array<string>, at: nat, tail: seq<string>)
    requires at + |tail| <= a.Length
    modifies a
    ensures a[..at] == old(a[..at]) && a[..at + |tail|] == old(a[..at]) + tail
  {
    forall i | 0 <= i < |tail| {
      a[at + i] := tail[i];
    }
    assert a[..at] == old(a[..at]) && a[at..at + |tail|] == tail;
  }

  /** A Go slice of lines: a backing array, of which a front is in use. */
  class LineSlice {
    var backing: array<string>
    var len: nat

    ghost predicate Valid()
      reads this
    {
      len <= backing.Length
    }

    ghost function Contents(): seq<string>
      requires Valid()
      reads this, backing
    {
      backing[..len]
    }

    constructor (lines: seq<string>)
      ensures Valid() && fresh(backing)
      ensures Contents() == lines
    {
      backing := new string[|lines|](i requires 0 <= i < |lines| => lines[i]);
      len := |lines|;
    }

    /** `append(lines[:at], append([]string{line}, lines[at:]...)...)`: the tail is copied out first, then written
        over the same backing array if it still fits, and into a larger one if it does not. */
    method InsertAt(at: nat, line: string)
      requires Valid() && at <= len
      modifies this, backing
      ensures Valid() && (backing == old(backing) || fresh(backing))
      ensures Contents() == old(Contents())[..at] + [line] + old(Contents())[at..]
    {
      var tail := [line] + backing[at..len];
      ghost var front := backing[..at];
      assert front == old(Contents())[..at] && tail == [line] + old(Contents())[at..];
      if at + |tail| > backing.Length {
        Grow(2 * (at + |tail|));
        assert backing[..at] == Contents()[..at];
      }
      assert backing[..at] == front;
      Overwrite(backing, at, tail);
      len := at + |tail|;
      assert backing[..len] == front + tail;
    }

    method Grow(capacity: nat)
      requires Valid() && len <= capacity
      modifies this
      ensures Valid() && fresh(backing) && backing.Length == capacity && len == old(len)
      ensures Contents() == old(Contents())
    {
      var lines := backing[..len];
      backing := new string[capacity](i => if 0 <= i < |lines| then lines[i] else "");
    }

    method Append(line: string)
      requires Valid()
      modifies this, backing
      ensures Valid() && (backing == old(backing) || fresh(backing))
      ensures Contents() == old(Contents()) + [line]
    {
      InsertAt(len, line);
    }
  }

  lemma EntryLinesJoin(x: seq<Entry>, y: seq<Entry>)
    ensures EntryLines(x + y) == EntryLines(x) + EntryLines(y)
  {
  }

  lemma EntryLinesInsert(front: seq<Entry>, entry: Entry, back: seq<Entry>)
    ensures var lines := EntryLines(front + back);
      EntryLines(front + [entry] + back) == lines[..|front|] + [EntryLine(entry)] + lines[|front|..]
  {
    hide EntryLine;
  }

  /** One conditional splice of the printer, between the lines of `front` and those of `back`. */
  method InsertWhen(condition: bool, lines: LineSlice, at: nat, entry: Entry, ghost front: seq<Entry>,
      ghost back: seq<Entry>)
    requires lines.Valid() && at == |front| && lines.Contents() == EntryLines(front + back)
    modifies lines, lines.backing
    ensures lines.Valid() && (lines.backing == old(lines.backing) || fresh(lines.backing))
    ensures lines.Contents() == EntryLines(front + When(condition, entry) + back)
  {
    hide EntryLine, EntryLines;
    if condition {
      EntryLinesInsert(front, entry, back);
      lines.InsertAt(at, EntryLine(entry));
    } else {
      assert front + [] == front;
    }
  }

  lemma {:induction false} StandingJoin(x: seq<(bool, Entry)>, y: seq<(bool, Entry)>)
    ensures Standing(x + y) == Standing(x) + Standing(y)
  {
    if x == [] {
      assert x + y == y;
    } else {
      assert (x + y)[1..] == x[1..] + y;
      StandingJoin(x[1..], y);
    }
  }

  lemma StandingOne(row: (bool, Entry))
    ensures Standing([row]) == When(row.0, row.1)
  {
    assert Standing([row]) == When(row.0, row.1) + Standing([]);
  }

  lemma StandingTwo(a: Entry, b: Entry)
    ensures Standing([(true, a), (true, b)]) == [a, b]
  {
    StandingJoin([(true, a)], [(true, b)]);
    StandingOne((true, a));
    StandingOne((true, b));
    assert [(true, a), (true, b)] == [(true, a)] + [(true, b)];
  }

  lemma StandingThree(a: Entry, b: Entry, c: Entry)
    ensures Standing([(true, a), (true, b), (true, c)]) == [a, b, c]
  {
    StandingJoin([(true, a), (true, b)], [(true, c)]);
    StandingTwo(a, b);
    StandingOne((true, c));
    assert [(true, a), (true, b), (true, c)] == [(true, a), (true, b)] + [(true, c)];
  }

  /** The table, read row by row. */
  lemma EntriesListed(rows: seq<(bool, Entry)>)
    requires |rows| == 11
    requires rows[0].0 && rows[1].0 && rows[2].0 && rows[4].0 && rows[5].0 && rows[7].0 && rows[10].0
    ensures Standing(rows)
      == [rows[0].1, rows[1].1, rows[2].1] + When(rows[3].0, rows[3].1) + [rows[4].1, rows[5].1]
        + When(rows[6].0, rows[6].1) + [rows[7].1] + When(rows[8].0, rows[8].1) + When(rows[9].0, rows[9].1)
        + [rows[10].1]
  {
    hide Standing;
    assert rows == rows[..10] + [rows[10]];
    StandingJoin(rows[..10], [rows[10]]);
    assert rows[..10] == rows[..9] + [rows[9]];
    StandingJoin(rows[..9], [rows[9]]);
    assert rows[..9] == rows[..8] + [rows[8]];
    StandingJoin(rows[..8], [rows[8]]);
    assert rows[..8] == rows[..7] + [rows[7]];
    StandingJoin(rows[..7], [rows[7]]);
    assert rows[..7] == rows[..6] + [rows[6]];
    StandingJoin(rows[..6], [rows[6]]);
    assert rows[..6] == rows[..4] + [rows[4], rows[5]];
    StandingJoin(rows[..4], [rows[4], rows[5]]);
    assert rows[..4] == [rows[0], rows[1], rows[2]] + [rows[3]];
    StandingJoin([rows[0], rows[1], rows[2]], [rows[3]]);
    StandingThree(rows[0].1, rows[1].1, rows[2].1);
    StandingTwo(rows[4].1, rows[5].1);
    StandingOne(rows[3]);
    StandingOne(rows[6]);
    StandingOne(rows[7]);
    StandingOne(rows[8]);
    StandingOne(rows[9]);
    StandingOne(rows[10]);
  }

  lemma EntriesInOrder(o: ConfigOptions, knownHostsPath: string)
    ensures Entries(o, knownHostsPath)
      == [Entry(Host, o.alias), Entry(HostName, o.localHost), Entry(Port, Itoa(o.localPort))]
        + When(o.user != "", Entry(User, o.user))
        + [Entry(UserKnownHostsFile, QuoteConfigValue(knownHostsPath)), Entry(StrictHostKeyChecking, "yes")]
        + When(o.identityFile != "", Entry(IdentityFile, QuoteConfigValue(o.identityFile)))
        + [Entry(IdentitiesOnly, "yes")]
        + When(o.serverAliveInterval > 0, Entry(ServerAliveInterval, Itoa(o.serverAliveInterval)))
        + When(o.serverAliveCountMax > 0, Entry(ServerAliveCountMax, Itoa(o.serverAliveCountMax)))
        + [Entry(TCPKeepAlive, if o.tcpKeepAlive then "yes" else "no")]
  {
    hide QuoteConfigValue, Itoa, When, Standing;
    EntriesListed(Rows(o, knownHostsPath));
  }

  /** `renderConfig`. */
  method RenderConfig(o: ConfigOptions, knownHostsPath: string) returns (text: string)
    ensures text == ConfigText(o, knownHostsPath)
  {
    hide EntryLine, EntryLines, QuoteConfigValue, Itoa, JoinLines, Terminated, When, Entries;
    EntriesInOrder(o, knownHostsPath);
    var alias, host, port := Entry(Host, o.alias), Entry(HostName, o.localHost), Entry(Port, Itoa(o.localPort));
    var user := Entry(User, o.user);
    var known := Entry(UserKnownHostsFile, QuoteConfigValue(knownHostsPath));
    var strict := Entry(StrictHostKeyChecking, "yes");
    var identity, only := Entry(IdentityFile, QuoteConfigValue(o.identityFile)), Entry(IdentitiesOnly, "yes");
    var interval := Entry(ServerAliveInterval, Itoa(o.serverAliveInterval));
    var countMax := Entry(ServerAliveCountMax, Itoa(o.serverAliveCountMax));
    var tcp := Entry(TCPKeepAlive, if o.tcpKeepAlive then "yes" else "no");

    var lines := new LineSlice(EntryLines([alias, host, port, known, strict, only]));

    ghost var front := [alias, host, port];
    assert [alias, host, port, known, strict, only] == front + [known, strict, only];
    InsertWhen(o.user != "", lines, 3, user, front, [known, strict, only]);
    assert front + When(o.user != "", user) + [known, strict, only]
      == front + When(o.user != "", user) + [known, strict] + [only];
    front := front + When(o.user != "", user) + [known, strict];

    InsertWhen(o.identityFile != "", lines, lines.len - 1, identity, front, [only]);
    front := front + When(o.identityFile != "", identity) + [only];

    AppendEntry(o.serverAliveInterval > 0, lines, interval, front);
    front := front + When(o.serverAliveInterval > 0, interval);
    AppendEntry(o.serverAliveCountMax > 0, lines, countMax, front);
    front := front + When(o.serverAliveCountMax > 0, countMax);
    AppendEntry(true, lines, tcp, front);
    assert When(true, tcp) == [tcp] by { WhenTrue(tcp); }
    JoinedIsTerminated(lines.Contents());
    text := JoinLines(lines.backing[..lines.len]) + "\n";
  }

  lemma WhenTrue<T>(item: T)
    ensures When(true, item) == [item]
  {
  }

  /** One conditional append of the printer. */
  method AppendEntry(condition: bool, lines: LineSlice, entry: Entry, ghost front: seq<Entry>)
    requires lines.Valid() && lines.Contents() == EntryLines(front)
    modifies lines, lines.backing
    ensures lines.Valid() && (lines.backing == old(lines.backing) || fresh(lines.backing))
    ensures lines.Contents() == EntryLines(front + When(condition, entry))
  {
    hide EntryLine;
    EntryLinesJoin(front, When(condition, entry));
    if condition {
      lines.Append(EntryLine(entry));
    }
  }
}
