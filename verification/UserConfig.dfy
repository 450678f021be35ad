/** Upsert and removal for the options of a session: the marker laws applied to what `renderManagedBlock` writes. */
module UserConfig {
  import opened Text
  import opened Lines
  import opened ManagedBlock
  import opened Upsert
  import opened Markers
  import opened Segments
  import opened SshConfig
  import opened SshConfigReader

  /** The user's file after an upsert with these options. */
  function Upserted(content: string, o: ConfigOptions, knownHostsPath: string): string {
    UpsertBlock(content, BeginMarker(o.alias), EndMarker(o.alias), ConfigText(o, knownHostsPath))
  }

  /** The user's file after a removal. */
  function Removed(content: string, alias: string): string {
    RemoveBlocks(content, BeginMarker(alias), EndMarker(alias))
  }

  /** One of the options a caller passes holds `marker`, as it is printed. */
  predicate OptionHolds(o: ConfigOptions, knownHostsPath: string, marker: string) {
    || Contains(o.localHost, marker) || Contains(o.user, marker)
    || Contains(QuoteConfigValue(o.identityFile), marker) || Contains(QuoteConfigValue(knownHostsPath), marker)
  }

  lemma {:induction false} InStanding(rows: seq<(bool, Entry)>, entry: Entry)
    ensures entry in Standing(rows) <==> exists i :: 0 <= i < |rows| && rows[i].0 && rows[i].1 == entry
  {
    if rows != [] {
      InStanding(rows[1..], entry);
      assert forall i :: 0 < i < |rows| ==> rows[i] == rows[1..][i - 1];
      if entry in Standing(rows[1..]) {
        var i :| 0 <= i < |rows[1..]| && rows[1..][i].0 && rows[1..][i].1 == entry;
        assert rows[i + 1].1 == entry;
      }
    }
  }

  lemma NoHashNoMarker(s: string, marker: string)
    requires marker != "" && marker[0] == '#' && forall i :: 0 <= i < |s| ==> s[i] != '#'
    ensures !Contains(s, marker)
  {
    var i := Index(s, marker);
    if i >= 0 {
      OccurrenceAt(s, marker, i, i);
    }
  }

  /** Of the printed values only host, user and the two paths can hold a marker of the session's own alias. */
  lemma MarkerInRows(o: ConfigOptions, knownHostsPath: string, marker: string)
    requires marker != "" && marker[0] == '#' && |marker| > |o.alias|
    ensures var rows := Rows(o, knownHostsPath);
      (exists i :: 0 <= i < |rows| && rows[i].0 && Contains(rows[i].1.value, marker))
        <==> OptionHolds(o, knownHostsPath, marker)
  {
    hide QuoteConfigValue, Itoa, IndexFrom, Contains, OptionHolds;
    var rows := Rows(o, knownHostsPath);
    FixedRowsHoldNoMarker(o, knownHostsPath, marker);
    assert OptionHolds(o, knownHostsPath, marker) <==>
      Contains(rows[1].1.value, marker) || (rows[3].0 && Contains(rows[3].1.value, marker))
      || Contains(rows[4].1.value, marker) || (rows[6].0 && Contains(rows[6].1.value, marker)) by {
      OptionRows(o, knownHostsPath, marker);
    }
  }

  lemma FixedRowsHoldNoMarker(o: ConfigOptions, knownHostsPath: string, marker: string)
    requires marker != "" && marker[0] == '#' && |marker| > |o.alias|
    ensures var rows := Rows(o, knownHostsPath);
      forall i :: i in {0, 2, 5, 7, 8, 9, 10} ==> !Contains(rows[i].1.value, marker)
  {
    hide QuoteConfigValue, Itoa;
    AtoiItoa(o.localPort);
    AtoiItoa(o.serverAliveInterval);
    AtoiItoa(o.serverAliveCountMax);
    NoHashNoMarker(Itoa(o.localPort), marker);
    NoHashNoMarker(Itoa(o.serverAliveInterval), marker);
    NoHashNoMarker(Itoa(o.serverAliveCountMax), marker);
    NoHashNoMarker("yes", marker);
    NoHashNoMarker("no", marker);
  }

  lemma OptionRows(o: ConfigOptions, knownHostsPath: string, marker: string)
    requires marker != "" && marker[0] == '#'
    ensures var rows := Rows(o, knownHostsPath);
      OptionHolds(o, knownHostsPath, marker) <==>
      Contains(rows[1].1.value, marker) || (rows[3].0 && Contains(rows[3].1.value, marker))
      || Contains(rows[4].1.value, marker) || (rows[6].0 && Contains(rows[6].1.value, marker))
  {
    hide Itoa, IndexFrom;
    NoHashNoMarker("", marker);
    QuotedEmpty();
    NoHashNoMarker(QuoteConfigValue(""), marker);
  }

  lemma QuotedEmpty()
    ensures QuoteConfigValue("") == "\"\""
  {
  }

  /** The rendered body holds a marker of its own alias exactly when an option does. */
  lemma BodyHoldsIff(o: ConfigOptions, knownHostsPath: string, head: string)
    requires OneLine(o.alias) && OneLine(head) && head != "" && head[0] == '#'
    ensures Contains(ConfigText(o, knownHostsPath), head + o.alias) <==> OptionHolds(o, knownHostsPath, head + o.alias)
  {
    hide Rows, Contains, OptionHolds, ConfigText, Standing;
    var marker, rows := head + o.alias, Rows(o, knownHostsPath);
    MarkerInBody(o, knownHostsPath, marker);
    forall entry ensures entry in Standing(rows) <==> exists i :: 0 <= i < |rows| && rows[i].0 && rows[i].1 == entry {
      InStanding(rows, entry);
    }
    if i :| 0 <= i < |rows| && rows[i].0 && Contains(rows[i].1.value, marker) {
      assert rows[i].1 in Standing(rows);
    }
    MarkerInRows(o, knownHostsPath, marker);
  }

  /** The text starts with the block of a session: the begin marker line, a body from which the SSH configuration reader
      recovers exactly the options, and the end marker line. */
  ghost predicate HoldsBlock(text: string, o: ConfigOptions, knownHostsPath: string, rest: string) {
    exists body ::
      && ReadConfig(body) == Some((Effective(o), knownHostsPath))
      && text == "# BEGIN dev-connect " + o.alias + "\n" + body + "# END dev-connect " + o.alias + "\n" + rest
  }

  /** The user's file after an upsert, for every file and one-line options: the block of the session; then, if the file
      holds anything else, one empty line and what a removal leaves of it. */
  lemma UpsertedText(content: string, o: ConfigOptions, knownHostsPath: string)
    requires PlainOptions(o, knownHostsPath)
    ensures var rest := TrimLeft(Removed(content, o.alias));
      HoldsBlock(Upserted(content, o, knownHostsPath), o, knownHostsPath, if rest == "" then "" else "\n" + rest)
  {
    hide ReadConfig, ConfigText, RemoveBlocks, TrimLeft, Effective;
    var body, rest := ConfigText(o, knownHostsPath), TrimLeft(Removed(content, o.alias));
    ReadBack(o, knownHostsPath);
    BehindIsTail(Block(BeginMarker(o.alias), EndMarker(o.alias), body), rest);
    var head, tail := "# BEGIN dev-connect " + o.alias + "\n" + body, if rest == "" then "" else "\n" + rest;
    assert head + ("# END dev-connect " + o.alias) + "\n" + tail
      == head + "# END dev-connect " + o.alias + "\n" + tail;
  }

  lemma BodyEndsLine(o: ConfigOptions, knownHostsPath: string)
    ensures EndsLine(ConfigText(o, knownHostsPath))
  {
    TerminatedEndsLine(EntryLines(Entries(o, knownHostsPath)));
  }

  /** For options that hold no begin marker of their alias, connecting and disconnecting gives back the user's file
      (as a removal alone would leave it, without leading line ends) if and only if no option holds the end marker. */
  lemma ConnectThenDisconnectIff(content: string, o: ConfigOptions, knownHostsPath: string)
    requires OneLine(o.alias) && !OptionHolds(o, knownHostsPath, BeginMarker(o.alias))
    ensures Removed(Upserted(content, o, knownHostsPath), o.alias) == TrimLeft(Removed(content, o.alias))
       <==> !OptionHolds(o, knownHostsPath, EndMarker(o.alias))
  {
    hide Contains, OptionHolds, ConfigText, RemoveBlocks, UpsertBlock, TrimLeft;
    AliasMarkerPair(o.alias);
    BodyEndsLine(o, knownHostsPath);
    BodyHoldsIff(o, knownHostsPath, BEGIN_HEAD);
    BodyHoldsIff(o, knownHostsPath, END_HEAD);
    UpsertThenRemoveIff(content, BeginMarker(o.alias), EndMarker(o.alias), ConfigText(o, knownHostsPath));
  }

  /** Without the hypothesis on the begin marker, an option free of end markers still suffices. */
  lemma ConnectThenDisconnect(content: string, o: ConfigOptions, knownHostsPath: string)
    requires OneLine(o.alias) && !OptionHolds(o, knownHostsPath, EndMarker(o.alias))
    ensures Removed(Upserted(content, o, knownHostsPath), o.alias) == TrimLeft(Removed(content, o.alias))
  {
    hide Contains, OptionHolds, ConfigText, RemoveBlocks, UpsertBlock, TrimLeft;
    AliasMarkerPair(o.alias);
    BodyEndsLine(o, knownHostsPath);
    BodyHoldsIff(o, knownHostsPath, END_HEAD);
    UpsertThenRemove(content, BeginMarker(o.alias), EndMarker(o.alias), ConfigText(o, knownHostsPath));
  }

  /** For all options, whatever markers they hold: connecting and disconnecting gives back every user's file if and only
      if it gives back the empty one. */
  lemma UndoneEverywhereIffOnEmpty(o: ConfigOptions, knownHostsPath: string)
    ensures (forall content ::
      Removed(Upserted(content, o, knownHostsPath), o.alias) == TrimLeft(Removed(content, o.alias))) <==>
      Removed(Upserted("", o, knownHostsPath), o.alias) == ""
  {
    hide ConfigText, RemoveBlocks, TrimLeft, UpsertBlock;
    var begin, end, body := BeginMarker(o.alias), EndMarker(o.alias), ConfigText(o, knownHostsPath);
    UndoneEverywhereIff(begin, end, body);
    EmptyFile(begin, end, body);
    forall content
      ensures Removed(Upserted(content, o, knownHostsPath), o.alias) == TrimLeft(Removed(content, o.alias))
         <==> Undone(content, begin, end, body)
    {
    }
  }

  lemma NothingToRemove(content: string, begin: string, end: string)
    requires end != "" && !Contains(content, begin)
    ensures RemoveBlocks(content, begin, end) == TrimLeft(content)
  {
    hide TrimLeft, IndexFrom;
  }

  /** In particular, a file that never held a block of the alias comes back as it was, but for leading line ends. */
  lemma FileComesBack(content: string, o: ConfigOptions, knownHostsPath: string)
    requires OneLine(o.alias) && !OptionHolds(o, knownHostsPath, EndMarker(o.alias))
    requires !Contains(content, BeginMarker(o.alias))
    ensures Removed(Upserted(content, o, knownHostsPath), o.alias) == TrimLeft(content)
  {
    hide OptionHolds, Upserted, TrimLeft, RemoveBlocks, Contains;
    ConnectThenDisconnect(content, o, knownHostsPath);
    NothingToRemove(content, BeginMarker(o.alias), EndMarker(o.alias));
    TrimLeftFixed(content);
  }

  /** Reconnecting with other options replaces the block: the earlier one leaves no trace. */
  lemma Reconnect(content: string, o1: ConfigOptions, k1: string, o2: ConfigOptions, k2: string)
    requires OneLine(o1.alias) && o1.alias == o2.alias && !OptionHolds(o1, k1, EndMarker(o1.alias))
    ensures Upserted(Upserted(content, o1, k1), o2, k2) == Upserted(content, o2, k2)
  {
    hide Contains, OptionHolds, ConfigText, RemoveBlocks, UpsertBlock, TrimLeft;
    AliasMarkerPair(o1.alias);
    BodyEndsLine(o1, k1);
    BodyHoldsIff(o1, k1, END_HEAD);
    SecondUpsert(content, BeginMarker(o1.alias), EndMarker(o1.alias), ConfigText(o1, k1), ConfigText(o2, k2));
  }

  /** A block rendered from options that hold no marker head is the kind of segment that a
      well-formed file is made of. */
  lemma RenderedBodyIsPlain(o: ConfigOptions, knownHostsPath: string)
    requires forall entry :: entry in Entries(o, knownHostsPath) ==> MarkerFree(entry.value)
    ensures EndsLine(ConfigText(o, knownHostsPath)) && MarkerFree(ConfigText(o, knownHostsPath))
  {
    hide Entries, ConfigText, Contains;
    BodyEndsLine(o, knownHostsPath);
    MarkerInBody(o, knownHostsPath, BEGIN_HEAD);
    MarkerInBody(o, knownHostsPath, END_HEAD);
  }
}
