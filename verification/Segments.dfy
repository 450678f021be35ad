/** The removal loop, which works on characters, refines a filter on a list of segments. */
module Segments {
  import opened Text
  import opened ManagedBlock
  import opened Upsert
  import opened Markers

  /** A piece of the user's file: text of their own, or the block of an alias. */
  datatype Segment = User(text: string) | Managed(alias: string, body: string)

  function SegmentText(segment: Segment): string {
    match segment
    case User(text) => text
    case Managed(alias, body) => Block(BeginMarker(alias), EndMarker(alias), body)
  }

  function Render(segments: seq<Segment>): string {
    if segments == [] then "" else SegmentText(segments[0]) + Render(segments[1..])
  }

  predicate IsBlockOf(segment: Segment, aliases: set<string>) {
    segment.Managed? && segment.alias in aliases
  }

  /** The plain filter: every segment but the blocks of `aliases`. */
  function Keep(segments: seq<Segment>, aliases: set<string>): seq<Segment> {
    if segments == [] then []
    else if IsBlockOf(segments[0], aliases) then Keep(segments[1..], aliases)
    else [segments[0]] + Keep(segments[1..], aliases)
  }

  /** Drop the line ends the segments start with. Blocks start with `#`. */
  function TrimSegments(segments: seq<Segment>): (r: seq<Segment>)
    ensures |r| <= |segments|
    ensures r == [] || r[0].Managed? || (r[0].text != "" && !IsNewline(r[0].text[0]))
  {
    if segments == [] || segments[0].Managed? then segments
    else if TrimLeft(segments[0].text) == "" then TrimSegments(segments[1..])
    else [User(TrimLeft(segments[0].text))] + segments[1..]
  }

  /** The filter that the file editor carries out: behind every block it takes out, the line ends go too. */
  function Without(segments: seq<Segment>, aliases: set<string>): (r: seq<Segment>)
    ensures |r| <= |segments|
  {
    if segments == [] then []
    else if IsBlockOf(segments[0], aliases) then TrimSegments(Without(segments[1..], aliases))
    else [segments[0]] + Without(segments[1..], aliases)
  }

  /** What a segment must satisfy for the removal of `alias` to treat it as one piece. */
  predicate Undisturbed(segment: Segment, alias: string) {
    if IsBlockOf(segment, {alias})
    then EndsLine(segment.body) && !Contains(segment.body, EndMarker(alias))
    else EndsLine(SegmentText(segment)) && !Contains(SegmentText(segment), BeginMarker(alias))
  }

  predicate AllUndisturbed(segments: seq<Segment>, alias: string) {
    forall segment :: segment in segments ==> Undisturbed(segment, alias)
  }

  // ----- Trimming segments

  lemma BlockStartsWithHash(alias: string, body: string, rest: string)
    ensures TrimLeft(SegmentText(Managed(alias, body)) + rest) == SegmentText(Managed(alias, body)) + rest
  {
    hide TrimLeft;
    assert (SegmentText(Managed(alias, body)) + rest)[0] == '#';
    TrimLeftFixed(SegmentText(Managed(alias, body)) + rest);
  }

  lemma {:induction false} RenderTrimmed(segments: seq<Segment>)
    ensures Render(TrimSegments(segments)) == TrimLeft(Render(segments))
  {
    if segments == [] {
    } else if segments[0].Managed? {
      BlockStartsWithHash(segments[0].alias, segments[0].body, Render(segments[1..]));
    } else {
      TrimLeftJoin(segments[0].text, Render(segments[1..]));
      RenderTrimmed(segments[1..]);
    }
  }

  lemma TrimSegmentsIdempotent(segments: seq<Segment>)
    ensures TrimSegments(TrimSegments(segments)) == TrimSegments(segments)
  {
    hide TrimSegments;
    TrimmedStay(TrimSegments(segments));
  }

  lemma {:induction false} TrimmedStay(segments: seq<Segment>)
    requires segments == [] || segments[0].Managed? || (segments[0].text != "" && !IsNewline(segments[0].text[0]))
    ensures TrimSegments(segments) == segments
  {
    hide TrimLeft;
    if segments != [] && segments[0].User? {
      var text := segments[0].text;
      assert TrimLeft(text) == text by { TrimLeftFixed(text); }
      assert TrimSegments(segments) == [User(text)] + segments[1..];
    }
  }

  lemma {:induction false} TrimSegmentsUndisturbed(segments: seq<Segment>, alias: string)
    requires AllUndisturbed(segments, alias)
    ensures AllUndisturbed(TrimSegments(segments), alias)
  {
    if segments != [] && segments[0].User? {
      assert Undisturbed(segments[0], alias);
      IndexTrimmed(segments[0].text, BeginMarker(alias));
      TrimSegmentsUndisturbed(segments[1..], alias);
    }
  }

  lemma {:induction false} WithoutUndisturbed(segments: seq<Segment>, aliases: set<string>, alias: string)
    requires AllUndisturbed(segments, alias)
    ensures AllUndisturbed(Without(segments, aliases), alias)
  {
    if segments != [] {
      WithoutUndisturbed(segments[1..], aliases, alias);
      if IsBlockOf(segments[0], aliases) {
        TrimSegmentsUndisturbed(Without(segments[1..], aliases), alias);
      }
    }
  }

  lemma {:induction false} WithoutTrimmed(segments: seq<Segment>, aliases: set<string>)
    ensures Without(TrimSegments(segments), aliases) == TrimSegments(Without(segments, aliases))
  {
    if segments == [] {
    } else if segments[0].User? {
      WithoutTrimmed(segments[1..], aliases);
    } else if IsBlockOf(segments[0], aliases) {
      TrimSegmentsIdempotent(Without(segments[1..], aliases));
    }
  }

  // ----- The refinement

  lemma FindOwnBlock(front: string, alias: string, body: string, tail: string)
    requires '\n' !in alias && EndsLine(front) && !Contains(front, BeginMarker(alias))
    requires EndsLine(body) && !Contains(body, EndMarker(alias))
    ensures var block := Block(BeginMarker(alias), EndMarker(alias), body);
      RemoveBlocks(front + (block + tail), BeginMarker(alias), EndMarker(alias))
      == RemoveBlocks(front + TrimLeft(tail), BeginMarker(alias), EndMarker(alias))
  {
    var begin, end := BeginMarker(alias), EndMarker(alias);
    AliasMarkerPair(alias);
    FindInnerBlock(front, begin, end, body, tail);
  }

  lemma FindInnerBlock(front: string, begin: string, end: string, body: string, tail: string)
    requires MarkerPair(begin, end) && EndsLine(front) && !Contains(front, begin)
    requires EndsLine(body) && !Contains(body, end)
    ensures RemoveBlocks(front + (Block(begin, end, body) + tail), begin, end)
      == RemoveBlocks(front + TrimLeft(tail), begin, end)
  {
    hide RemoveBlocks, TrimLeft, FindBlock, Index, Cut, Block;
    var rest := Block(begin, end, body) + tail;
    var size := |Block(begin, end, body)| - 1;
    FindLeadingBlock(begin, end, body, tail);
    FindBehindFront(front, rest, begin, end, size);
    BlockEndsLine(begin, end, body);
    BehindBlock(Block(begin, end, body), tail);
    RemoveRound(front + rest, begin, end, |front|, |front| + size);
  }

  lemma BlockEndsLine(begin: string, end: string, body: string)
    ensures Block(begin, end, body) != "" && Block(begin, end, body)[|Block(begin, end, body)| - 1] == '\n'
  {
  }

  lemma BehindBlock(block: string, tail: string)
    requires block != "" && block[|block| - 1] == '\n'
    ensures TrimLeft((block + tail)[|block| - 1..]) == TrimLeft(tail)
  {
    assert (block + tail)[|block| - 1..] == "\n" + tail;
    TrimLeftNewline(tail);
  }

  /** A block found at the top of `rest` is also found behind a front without markers. */
  lemma FindBehindFront(front: string, rest: string, begin: string, end: string, size: nat)
    requires '\n' !in begin && begin != "" && EndsLine(front) && !Contains(front, begin)
    requires FindBlock(rest, begin, end) == Found(0, size)
    ensures FindBlock(front + rest, begin, end) == Found(|front|, |front| + size)
    ensures Cut(front + rest, |front|, |front| + size) == front + TrimLeft(rest[size..])
  {
    IndexJoin(front, rest, begin);
    assert (front + rest)[|front|..] == rest == rest[0..];
    assert (front + rest)[|front| + size..] == rest[size..];
    assert (front + rest)[..|front|] == front;
  }

  lemma Reassociate(front: string, first: Segment, rest: seq<Segment>)
    ensures front + Render([first] + rest) == front + SegmentText(first) + Render(rest)
  {
    assert ([first] + rest)[1..] == rest;
    Associate(front, SegmentText(first), Render(rest));
  }

  lemma Associate(x: string, y: string, z: string)
    ensures x + (y + z) == x + y + z
  {
  }

  /** The claim of `RemoveBehindFront`, named so that its proof can be passed from case to case. */
  predicate RemovedBehind(front: string, segments: seq<Segment>, alias: string) {
    RemoveBlocks(front + Render(segments), BeginMarker(alias), EndMarker(alias))
    == TrimLeft(front + Render(Without(segments, {alias})))
  }

  lemma NothingBehind(front: string, alias: string)
    requires !Contains(front, BeginMarker(alias))
    ensures RemovedBehind(front, [], alias)
  {
    assert front + "" == front;
  }

  lemma KeepFirst(front: string, first: Segment, rest: seq<Segment>, alias: string)
    requires !IsBlockOf(first, {alias}) && RemovedBehind(front + SegmentText(first), rest, alias)
    ensures RemovedBehind(front, [first] + rest, alias)
  {
    Reassociate(front, first, rest);
    Reassociate(front, first, Without(rest, {alias}));
    assert ([first] + rest)[1..] == rest;
  }

  lemma CutFirst(front: string, first: Segment, rest: seq<Segment>, alias: string)
    requires '\n' !in alias && EndsLine(front) && !Contains(front, BeginMarker(alias))
    requires IsBlockOf(first, {alias}) && Undisturbed(first, alias) && RemovedBehind(front, TrimSegments(rest), alias)
    ensures RemovedBehind(front, [first] + rest, alias)
  {
    hide RemoveBlocks, TrimLeft, BeginMarker, EndMarker;
    FindOwnBlock(front, alias, first.body, Render(rest));
    RenderTrimmed(rest);
    WithoutTrimmed(rest, {alias});
    assert ([first] + rest)[1..] == rest;
  }

  /** With an undisturbed front already scanned, removal on the characters is `Without` on the segments. */
  lemma {:induction false} RemoveBehindFront(front: string, segments: seq<Segment>, alias: string)
    requires '\n' !in alias && EndsLine(front) && !Contains(front, BeginMarker(alias))
    requires AllUndisturbed(segments, alias)
    ensures RemovedBehind(front, segments, alias)
    decreases |segments|
  {
    hide RemovedBehind, SegmentText, IndexFrom;
    if segments == [] {
      NothingBehind(front, alias);
    } else {
      var first, rest := segments[0], segments[1..];
      assert Undisturbed(first, alias) && segments == [first] + rest;
      if IsBlockOf(first, {alias}) {
        TrimSegmentsUndisturbed(rest, alias);
        RemoveBehindFront(front, TrimSegments(rest), alias);
        CutFirst(front, first, rest, alias);
      } else {
        ContainsJoin(front, SegmentText(first), BeginMarker(alias));
        RemoveBehindFront(front + SegmentText(first), rest, alias);
        KeepFirst(front, first, rest, alias);
      }
    }
  }

  /** Removing an alias from the file takes its blocks out of the list of segments, with the line ends behind
      each of them and at the start, and changes nothing else. */
  lemma RemoveRefinesFilter(segments: seq<Segment>, alias: string)
    requires '\n' !in alias && AllUndisturbed(segments, alias)
    ensures RemoveBlocks(Render(segments), BeginMarker(alias), EndMarker(alias))
         == Render(TrimSegments(Without(segments, {alias})))
  {
    RemoveBehindFront("", segments, alias);
    assert RemovedBehind("", segments, alias);
    assert "" + Render(segments) == Render(segments);
    assert "" + Render(Without(segments, {alias})) == Render(Without(segments, {alias}));
    RenderTrimmed(Without(segments, {alias}));
  }

  // ----- Several aliases

  lemma {:induction false} WithoutTwice(segments: seq<Segment>, first: set<string>, second: set<string>)
    ensures Without(Without(segments, first), second) == Without(segments, first + second)
  {
    if segments != [] {
      var rest := segments[1..];
      WithoutTwice(rest, first, second);
      if IsBlockOf(segments[0], first) {
        WithoutTrimmed(Without(rest, first), second);
      } else {
        assert ([segments[0]] + Without(rest, first))[1..] == Without(rest, first);
      }
    }
  }

  /** The text after removing `aliases` one after the other. */
  function RemoveEach(content: string, aliases: seq<string>): string
    decreases |aliases|
  {
    if aliases == [] then content
    else RemoveEach(RemoveBlocks(content, BeginMarker(aliases[0]), EndMarker(aliases[0])), aliases[1..])
  }

  function Names(aliases: seq<string>): set<string> {
    set alias | alias in aliases
  }

  lemma RemoveEachStep(segments: seq<Segment>, alias: string, others: set<string>)
    ensures TrimSegments(Without(TrimSegments(Without(segments, {alias})), others))
         == TrimSegments(Without(segments, {alias} + others))
  {
    WithoutTrimmed(Without(segments, {alias}), others);
    TrimSegmentsIdempotent(Without(Without(segments, {alias}), others));
    WithoutTwice(segments, {alias}, others);
  }

  /** Removing several aliases, in any order and any number of times, depends only on the set of them. */
  lemma {:induction false} RemoveEachRefinesFilter(segments: seq<Segment>, aliases: seq<string>)
    requires aliases != []
    requires forall alias :: alias in aliases ==> '\n' !in alias && AllUndisturbed(segments, alias)
    ensures RemoveEach(Render(segments), aliases) == Render(TrimSegments(Without(segments, Names(aliases))))
    decreases |aliases|
  {
    hide RemoveBlocks, TrimSegments, Without, Render;
    var alias, later := aliases[0], aliases[1..];
    var left := TrimSegments(Without(segments, {alias}));
    RemoveRefinesFilter(segments, alias);
    assert {alias} + Names(later) == Names(aliases);
    if later == [] {
      assert Names(aliases) == {alias};
    } else {
      forall other | other in later
        ensures '\n' !in other && AllUndisturbed(left, other)
      {
        assert other in aliases;
        WithoutUndisturbed(segments, {alias}, other);
        TrimSegmentsUndisturbed(Without(segments, {alias}), other);
      }
      RemoveEachRefinesFilter(left, later);
      RemoveEachStep(segments, alias, Names(later));
    }
  }

  /** Removals of two aliases commute. */
  lemma RemovalsCommute(segments: seq<Segment>, a: string, b: string)
    requires '\n' !in a && '\n' !in b && AllUndisturbed(segments, a) && AllUndisturbed(segments, b)
    ensures RemoveEach(Render(segments), [a, b]) == RemoveEach(Render(segments), [b, a])
  {
    RemoveEachRefinesFilter(segments, [a, b]);
    RemoveEachRefinesFilter(segments, [b, a]);
    assert Names([a, b]) == Names([b, a]);
  }

  // ----- What is kept

  function Blocks(segments: seq<Segment>): seq<Segment> {
    if segments == [] then []
    else (if segments[0].Managed? then [segments[0]] else []) + Blocks(segments[1..])
  }

  /** The characters that are not line ends. */
  function Ink(s: string): string {
    if s == "" then "" else (if IsNewline(s[0]) then "" else [s[0]]) + Ink(s[1..])
  }

  lemma {:induction false} InkJoin(x: string, y: string)
    ensures Ink(x + y) == Ink(x) + Ink(y)
  {
    if x == "" {
      assert x + y == y;
    } else {
      assert (x + y)[1..] == x[1..] + y;
      InkJoin(x[1..], y);
    }
  }

  lemma {:induction false} InkTrimmed(s: string)
    ensures Ink(TrimLeft(s)) == Ink(s)
  {
    if s != "" && IsNewline(s[0]) {
      InkTrimmed(s[1..]);
    }
  }

  lemma {:induction false} BlocksTrimmed(segments: seq<Segment>)
    ensures Blocks(TrimSegments(segments)) == Blocks(segments)
  {
    if segments != [] && segments[0].User? {
      BlocksTrimmed(segments[1..]);
    }
  }

  /** Every block of every other alias survives, in order, and the user's text survives but for line ends. */
  lemma {:induction false} OthersSurvive(segments: seq<Segment>, aliases: set<string>)
    ensures Blocks(Without(segments, aliases)) == Blocks(Keep(segments, aliases))
    ensures Ink(Render(Without(segments, aliases))) == Ink(Render(Keep(segments, aliases)))
  {
    if segments != [] {
      var first, rest := segments[0], segments[1..];
      OthersSurvive(rest, aliases);
      if IsBlockOf(first, aliases) {
        BlocksTrimmed(Without(rest, aliases));
        RenderTrimmed(Without(rest, aliases));
        InkTrimmed(Render(Without(rest, aliases)));
      } else {
        InkJoin(SegmentText(first), Render(Without(rest, aliases)));
        InkJoin(SegmentText(first), Render(Keep(rest, aliases)));
      }
    }
  }

  // ----- Files as dev-connect and its user write them

  predicate MarkerFree(text: string) {
    !Contains(text, BEGIN_HEAD) && !Contains(text, END_HEAD)
  }

  /** An alias as the editor accepts it, on one line, with no marker inside. */
  predicate PlainAlias(alias: string) {
    '\n' !in alias && '\r' !in alias && MarkerFree(alias)
  }

  predicate PlainSegment(segment: Segment) {
    match segment
    case User(text) => EndsLine(text) && MarkerFree(text)
    case Managed(alias, body) => PlainAlias(alias) && EndsLine(body) && MarkerFree(body)
  }

  /** Terminated lines, no foreign markers, one-line aliases. */
  predicate PlainFile(segments: seq<Segment>) {
    forall segment :: segment in segments ==> PlainSegment(segment)
  }

  /** The block of an alias that goes on behind `a`. */
  predicate IsLonger(segment: Segment, a: string) {
    segment.Managed? && HasPrefix(segment.alias, a) && segment.alias != a
  }

  predicate HoldsLonger(segments: seq<Segment>, a: string) {
    exists segment :: segment in segments && IsLonger(segment, a)
  }

  /** Where the begin marker of `a` can stand in a block of `b`. */
  lemma BeginInBlock(a: string, b: string, body: string)
    requires '\n' !in a && '\n' !in b && EndsLine(body)
    ensures Contains(SegmentText(Managed(b, body)), BeginMarker(a))
       <==> HasPrefix(b, a) || Contains(b, BeginMarker(a)) || Contains(body, BeginMarker(a))
  {
    var marker := BeginMarker(a);
    ContainsTerminated(BeginMarker(b), marker);
    ContainsTerminated(EndMarker(b), marker);
    ContainsJoin(BeginMarker(b) + "\n", body, marker);
    ContainsJoin(BeginMarker(b) + "\n" + body, EndMarker(b) + "\n", marker);
    assert SegmentText(Managed(b, body)) == BeginMarker(b) + "\n" + body + (EndMarker(b) + "\n");
    BeginInBegin(a, b);
    BeginInEnd(a, b);
  }

  /** A plain segment is in the way of a removal only if it is the block of a longer alias. */
  lemma PlainUndisturbed(segment: Segment, a: string)
    requires PlainSegment(segment) && '\n' !in a && !IsLonger(segment, a)
    ensures Undisturbed(segment, a)
  {
    match segment
    case User(text) =>
      HeadFree(text, BEGIN_HEAD, a);
    case Managed(b, body) =>
      HeadFree(body, BEGIN_HEAD, a);
      HeadFree(body, END_HEAD, a);
      HeadFree(b, BEGIN_HEAD, a);
      if b != a {
        BeginInBlock(a, b, body);
      }
  }

  lemma PlainFileUndisturbed(segments: seq<Segment>, a: string)
    requires PlainFile(segments) && '\n' !in a && !HoldsLonger(segments, a)
    ensures AllUndisturbed(segments, a)
  {
    hide Undisturbed, PlainSegment;
    forall segment | segment in segments
      ensures Undisturbed(segment, a)
    {
      PlainUndisturbed(segment, a);
    }
  }

  /** In a plain file in which no alias is longer than the removed one: every other block is kept, and all of the user's
      ink. */
  lemma RemoveFromPlainFile(segments: seq<Segment>, a: string)
    requires PlainFile(segments) && '\n' !in a && !HoldsLonger(segments, a)
    ensures var left := TrimSegments(Without(segments, {a}));
      && RemoveBlocks(Render(segments), BeginMarker(a), EndMarker(a)) == Render(left)
      && Blocks(left) == Blocks(Keep(segments, {a}))
      && Ink(Render(left)) == Ink(Render(Keep(segments, {a})))
  {
    PlainFileUndisturbed(segments, a);
    RemoveRefinesFilter(segments, a);
    FilteredInk(segments, {a});
  }

  lemma FilteredInk(segments: seq<Segment>, aliases: set<string>)
    ensures var left := TrimSegments(Without(segments, aliases));
      && Blocks(left) == Blocks(Keep(segments, aliases))
      && Ink(Render(left)) == Ink(Render(Keep(segments, aliases)))
  {
    OthersSurvive(segments, aliases);
    BlocksTrimmed(Without(segments, aliases));
    RenderTrimmed(Without(segments, aliases));
    InkTrimmed(Render(Without(segments, aliases)));
  }

  // ----- The prefix hazard

  /** What a removal of `a` makes of a segment whose alias is longer: the rest of the name, on a line of its own. */
  function ReplacedSegment(segment: Segment, a: string): Segment {
    if IsLonger(segment, a) then User(segment.alias[|a|..] + "\n") else segment
  }

  function Replaced(segments: seq<Segment>, a: string): seq<Segment> {
    if segments == [] then [] else [ReplacedSegment(segments[0], a)] + Replaced(segments[1..], a)
  }

  /** The part of a longer alias's block before its end marker holds no end marker of `a`. */
  lemma LongerFront(a: string, rest: string, body: string)
    requires PlainAlias(a + rest) && EndsLine(body) && MarkerFree(body)
    ensures EndsLine(BeginMarker(a + rest) + "\n" + body) && '\n' !in a
    ensures !Contains(BeginMarker(a + rest) + "\n" + body, EndMarker(a))
  {
    hide IndexFrom, Contains, BEGIN_HEAD, END_HEAD;
    var b, end := a + rest, EndMarker(a);
    assert '\n' !in a by { assert forall c :: c in a ==> c in b; }
    HeadsOneLine();
    HeadFree(b, END_HEAD, a);
    EndInBegin(a, b);
    HeadFree(body, END_HEAD, a);
    ContainsTerminated(BeginMarker(b), end);
    ContainsJoin(BeginMarker(b) + "\n", body, end);
  }

  lemma HeadsOneLine()
    ensures '\n' !in BEGIN_HEAD && '\n' !in END_HEAD && END_HEAD != "" && BEGIN_HEAD != ""
  {
  }

  lemma MarkerOfPrefix(head: string, a: string, rest: string, behind: string)
    ensures Index(head + (a + rest) + behind, head + a) == 0
  {
    assert (head + (a + rest) + behind)[0..|head + a|] == head + a;
    assert OccursAt(head + (a + rest) + behind, head + a, 0);
  }

  /** The end marker of `a` is first met in the end marker of the longer alias. */
  lemma FindInLongerBlock(a: string, rest: string, body: string, tail: string)
    requires PlainAlias(a + rest) && EndsLine(body) && MarkerFree(body)
    ensures var content := SegmentText(Managed(a + rest, body)) + tail;
      var stop := |BeginMarker(a + rest) + "\n" + body| + |EndMarker(a)|;
      && FindBlock(content, BeginMarker(a), EndMarker(a)) == Found(0, stop)
      && content[stop..] == rest + "\n" + tail
  {
    hide IndexFrom, BEGIN_HEAD, END_HEAD;
    var b, end := a + rest, EndMarker(a);
    var front, back := BeginMarker(b) + "\n" + body, EndMarker(b) + "\n" + tail;
    LongerFront(a, rest, body);
    HeadsOneLine();
    assert EndMarker(b) + "\n" + tail == END_HEAD + (a + rest) + ("\n" + tail);
    MarkerOfPrefix(END_HEAD, a, rest, "\n" + tail);
    IndexJoin(front, back, end);
    MarkerOfPrefix(BEGIN_HEAD, a, rest, "\n" + body + back);
    assert front + back == BeginMarker(b) + ("\n" + body + back);
    assert SegmentText(Managed(b, body)) + tail == front + back == (front + back)[0..];
    assert back[|end|..] == rest + "\n" + tail;
  }

  /** One round of the loop takes the block of a longer alias for one of `a`, and leaves the rest of its name. */
  lemma CutLonger(front: string, a: string, rest: string, body: string, tail: string)
    requires PlainAlias(a + rest) && rest != "" && EndsLine(body) && MarkerFree(body)
    requires EndsLine(front) && !Contains(front, BeginMarker(a))
    ensures RemoveBlocks(front + (SegmentText(Managed(a + rest, body)) + tail), BeginMarker(a), EndMarker(a))
      == RemoveBlocks(front + (rest + "\n" + tail), BeginMarker(a), EndMarker(a))
  {
    hide RemoveBlocks, FindBlock, Index, Contains, Cut, SegmentText, BeginMarker, EndMarker, TrimLeft;
    hide PlainAlias, MarkerFree;
    var content := SegmentText(Managed(a + rest, body)) + tail;
    var stop := |BeginMarker(a + rest) + "\n" + body| + |EndMarker(a)|;
    FindInLongerBlock(a, rest, body, tail);
    BeginIsOneLine(a, rest);
    FindBehindFront(front, content, BeginMarker(a), EndMarker(a), stop);
    NameStays(a, rest, tail);
    RemoveRound(front + content, BeginMarker(a), EndMarker(a), |front|, |front| + stop);
  }

  lemma BeginIsOneLine(a: string, rest: string)
    requires PlainAlias(a + rest)
    ensures '\n' !in BeginMarker(a) && BeginMarker(a) != "" && EndMarker(a) != ""
  {
    hide MarkerFree, BEGIN_HEAD, END_HEAD;
    HeadsOneLine();
    assert forall c :: c in a ==> c in a + rest;
  }

  lemma NameStays(a: string, rest: string, tail: string)
    requires PlainAlias(a + rest) && rest != ""
    ensures TrimLeft(rest + "\n" + tail) == rest + "\n" + tail
  {
    hide MarkerFree, TrimLeft;
    assert (a + rest)[|a|] == rest[0] == (rest + "\n" + tail)[0];
    TrimLeftFixed(rest + "\n" + tail);
  }

  /** The rest of a longer name is text of the user's kind. */
  lemma RestIsPlain(segment: Segment, a: string)
    requires PlainSegment(segment)
    ensures PlainSegment(ReplacedSegment(segment, a)) && !IsLonger(ReplacedSegment(segment, a), a)
  {
    hide IndexFrom, Contains;
    if IsLonger(segment, a) {
      var rest := segment.alias[|a|..];
      assert segment.alias == a + rest;
      SuffixHoldsNone(a, rest, BEGIN_HEAD);
      SuffixHoldsNone(a, rest, END_HEAD);
    }
  }

  lemma SuffixHoldsNone(front: string, rest: string, marker: string)
    requires !Contains(front + rest, marker) && '\n' !in marker && marker != ""
    ensures !Contains(rest + "\n", marker)
  {
    ContainsTerminated(rest, marker);
    if Contains(rest, marker) {
      OccursInRight(front, rest, marker, |front| + Index(rest, marker));
    }
  }

  lemma {:induction false} ReplacedIsPlain(segments: seq<Segment>, a: string)
    requires PlainFile(segments)
    ensures PlainFile(Replaced(segments, a)) && !HoldsLonger(Replaced(segments, a), a)
  {
    hide PlainSegment, IsLonger, ReplacedSegment;
    if segments != [] {
      RestIsPlain(segments[0], a);
      ReplacedIsPlain(segments[1..], a);
    }
  }

  lemma {:induction false} ReplacedTrimmed(segments: seq<Segment>, a: string)
    requires PlainFile(segments)
    ensures Replaced(TrimSegments(segments), a) == TrimSegments(Replaced(segments, a))
  {
    hide PlainSegment, IsLonger;
    if segments != [] {
      var first, rest := segments[0], segments[1..];
      if first.User? {
        assert !IsLonger(first, a) by { UserIsNotLonger(first, a); }
        if TrimLeft(first.text) == "" {
          ReplacedTrimmed(rest, a);
        } else {
          assert !IsLonger(User(TrimLeft(first.text)), a) by { UserIsNotLonger(User(TrimLeft(first.text)), a); }
        }
      } else {
        assert PlainSegment(first);
        ReplacedStays(first, a);
      }
    }
  }

  lemma UserIsNotLonger(segment: Segment, a: string)
    requires segment.User?
    ensures !IsLonger(segment, a)
  {
  }

  /** What replaces a block does not start with a line end. */
  lemma ReplacedStays(segment: Segment, a: string)
    requires segment.Managed? && PlainSegment(segment)
    ensures var other := ReplacedSegment(segment, a);
      other.Managed? || (other.text != "" && TrimLeft(other.text) == other.text)
  {
    hide MarkerFree, TrimLeft;
    if IsLonger(segment, a) {
      var rest := segment.alias[|a|..];
      assert segment.alias == a + rest;
      NameStays(a, rest, "");
      assert rest + "\n" + "" == rest + "\n";
    }
  }

  lemma TrimmedPlain(text: string)
    requires EndsLine(text) && MarkerFree(text)
    ensures EndsLine(TrimLeft(text)) && MarkerFree(TrimLeft(text))
  {
    hide IndexFrom;
    IndexTrimmed(text, BEGIN_HEAD);
    IndexTrimmed(text, END_HEAD);
  }

  lemma {:induction false} TrimSegmentsPlain(segments: seq<Segment>)
    requires PlainFile(segments)
    ensures PlainFile(TrimSegments(segments))
  {
    hide MarkerFree, EndsLine, TrimLeft;
    if segments != [] && segments[0].User? {
      assert PlainSegment(segments[0]);
      TrimmedPlain(segments[0].text);
      TrimSegmentsPlain(segments[1..]);
    }
  }

  /** The claim of `ReplaceBehindFront`, named so that its proof can be passed from case to case. */
  predicate ReplacedBehind(front: string, segments: seq<Segment>, a: string) {
    RemoveBlocks(front + Render(segments), BeginMarker(a), EndMarker(a))
    == RemoveBlocks(front + Render(Replaced(segments, a)), BeginMarker(a), EndMarker(a))
  }

  lemma ReplaceOwn(front: string, first: Segment, rest: seq<Segment>, a: string)
    requires '\n' !in a && EndsLine(front) && !Contains(front, BeginMarker(a)) && PlainFile(rest)
    requires IsBlockOf(first, {a}) && Undisturbed(first, a) && ReplacedBehind(front, TrimSegments(rest), a)
    ensures ReplacedBehind(front, [first] + rest, a)
  {
    hide RemoveBlocks, TrimLeft, BeginMarker, EndMarker, PlainFile;
    FindOwnBlock(front, a, first.body, Render(rest));
    FindOwnBlock(front, a, first.body, Render(Replaced(rest, a)));
    RenderTrimmed(rest);
    RenderTrimmed(Replaced(rest, a));
    ReplacedTrimmed(rest, a);
    assert ([first] + rest)[1..] == rest;
    assert ([first] + Replaced(rest, a))[1..] == Replaced(rest, a);
  }

  lemma ReplaceOther(front: string, first: Segment, rest: seq<Segment>, a: string)
    requires PlainSegment(first) && '\n' !in a && EndsLine(front) && !Contains(front, BeginMarker(a))
    requires ReplacedBehind(front + SegmentText(ReplacedSegment(first, a)), rest, a)
    ensures ReplacedBehind(front, [first] + rest, a)
  {
    hide RemoveBlocks, BeginMarker, EndMarker, SegmentText, Contains, MarkerFree;
    var other := ReplacedSegment(first, a);
    assert ([first] + rest)[1..] == rest && ([other] + Replaced(rest, a))[1..] == Replaced(rest, a);
    if IsLonger(first, a) {
      assert first.alias == a + first.alias[|a|..];
      CutLonger(front, a, first.alias[|a|..], first.body, Render(rest));
      assert SegmentText(other) == first.alias[|a|..] + "\n" by { UserText(other); }
    }
    Associate(front, SegmentText(other), Render(rest));
    Associate(front, SegmentText(other), Render(Replaced(rest, a)));
  }

  lemma UserText(segment: Segment)
    requires segment.User?
    ensures SegmentText(segment) == segment.text
  {
  }

  /** Round by round, the loop cannot tell a file from the one with the longer blocks replaced. */
  lemma {:induction false} ReplaceBehindFront(front: string, segments: seq<Segment>, a: string)
    requires '\n' !in a && EndsLine(front) && !Contains(front, BeginMarker(a)) && PlainFile(segments)
    ensures ReplacedBehind(front, segments, a)
    decreases |segments|
  {
    hide ReplacedBehind, SegmentText, IndexFrom, PlainSegment, ReplacedSegment, IsLonger;
    if segments == [] {
      NothingReplaced(front, a);
    } else {
      var first, rest := segments[0], segments[1..];
      assert PlainSegment(first) && segments == [first] + rest;
      RestIsPlain(first, a);
      PlainUndisturbed(ReplacedSegment(first, a), a);
      if IsBlockOf(first, {a}) {
        OwnBlockStays(first, a);
        TrimSegmentsPlain(rest);
        ReplaceBehindFront(front, TrimSegments(rest), a);
        ReplaceOwn(front, first, rest, a);
      } else {
        NoOwnBlock(first, a);
        ContainsJoin(front, SegmentText(ReplacedSegment(first, a)), BeginMarker(a));
        ReplaceBehindFront(front + SegmentText(ReplacedSegment(first, a)), rest, a);
        ReplaceOther(front, first, rest, a);
      }
    }
  }

  lemma NothingReplaced(front: string, a: string)
    ensures ReplacedBehind(front, [], a)
  {
  }

  lemma OwnBlockStays(segment: Segment, a: string)
    requires IsBlockOf(segment, {a})
    ensures ReplacedSegment(segment, a) == segment
  {
  }

  lemma NoOwnBlock(segment: Segment, a: string)
    requires !IsBlockOf(segment, {a})
    ensures !IsBlockOf(ReplacedSegment(segment, a), {a})
  {
  }

  /** On every plain file, removing an alias is the filter on the file in which each block of a longer alias has been
      replaced by the rest of that alias's name. */
  lemma PrefixClobbers(segments: seq<Segment>, a: string)
    requires PlainFile(segments) && '\n' !in a
    ensures RemoveBlocks(Render(segments), BeginMarker(a), EndMarker(a))
         == Render(TrimSegments(Without(Replaced(segments, a), {a})))
  {
    hide RemoveBlocks, Render, Replaced;
    ReplaceBehindFront("", segments, a);
    assert ReplacedBehind("", segments, a);
    assert "" + Render(segments) == Render(segments);
    assert "" + Render(Replaced(segments, a)) == Render(Replaced(segments, a));
    ReplacedIsPlain(segments, a);
    PlainFileUndisturbed(Replaced(segments, a), a);
    RemoveRefinesFilter(Replaced(segments, a), a);
  }

  /** The blocks of the aliases that `a` is no prefix of. */
  function Unprefixed(segments: seq<Segment>, a: string): seq<Segment> {
    if segments == [] then []
    else if segments[0].Managed? && !HasPrefix(segments[0].alias, a) then [segments[0]] + Unprefixed(segments[1..], a)
    else Unprefixed(segments[1..], a)
  }

  lemma {:induction false} ReplacedBlocks(segments: seq<Segment>, a: string)
    ensures Blocks(Keep(Replaced(segments, a), {a})) == Unprefixed(segments, a)
  {
    if segments != [] {
      ReplacedBlocks(segments[1..], a);
    }
  }

  /** A block has more ink than the rest of its name. */
  lemma BlockInk(segment: Segment, a: string)
    requires IsLonger(segment, a)
    ensures |Ink(SegmentText(ReplacedSegment(segment, a)))| < |Ink(SegmentText(segment))|
  {
    hide BEGIN_HEAD;
    var alias, rest := segment.alias, segment.alias[|a|..];
    var front := BeginMarker(alias) + "\n" + segment.body + END_HEAD;
    assert alias == a + rest;
    assert SegmentText(segment) == front + (a + (rest + "\n"));
    InkJoin(front, a + (rest + "\n"));
    InkJoin(a, rest + "\n");
    InkJoin(BeginMarker(alias) + "\n" + segment.body, END_HEAD);
    assert Ink(END_HEAD) == "#" + Ink(END_HEAD[1..]);
  }

  /** Replacing loses ink, unless nothing is replaced. */
  lemma {:induction false} ReplacedInk(segments: seq<Segment>, a: string)
    ensures |Ink(Render(Keep(Replaced(segments, a), {a})))| <= |Ink(Render(Keep(segments, {a})))|
    ensures |Ink(Render(Keep(Replaced(segments, a), {a})))| == |Ink(Render(Keep(segments, {a})))|
       <==> !HoldsLonger(segments, a)
  {
    hide SegmentText, Ink, HasPrefix;
    if segments != [] {
      var first, rest := segments[0], segments[1..];
      ReplacedInk(rest, a);
      InkJoin(SegmentText(first), Render(Keep(rest, {a})));
      InkJoin(SegmentText(ReplacedSegment(first, a)), Render(Keep(Replaced(rest, a), {a})));
      if IsLonger(first, a) {
        BlockInk(first, a);
      }
      assert HoldsLonger(segments, a) <==> IsLonger(first, a) || HoldsLonger(rest, a);
    }
  }

  /** On every plain file, removing an alias takes out its blocks and nothing else if and only if it is no proper prefix
      of another alias in the file. In any case exactly the blocks survive whose alias it is no prefix of. */
  lemma RemovalIsFilterIff(segments: seq<Segment>, a: string)
    requires PlainFile(segments) && '\n' !in a
    ensures RemoveBlocks(Render(segments), BeginMarker(a), EndMarker(a)) == Render(TrimSegments(Without(segments, {a})))
       <==> !HoldsLonger(segments, a)
    ensures Blocks(TrimSegments(Without(Replaced(segments, a), {a}))) == Unprefixed(segments, a)
  {
    hide RemoveBlocks, Render, Replaced, Keep, Without, Ink, Blocks, HoldsLonger, Unprefixed;
    PrefixClobbers(segments, a);
    ReplacedBlocks(segments, a);
    FilteredInk(Replaced(segments, a), {a});
    FilteredInk(segments, {a});
    ReplacedInk(segments, a);
    if !HoldsLonger(segments, a) {
      RemoveFromPlainFile(segments, a);
    }
  }
}
