/** The managed-block editor of the user's SSH config (internal/sshconfig/userconfig.go):
    marked blocks are found by substring search, cut out, and put back at the top of the file.
    The editor is stated for any pair of markers first; `Segments` and `UserConfig` use the markers of an alias. */
module ManagedBlock {
  import opened Text

  /** What one round of the removal loop finds: no begin marker, a first begin marker with no end
      marker after it, or the first begin marker with the position after its end marker. */
  datatype Scan = NoBlock | Unmatched(begin: nat) | Found(start: nat, stop: nat)

  function FindBlock(content: string, begin: string, end: string): (r: Scan)
    ensures r.Unmatched? ==> r.begin <= |content|
    ensures r.Found? ==> r.start <= r.stop <= |content| && |end| <= r.stop - r.start
  {
    var start := Index(content, begin);
    if start < 0 then NoBlock
    else
      var stop := Index(content[start..], end);
      if stop < 0 then Unmatched(start) else Found(start, start + stop + |end|)
  }

  /** The text with the found block and the line ends behind it cut out. */
  function Cut(content: string, start: nat, stop: nat): string
    requires start <= stop <= |content|
  {
    content[..start] + TrimLeft(content[stop..])
  }

  /** Cut blocks until none is found; only the marker-free exit trims the text. */
  function RemoveBlocks(content: string, begin: string, end: string): string
    requires end != ""
    decreases |content|
  {
    match FindBlock(content, begin, end)
    case NoBlock => TrimLeft(content)
    case Unmatched(_) => content
    case Found(start, stop) => RemoveBlocks(Cut(content, start, stop), begin, end)
  }

  lemma RemoveRound(content: string, begin: string, end: string, start: nat, stop: nat)
    requires end != "" && FindBlock(content, begin, end) == Found(start, stop)
    ensures RemoveBlocks(content, begin, end) == RemoveBlocks(Cut(content, start, stop), begin, end)
    ensures |Cut(content, start, stop)| < |content|
  {
  }

  /** Skip the line ends at `from`, one character at a time. */
  method SkipNewlines(content: string, from: nat) returns (stop: nat)
    requires from <= |content|
    ensures from <= stop <= |content|
    ensures content[stop..] == TrimLeft(content[from..])
  {
    hide TrimLeft;
    stop := from;
    while stop < |content| && IsNewline(content[stop])
      invariant from <= stop <= |content|
      invariant TrimLeft(content[stop..]) == TrimLeft(content[from..])
    {
      TrimLeftStep(content, stop);
      stop := stop + 1;
    }
    TrimLeftFixed(content[stop..]);
  }

  /** The removal loop. Its termination measure is the length of the text. */
  method RemoveManagedBlock(text: string, begin: string, end: string) returns (content: string)
    requires end != ""
    ensures content == RemoveBlocks(text, begin, end)
  {
    content := text;
    while true
      invariant RemoveBlocks(content, begin, end) == RemoveBlocks(text, begin, end)
      decreases |content|
    {
      var start := Index(content, begin);
      if start < 0 {
        return TrimLeft(content);
      }
      var stop := Index(content[start..], end);
      if stop < 0 {
        return;
      }
      stop := stop + start + |end|;
      RemoveRound(content, begin, end, start, stop);
      stop := SkipNewlines(content, stop);
      content := content[..start] + content[stop..];
    }
  }

  // ----- What the removal loop ends with

  /** Nothing is left to do: either no begin marker and no leading line end, or a first begin
      marker that no end marker follows. */
  predicate Settled(content: string, begin: string, end: string) {
    match FindBlock(content, begin, end)
    case NoBlock => content == "" || !IsNewline(content[0])
    case Unmatched(_) => true
    case Found(_, _) => false
  }

  predicate MarkerLike(marker: string) {
    marker != "" && !IsNewline(marker[0])
  }

  lemma IndexBehindNewlines(newlines: string, rest: string, sub: string)
    requires MarkerLike(sub) && forall k :: 0 <= k < |newlines| ==> IsNewline(newlines[k])
    ensures Index(newlines + rest, sub) == if Contains(rest, sub) then |newlines| + Index(rest, sub) else -1
  {
    var content := newlines + rest;
    var i, j := Index(content, sub), Index(rest, sub);
    if i >= 0 {
      OccurrenceAt(content, sub, i, i);
      OccursInRight(newlines, rest, sub, i);
    }
    if j >= 0 {
      OccursInRight(newlines, rest, sub, j + |newlines|);
    }
  }

  lemma IndexTrimmed(content: string, sub: string)
    requires MarkerLike(sub)
    ensures Index(content, sub) ==
      if Contains(TrimLeft(content), sub) then |content| - |TrimLeft(content)| + Index(TrimLeft(content), sub) else -1
  {
    hide IndexFrom;
    var newlines := content[..|content| - |TrimLeft(content)|];
    IndexBehindNewlines(newlines, TrimLeft(content), sub);
    assert content == newlines + TrimLeft(content);
  }

  /** Removal ends settled, whatever text it started from. */
  lemma {:induction false} RemoveSettles(content: string, begin: string, end: string)
    requires MarkerLike(begin) && end != ""
    ensures Settled(RemoveBlocks(content, begin, end), begin, end)
    decreases |content|
  {
    match FindBlock(content, begin, end)
    case NoBlock => IndexTrimmed(content, begin);
    case Unmatched(_) =>
    case Found(start, stop) => RemoveSettles(Cut(content, start, stop), begin, end);
  }

  lemma {:induction false} RemoveShrinks(content: string, begin: string, end: string)
    requires end != ""
    ensures |RemoveBlocks(content, begin, end)| <= |content|
    ensures FindBlock(content, begin, end).Found? ==> |RemoveBlocks(content, begin, end)| < |content|
    decreases |content|
  {
    match FindBlock(content, begin, end)
    case NoBlock =>
    case Unmatched(_) =>
    case Found(start, stop) => RemoveShrinks(Cut(content, start, stop), begin, end);
  }

  /** Removal leaves a text alone exactly when it is settled. */
  lemma RemoveFixedIffSettled(content: string, begin: string, end: string)
    requires end != ""
    ensures RemoveBlocks(content, begin, end) == content <==> Settled(content, begin, end)
  {
    TrimLeftFixed(content);
    RemoveShrinks(content, begin, end);
  }

  /** Removing twice is removing once. */
  lemma RemoveIdempotent(content: string, begin: string, end: string)
    requires MarkerLike(begin) && end != ""
    ensures RemoveBlocks(RemoveBlocks(content, begin, end), begin, end) == RemoveBlocks(content, begin, end)
  {
    RemoveSettles(content, begin, end);
    RemoveFixedIffSettled(RemoveBlocks(content, begin, end), begin, end);
  }

  /** A text in which no whole block is found is settled once it is trimmed. */
  lemma SettledTrimmed(content: string, begin: string, end: string)
    requires MarkerLike(begin) && !FindBlock(content, begin, end).Found?
    ensures Settled(TrimLeft(content), begin, end)
  {
    hide TrimLeft, IndexFrom;
    var trimmed := TrimLeft(content);
    IndexTrimmed(content, begin);
    var i, j := Index(content, begin), Index(trimmed, begin);
    if j >= 0 {
      assert content[i..] == trimmed[j..];
    }
  }

  // ----- Removal only deletes characters

  /** `xs` arises from `ys` by deleting characters. */
  predicate Subsequence(xs: string, ys: string) {
    xs == "" || (ys != "" && (Subsequence(xs, ys[1..]) || (xs[0] == ys[0] && Subsequence(xs[1..], ys[1..]))))
  }

  lemma {:induction false} SubsequenceTransitive(xs: string, ys: string, zs: string)
    requires Subsequence(xs, ys) && Subsequence(ys, zs)
    ensures Subsequence(xs, zs)
    decreases |zs|
  {
    if xs == "" || ys == "" {
    } else if Subsequence(ys, zs[1..]) {
      SubsequenceTransitive(xs, ys, zs[1..]);
    } else if Subsequence(xs, ys[1..]) {
      SubsequenceTransitive(xs, ys[1..], zs[1..]);
    } else {
      SubsequenceTransitive(xs[1..], ys[1..], zs[1..]);
    }
  }

  /** Dropping the characters between a prefix and a suffix is a deletion. */
  lemma {:induction false} SubsequenceCut(s: string, i: nat, j: nat)
    requires i <= j <= |s|
    ensures Subsequence(s[..i] + s[j..], s)
    decreases |s|
  {
    var cut := s[..i] + s[j..];
    if s == "" {
    } else if i > 0 {
      SubsequenceCut(s[1..], i - 1, j - 1);
      assert cut[1..] == s[1..][..i - 1] + s[1..][j - 1..];
    } else if j > 0 {
      SubsequenceCut(s[1..], 0, j - 1);
      assert cut == s[1..][..0] + s[1..][j - 1..];
    } else {
      SubsequenceCut(s[1..], 0, 0);
      assert cut == s && s[1..] == s[1..][..0] + s[1..][0..];
    }
  }

  lemma CutIsSubsequence(content: string, start: nat, stop: nat)
    requires start <= stop <= |content|
    ensures Subsequence(Cut(content, start, stop), content)
  {
    hide Subsequence, TrimLeft;
    var rest := content[stop..];
    var skipped := |rest| - |TrimLeft(rest)|;
    DropTwice(content, stop, skipped);
    assert TrimLeft(rest) == content[stop + skipped..];
    SubsequenceCut(content, start, stop + skipped);
  }

  /** Removal deletes characters and adds or moves none. */
  lemma {:induction false} RemoveIsSubsequence(content: string, begin: string, end: string)
    requires end != ""
    ensures Subsequence(RemoveBlocks(content, begin, end), content)
    decreases |content|
  {
    hide Subsequence, TrimLeft, FindBlock;
    match FindBlock(content, begin, end)
    case NoBlock =>
      CutIsSubsequence(content, 0, 0);
      assert Cut(content, 0, 0) == TrimLeft(content) by { assert content[0..] == content; }
    case Unmatched(_) =>
      SubsequenceCut(content, 0, 0);
      assert content == content[..0] + content[0..];
    case Found(start, stop) =>
      CutIsSubsequence(content, start, stop);
      RemoveRound(content, begin, end, start, stop);
      RemoveIsSubsequence(Cut(content, start, stop), begin, end);
      SubsequenceTransitive(RemoveBlocks(content, begin, end), Cut(content, start, stop), content);
  }
}
