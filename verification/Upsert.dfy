/** Writing a managed block and taking it out again, over arbitrary file texts. */
module Upsert {
  import opened Text
  import opened ManagedBlock

  function Behind(block: string, rest: string): string {
    if rest == "" then block else block + "\n" + rest
  }

  /** Put a block above a text, one empty line between them. */
  function PrependBlock(content: string, block: string): string {
    Behind(block, TrimLeft(content))
  }

  /** A block as the editor writes it around a rendered body. */
  function Block(begin: string, end: string, body: string): string {
    begin + "\n" + body + end + "\n"
  }

  /** The text that an upsert leaves in the file. */
  function UpsertBlock(content: string, begin: string, end: string, body: string): string
    requires end != ""
  {
    PrependBlock(RemoveBlocks(content, begin, end), Block(begin, end, body))
  }

  /** A pair of one-line markers, neither of which stands inside the other. */
  predicate MarkerPair(begin: string, end: string) {
    && MarkerLike(begin) && MarkerLike(end)
    && '\n' !in begin && '\n' !in end
    && !Contains(begin, end) && !Contains(end, begin)
  }

  /** The part of a block before its end marker holds an end marker only if the body does. */
  lemma BlockFront(begin: string, end: string, body: string)
    requires MarkerPair(begin, end) && EndsLine(body)
    ensures EndsLine(begin + "\n" + body)
    ensures Contains(begin + "\n" + body, end) <==> Contains(body, end)
  {
    ContainsTerminated(begin, end);
    ContainsJoin(begin + "\n", body, end);
  }

  /** A block whose body holds no end marker is found whole at the top of a text. */
  lemma FindLeadingBlock(begin: string, end: string, body: string, tail: string)
    requires MarkerPair(begin, end) && EndsLine(body) && !Contains(body, end)
    ensures FindBlock(Block(begin, end, body) + tail, begin, end) == Found(0, |Block(begin, end, body)| - 1)
  {
    var front, back := begin + "\n" + body, end + "\n" + tail;
    var content := Block(begin, end, body) + tail;
    assert content == front + back;
    assert OccursAt(content, begin, 0);
    BlockFront(begin, end, body);
    assert OccursAt(back, end, 0);
    IndexJoin(front, back, end);
    assert content[0..] == content;
  }

  lemma RemoveLeadingBlock(begin: string, end: string, body: string, tail: string)
    requires MarkerPair(begin, end) && EndsLine(body) && !Contains(body, end)
    ensures RemoveBlocks(Block(begin, end, body) + tail, begin, end) == RemoveBlocks(TrimLeft(tail), begin, end)
  {
    hide RemoveBlocks, FindBlock, TrimLeft;
    var content := Block(begin, end, body) + tail;
    var stop := |Block(begin, end, body)| - 1;
    FindLeadingBlock(begin, end, body, tail);
    assert content[stop..] == "\n" + tail;
    TrimLeftNewline(tail);
    assert Cut(content, 0, stop) == TrimLeft(tail);
    RemoveRound(content, begin, end, 0, stop);
  }

  /** What a removal leaves behind, trimmed, is left alone by the next removal. */
  lemma RemovedStays(content: string, begin: string, end: string)
    requires MarkerLike(begin) && end != ""
    ensures var left := TrimLeft(RemoveBlocks(content, begin, end));
      Settled(left, begin, end) && RemoveBlocks(left, begin, end) == left
  {
    var removed := RemoveBlocks(content, begin, end);
    RemoveSettles(content, begin, end);
    SettledTrimmed(removed, begin, end);
    RemoveFixedIffSettled(TrimLeft(removed), begin, end);
  }

  /** What a prepended block is followed by. */
  function TailBehind(rest: string): string {
    if rest == "" then "" else "\n" + rest
  }

  lemma BehindIsTail(block: string, rest: string)
    ensures Behind(block, rest) == block + TailBehind(rest)
  {
    assert block + "\n" + rest == block + ("\n" + rest);
  }

  lemma TailTrimmed(rest: string)
    requires TrimLeft(rest) == rest
    ensures TrimLeft(TailBehind(rest)) == rest
  {
    TrimLeftNewline(rest);
  }

  /** Upsert then remove gives what remove alone gives, without its leading line ends. */
  lemma UpsertThenRemove(content: string, begin: string, end: string, body: string)
    requires MarkerPair(begin, end) && EndsLine(body) && !Contains(body, end)
    ensures RemoveBlocks(UpsertBlock(content, begin, end, body), begin, end)
         == TrimLeft(RemoveBlocks(content, begin, end))
  {
    var removed := RemoveBlocks(content, begin, end);
    RemovedStays(content, begin, end);
    BehindIsTail(Block(begin, end, body), TrimLeft(removed));
    TrimLeftFixed(removed);
    TailTrimmed(TrimLeft(removed));
    RemoveLeadingBlock(begin, end, body, TailBehind(TrimLeft(removed)));
  }

  /** A later upsert does not see an earlier one: it gives what it would have given on the original text. */
  lemma SecondUpsert(content: string, begin: string, end: string, body1: string, body2: string)
    requires MarkerPair(begin, end) && EndsLine(body1) && !Contains(body1, end)
    ensures UpsertBlock(UpsertBlock(content, begin, end, body1), begin, end, body2)
         == UpsertBlock(content, begin, end, body2)
  {
    UpsertThenRemove(content, begin, end, body1);
    TrimLeftFixed(RemoveBlocks(content, begin, end));
  }

  /** The editor also takes out a block in a file with CRLF line ends, such as an editor on Windows leaves behind:
      with the line ends behind it, whatever their kind. */
  lemma RemoveCrlfBlock(begin: string, end: string, body: string, newlines: string, rest: string)
    requires MarkerPair(begin, end) && '\r' !in end && EndsLine(body) && !Contains(body, end)
    requires forall c :: c in newlines ==> c == '\r' || c == '\n'
    requires rest == "" || (rest[0] != '\r' && rest[0] != '\n')
    ensures RemoveBlocks(begin + "\r\n" + body + end + newlines + rest, begin, end)
         == RemoveBlocks(rest, begin, end)
  {
    hide RemoveBlocks, TrimLeft, IndexFrom;
    var front, back := begin + "\r\n" + body, end + (newlines + rest);
    var content := begin + "\r\n" + body + end + newlines + rest;
    assert content == front + back && content[0..] == content;
    assert OccursAt(content, begin, 0) && OccursAt(back, end, 0);
    NoEndBeforeReturn(begin, end);
    ContainsTerminated(begin + "\r", end);
    assert begin + "\r" + "\n" == begin + "\r\n";
    ContainsJoin(begin + "\r\n", body, end);
    IndexJoin(front, back, end);
    var stop := |front| + |end|;
    assert FindBlock(content, begin, end) == Found(0, stop);
    assert content[stop..] == newlines + rest;
    TrimLeftTakes(newlines, rest);
    assert Cut(content, 0, stop) == rest;
    RemoveRound(content, begin, end, 0, stop);
  }

  lemma NoEndBeforeReturn(begin: string, end: string)
    requires MarkerPair(begin, end) && '\r' !in end
    ensures !Contains(begin + "\r", end)
  {
    hide IndexFrom;
    var i := Index(begin + "\r", end);
    if i >= 0 {
      if i + |end| == |begin| + 1 {
        OccurrenceAt(begin + "\r", end, i, |begin|);
      } else {
        OccursInLeft(begin, "\r", end, i);
      }
    }
  }

  // ----- Exactly when the undo law holds

  /** Behind an end marker inside the body, the rest of the block is no block of its own. */
  lemma RestOfBrokenBlock(rest: string, begin: string, end: string, tail: string)
    requires MarkerPair(begin, end) && EndsLine(rest) && !Contains(rest, begin)
    requires !FindBlock(tail, begin, end).Found?
    ensures !FindBlock(rest + end + "\n" + tail, begin, end).Found?
  {
    var front := rest + (end + "\n");
    ContainsTerminated(end, begin);
    ContainsJoin(rest, end + "\n", begin);
    IndexJoin(front, tail, begin);
    assert rest + end + "\n" + tail == front + tail;
    if Contains(tail, begin) {
      assert (front + tail)[|front| + Index(tail, begin)..] == tail[Index(tail, begin)..];
    }
  }

  /** Trimming never reaches past a marker. */
  lemma TrimKeepsMarker(rest: string, end: string, tail: string)
    requires MarkerLike(end)
    ensures |TrimLeft(rest + end + "\n" + tail)| > |tail|
  {
    hide TrimLeft;
    assert (end + "\n" + tail)[0] == end[0];
    assert rest + end + "\n" + tail == rest + (end + "\n" + tail);
    TrimLeftJoin(rest, end + "\n" + tail);
    TrimLeftFixed(end + "\n" + tail);
  }

  /** If the body does hold an end marker, the first cut ends there. */
  lemma FindBrokenBlock(begin: string, end: string, body: string, tail: string) returns (stop: nat)
    requires MarkerPair(begin, end) && EndsLine(body) && Contains(body, end)
    ensures 0 < stop <= |begin + "\n" + body|
    ensures FindBlock(Block(begin, end, body) + tail, begin, end) == Found(0, stop)
    ensures (Block(begin, end, body) + tail)[stop..] == (begin + "\n" + body)[stop..] + end + "\n" + tail
  {
    hide IndexFrom;
    var front := begin + "\n" + body;
    var content := Block(begin, end, body) + tail;
    BlockFront(begin, end, body);
    stop := Index(front, end) + |end|;
    assert content == front + (end + "\n" + tail);
    assert OccursAt(content, begin, 0);
    IndexInFront(front, end + "\n" + tail, end);
    assert content[0..] == content;
  }

  /** If the body holds an end marker and no begin marker, removal leaves part of the block behind. */
  lemma BrokenBlockStays(begin: string, end: string, body: string, tail: string)
    requires MarkerPair(begin, end) && EndsLine(body) && Contains(body, end) && !Contains(body, begin)
    requires !FindBlock(tail, begin, end).Found?
    ensures |RemoveBlocks(Block(begin, end, body) + tail, begin, end)| > |tail|
  {
    var content := Block(begin, end, body) + tail;
    var stop := FindBrokenBlock(begin, end, body, tail);
    RemoveRound(content, begin, end, 0, stop);
    NoBeginBehind(begin, body, stop);
    RestOfBrokenBlock((begin + "\n" + body)[stop..], begin, end, tail);
    SettledTrimmed(content[stop..], begin, end);
    RemoveFixedIffSettled(TrimLeft(content[stop..]), begin, end);
    assert Cut(content, 0, stop) == TrimLeft(content[stop..]);
    TrimKeepsMarker((begin + "\n" + body)[stop..], end, tail);
  }

  lemma IndexInFront(front: string, back: string, sub: string)
    requires Contains(front, sub)
    ensures Index(front + back, sub) == Index(front, sub)
  {
    var i, j := Index(front, sub), Index(front + back, sub);
    OccursInLeft(front, back, sub, i);
    OccursInLeft(front, back, sub, j);
  }

  lemma NoBeginBehind(begin: string, body: string, from: nat)
    requires MarkerLike(begin) && '\n' !in begin && EndsLine(body) && !Contains(body, begin)
    requires 0 < from <= |begin + "\n" + body|
    ensures !Contains((begin + "\n" + body)[from..], begin)
    ensures EndsLine((begin + "\n" + body)[from..])
  {
    hide IndexFrom;
    var front := begin + "\n" + body;
    var i := Index(front[from..], begin);
    if i >= 0 {
      assert front == front[..from] + front[from..];
      OccursInRight(front[..from], front[from..], begin, from + i);
      OccursInJoin(begin + "\n", body, begin, from + i);
      if OccursAt(begin + "\n", begin, from + i) {
        OccurrenceAt(begin + "\n", begin, from + i, |begin|);
      }
    }
  }

  lemma TailHasNoBlock(rest: string, begin: string, end: string)
    requires MarkerPair(begin, end) && !FindBlock(rest, begin, end).Found?
    ensures !FindBlock(TailBehind(rest), begin, end).Found?
  {
    hide IndexFrom;
    if rest != "" {
      IndexBehindNewlines("\n", rest, begin);
      assert Contains(rest, begin) ==> ("\n" + rest)[1 + Index(rest, begin)..] == rest[Index(rest, begin)..];
    }
  }

  /** For a body without a begin marker, the undo law holds on a text if and only if the body holds no end marker. */
  lemma UpsertThenRemoveIff(content: string, begin: string, end: string, body: string)
    requires MarkerPair(begin, end) && EndsLine(body) && !Contains(body, begin)
    ensures !Contains(body, end) <==>
      RemoveBlocks(UpsertBlock(content, begin, end, body), begin, end) == TrimLeft(RemoveBlocks(content, begin, end))
  {
    var rest := TrimLeft(RemoveBlocks(content, begin, end));
    if Contains(body, end) {
      RemovedStays(content, begin, end);
      TailHasNoBlock(rest, begin, end);
      BehindIsTail(Block(begin, end, body), rest);
      BrokenBlockStays(begin, end, body, TailBehind(rest));
    } else {
      UpsertThenRemove(content, begin, end, body);
    }
  }

  // ----- Any body at all

  /** Upsert, then remove, leaves what remove alone leaves, without its leading line ends. */
  predicate Undone(content: string, begin: string, end: string, body: string)
    requires end != ""
  {
    RemoveBlocks(UpsertBlock(content, begin, end, body), begin, end) == TrimLeft(RemoveBlocks(content, begin, end))
  }

  lemma NoneBeforeFirst(front: string, sub: string)
    requires Contains(front, sub)
    ensures sub != "" ==> !Contains(front[..Index(front, sub)], sub)
  {
    hide IndexFrom;
    var i := Index(front, sub);
    var j := Index(front[..i], sub);
    if sub != "" && j >= 0 {
      assert front == front[..i] + front[i..];
      OccursInLeft(front[..i], front[i..], sub, j);
    }
  }

  lemma FindInJoin(front: string, tail: string, begin: string, end: string)
    requires FindBlock(front, begin, end).Found?
    ensures FindBlock(front + tail, begin, end) == FindBlock(front, begin, end)
  {
    hide IndexFrom;
    var start := Index(front, begin);
    IndexInFront(front, tail, begin);
    IndexInFront(front[start..], tail, end);
    assert (front + tail)[start..] == front[start..] + tail;
  }

  /** A text that removal takes away whole takes nothing of what follows with it, but for line ends. */
  lemma {:induction false} WholeFrontGoes(front: string, tail: string, begin: string, end: string)
    requires MarkerLike(begin) && end != "" && MarkerLike(front) && RemoveBlocks(front, begin, end) == ""
    ensures RemoveBlocks(front + tail, begin, end) == RemoveBlocks(TrimLeft(tail), begin, end)
    decreases |front|
  {
    hide RemoveBlocks, TrimLeft, FindBlock, Cut;
    WholeHoldsBlock(front, begin, end);
    var start, stop := FindBlock(front, begin, end).start, FindBlock(front, begin, end).stop;
    FindInJoin(front, tail, begin, end);
    RemoveRound(front, begin, end, start, stop);
    RemoveRound(front + tail, begin, end, start, stop);
    CutJoin(front, tail, start, stop);
    if TrimLeft(front[stop..]) == "" {
      FrontIsOneBlock(front, begin, end, start, stop);
      assert front[..start] + TrimLeft(tail) == TrimLeft(tail);
    } else {
      CutStartsWithInk(front, start, stop);
      WholeFrontGoes(Cut(front, start, stop), tail, begin, end);
    }
  }

  lemma WholeHoldsBlock(front: string, begin: string, end: string)
    requires end != "" && MarkerLike(front) && RemoveBlocks(front, begin, end) == ""
    ensures FindBlock(front, begin, end).Found?
  {
    hide TrimLeft, FindBlock;
    TrimLeftFixed(front);
  }

  lemma CutJoin(front: string, tail: string, start: nat, stop: nat)
    requires start <= stop <= |front|
    ensures Cut(front + tail, start, stop)
      == if TrimLeft(front[stop..]) == "" then front[..start] + TrimLeft(tail) else Cut(front, start, stop) + tail
  {
    hide TrimLeft;
    assert (front + tail)[..start] == front[..start] && (front + tail)[stop..] == front[stop..] + tail;
    TrimLeftJoin(front[stop..], tail);
    assert front[..start] + TrimLeft(front[stop..]) + tail == front[..start] + (TrimLeft(front[stop..]) + tail);
  }

  lemma CutStartsWithInk(front: string, start: nat, stop: nat)
    requires MarkerLike(front) && start <= stop <= |front| && TrimLeft(front[stop..]) != ""
    ensures MarkerLike(Cut(front, start, stop))
  {
  }

  /** If only line ends follow the first block and removal takes away everything, nothing stands before it. */
  lemma FrontIsOneBlock(front: string, begin: string, end: string, start: nat, stop: nat)
    requires MarkerLike(begin) && end != "" && MarkerLike(front) && RemoveBlocks(front, begin, end) == ""
    requires FindBlock(front, begin, end) == Found(start, stop) && TrimLeft(front[stop..]) == ""
    ensures start == 0
  {
    hide IndexFrom;
    assert Cut(front, start, stop) == front[..start];
    NoneBeforeFirst(front, begin);
    assert RemoveBlocks(front[..start], begin, end) == TrimLeft(front[..start]);
    if start > 0 {
      TrimLeftFixed(front[..start]);
    }
  }

  /** For any body, whatever markers it holds: the undo law holds on every file if and only if it holds on the empty
      file, that is, if removal takes away the whole block. */
  lemma UndoneEverywhereIff(begin: string, end: string, body: string)
    requires MarkerLike(begin) && end != ""
    ensures (forall content :: Undone(content, begin, end, body)) <==>
      RemoveBlocks(Block(begin, end, body), begin, end) == ""
  {
    hide RemoveBlocks, TrimLeft, Block;
    var block := Block(begin, end, body);
    EmptyFile(begin, end, body);
    if RemoveBlocks(block, begin, end) == "" {
      BlockStartsWithInk(begin, end, body);
      forall content
        ensures Undone(content, begin, end, body)
      {
        var rest := TrimLeft(RemoveBlocks(content, begin, end));
        RemovedStays(content, begin, end);
        BehindIsTail(block, rest);
        TrimLeftFixed(RemoveBlocks(content, begin, end));
        TailTrimmed(rest);
        WholeFrontGoes(block, TailBehind(rest), begin, end);
      }
    } else {
      assert !Undone("", begin, end, body);
    }
  }

  lemma EmptyFile(begin: string, end: string, body: string)
    requires MarkerLike(begin) && end != ""
    ensures RemoveBlocks("", begin, end) == "" == TrimLeft("")
    ensures UpsertBlock("", begin, end, body) == Block(begin, end, body)
  {
  }

  lemma BlockStartsWithInk(begin: string, end: string, body: string)
    requires MarkerLike(begin)
    ensures MarkerLike(Block(begin, end, body))
  {
  }
}
