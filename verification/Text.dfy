/** The part of Go's `strings` package that dev-connect's editors and printers rely on.
    A `char` stands for one byte of the file. */
module Text {

  /** `sub` stands in `s` at position `i`. */
  predicate OccursAt(s: string, sub: string, i: int) {
    0 <= i && i + |sub| <= |s| && s[i..i + |sub|] == sub
  }

  /** The first position at or after `from` where `sub` stands in `s`, or -1. */
  function IndexFrom(s: string, sub: string, from: nat): (r: int)
    requires from <= |s|
    ensures r == -1 || (from <= r && OccursAt(s, sub, r))
    ensures forall k :: from <= k && OccursAt(s, sub, k) ==> 0 <= r <= k
    decreases |s| - from
  {
    if OccursAt(s, sub, from) then from
    else if from == |s| then -1
    else IndexFrom(s, sub, from + 1)
  }

  /** `strings.Index`. */
  function Index(s: string, sub: string): (r: int)
    ensures r == -1 || OccursAt(s, sub, r)
    ensures forall k :: OccursAt(s, sub, k) ==> 0 <= r <= k
  {
    IndexFrom(s, sub, 0)
  }

  /** `strings.Contains`. */
  predicate Contains(s: string, sub: string) {
    Index(s, sub) >= 0
  }

  predicate IsNewline(c: char) {
    c == '\r' || c == '\n'
  }

  /** `strings.TrimLeft(s, "\r\n")`. */
  function TrimLeft(s: string): (r: string)
    ensures |r| <= |s| && r == s[|s| - |r|..]
    ensures r != "" ==> !IsNewline(r[0])
    ensures forall k :: 0 <= k < |s| - |r| ==> IsNewline(s[k])
  {
    if s != "" && IsNewline(s[0]) then TrimLeft(s[1..]) else s
  }

  /** The text is empty or its last line is terminated. */
  predicate EndsLine(s: string) {
    s == "" || s[|s| - 1] == '\n'
  }

  lemma OccursInLeft(left: string, right: string, sub: string, i: int)
    requires i + |sub| <= |left|
    ensures OccursAt(left + right, sub, i) <==> OccursAt(left, sub, i)
  {
    if 0 <= i {
      assert (left + right)[i..i + |sub|] == left[i..i + |sub|];
    }
  }

  lemma OccursInRight(left: string, right: string, sub: string, i: int)
    requires |left| <= i
    ensures OccursAt(left + right, sub, i) <==> OccursAt(right, sub, i - |left|)
  {
    if i + |sub| <= |left| + |right| {
      assert (left + right)[i..i + |sub|] == right[i - |left|..i - |left| + |sub|];
    }
  }

  lemma OccurrenceAt(s: string, sub: string, i: int, k: int)
    requires OccursAt(s, sub, i) && i <= k < i + |sub|
    ensures s[k] == sub[k - i]
  {
    assert s[i..i + |sub|][k - i] == s[k];
  }

  /** Where a newline-free `sub` can stand in two joined pieces, the first of which ends a line. */
  lemma OccursInJoin(left: string, right: string, sub: string, i: int)
    requires '\n' !in sub && sub != "" && EndsLine(left)
    ensures OccursAt(left + right, sub, i) <==> OccursAt(left, sub, i) || OccursAt(right, sub, i - |left|)
  {
    if |left| <= i {
      OccursInRight(left, right, sub, i);
    } else if i + |sub| <= |left| {
      OccursInLeft(left, right, sub, i);
    } else if OccursAt(left + right, sub, i) {
      OccurrenceAt(left + right, sub, i, |left| - 1);
    }
  }

  lemma ContainsJoin(left: string, right: string, sub: string)
    requires '\n' !in sub && sub != "" && EndsLine(left)
    ensures Contains(left + right, sub) <==> Contains(left, sub) || Contains(right, sub)
  {
    if Contains(left + right, sub) {
      OccursInJoin(left, right, sub, Index(left + right, sub));
    }
    if Contains(left, sub) {
      OccursInJoin(left, right, sub, Index(left, sub));
    }
    if Contains(right, sub) {
      OccursInJoin(left, right, sub, Index(right, sub) + |left|);
    }
  }

  /** When the first piece holds no `sub`, the first one of the joined text is the first one of the second piece. */
  lemma IndexJoin(left: string, right: string, sub: string)
    requires '\n' !in sub && sub != "" && EndsLine(left) && !Contains(left, sub)
    ensures Index(left + right, sub) == if Contains(right, sub) then |left| + Index(right, sub) else -1
  {
    var i, j := Index(left + right, sub), Index(right, sub);
    if i >= 0 {
      OccursInJoin(left, right, sub, i);
    }
    if j >= 0 {
      OccursInJoin(left, right, sub, j + |left|);
    }
  }

  lemma ContainsTerminated(line: string, sub: string)
    requires '\n' !in sub && sub != ""
    ensures Contains(line + "\n", sub) <==> Contains(line, sub)
  {
    var i, j := Index(line + "\n", sub), Index(line, sub);
    if i >= 0 {
      if i + |sub| == |line| + 1 {
        OccurrenceAt(line + "\n", sub, i, |line|);
      }
      OccursInLeft(line, "\n", sub, i);
    }
    if j >= 0 {
      OccursInLeft(line, "\n", sub, j);
    }
  }

  lemma TrimLeftFixed(s: string)
    ensures TrimLeft(TrimLeft(s)) == TrimLeft(s)
    ensures TrimLeft(s) == s <==> s == "" || !IsNewline(s[0])
  {
  }

  lemma TrimLeftStep(s: string, i: nat)
    requires i < |s| && IsNewline(s[i])
    ensures TrimLeft(s[i..]) == TrimLeft(s[i + 1..])
  {
    assert s[i..][1..] == s[i + 1..];
  }

  lemma DropTwice(s: string, i: nat, j: nat)
    requires i + j <= |s|
    ensures s[i..][j..] == s[i + j..]
  {
  }

  lemma TrimLeftNewline(s: string)
    ensures TrimLeft("\n" + s) == TrimLeft(s)
  {
    assert ("\n" + s)[1..] == s;
  }

  /** Trimming looks past a piece only when that piece is all line ends. */
  lemma {:induction false} TrimLeftJoin(left: string, right: string)
    ensures TrimLeft(left + right) == if TrimLeft(left) == "" then TrimLeft(right) else TrimLeft(left) + right
  {
    if left == "" {
      assert left + right == right;
    } else if IsNewline(left[0]) {
      assert (left + right)[1..] == left[1..] + right;
      TrimLeftJoin(left[1..], right);
    } else {
      assert (left + right)[0] == left[0];
    }
  }

  /** Trimming takes away carriage returns and line feeds, in any order and number, and stops at anything else. */
  lemma {:induction false} TrimLeftTakes(newlines: string, rest: string)
    requires forall c :: c in newlines ==> c == '\r' || c == '\n'
    requires rest == "" || (rest[0] != '\r' && rest[0] != '\n')
    ensures TrimLeft(newlines + rest) == rest
  {
    if newlines == "" {
      assert newlines + rest == rest;
    } else {
      assert (newlines + rest)[1..] == newlines[1..] + rest;
      assert newlines[0] in newlines && forall c :: c in newlines[1..] ==> c in newlines;
      TrimLeftTakes(newlines[1..], rest);
    }
  }
}
