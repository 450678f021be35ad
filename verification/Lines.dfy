/** Lines, decimal numbers and character-wise rewriting: what the printers of dev-connect are built from,
    with the readers that undo them. */
module Lines {
  import opened Text

  datatype Option<+T> = None | Some(value: T)

  // ----- Lines

  /** The position of `c` in `s`, or `|s|`. */
  function Find(s: string, c: char): (i: nat)
    ensures i <= |s| && c !in s[..i]
    ensures i < |s| ==> s[i] == c
    ensures c in s <==> i < |s|
  {
    if s == "" || s[0] == c then 0
    else
      assert s == [s[0]] + s[1..];
      1 + Find(s[1..], c)
  }

  lemma FindIs(front: string, c: char, back: string)
    requires c !in front
    ensures Find(front + [c] + back, c) == |front|
  {
    var s := front + [c] + back;
    assert s[|front|] == c;
    assert s[..|front|] == front;
    assert forall k :: 0 <= k < |front| ==> s[k] == front[k];
  }

  /** The lines of a text; the last one may lack its line end. */
  function SplitLines(text: string): seq<string>
    decreases |text|
  {
    if text == "" then []
    else
      var i := Find(text, '\n');
      if i == |text| then [text] else [text[..i]] + SplitLines(text[i + 1..])
  }

  /** `strings.Join(lines, "\n")`. */
  function JoinLines(lines: seq<string>): string {
    if lines == [] then ""
    else if |lines| == 1 then lines[0]
    else lines[0] + "\n" + JoinLines(lines[1..])
  }

  predicate OneLine(s: string) {
    '\n' !in s
  }

  predicate AllOneLine(lines: seq<string>) {
    forall line :: line in lines ==> OneLine(line)
  }

  /** Every line with a line end behind it. */
  function Terminated(lines: seq<string>): string {
    if lines == [] then "" else lines[0] + "\n" + Terminated(lines[1..])
  }

  lemma {:induction false} JoinedIsTerminated(lines: seq<string>)
    requires lines != []
    ensures JoinLines(lines) + "\n" == Terminated(lines)
  {
    if |lines| > 1 {
      JoinedIsTerminated(lines[1..]);
      assert lines[0] + "\n" + JoinLines(lines[1..]) + "\n" == lines[0] + "\n" + (JoinLines(lines[1..]) + "\n");
    } else {
      assert lines[1..] == [] && lines[0] + "\n" + "" == lines[0] + "\n";
    }
  }

  lemma {:induction false} TerminatedEndsLine(lines: seq<string>)
    ensures EndsLine(Terminated(lines))
  {
    if lines != [] {
      TerminatedEndsLine(lines[1..]);
    }
  }

  lemma TerminatedOne(line: string)
    ensures Terminated([line]) == line + "\n"
  {
    assert [line][1..] == [];
  }

  lemma {:induction false} TerminatedJoin(x: seq<string>, y: seq<string>)
    ensures Terminated(x + y) == Terminated(x) + Terminated(y)
  {
    if x == [] {
      assert x + y == y;
    } else {
      assert (x + y)[1..] == x[1..] + y;
      TerminatedJoin(x[1..], y);
      assert x[0] + "\n" + (Terminated(x[1..]) + Terminated(y)) == x[0] + "\n" + Terminated(x[1..]) + Terminated(y);
    }
  }

  /** A terminated text splits apart from what follows it. */
  lemma {:induction false} SplitJoin(x: string, y: string)
    requires EndsLine(x)
    ensures SplitLines(x + y) == SplitLines(x) + SplitLines(y)
    decreases |x|
  {
    hide SplitLines;
    if x == "" {
      assert x + y == y && SplitLines(x) == [] by { SplitNothing(); }
    } else {
      var i := Find(x, '\n');
      var first, rest := x[..i], x[i + 1..];
      assert x == first + "\n" + rest && x + y == first + "\n" + (rest + y);
      SplitFirst(first, rest);
      SplitFirst(first, rest + y);
      SplitJoin(rest, y);
      assert [first] + (SplitLines(rest) + SplitLines(y)) == [first] + SplitLines(rest) + SplitLines(y);
    }
  }

  lemma SplitNothing()
    ensures SplitLines("") == []
  {
  }

  lemma SplitFirst(first: string, later: string)
    requires OneLine(first)
    ensures SplitLines(first + "\n" + later) == [first] + SplitLines(later)
  {
    var s := first + ['\n'] + later;
    FindIs(first, '\n', later);
    assert s[|first| + 1..] == later && s[..|first|] == first;
  }

  /** Reading lines back, whatever text follows them. */
  lemma {:induction false} SplitTerminated(lines: seq<string>, rest: string)
    requires AllOneLine(lines)
    ensures SplitLines(Terminated(lines) + rest) == lines + SplitLines(rest)
  {
    hide SplitLines, OneLine;
    if lines == [] {
      assert "" + rest == rest && [] + SplitLines(rest) == SplitLines(rest);
    } else {
      var first, later := lines[0], Terminated(lines[1..]);
      assert first + "\n" + later + rest == first + "\n" + (later + rest);
      assert OneLine(first) by { assert first in lines; }
      SplitFirst(first, later + rest);
      SplitTerminated(lines[1..], rest);
      assert lines == [first] + lines[1..];
    }
  }

  /** A one-line word stands in a text exactly when it stands in one of its lines. */
  lemma {:induction false} ContainsInLines(lines: seq<string>, sub: string)
    requires OneLine(sub) && sub != ""
    ensures Contains(Terminated(lines), sub) <==> exists line :: line in lines && Contains(line, sub)
  {
    if lines != [] {
      ContainsTerminated(lines[0], sub);
      ContainsJoin(lines[0] + "\n", Terminated(lines[1..]), sub);
      ContainsInLines(lines[1..], sub);
      assert lines == [lines[0]] + lines[1..];
    }
  }

  // ----- Decimal numbers

  function Digit(d: nat): char
    requires d < 10
  {
    (d + '0' as int) as char
  }

  function Digits(n: nat): (s: string)
    ensures s != "" && forall i :: 0 <= i < |s| ==> '0' <= s[i] <= '9'
  {
    if n < 10 then [Digit(n)] else Digits(n / 10) + [Digit(n % 10)]
  }

  /** `%d`. */
  function Itoa(n: int): string {
    if n < 0 then "-" + Digits(-n) else Digits(n)
  }

  function ReadDigits(s: string): Option<int> {
    if s == "" then None
    else
      var last := s[|s| - 1];
      if !('0' <= last <= '9') then None
      else if |s| == 1 then Some(last as int - '0' as int)
      else
        match ReadDigits(s[..|s| - 1])
        case None => None
        case Some(n) => Some(10 * n + (last as int - '0' as int))
  }

  function Atoi(s: string): Option<int> {
    if s != "" && s[0] == '-' then
      match ReadDigits(s[1..])
      case None => None
      case Some(n) => Some(-n)
    else
      match ReadDigits(s)
      case None => None
      case Some(n) => Some(n)
  }

  lemma {:induction false} ReadDigitsBack(n: nat)
    ensures ReadDigits(Digits(n)) == Some(n)
  {
    if n >= 10 {
      ReadDigitsBack(n / 10);
      assert Digits(n)[..|Digits(n)| - 1] == Digits(n / 10);
    }
  }

  /** Reading a printed number gives the number, and it is printed in digits and a sign. */
  lemma AtoiItoa(n: int)
    ensures Atoi(Itoa(n)) == Some(n)
    ensures forall i :: 0 <= i < |Itoa(n)| ==> Itoa(n)[i] == '-' || '0' <= Itoa(n)[i] <= '9'
  {
    hide Digits, ReadDigits;
    if n < 0 {
      ReadDigitsBack(-n);
      assert Itoa(n)[1..] == Digits(-n);
    } else {
      ReadDigitsBack(n);
    }
  }

  // ----- Rewriting characters

  /** `strings.ReplaceAll` for a non-empty `target`. */
  function ReplaceAll(s: string, target: string, subst: string): string
    requires target != ""
  {
    if s == "" then ""
    else if target <= s then subst + ReplaceAll(s[|target|..], target, subst)
    else [s[0]] + ReplaceAll(s[1..], target, subst)
  }

  lemma {:induction false} ReplaceCharJoin(x: string, y: string, c: char, subst: string)
    ensures ReplaceAll(x + y, [c], subst) == ReplaceAll(x, [c], subst) + ReplaceAll(y, [c], subst)
  {
    if x == "" {
      assert x + y == y;
    } else {
      assert (x + y)[1..] == x[1..] + y;
      ReplaceCharJoin(x[1..], y, c, subst);
      assert [c] <= x <==> c == x[0];
      assert [c] <= x + y <==> c == x[0];
    }
  }
}
