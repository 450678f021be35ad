/** The two markers of an alias, and when one marker can stand inside another line. */
module Markers {
  import opened Text
  import opened ManagedBlock
  import opened Upsert

  const BEGIN_HEAD := "# BEGIN dev-connect "
  const END_HEAD := "# END dev-connect "

  function BeginMarker(alias: string): string {
    BEGIN_HEAD + alias
  }

  function EndMarker(alias: string): string {
    END_HEAD + alias
  }

  /** `strings.HasPrefix(text, prefix)`, from the front. */
  predicate HasPrefix(text: string, prefix: string) {
    prefix <= text
  }

  /** A marker starts with `#`, so in a line made of a head and an alias it stands at the very
      front or inside the alias. */
  lemma MarkerInMarkerLine(head: string, alias: string, marker: string)
    requires marker != "" && marker[0] == '#'
    requires forall k :: 0 < k < |head| ==> head[k] != '#'
    ensures Contains(head + alias, marker) <==> OccursAt(head + alias, marker, 0) || Contains(alias, marker)
  {
    var i, j := Index(head + alias, marker), Index(alias, marker);
    if i >= 0 {
      OccurrenceAt(head + alias, marker, i, i);
      if i >= |head| {
        OccursInRight(head, alias, marker, i);
      }
    }
    if j >= 0 {
      OccursInRight(head, alias, marker, |head| + j);
    }
  }

  /** Markers of two aliases: a begin marker stands in another begin marker exactly when its alias is a
      prefix of the other one, or when the other alias itself holds a whole marker. */
  lemma BeginInBegin(a: string, b: string)
    ensures Contains(BeginMarker(b), BeginMarker(a)) <==> HasPrefix(b, a) || Contains(b, BeginMarker(a))
  {
    MarkerInMarkerLine(BEGIN_HEAD, b, BeginMarker(a));
    PrefixBehindHead(BEGIN_HEAD, a, b);
  }

  lemma PrefixBehindHead(head: string, a: string, b: string)
    ensures OccursAt(head + b, head + a, 0) <==> HasPrefix(b, a)
  {
    if |a| <= |b| {
      assert (head + b)[0..|head + a|] == head + b[..|a|];
      assert head + b[..|a|] == head + a ==> (head + b[..|a|])[|head|..] == (head + a)[|head|..];
    }
  }

  lemma BeginInEnd(a: string, b: string)
    ensures Contains(EndMarker(b), BeginMarker(a)) <==> Contains(b, BeginMarker(a))
  {
    MarkerInMarkerLine(END_HEAD, b, BeginMarker(a));
    if OccursAt(EndMarker(b), BeginMarker(a), 0) {
      OccurrenceAt(EndMarker(b), BeginMarker(a), 0, 2);
    }
  }

  lemma EndInBegin(a: string, b: string)
    ensures Contains(BeginMarker(b), EndMarker(a)) <==> Contains(b, EndMarker(a))
  {
    MarkerInMarkerLine(BEGIN_HEAD, b, EndMarker(a));
    if OccursAt(BeginMarker(b), EndMarker(a), 0) {
      OccurrenceAt(BeginMarker(b), EndMarker(a), 0, 2);
    }
  }

  /** The markers of a one-line alias never stand inside each other. */
  lemma AliasMarkerPair(alias: string)
    requires '\n' !in alias
    ensures MarkerPair(BeginMarker(alias), EndMarker(alias))
  {
    EndInBegin(alias, alias);
  }

  /** A text without the head of a marker holds no marker of any alias. */
  lemma HeadFree(text: string, head: string, alias: string)
    requires !Contains(text, head)
    ensures !Contains(text, head + alias)
  {
    var i := Index(text, head + alias);
    if i >= 0 {
      assert text[i..i + |head|] == text[i..i + |head + alias|][..|head|];
      assert OccursAt(text, head, i);
    }
  }
}
