/**
  What normalization makes of a path, character by character: which paths are refused, and that
  the result is the same text with every run of slashes made one backslash.
 */
module DrivePathText {
  import opened Status
  import opened DrivePath

  predicate Slash(c: char) { c == '/' || c == '\\' }

  /** The `n` characters from `i` stand between two slashes, or at an end. */
  predicate Between(s: string, i: nat, n: nat) {
    && 0 < n && i + n <= |s| && (i == 0 || Slash(s[i - 1])) && (i + n == |s| || Slash(s[i + n]))
    && forall j | i <= j < i + n :: !Slash(s[j])
  }

  /** A "." or ".." between two slashes. */
  predicate DotsAt(s: string, i: nat, n: nat) {
    Between(s, i, n) && n <= 2 && forall j | i <= j < i + n :: s[j] == '.'
  }

  // --- Components are the texts between slashes ---

  lemma {:induction false} BetweenIsComponent(s: string, i: nat, n: nat, part: string)
    requires Between(s, i, n) && part == s[i..i + n]
    ensures part in Components(s)
    decreases |s|
  {
    if Separator(s[0]) {
      TailBetween(s, 1, i, n);
      BetweenIsComponent(s[1..], i - 1, n, part);
    } else if i == 0 {
      FirstComponent(s, n);
    } else {
      SpanBefore(s, i);
      TailBetween(s, Span(s), i, n);
      BetweenIsComponent(s[Span(s)..], i - Span(s), n, part);
      LaterComponent(s, part);
    }
  }

  lemma FirstComponent(s: string, n: nat)
    requires Between(s, 0, n)
    ensures s[0..n] in Components(s)
  {
    SpanUnique(s, n);
    assert Components(s)[0] == s[..n];
  }

  lemma SpanBefore(s: string, i: nat)
    requires 0 < i <= |s| && Slash(s[i - 1])
    ensures Span(s) < i
  {
    SpanIsPlain(s);
  }

  lemma LaterComponent(s: string, part: string)
    requires s != "" && !Separator(s[0]) && part in Components(s[Span(s)..])
    ensures part in Components(s)
  {
    var k :| 0 <= k < |Components(s[Span(s)..])| && Components(s[Span(s)..])[k] == part;
    assert Components(s)[k + 1] == part;
  }

  lemma TailBetween(s: string, m: nat, i: nat, n: nat)
    requires Between(s, i, n) && 0 < m <= i
    ensures Between(s[m..], i - m, n) && s[m..][i - m..i - m + n] == s[i..i + n]
  {
    forall j | i - m <= j < i - m + n ensures !Slash(s[m..][j]) {
      assert s[m..][j] == s[j + m];
    }
  }

  lemma SpanIsPlain(s: string)
    ensures forall j | 0 <= j < Span(s) :: !Slash(s[j])
  {
    forall j | 0 <= j < Span(s) ensures !Slash(s[j]) {
      assert s[..Span(s)][j] == s[j];
    }
  }

  lemma BetweenInTail(s: string, m: nat, i: nat, n: nat)
    requires 0 < m <= |s| && Between(s[m..], i, n) && (i > 0 || Slash(s[m - 1]))
    ensures Between(s, m + i, n) && s[m + i..m + i + n] == s[m..][i..i + n]
  {
    forall j | m + i <= j < m + i + n ensures !Slash(s[j]) {
      assert s[m..][j - m] == s[j];
    }
  }

  lemma {:induction false} ComponentIsBetween(s: string, k: nat) returns (i: nat)
    requires k < |Components(s)|
    ensures Between(s, i, |Components(s)[k]|) && s[i..i + |Components(s)[k]|] == Components(s)[k]
    decreases |s|
  {
    var part, m := Components(s)[k], if Separator(s[0]) then 1 else Span(s);
    SpanIsPlain(s);
    if !Separator(s[0]) && k == 0 {
      i := 0;
    } else {
      i := ComponentIsBetween(s[m..], if Separator(s[0]) then k else k - 1);
      assert Separator(s[0]) || i > 0;
      BetweenInTail(s, m, i, |part|);
      i := m + i;
    }
  }

  // --- Which paths are refused ---

  ghost predicate HasDots(s: string) { exists i: nat, n: nat :: DotsAt(s, i, n) }

  lemma DotsRefused(s: string, i: nat, n: nat)
    requires DotsAt(s, i, n)
    ensures !Acceptable(s)
  {
    BetweenIsComponent(s, i, n, s[i..i + n]);
    assert s[i..i + n] == if n == 1 then "." else "..";
  }

  lemma RefusedHasDots(s: string, k: nat)
    requires k < |Components(s)| && Dots(Components(s)[k])
    ensures HasDots(s)
  {
    var n := |Components(s)[k]|;
    var i := ComponentIsBetween(s, k);
    forall j | i <= j < i + n ensures s[j] == '.' {
      assert s[i..i + n][j - i] == s[j];
    }
    assert DotsAt(s, i, n);
  }

  /**
    A path is accepted if and only if it is within the limit and has no colon and no "." or ".."
    between two of the characters '/' and '\\' or at an end.
   */
  lemma AcceptedIff(s: string, limit: nat)
    ensures Normalized(s, limit).Path? <==> |s| <= limit && ':' !in s && !HasDots(s)
    ensures Normalized(s, limit).Rejected? ==>
      Normalized(s, limit).status == if |s| > limit then LimitExceeded else State
  {
    if HasDots(s) {
      var i: nat, n: nat :| DotsAt(s, i, n);
      DotsRefused(s, i, n);
    } else if k: nat :| k < |Components(s)| && Dots(Components(s)[k]) {
      RefusedHasDots(s, k);
    }
  }

  // --- The text of an accepted path ---

  /** One backslash at the start and between any two names, and no other slash. */
  ghost predicate Tidy(text: string) {
    && text != "" && text[0] == '\\' && '/' !in text && ':' !in text
    && (text[|text| - 1] == '\\' ==> text == "\\")
    && forall i | 0 < i < |text| :: !(text[i - 1] == '\\' && text[i] == '\\')
  }

  /** Letters in order, and of each whether a name begins with it; `start` before the first letter of a name. */
  function Letters(s: string, start: bool): seq<(char, bool)> {
    if s == [] then []
    else if Slash(s[0]) then Letters(s[1..], true)
    else [(s[0], start)] + Letters(s[1..], false)
  }

  lemma {:induction false} PlainLetters(a: string, b: string, start: bool)
    requires Plain(a)
    ensures Letters(a + b, start) == Letters(a, start) + Letters(b, start && a == [])
  {
    if a == [] {
      assert a + b == b;
    } else {
      assert (a + b)[1..] == a[1..] + b;
      PlainLetters(a[1..], b, false);
    }
  }

  lemma {:induction false} SlashFirst(s: string, start: bool)
    requires s == [] || Slash(s[0])
    ensures Letters(s, start) == Letters(s, true)
  {
  }

  function PartLetters(parts: seq<string>): seq<(char, bool)> {
    if parts == [] then [] else Letters(parts[0], true) + PartLetters(parts[1..])
  }

  lemma {:induction false} ComponentLetters(s: string)
    ensures Letters(s, true) == PartLetters(Components(s))
    decreases |s|
  {
    if s != [] {
      if Separator(s[0]) {
        ComponentLetters(s[1..]);
      } else {
        var n := Span(s);
        assert s == s[..n] + s[n..];
        PlainLetters(s[..n], s[n..], true);
        SlashFirst(s[n..], false);
        ComponentLetters(s[n..]);
        assert Components(s)[1..] == Components(s[n..]);
      }
    }
  }

  lemma {:induction false} JoinLetters(parts: seq<string>)
    requires ProperParts(parts)
    ensures Letters(Join(parts), true) == PartLetters(parts)
  {
    if parts != [] {
      PlainLetters(parts[0], [], true);
      assert parts[0] + [] == parts[0];
      if |parts| > 1 {
        PlainLetters(parts[0], "\\" + Join(parts[1..]), true);
        assert Join(parts) == parts[0] + ("\\" + Join(parts[1..]));
        assert ("\\" + Join(parts[1..]))[1..] == Join(parts[1..]);
        JoinLetters(parts[1..]);
      }
    }
  }

  lemma {:induction false} JoinTidy(parts: seq<string>)
    requires ProperParts(parts) && parts != []
    ensures Tidy("\\" + Join(parts)) || ':' in Join(parts)
    ensures Join(parts) != "" && Join(parts)[0] != '\\' && Join(parts)[|Join(parts)| - 1] != '\\'
  {
    var text := "\\" + Join(parts);
    if |parts| == 1 {
      assert Plain(parts[0]);
    } else {
      var rest := "\\" + Join(parts[1..]);
      JoinTidy(parts[1..]);
      assert Join(parts) == parts[0] + rest;
      assert text == ("\\" + parts[0]) + rest;
      assert Plain(parts[0]);
      forall i | 0 < i < |text| ensures !(text[i - 1] == '\\' && text[i] == '\\') || ':' in Join(parts) {
        if i > |parts[0]| + 1 {
          assert text[i] == rest[i - 1 - |parts[0]|] && text[i - 1] == rest[i - 2 - |parts[0]|];
        }
      }
    }
  }

  /** An accepted path keeps its letters in order, names apart, and becomes tidy. */
  lemma AcceptedText(s: string, limit: nat)
    requires Normalized(s, limit).Path?
    ensures var text := Normalized(s, limit).text;
      Tidy(text) && Letters(text, true) == Letters(s, true) && |text| <= |s| + 1
  {
    var parts, text := Components(s), Normalized(s, limit).text;
    ComponentsAreTheText(s);
    NoColon(s);
    if parts != [] {
      JoinTidy(parts);
    }
    ComponentLetters(s);
    JoinLetters(parts);
    assert text[1..] == Join(parts);
  }

  lemma NoColon(s: string)
    requires ':' !in s
    ensures ':' !in Join(Components(s))
  {
    ComponentsAreTheText(s);
    KeptCharacter(s, ':');
    KeptInJoin(Components(s));
  }

  lemma {:induction false} KeptInJoin(parts: seq<string>)
    ensures ':' in Join(parts) ==> ':' in Flatten(parts)
  {
    if |parts| > 1 {
      KeptInJoin(parts[1..]);
    }
  }

  /** These determine the text. */
  lemma {:induction false} TidyUnique(a: string, b: string)
    requires Tidy(a) && Tidy(b) && Letters(a, true) == Letters(b, true)
    ensures a == b
  {
    var x, y := a[1..], b[1..];
    NoSlashFirst(x, y);
    assert a == ['\\'] + x && b == ['\\'] + y;
  }

  /** Single backslashes only, and none at the end. */
  ghost predicate Single(s: string, start: bool) {
    && '/' !in s && (start ==> s == "" || s[0] != '\\') && (s != "" ==> s[|s| - 1] != '\\')
    && forall i | 0 < i < |s| :: !(s[i - 1] == '\\' && s[i] == '\\')
  }

  lemma {:induction false} SingleUnique(a: string, b: string, start: bool)
    requires Single(a, start) && Single(b, start) && Letters(a, start) == Letters(b, start)
    ensures a == b
    decreases |a| + |b|
  {
    if a != "" && b != "" {
      if a[0] == '\\' && b[0] == '\\' {
        SingleTail(a, true);
        SingleTail(b, true);
        SingleUnique(a[1..], b[1..], true);
      } else if a[0] != '\\' && b[0] != '\\' {
        assert Letters(a, start)[0] == Letters(b, start)[0];
        assert Letters(a, start)[1..] == Letters(a[1..], false) && Letters(b, start)[1..] == Letters(b[1..], false);
        SingleTail(a, false);
        SingleTail(b, false);
        SingleUnique(a[1..], b[1..], false);
      } else {
        OneStarts(a, b);
      }
    } else if a != "" {
      SomeLetter(a, start);
    } else if b != "" {
      SomeLetter(b, start);
    }
  }

  lemma SingleTail(s: string, start: bool)
    requires s != "" && (start <==> s[0] == '\\') && Single(s, false)
    ensures Single(s[1..], start)
  {
    var t := s[1..];
    forall i | 0 < i < |t| ensures !(t[i - 1] == '\\' && t[i] == '\\') {
      assert t[i] == s[i + 1] && t[i - 1] == s[i];
    }
    if t != "" {
      assert t[|t| - 1] == s[|s| - 1];
      assert t[0] == s[1];
    }
  }

  lemma {:induction false} SomeLetter(s: string, start: bool)
    requires s != "" && Single(s, start)
    ensures Letters(s, start) != []
  {
    if Slash(s[0]) {
      assert |s| > 1 && s[1] != '\\' && s[1] != '/';
      assert s[1..][0] == s[1];
    }
  }

  /** After a name one text goes on with a letter and the other with a backslash. */
  lemma OneStarts(a: string, b: string)
    requires a != "" && b != "" && Single(a, false) && Single(b, false)
    requires (a[0] == '\\') != (b[0] == '\\')
    ensures Letters(a, false) != Letters(b, false)
  {
    var slash, letter := if a[0] == '\\' then a else b, if a[0] == '\\' then b else a;
    assert |slash| > 1 && slash[1] != '\\' && slash[1] != '/';
    assert slash[1..][0] == slash[1];
    assert Letters(slash, false) == [(slash[1], true)] + Letters(slash[1..][1..], false);
    assert Letters(slash, false)[0].1 && !Letters(letter, false)[0].1;
  }

  lemma NoSlashFirst(x: string, y: string)
    requires Tidy("\\" + x) && Tidy("\\" + y) && Letters("\\" + x, true) == Letters("\\" + y, true)
    ensures x == y
  {
    TidySingle(x);
    TidySingle(y);
    assert ("\\" + x)[1..] == x && ("\\" + y)[1..] == y;
    SingleUnique(x, y, true);
  }

  lemma TidySingle(x: string)
    requires Tidy("\\" + x)
    ensures Single(x, true)
  {
    var text := "\\" + x;
    forall i | 0 < i < |x| ensures !(x[i - 1] == '\\' && x[i] == '\\') {
      assert x[i] == text[i + 1] && x[i - 1] == text[i];
    }
    if x != "" {
      assert text[1] == x[0] && text[|text| - 1] == x[|x| - 1];
    }
    forall c | c in x ensures c in text {}
  }

  /**
    So a normal form is the one tidy text with the letters of the path: whatever text has these
    two properties is what an accepted path becomes.
   */
  lemma NormalFormIs(s: string, limit: nat, text: string)
    requires Normalized(s, limit).Path?
    ensures Normalized(s, limit) == Path(text) <==> Tidy(text) && Letters(text, true) == Letters(s, true)
  {
    AcceptedText(s, limit);
    if Tidy(text) && Letters(text, true) == Letters(s, true) {
      TidyUnique(text, Normalized(s, limit).text);
    }
  }

  // --- Either slash will do ---

  function Backslashed(s: string): string {
    if s == [] then [] else [if s[0] == '/' then '\\' else s[0]] + Backslashed(s[1..])
  }

  lemma {:induction false} BackslashedAt(s: string)
    ensures |Backslashed(s)| == |s|
    ensures forall i | 0 <= i < |s| :: Backslashed(s)[i] == if s[i] == '/' then '\\' else s[i]
  {
    if s != [] {
      BackslashedAt(s[1..]);
    }
  }

  lemma {:induction false} BackslashedComponents(s: string)
    ensures Components(Backslashed(s)) == Components(s)
    decreases |s|
  {
    var t := Backslashed(s);
    BackslashedAt(s);
    if s != [] {
      if Separator(s[0]) {
        BackslashedComponents(s[1..]);
        assert t[1..] == Backslashed(s[1..]);
      } else {
        var n := Span(s);
        forall i | 0 <= i < n ensures t[i] == s[i] && !Separator(s[i]) {
          assert s[..n][i] == s[i];
        }
        assert t[..n] == s[..n];
        SpanUnique(t, n);
        BackslashedAt(s[n..]);
        assert t[n..] == Backslashed(s[n..]);
        BackslashedComponents(s[n..]);
      }
    }
  }

  /** Replacing every '/' by a backslash makes no difference. */
  lemma EitherSlash(s: string, limit: nat)
    ensures Normalized(Backslashed(s), limit) == Normalized(s, limit)
  {
    BackslashedAt(s);
    BackslashedComponents(s);
    if ':' in s {
      var i :| 0 <= i < |s| && s[i] == ':';
      assert Backslashed(s)[i] == ':';
    }
  }
}
