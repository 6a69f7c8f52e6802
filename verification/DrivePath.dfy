/**
  Normalization of client-drive paths. A path is the sequence of characters before the
  terminating NUL of the C string.
 */
module DrivePath {
  import opened Status

  datatype PathResult = Path(text: string) | Rejected(status: Status)

  predicate Separator(c: char) { c == '/' || c == '\\' }

  predicate Plain(s: string) { forall i | 0 <= i < |s| :: !Separator(s[i]) }

  /** Length of the longest prefix without a separator. */
  function Span(s: string): (n: nat)
    ensures n <= |s| && Plain(s[..n])
    ensures n < |s| ==> Separator(s[n])
  {
    if s == [] || Separator(s[0]) then 0
    else
      var n := Span(s[1..]);
      assert s[..n + 1] == [s[0]] + s[1..][..n];
      n + 1
  }

  /** The non-empty runs of characters between separators. */
  function Components(s: string): seq<string>
    decreases |s|
  {
    if s == [] then []
    else if Separator(s[0]) then Components(s[1..])
    else [s[..Span(s)]] + Components(s[Span(s)..])
  }

  function Join(parts: seq<string>): string {
    if parts == [] then ""
    else if |parts| == 1 then parts[0]
    else parts[0] + "\\" + Join(parts[1..])
  }

  predicate Dots(part: string) { part == "." || part == ".." }

  predicate Acceptable(s: string) {
    ':' !in s && forall i | 0 <= i < |Components(s)| :: !Dots(Components(s)[i])
  }

  /** What normalization promises. */
  function Normalized(s: string, limit: nat): PathResult {
    if |s| > limit then Rejected(LimitExceeded)
    else if !Acceptable(s) then Rejected(State)
    else Path("\\" + Join(Components(s)))
  }

  // --- Components and joining are inverse ---

  ghost predicate ProperParts(parts: seq<string>) {
    forall i | 0 <= i < |parts| :: parts[i] != "" && Plain(parts[i])
  }

  function Flatten(parts: seq<string>): string {
    if parts == [] then "" else parts[0] + Flatten(parts[1..])
  }

  function WithoutSeparators(s: string): string {
    if s == [] then []
    else if Separator(s[0]) then WithoutSeparators(s[1..])
    else [s[0]] + WithoutSeparators(s[1..])
  }

  lemma {:induction false} PlainIsKept(s: string, n: nat)
    requires n <= |s| && Plain(s[..n])
    ensures WithoutSeparators(s) == s[..n] + WithoutSeparators(s[n..])
    decreases n
  {
    if n > 0 {
      assert s[..n][0] == s[0] && s[1..][..n - 1] == s[..n][1..];
      PlainIsKept(s[1..], n - 1);
      assert s[1..][n - 1..] == s[n..];
    }
  }

  /** Every component is non-empty and separator-free, and together they are all the other characters in order. */
  lemma {:induction false} ComponentsAreTheText(s: string)
    ensures ProperParts(Components(s))
    ensures Flatten(Components(s)) == WithoutSeparators(s)
    ensures |Join(Components(s))| <= |s|
    decreases |s|
  {
    if s != [] {
      if Separator(s[0]) {
        ComponentsAreTheText(s[1..]);
      } else {
        var n := Span(s);
        ComponentsAreTheText(s[n..]);
        PlainIsKept(s, n);
        if n < |s| {
          ComponentsAreTheText(s[n + 1..]);
          assert s[n..][1..] == s[n + 1..];
        }
        assert Components(s)[1..] == Components(s[n..]);
      }
    }
  }

  lemma {:induction false} SpanUnique(s: string, n: nat)
    requires n <= |s| && Plain(s[..n]) && (n < |s| ==> Separator(s[n]))
    ensures Span(s) == n
  {
    if n > 0 {
      assert s[..n][0] == s[0];
      assert s[1..][..n - 1] == s[..n][1..];
      SpanUnique(s[1..], n - 1);
    }
  }

  lemma {:induction false} ComponentsOfJoin(parts: seq<string>)
    requires ProperParts(parts)
    ensures Components(Join(parts)) == parts
  {
    if parts != [] {
      var text, n := Join(parts), |parts[0]|;
      assert text[..n] == parts[0];
      assert !Separator(text[0]);
      SpanUnique(text, n);
      if |parts| > 1 {
        assert text[n..] == "\\" + Join(parts[1..]);
        assert text[n..][1..] == Join(parts[1..]);
        ComponentsOfJoin(parts[1..]);
      }
    }
  }

  // --- Theorems about normalization ---

  /** Success is exactly: within the limit, no colon, no "." or ".." component; the buffer fits. */
  lemma NormalizedIff(s: string, limit: nat)
    ensures Normalized(s, limit).Path? <==>
      |s| <= limit && ':' !in s && "." !in Components(s) && ".." !in Components(s)
    ensures Normalized(s, limit).Path? ==>
      var text := Normalized(s, limit).text;
      text[0] == '\\' && Components(text) == Components(s) && |text| + 1 <= |s| + 2
  {
    ComponentsAreTheText(s);
    ComponentsOfJoin(Components(s));
    if Normalized(s, limit).Path? {
      var text := Normalized(s, limit).text;
      assert text[1..] == Join(Components(s));
    }
  }

  /** A normalized path that still fits the limit is its own normal form. */
  lemma NormalizedTwice(s: string, limit: nat)
    requires Normalized(s, limit).Path?
    ensures var text := Normalized(s, limit).text;
      if |text| <= limit then Normalized(text, limit) == Path(text)
      else Normalized(text, limit) == Rejected(LimitExceeded)
  {
    var text := Normalized(s, limit).text;
    NormalizedIff(s, limit);
    if ':' in text {
      assert ':' in WithoutSeparators(text) by { KeptCharacter(text, ':'); }
      ComponentsAreTheText(text);
      ComponentsAreTheText(s);
      KeptCharacter(s, ':');
    }
  }

  lemma KeptCharacter(s: string, c: char)
    requires !Separator(c)
    ensures c in WithoutSeparators(s) <==> c in s
  {
  }

  /** Two paths normalize alike exactly when they have the same components. */
  lemma SameNormalForm(s: string, t: string, limit: nat)
    requires Normalized(s, limit).Path? && Normalized(t, limit).Path?
    ensures Normalized(s, limit) == Normalized(t, limit) <==> Components(s) == Components(t)
  {
    NormalizedIff(s, limit);
    NormalizedIff(t, limit);
  }

  // --- The implementation: two cursors and an output buffer of source length + 2 ---

  lemma {:induction false} JoinAppend(parts: seq<string>, part: string)
    ensures Join(parts + [part]) == if parts == [] then part else Join(parts) + "\\" + part
  {
    if |parts| == 1 {
      assert (parts + [part])[1..] == [part];
    } else if |parts| > 1 {
      JoinAppend(parts[1..], part);
      assert (parts + [part])[1..] == parts[1..] + [part];
    }
  }

  /** One past the separators that start at `from`. */
  method SkipSeparators(source: string, from: nat) returns (to: nat)
    requires from <= |source|
    ensures from <= to <= |source|
    ensures to < |source| ==> !Separator(source[to])
    ensures ':' !in source[from..to]
    ensures Components(source[from..]) == Components(source[to..])
  {
    to := from;
    while to < |source| && (source[to] == '/' || source[to] == '\\')
      invariant from <= to <= |source|
      invariant ':' !in source[from..to]
      invariant Components(source[from..]) == Components(source[to..])
    {
      assert source[to..][1..] == source[to + 1..];
      to := to + 1;
    }
  }

  /** End of the component that starts at `from`, or a colon found in it. */
  method ScanComponent(source: string, from: nat) returns (to: nat, colon: bool)
    requires from < |source| && !Separator(source[from])
    ensures colon ==> ':' in source
    ensures !colon ==> from < to <= |source| && ':' !in source[from..to]
    ensures !colon && to < |source| ==> Separator(source[to])
    ensures !colon ==> Components(source[from..]) == [source[from..to]] + Components(source[to..])
  {
    to := from;
    while to < |source| && source[to] != '/' && source[to] != '\\'
      invariant from <= to <= |source|
      invariant Plain(source[from..to]) && ':' !in source[from..to]
    {
      if source[to] == ':' {
        return to, true;
      }
      assert source[from..to + 1] == source[from..to] + [source[to]];
      to := to + 1;
    }
    colon := false;
    var rest := source[from..];
    assert rest[..to - from] == source[from..to];
    SpanUnique(rest, to - from);
    assert rest[to - from..] == source[to..];
  }

  /** Copy `source[from..to]` to position `at` of the buffer; returns the position after it. */
  method CopyText(output: array<char>, at: nat, source: string, from: nat, to: nat) returns (end: nat)
    requires from <= to <= |source| && at + (to - from) <= output.Length
    modifies output
    ensures end == at + (to - from)
    ensures output[..end] == old(output[..at]) + source[from..to]
  {
    ghost var kept := output[..at];
    var i := from;
    end := at;
    while i < to
      invariant from <= i <= to && end == at + (i - from)
      invariant output[..end] == kept + source[from..i]
    {
      output[end] := source[i];
      assert source[from..i + 1] == source[from..i] + [source[i]];
      assert output[..end + 1] == output[..end] + [source[i]];
      end := end + 1;
      i := i + 1;
    }
  }

  lemma DotsTest(source: string, start: nat, stop: nat)
    requires start < stop <= |source|
    ensures Dots(source[start..stop]) <==>
      (stop - start == 1 && source[start] == '.') ||
      (stop - start == 2 && source[start] == '.' && source[start + 1] == '.')
  {
    var part := source[start..stop];
    assert part[0] == source[start];
    if stop - start == 2 {
      assert part[1] == source[start + 1];
    }
  }

  /** Append the component `source[from..to]`, with a backslash unless it is the first. */
  method AppendComponent(output: array<char>, at: nat, source: string, from: nat, to: nat, ghost done: seq<string>)
    returns (end: nat)
    requires 1 <= at && from < to <= |source| && at + 1 + (to - from) <= output.Length
    requires output[..at] == "\\" + Join(done) && (done == [] <==> at == 1)
    modifies output
    ensures at < end <= at + 1 + (to - from) && (at == 1 ==> end <= 1 + (to - from))
    ensures output[..end] == "\\" + Join(done + [source[from..to]])
  {
    JoinAppend(done, source[from..to]);
    end := at;
    if at > 1 {
      output[at] := '\\';
      end := at + 1;
      assert output[..end] == old(output[..at]) + "\\";
    }
    end := CopyText(output, end, source, from, to);
  }

  /**
    Find the next component at or after `from`; `start == stop` when there is none.
    `bad` reports a colon, or a component "." or "..".
   */
  method NextComponent(source: string, from: nat) returns (start: nat, stop: nat, bad: bool)
    requires from <= |source|
    ensures bad ==> ':' in source || (Components(source[from..]) != [] && Dots(Components(source[from..])[0]))
    ensures !bad ==> from <= start <= stop <= |source| && ':' !in source[from..stop]
    ensures !bad && start == stop ==> stop == |source| && Components(source[from..]) == []
    ensures !bad && start < stop ==>
      && !Dots(source[start..stop])
      && Components(source[from..]) == [source[start..stop]] + Components(source[stop..])
      && (stop < |source| ==> Separator(source[stop]))
    ensures !bad && from < |source| && Separator(source[from]) ==> from < start
  {
    start := SkipSeparators(source, from);
    stop, bad := start, false;
    if start < |source| {
      stop, bad := ScanComponent(source, start);
      if !bad {
        assert source[from..stop] == source[from..start] + source[start..stop];
        DotsTest(source, start, stop);
        bad := (stop - start == 1 && source[start] == '.') ||
               (stop - start == 2 && source[start] == '.' && source[start + 1] == '.');
      }
    }
  }

  /** `done` are the components of `source[..index]`, none of them a reason to refuse. */
  ghost predicate Scanned(source: string, index: nat, done: seq<string>) {
    && index <= |source|
    && Components(source) == done + Components(source[index..])
    && ':' !in source[..index]
    && forall i | 0 <= i < |done| :: !Dots(done[i])
  }

  lemma ScannedMore(source: string, index: nat, start: nat, stop: nat, done: seq<string>)
    requires Scanned(source, index, done) && index <= start < stop <= |source|
    requires ':' !in source[index..stop] && !Dots(source[start..stop])
    requires Components(source[index..]) == [source[start..stop]] + Components(source[stop..])
    ensures Scanned(source, stop, done + [source[start..stop]])
  {
    assert source[..stop] == source[..index] + source[index..stop];
    var part, rest := source[start..stop], Components(source[stop..]);
    assert done + ([part] + rest) == (done + [part]) + rest;
    forall i | 0 <= i < |done| + 1 ensures !Dots((done + [part])[i]) {
      assert (done + [part])[i] == if i < |done| then done[i] else part;
    }
  }

  lemma ScannedAll(source: string, index: nat, done: seq<string>)
    requires Scanned(source, index, done) && Components(source[index..]) == [] && ':' !in source[index..]
    ensures Acceptable(source) && Components(source) == done
  {
    assert source == source[..index] + source[index..];
  }

  lemma ScannedBad(source: string, index: nat, done: seq<string>)
    requires Scanned(source, index, done)
    requires ':' in source || (Components(source[index..]) != [] && Dots(Components(source[index..])[0]))
    ensures !Acceptable(source)
  {
    if ':' !in source {
      assert Components(source)[|done|] == Components(source[index..])[0];
    }
  }

  method NormalizePath(source: string, limit: nat) returns (r: PathResult)
    ensures r == Normalized(source, limit)
  {
    var length := 0;
    while length <= limit && length < |source|
      invariant length <= |source| && length <= limit + 1
    {
      length := length + 1;
    }
    if length > limit {
      return Rejected(LimitExceeded);
    }
    var output := new char[length + 2];
    output[0] := '\\';
    var used, index := 1, 0;
    ghost var done: seq<string> := [];
    assert source[0..] == source;
    while index < length
      invariant 0 <= index <= length == |source|
      invariant 1 <= used <= index + 1 && (0 < index < length ==> Separator(source[index]))
      invariant output[..used] == "\\" + Join(done) && (done == [] <==> used == 1)
      invariant Scanned(source, index, done)
    {
      var start, stop, bad := NextComponent(source, index);
      if bad {
        ScannedBad(source, index, done);
        return Rejected(State);
      }
      if start == stop {
        assert source[index..] == source[index..stop];
        ScannedAll(source, index, done);
        return Path(output[..used]);
      }
      ScannedMore(source, index, start, stop, done);
      used := AppendComponent(output, used, source, start, stop, done);
      done := done + [source[start..stop]];
      index := stop;
    }
    assert source[index..] == "";
    ScannedAll(source, index, done);
    r := Path(output[..used]);
  }
}
