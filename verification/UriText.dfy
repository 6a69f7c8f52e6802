/**
  What the list printer writes and the list reader accepts, told by the characters themselves:
  escapes in either case, local authorities, comments and line ends.
 */
module UriText {
  import opened Status
  import opened UriList

  /** The bytes are those of an ASCII text. */
  predicate Reads(bytes: seq<byte>, text: string) {
    |bytes| == |text| && forall i | 0 <= i < |text| :: bytes[i] as int == text[i] as int
  }

  // --- Escapes ---

  /** One hexadecimal digit, a capital or a small letter from ten on. */
  predicate Digit(b: byte, n: nat) {
    || (n < 10 && b as int == '0' as int + n)
    || (10 <= n < 16 && (b as int == 'A' as int + n - 10 || b as int == 'a' as int + n - 10))
  }

  /** A byte is spelled by itself, unless it is the percent sign, or by a percent sign and two digits. */
  predicate Spells(token: seq<byte>, b: byte) {
    || (token == [b] && b as int != '%' as int)
    || (|token| == 3 && token[0] as int == '%' as int
        && Digit(token[1], b as nat / 16) && Digit(token[2], b as nat % 16))
  }

  function Flat(tokens: seq<seq<byte>>): seq<byte> {
    if tokens == [] then [] else tokens[0] + Flat(tokens[1..])
  }

  /** These tokens spell this path, which has no NUL and no line break in it. */
  predicate SpellsAll(tokens: seq<seq<byte>>, path: seq<byte>) {
    |tokens| == |path|
    && forall i | 0 <= i < |path| :: Spells(tokens[i], path[i]) && path[i] != 0 && path[i] != 10 && path[i] != 13
  }

  lemma SpelledByte(token: seq<byte>, b: byte, rest: seq<byte>)
    requires Spells(token, b)
    ensures Decode(token + rest) == Prepend(b, Decode(rest))
  {
    var s := token + rest;
    if |token| == 3 {
      assert s[3..] == rest;
      assert HexValue(s[1]) == b as int / 16 && HexValue(s[2]) == b as int % 16;
    } else {
      assert s[1..] == rest;
    }
  }

  /** Whatever spells a path, in capital or small digits or by itself, is read back as that path. */
  lemma {:induction false} SpellingIsRead(tokens: seq<seq<byte>>, path: seq<byte>)
    requires SpellsAll(tokens, path)
    ensures Decode(Flat(tokens)) == Some(path)
  {
    if path != [] {
      SpellingIsRead(tokens[1..], path[1..]);
      SpelledByte(tokens[0], path[0], Flat(tokens[1..]));
      assert [path[0]] + path[1..] == path;
    }
  }

  lemma HexIsDigit(b: byte)
    ensures HexValue(b) >= 0 ==> HexValue(b) < 16 && Digit(b, HexValue(b))
  {
  }

  /** The first token of a text that can be read. */
  lemma FirstToken(s: seq<byte>) returns (n: nat, b: byte)
    requires Decode(s).Some? && s != []
    ensures 0 < n <= |s| && Spells(s[..n], b) && b != 0 && b != 10 && b != 13
    ensures Decode(s[n..]).Some? && Decode(s).value == [b] + Decode(s[n..]).value
  {
    if s[0] != PERCENT {
      n, b := 1, s[0];
    } else {
      HexIsDigit(s[1]);
      HexIsDigit(s[2]);
      n, b := 3, (HexValue(s[1]) * 16 + HexValue(s[2])) as byte;
    }
  }

  /** And whatever is read is spelled so. */
  lemma {:induction false} ReadIsSpelling(s: seq<byte>) returns (tokens: seq<seq<byte>>)
    requires Decode(s).Some?
    ensures Flat(tokens) == s && SpellsAll(tokens, Decode(s).value)
    decreases |s|
  {
    if s == [] {
      tokens := [];
    } else {
      var n, b := FirstToken(s);
      var rest := ReadIsSpelling(s[n..]);
      tokens := [s[..n]] + rest;
      assert tokens[1..] == rest && s[..n] + s[n..] == s;
    }
  }

  // --- One line ---

  /** The text names the path after the scheme and no authority, or after the local one. */
  ghost predicate NamesPath(line: seq<byte>, path: seq<byte>) {
    exists scheme: seq<byte>, tokens: seq<seq<byte>> ::
      && (Reads(scheme, "file://") || Reads(scheme, "file://localhost")) && line == scheme + Flat(tokens)
      && Flat(tokens) != [] && Flat(tokens)[0] as int == '/' as int && SpellsAll(tokens, path)
  }

  /** A line is read as a path if and only if it names it. */
  lemma UriIff(line: seq<byte>, path: seq<byte>)
    ensures DecodeUri(line) == File(path) <==> NamesPath(line, path)
  {
    if NamesPath(line, path) {
      NamedIsRead(line, path);
    }
    if DecodeUri(line) == File(path) {
      ReadIsNamed(line, path);
    }
  }

  lemma NamedIsRead(line: seq<byte>, path: seq<byte>)
    requires NamesPath(line, path)
    ensures DecodeUri(line) == File(path)
  {
    var scheme: seq<byte>, tokens: seq<seq<byte>> :|
      && (Reads(scheme, "file://") || Reads(scheme, "file://localhost")) && line == scheme + Flat(tokens)
      && Flat(tokens) != [] && Flat(tokens)[0] as int == '/' as int && SpellsAll(tokens, path);
    SpellingIsRead(tokens, path);
    Schemes(scheme);
    UriOfText(line, scheme, Flat(tokens));
  }

  lemma Schemes(scheme: seq<byte>)
    ensures Reads(scheme, "file://") <==> scheme == PREFIX
    ensures Reads(scheme, "file://localhost") <==> scheme == PREFIX + LOCALHOST
  {
    var short, long := "file://", "file://localhost";
    assert Reads(PREFIX, short);
    assert forall i | 0 <= i < 16 :: (PREFIX + LOCALHOST)[i] as int == long[i] as int;
    if Reads(scheme, short) {
      assert scheme == PREFIX;
    }
    if Reads(scheme, long) {
      assert scheme == PREFIX + LOCALHOST;
    }
  }

  lemma ReadIsNamed(line: seq<byte>, path: seq<byte>)
    requires DecodeUri(line) == File(path)
    ensures NamesPath(line, path)
  {
    var scheme, text := TextOfUri(line);
    var tokens := ReadIsSpelling(text);
    Schemes(scheme);
  }

  lemma UriOfText(line: seq<byte>, scheme: seq<byte>, text: seq<byte>)
    requires text != [] && text[0] == SLASH && (scheme == PREFIX || scheme == PREFIX + LOCALHOST)
    requires line == scheme + text
    ensures DecodeUri(line) == OfPath(text)
  {
    if scheme == PREFIX {
      assert line[..|PREFIX|] == PREFIX && line[|PREFIX|..] == text;
    } else {
      var rest := LOCALHOST + text;
      assert line == PREFIX + rest;
      assert line[..|PREFIX|] == PREFIX && line[|PREFIX|..] == rest;
      assert rest[..|LOCALHOST|] == LOCALHOST && rest[|LOCALHOST|..] == text;
    }
  }

  lemma TextOfUri(line: seq<byte>) returns (scheme: seq<byte>, text: seq<byte>)
    requires DecodeUri(line).File?
    ensures text != [] && text[0] == SLASH && DecodeUri(line) == OfPath(text)
    ensures line == scheme + text && (scheme == PREFIX || scheme == PREFIX + LOCALHOST)
  {
    var rest := line[|PREFIX|..];
    assert line == PREFIX + rest;
    if rest[0] == SLASH {
      scheme, text := PREFIX, rest;
    } else {
      scheme, text := PREFIX + LOCALHOST, rest[|LOCALHOST|..];
      assert rest == LOCALHOST + text;
    }
  }

  // --- What is printed ---

  /** Characters that are printed as they are. */
  predicate Unreserved(b: byte) {
    || 'a' as int <= b as int <= 'z' as int || 'A' as int <= b as int <= 'Z' as int
    || '0' as int <= b as int <= '9' as int || b as int == '/' as int
    || b as int == '-' as int || b as int == '_' as int || b as int == '.' as int || b as int == '~' as int
  }

  /** A capital digit. */
  predicate Capital(b: byte, n: nat) { Digit(b, n) && b as int < 'a' as int }

  predicate PrintedAs(token: seq<byte>, b: byte) {
    if Unreserved(b) then token == [b]
    else
      && |token| == 3 && token[0] as int == '%' as int
      && Capital(token[1], b as nat / 16) && Capital(token[2], b as nat % 16)
  }

  lemma {:induction false} PrintedText(path: seq<byte>) returns (tokens: seq<seq<byte>>)
    ensures |tokens| == |path| && Encode(path) == Flat(tokens)
    ensures forall i | 0 <= i < |path| :: PrintedAs(tokens[i], path[i])
  {
    if path == [] {
      tokens := [];
    } else {
      var rest := PrintedText(path[1..]);
      tokens := [EncodeByte(path[0])] + rest;
      assert tokens[1..] == rest;
      assert PrintedAs(EncodeByte(path[0]), path[0]);
    }
  }

  // --- Lines ---

  /** What one raw line contributes: nothing when it is empty or a comment, else itself without the return. */
  predicate Contributes(raw: seq<byte>, lines: seq<seq<byte>>) {
    && (raw == [] || raw == [13] || raw[0] as int == '#' as int ==> lines == [])
    && (raw != [] && raw != [13] && raw[0] as int != '#' as int ==>
          && |lines| == 1 && (raw[|raw| - 1] == 13 ==> lines[0] + [13] == raw)
          && (raw[|raw| - 1] != 13 ==> lines[0] == raw))
  }

  /** The lines of a list are those of its raw lines, in order; the last one needs no line feed. */
  lemma LinesOfText(raw: seq<byte>, rest: seq<byte>)
    requires 10 !in raw
    ensures exists own: seq<seq<byte>> ::
      Contributes(raw, own) && Lines(raw + [10] + rest) == own + Lines(rest) && Lines(raw) == own
  {
    var data, line := raw + [10] + rest, Trim(raw);
    var own := if Blank(line) then [] else [line];
    assert data[..|raw|] == raw;
    LineEndIs(data, |raw|);
    assert After(data) == rest;
    assert raw[..|raw|] == raw;
    LineEndIs(raw, |raw|);
    assert Contributes(raw, own);
    assert Lines(raw) == own;
  }

  // --- The whole list ---

  /** A line names this file, which is there. */
  ghost predicate Gives(line: seq<byte>, disk: Disk, e: Entry) {
    exists path: seq<byte>, at: nat ::
      && NamesPath(line, path) && disk(path).status == Ok && e.size == disk(path).size
      && at <= |path| && e.name == path[at..] && 1 <= |e.name| <= 255 && SLASH !in e.name
      && (at > 0 ==> path[at - 1] as int == '/' as int)
  }

  lemma {:induction false} NameIs(path: seq<byte>, at: nat)
    requires at <= |path| && SLASH !in path[at..] && (at > 0 ==> path[at - 1] == SLASH)
    ensures Basename(path) == path[at..]
  {
    BasenameIsTail(path);
    var start := |path| - |Basename(path)|;
    forall i | start <= i < |path| ensures path[i] != SLASH {
      assert path[i] == path[start..][i - start];
    }
    forall i | at <= i < |path| ensures path[i] != SLASH {
      assert path[i] == path[at..][i - at];
    }
    assert at > 0 ==> at - 1 < start;
    assert start > 0 ==> start - 1 < at;
  }

  /** The file of a line that names this path. */
  lemma FileOfPath(line: seq<byte>, path: seq<byte>, disk: Disk, e: Entry)
    requires DecodeUri(line) == File(path)
    ensures ImportFile(line, disk) == Good(e) <==>
      && disk(path).status == Ok && e == Entry(Basename(path), disk(path).size) && 1 <= |e.name| <= 255
  {
  }

  lemma GivesIff(line: seq<byte>, disk: Disk, e: Entry)
    ensures ImportFile(line, disk) == Good(e) <==> Gives(line, disk, e)
  {
    if Gives(line, disk, e) {
      GivenIsImported(line, disk, e);
    }
    if ImportFile(line, disk) == Good(e) {
      ImportedIsGiven(line, disk, e);
    }
  }

  lemma GivenIsImported(line: seq<byte>, disk: Disk, e: Entry)
    requires Gives(line, disk, e)
    ensures ImportFile(line, disk) == Good(e)
  {
    var path: seq<byte>, at: nat :|
      && NamesPath(line, path) && disk(path).status == Ok && e.size == disk(path).size
      && at <= |path| && e.name == path[at..] && 1 <= |e.name| <= 255 && SLASH !in e.name
      && (at > 0 ==> path[at - 1] as int == '/' as int);
    UriIff(line, path);
    NameIs(path, at);
    FileOfPath(line, path, disk, e);
  }

  lemma ImportedIsGiven(line: seq<byte>, disk: Disk, e: Entry)
    requires ImportFile(line, disk) == Good(e)
    ensures Gives(line, disk, e)
  {
    var path := DecodeUri(line).path;
    UriIff(line, path);
    FileOfPath(line, path, disk, e);
    BasenameIsTail(path);
    assert e.name == path[|path| - |e.name|..];
  }

  lemma {:induction false} GoodCollects(lines: seq<seq<byte>>, n: nat, take: Taker)
    requires n <= |lines| && Collect(lines, n, take).Good?
    ensures var entries := Collect(lines, n, take).value;
      |entries| == n <= FILE_LIMIT && forall i | 0 <= i < n :: take(lines[i]) == Good(entries[i])
  {
    if n > 0 {
      GoodCollects(lines, n - 1, take);
    }
  }

  /**
    A list is shared as these files if and only if there are between one and thirty-two of them
    and its lines give them, one each and in order.
   */
  lemma SharedIff(data: seq<byte>, disk: Disk, entries: seq<Entry>)
    ensures ImportAll(data, disk) == Good(entries) <==>
      && 1 <= |entries| <= 32 && |Lines(data)| == |entries|
      && forall i | 0 <= i < |entries| :: Gives(Lines(data)[i], disk, entries[i])
  {
    var lines, take := Lines(data), Importer(disk);
    forall i | 0 <= i < |lines| && i < |entries|
      ensures take(lines[i]) == Good(entries[i]) <==> Gives(lines[i], disk, entries[i])
    {
      GivesIff(lines[i], disk, entries[i]);
    }
    if ImportAll(data, disk) == Good(entries) {
      GoodCollects(lines, |lines|, take);
    } else if |lines| == |entries| <= FILE_LIMIT && forall i | 0 <= i < |lines| :: take(lines[i]) == Good(entries[i]) {
      CollectAllGood(lines, entries, take);
    }
  }
}
