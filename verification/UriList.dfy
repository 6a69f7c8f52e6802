/**
  text/uri-list as the server prints it and as it reads it back: percent-encoding of file paths
  (section 2.1 of RFC 3986), one CRLF-terminated line per file (section 5 of RFC 2483), and the
  import of such a list as a whole or not at all.
 */
module UriList {
  import opened Status

  const LF: byte := 10
  const CR: byte := 13
  const HASH: byte := 35
  const PERCENT: byte := 37
  const SLASH: byte := 47

  /** "file://" */
  const PREFIX: seq<byte> := [102, 105, 108, 101, 58, 47, 47]

  /** "localhost" */
  const LOCALHOST: seq<byte> := [108, 111, 99, 97, 108, 104, 111, 115, 116]

  const URI_LIMIT: nat := 16 * 1024 * 1024
  const FILE_LIMIT: nat := 32
  const NAME_LIMIT: nat := 255

  // --- Printing ---

  /** Letters, digits and "/-_.~" stand for themselves. */
  predicate Safe(b: byte) {
    97 <= b <= 122 || 65 <= b <= 90 || 48 <= b <= 57 || b == SLASH || b == 45 || b == 95 || b == 46 || b == 126
  }

  function HexDigit(n: nat): byte
    requires n < 16
  {
    if n < 10 then (48 + n) as byte else (55 + n) as byte
  }

  function EncodeByte(b: byte): seq<byte> {
    if Safe(b) then [b] else [PERCENT, HexDigit(b as nat / 16), HexDigit(b as nat % 16)]
  }

  function Encode(path: seq<byte>): seq<byte> {
    if path == [] then [] else EncodeByte(path[0]) + Encode(path[1..])
  }

  function Line(path: seq<byte>): seq<byte> { PREFIX + Encode(path) }

  function Printed(paths: seq<seq<byte>>): seq<byte> {
    if paths == [] then [] else Line(paths[0]) + [CR, LF] + Printed(paths[1..])
  }

  /** What the sizing pass adds up. */
  function Size(path: seq<byte>): nat {
    if path == [] then 0 else (if Safe(path[0]) then 1 else 3) + Size(path[1..])
  }

  /** The sizing pass is exact. */
  lemma {:induction false} SizeIsExact(path: seq<byte>)
    ensures Size(path) == |Encode(path)|
  {
    if path != [] {
      SizeIsExact(path[1..]);
    }
  }

  lemma {:induction false} PrintedMore(paths: seq<seq<byte>>, path: seq<byte>)
    ensures Printed(paths + [path]) == Printed(paths) + (Line(path) + [CR, LF])
  {
    if paths == [] {
      assert [path][1..] == [];
      assert Printed([path]) == Line(path) + [CR, LF] + [];
    } else {
      PrintedMore(paths[1..], path);
      assert (paths + [path])[1..] == paths[1..] + [path] && (paths + [path])[0] == paths[0];
      Regroup(Line(paths[0]) + [CR, LF], Printed(paths[1..]), Line(path) + [CR, LF]);
    }
  }

  lemma Regroup(a: seq<byte>, b: seq<byte>, c: seq<byte>)
    ensures a + (b + c) == (a + b) + c
  {
  }

  /** Bytes of the path from `index` on, as they are encoded. */
  method SizeOf(path: seq<byte>) returns (encoded: nat)
    ensures encoded == |Encode(path)|
  {
    encoded := 0;
    var index := 0;
    while index < |path|
      invariant 0 <= index <= |path|
      invariant encoded + Size(path[index..]) == Size(path)
    {
      encoded := encoded + if Safe(path[index]) then 1 else 3;
      assert path[index..][1..] == path[index + 1..];
      index := index + 1;
    }
    SizeIsExact(path);
  }

  method CopyInto(buffer: array<byte>, at: nat, text: seq<byte>)
    requires at + |text| <= buffer.Length
    modifies buffer
    ensures buffer[..at] == old(buffer[..at]) && buffer[at..at + |text|] == text
    ensures buffer[at + |text|..] == old(buffer[at + |text|..])
  {
    var index := 0;
    while index < |text|
      invariant 0 <= index <= |text|
      invariant buffer[..at] == old(buffer[..at]) && buffer[at..at + index] == text[..index]
      invariant buffer[at + |text|..] == old(buffer[at + |text|..])
    {
      buffer[at + index] := text[index];
      index := index + 1;
    }
  }

  /** The writing pass: encode the path into the buffer from `start` on. */
  method WritePath(buffer: array<byte>, start: nat, path: seq<byte>) returns (cursor: nat)
    requires start + |Encode(path)| <= buffer.Length
    modifies buffer
    ensures cursor == start + |Encode(path)|
    ensures buffer[..cursor] == old(buffer[..start]) + Encode(path)
  {
    ghost var head := buffer[..start];
    cursor := start;
    var index := 0;
    assert path[0..] == path;
    assert buffer[..cursor] + Encode(path[index..]) == head + Encode(path);
    while index < |path|
      invariant 0 <= index <= |path|
      invariant cursor + |Encode(path[index..])| == start + |Encode(path)|
      invariant cursor <= buffer.Length
      invariant buffer[..cursor] + Encode(path[index..]) == head + Encode(path)
    {
      ghost var rest, done := Encode(path[index + 1..]), buffer[..cursor];
      assert path[index..][1..] == path[index + 1..];
      assert Encode(path[index..]) == EncodeByte(path[index]) + rest;
      assert done + (EncodeByte(path[index]) + rest) == (done + EncodeByte(path[index])) + rest;
      cursor := WriteByte(buffer, cursor, path[index]);
      index := index + 1;
    }
  }

  method WriteByte(buffer: array<byte>, cursor: nat, value: byte) returns (next: nat)
    requires cursor + |EncodeByte(value)| <= buffer.Length
    modifies buffer
    ensures next == cursor + |EncodeByte(value)|
    ensures buffer[..next] == old(buffer[..cursor]) + EncodeByte(value)
  {
    if Safe(value) {
      buffer[cursor] := value;
      next := cursor + 1;
    } else {
      buffer[cursor] := PERCENT;
      buffer[cursor + 1] := HexDigit(value as nat / 16);
      buffer[cursor + 2] := HexDigit(value as nat % 16);
      next := cursor + 3;
    }
  }

  method EndLine(buffer: array<byte>, cursor: nat)
    requires cursor + 3 == buffer.Length
    modifies buffer
    ensures buffer[..cursor + 2] == old(buffer[..cursor]) + [CR, LF] && buffer[cursor + 2] == 0
  {
    buffer[cursor] := CR;
    buffer[cursor + 1] := LF;
    buffer[cursor + 2] := 0;
  }

  /** Copy the list, then write prefix, path and line end behind it, filling the buffer but for its terminator. */
  method FillLine(buffer: array<byte>, output: seq<byte>, path: seq<byte>)
    requires buffer.Length == |output| + |Line(path)| + 3
    modifies buffer
    ensures buffer[..buffer.Length - 1] == output + (Line(path) + [CR, LF]) && buffer[buffer.Length - 1] == 0
  {
    CopyInto(buffer, 0, output);
    assert buffer[..|output|] == output;
    CopyInto(buffer, |output|, PREFIX);
    ghost var start := |output| + |PREFIX|;
    assert buffer[..start] == buffer[..|output|] + buffer[|output|..start];
    var cursor := WritePath(buffer, |output| + |PREFIX|, path);
    ghost var written := buffer[..cursor];
    assert written == (output + PREFIX) + Encode(path);
    EndLine(buffer, cursor);
    assert (output + PREFIX) + Encode(path) + [CR, LF] == output + (Line(path) + [CR, LF]);
  }

  /**
    Append one file to a list. The buffer is sized by the first pass, filled exactly by the
    second, and terminated; a refused path leaves the list as it was.
   */
  method AppendFileUri(output: seq<byte>, path: seq<byte>) returns (status: Status, r: seq<byte>)
    ensures status == Ok <==> path != [] && path[0] == SLASH && |output| + |Line(path)| + 2 <= URI_LIMIT
    ensures status == Ok ==> r == output + (Line(path) + [CR, LF])
    ensures status != Ok ==>
      r == output && status == if path == [] || path[0] != SLASH then InvalidArgument else LimitExceeded
  {
    if path == [] || path[0] != SLASH {
      return InvalidArgument, output;
    }
    var encoded := SizeOf(path);
    var overhead := |PREFIX| + 2;
    if |output| > URI_LIMIT || overhead > URI_LIMIT - |output| || encoded > URI_LIMIT - |output| - overhead {
      return LimitExceeded, output;
    }
    var required := |output| + |PREFIX| + encoded + 2;
    var buffer := new byte[required + 1];
    FillLine(buffer, output, path);
    return Ok, buffer[..required];
  }

  /** The list of all files, or nothing at all when one path is refused. */
  method PrintAll(paths: seq<seq<byte>>) returns (status: Status, output: seq<byte>)
    ensures status == Ok ==> output == Printed(paths) && |output| <= URI_LIMIT
    ensures status == Ok <==> (forall i | 0 <= i < |paths| :: Absolute(paths[i])) && |Printed(paths)| <= URI_LIMIT
  {
    output := [];
    var index := 0;
    while index < |paths|
      invariant 0 <= index <= |paths| && output == Printed(paths[..index]) && |output| <= URI_LIMIT
      invariant forall i | 0 <= i < index :: Absolute(paths[i])
    {
      PrintedMore(paths[..index], paths[index]);
      assert paths[..index] + [paths[index]] == paths[..index + 1];
      PrintedGrows(paths, index + 1);
      status, output := AppendFileUri(output, paths[index]);
      if status != Ok {
        return;
      }
      index := index + 1;
    }
    assert paths[..index] == paths;
    status := Ok;
  }

  lemma {:induction false} PrintedGrows(paths: seq<seq<byte>>, n: nat)
    requires n <= |paths|
    ensures |Printed(paths[..n])| <= |Printed(paths)|
  {
    if n > 0 {
      PrintedGrows(paths[1..], n - 1);
      assert paths[..n][1..] == paths[1..][..n - 1];
    }
  }

  // --- Reading one line ---

  function HexValue(b: byte): int {
    if 48 <= b <= 57 then b as int - 48
    else if 97 <= b <= 102 then b as int - 87
    else if 65 <= b <= 70 then b as int - 55
    else -1
  }

  /** NUL, CR and LF may not appear in a path, encoded or not. */
  predicate Forbidden(b: byte) { b == 0 || b == CR || b == LF }

  function Prepend(b: byte, rest: Option<seq<byte>>): Option<seq<byte>> {
    if Forbidden(b) || rest.None? then None else Some([b] + rest.value)
  }

  function Decode(s: seq<byte>): Option<seq<byte>> {
    if s == [] then Some([])
    else if s[0] != PERCENT then Prepend(s[0], Decode(s[1..]))
    else if |s| < 3 || HexValue(s[1]) < 0 || HexValue(s[2]) < 0 then None
    else Prepend((HexValue(s[1]) * 16 + HexValue(s[2])) as byte, Decode(s[3..]))
  }

  lemma HexDigitValue(n: nat)
    requires n < 16
    ensures HexValue(HexDigit(n)) == n
  {
  }

  lemma DecodeByte(b: byte, rest: seq<byte>)
    ensures Decode(EncodeByte(b) + rest) == Prepend(b, Decode(rest))
  {
    var s := EncodeByte(b) + rest;
    if Safe(b) {
      assert s[1..] == rest;
    } else {
      HexDigitValue(b as nat / 16);
      HexDigitValue(b as nat % 16);
      assert s[3..] == rest;
      assert b as int == (b as nat / 16) * 16 + b as nat % 16;
    }
  }

  predicate Clean(path: seq<byte>) { forall i | 0 <= i < |path| :: !Forbidden(path[i]) }

  /** Decoding undoes encoding, exactly on the paths free of NUL, CR and LF. */
  lemma {:induction false} DecodeEncode(path: seq<byte>)
    ensures Decode(Encode(path)) == if Clean(path) then Some(path) else None
  {
    if path != [] {
      DecodeByte(path[0], Encode(path[1..]));
      DecodeEncode(path[1..]);
      CleanTail(path);
      assert [path[0]] + path[1..] == path;
    }
  }

  lemma CleanTail(path: seq<byte>)
    requires path != []
    ensures Clean(path) <==> !Forbidden(path[0]) && Clean(path[1..])
  {
    if !Forbidden(path[0]) && Clean(path[1..]) {
      forall i | 0 <= i < |path| ensures !Forbidden(path[i]) {
        assert i > 0 ==> path[i] == path[1..][i - 1];
      }
    }
  }

  datatype Uri = File(path: seq<byte>) | Bad(status: Status)

  function OfPath(encoded: seq<byte>): Uri {
    match Decode(encoded)
    case None => Bad(ProtocolError)
    case Some(path) => File(path)
  }

  /** Local file URIs only: no authority, or exactly "localhost". */
  function DecodeUri(line: seq<byte>): Uri {
    if |line| <= |PREFIX| || line[..|PREFIX|] != PREFIX then Bad(Unsupported)
    else
      var rest := line[|PREFIX|..];
      if rest[0] == SLASH then OfPath(rest)
      else if |rest| > |LOCALHOST| && rest[..|LOCALHOST|] == LOCALHOST && rest[|LOCALHOST|] == SLASH then
        OfPath(rest[|LOCALHOST|..])
      else Bad(Unsupported)
  }

  /** A printed line reads back as its path exactly when the path is clean. */
  lemma LineRoundTrip(path: seq<byte>)
    requires path != [] && path[0] == SLASH
    ensures DecodeUri(Line(path)) == if Clean(path) then File(path) else Bad(ProtocolError)
  {
    assert Line(path)[..|PREFIX|] == PREFIX && Line(path)[|PREFIX|..] == Encode(path);
    DecodeEncode(path);
    assert EncodeByte(path[0]) == [SLASH];
  }

  method IndexOf(s: seq<byte>, b: byte) returns (at: Option<nat>)
    ensures at.Some? ==> at.value < |s| && s[at.value] == b && b !in s[..at.value]
    ensures at.None? ==> b !in s
  {
    var index := 0;
    while index < |s|
      invariant 0 <= index <= |s| && b !in s[..index]
    {
      if s[index] == b {
        return Some(index);
      }
      index := index + 1;
    }
    return None;
  }

  /** Whether the text up to the first slash is "localhost". */
  lemma AuthorityIs(rest: seq<byte>, at: Option<nat>)
    requires at.Some? ==> at.value < |rest| && rest[at.value] == SLASH && SLASH !in rest[..at.value]
    requires at.None? ==> SLASH !in rest
    ensures (|rest| > |LOCALHOST| && rest[..|LOCALHOST|] == LOCALHOST && rest[|LOCALHOST|] == SLASH)
      <==> (at == Some(|LOCALHOST|) && rest[..|LOCALHOST|] == LOCALHOST)
  {
    if |rest| > |LOCALHOST| && rest[..|LOCALHOST|] == LOCALHOST && rest[|LOCALHOST|] == SLASH {
      assert rest[|LOCALHOST|] in rest;
      assert forall i | 0 <= i < |LOCALHOST| :: rest[..|LOCALHOST|][i] != SLASH;
      assert forall i | 0 <= i < |LOCALHOST| :: rest[i] != SLASH;
      assert forall i | 0 <= i < at.value :: rest[..at.value][i] != SLASH;
      assert forall i | 0 <= i < at.value :: rest[i] != SLASH;
    }
  }

  function Onto(head: seq<byte>, rest: Option<seq<byte>>): Option<seq<byte>> {
    if rest.None? then None else Some(head + rest.value)
  }

  lemma OntoNothing(rest: Option<seq<byte>>)
    ensures Onto([], rest) == rest
  {
    if rest.Some? {
      assert [] + rest.value == rest.value;
    }
  }

  lemma OntoMore(head: seq<byte>, b: byte, rest: Option<seq<byte>>)
    ensures Onto(head, Prepend(b, rest)) == if Forbidden(b) then None else Onto(head + [b], rest)
  {
    if rest.Some? {
      assert head + ([b] + rest.value) == (head + [b]) + rest.value;
    }
  }

  /** Undo percent-encoding with an input and an output cursor. */
  method Unescape(encoded: seq<byte>) returns (path: Option<seq<byte>>)
    ensures path == Decode(encoded)
  {
    var decoded: seq<byte> := [];
    var input := 0;
    assert encoded[0..] == encoded;
    OntoNothing(Decode(encoded));
    while input < |encoded|
      invariant 0 <= input <= |encoded|
      invariant Decode(encoded) == Onto(decoded, Decode(encoded[input..]))
    {
      ghost var rest := encoded[input..];
      var value := encoded[input];
      input := input + 1;
      if value == PERCENT {
        if input + 1 >= |encoded| {
          return None;
        }
        var high, low := HexValue(encoded[input]), HexValue(encoded[input + 1]);
        assert encoded[input] == rest[1] && encoded[input + 1] == rest[2];
        if high < 0 || low < 0 {
          return None;
        }
        value := (high * 16 + low) as byte;
        input := input + 2;
        assert rest[3..] == encoded[input..];
      } else {
        assert rest[1..] == encoded[input..];
      }
      OntoMore(decoded, value, Decode(encoded[input..]));
      if Forbidden(value) {
        return None;
      }
      decoded := decoded + [value];
    }
    assert encoded[input..] == [] && decoded + [] == decoded;
    return Some(decoded);
  }

  method ReadUri(line: seq<byte>) returns (uri: Uri)
    ensures uri == DecodeUri(line)
  {
    if |line| <= |PREFIX| || line[..|PREFIX|] != PREFIX {
      return Bad(Unsupported);
    }
    var encoded := line[|PREFIX|..];
    if encoded[0] != SLASH {
      var slash := IndexOf(encoded, SLASH);
      AuthorityIs(encoded, slash);
      if slash.None? || slash.value != |LOCALHOST| || encoded[..slash.value] != LOCALHOST {
        return Bad(Unsupported);
      }
      encoded := encoded[slash.value..];
    }
    var path := Unescape(encoded);
    if path.None? {
      return Bad(ProtocolError);
    }
    return File(path.value);
  }

  // --- Splitting lines ---

  /** Where the first line ends. */
  function LineEnd(data: seq<byte>): (n: nat)
    ensures n <= |data|
  {
    if data == [] || data[0] == LF then 0 else 1 + LineEnd(data[1..])
  }

  /** The text of a line without its carriage return. */
  function Trim(line: seq<byte>): seq<byte> {
    if line != [] && line[|line| - 1] == CR then line[..|line| - 1] else line
  }

  predicate Blank(line: seq<byte>) { line == [] || line[0] == HASH }

  function After(data: seq<byte>): seq<byte> {
    if LineEnd(data) < |data| then data[LineEnd(data) + 1..] else []
  }

  /** The lines of a list, without blank lines and comments. */
  function Lines(data: seq<byte>): seq<seq<byte>>
    decreases |data|
  {
    if data == [] then []
    else
      var line := Trim(data[..LineEnd(data)]);
      (if Blank(line) then [] else [line]) + Lines(After(data))
  }

  lemma {:induction false} LineEndIs(data: seq<byte>, n: nat)
    requires n <= |data| && LF !in data[..n] && (n < |data| ==> data[n] == LF)
    ensures LineEnd(data) == n
  {
    if n > 0 {
      assert data[0] in data[..n];
      forall b | b in data[1..][..n - 1] ensures b in data[..n] {
        var i :| 0 <= i < n - 1 && data[1..][i] == b;
        assert data[..n][i + 1] == b;
      }
      LineEndIs(data[1..], n - 1);
    }
  }

  lemma {:induction false} EncodeHasNoBreaks(path: seq<byte>)
    ensures LF !in Encode(path)
  {
    if path != [] {
      EncodeHasNoBreaks(path[1..]);
      assert LF !in EncodeByte(path[0]);
    }
  }

  /** A printed line splits off as it is, whatever the path. */
  lemma FirstLine(path: seq<byte>, rest: seq<byte>)
    ensures Lines(Line(path) + [CR, LF] + rest) == [Line(path)] + Lines(rest)
  {
    var data, n := Line(path) + [CR, LF] + rest, |Line(path)| + 1;
    EncodeHasNoBreaks(path);
    assert data[..n] == Line(path) + [CR];
    LineEndIs(data, n);
    assert After(data) == rest;
    assert Trim(data[..n]) == Line(path);
  }

  function AllLines(paths: seq<seq<byte>>): seq<seq<byte>> {
    if paths == [] then [] else [Line(paths[0])] + AllLines(paths[1..])
  }

  lemma {:induction false} PrintedSplits(paths: seq<seq<byte>>)
    ensures Lines(Printed(paths)) == AllLines(paths)
  {
    if paths != [] {
      PrintedSplits(paths[1..]);
      FirstLine(paths[0], Printed(paths[1..]));
    }
  }

  function DecodeAll(lines: seq<seq<byte>>): seq<Uri> {
    if lines == [] then [] else [DecodeUri(lines[0])] + DecodeAll(lines[1..])
  }

  function AllFiles(paths: seq<seq<byte>>): seq<Uri> {
    if paths == [] then [] else [File(paths[0])] + AllFiles(paths[1..])
  }

  predicate Absolute(path: seq<byte>) { path != [] && path[0] == SLASH }

  /** Printing any list of clean absolute paths, splitting it and decoding every line gives the list back. */
  lemma {:induction false} ListRoundTrip(paths: seq<seq<byte>>)
    requires forall i | 0 <= i < |paths| :: Absolute(paths[i]) && Clean(paths[i])
    ensures DecodeAll(Lines(Printed(paths))) == AllFiles(paths)
  {
    PrintedSplits(paths);
    if paths != [] {
      LineRoundTrip(paths[0]);
      PrintedSplits(paths[1..]);
      ListRoundTrip(paths[1..]);
      assert AllLines(paths)[1..] == AllLines(paths[1..]);
    }
  }

  // --- Import ---

  datatype Entry = Entry(name: seq<byte>, size: nat)

  /** What opening a path gives: a status, and the size of a regular file. */
  datatype Probe = Probe(status: Status, size: nat)

  type Disk = seq<byte> -> Probe

  datatype Result<T> = Good(value: T) | Failed(status: Status)

  function Basename(path: seq<byte>): seq<byte> {
    if path == [] || path[|path| - 1] == SLASH then []
    else Basename(path[..|path| - 1]) + [path[|path| - 1]]
  }

  /** The text after the last slash. */
  lemma {:induction false} BasenameIsTail(path: seq<byte>)
    ensures var name := Basename(path);
      && |name| <= |path| && name == path[|path| - |name|..] && SLASH !in name
      && (|name| < |path| ==> path[|path| - |name| - 1] == SLASH)
  {
    if path != [] && path[|path| - 1] != SLASH {
      BasenameIsTail(path[..|path| - 1]);
    }
  }

  function ImportFile(line: seq<byte>, disk: Disk): Result<Entry> {
    match DecodeUri(line)
    case Bad(status) => Failed(status)
    case File(path) =>
      var name := Basename(path);
      if name == [] then Failed(Unsupported)
      else if |name| > NAME_LIMIT then Failed(LimitExceeded)
      else if disk(path).status != Ok then Failed(disk(path).status)
      else Good(Entry(name, disk(path).size))
  }

  type Taker = seq<byte> -> Result<Entry>

  function Importer(disk: Disk): Taker { line => ImportFile(line, disk) }

  ghost predicate Serves(take: Taker, disk: Disk) {
    forall line {:trigger ImportFile(line, disk)} :: take(line) == ImportFile(line, disk)
  }

  /** What is taken from the first `n` lines, or the first failure. */
  function Collect(lines: seq<seq<byte>>, n: nat, take: Taker): Result<seq<Entry>>
    requires n <= |lines|
  {
    if n == 0 then Good([])
    else
      match Collect(lines, n - 1, take)
      case Failed(status) => Failed(status)
      case Good(entries) =>
        if |entries| >= FILE_LIMIT then Failed(LimitExceeded)
        else
          match take(lines[n - 1])
          case Failed(status) => Failed(status)
          case Good(entry) => Good(entries + [entry])
  }

  lemma StaysFailed(lines: seq<seq<byte>>, more: seq<seq<byte>>, take: Taker)
    requires lines <= more && Collect(lines, |lines|, take).Failed?
    ensures Collect(more, |more|, take) == Collect(lines, |lines|, take)
  {
    SamePrefix(lines, more, |lines|, take);
    FailureLasts(more, |lines|, |more|, take);
  }

  lemma {:induction false} FailureLasts(lines: seq<seq<byte>>, n: nat, m: nat, take: Taker)
    requires n <= m <= |lines| && Collect(lines, n, take).Failed?
    ensures Collect(lines, m, take) == Collect(lines, n, take)
  {
    if n < m {
      FailureLasts(lines, n, m - 1, take);
    }
  }

  lemma {:induction false} SamePrefix(lines: seq<seq<byte>>, more: seq<seq<byte>>, n: nat, take: Taker)
    requires n <= |lines| && lines <= more
    ensures Collect(more, n, take) == Collect(lines, n, take)
  {
    if n > 0 {
      SamePrefix(lines, more, n - 1, take);
    }
  }

  /** One more line. */
  lemma CollectMore(done: seq<seq<byte>>, line: seq<byte>, entries: seq<Entry>, take: Taker)
    requires Collect(done, |done|, take) == Good(entries)
    ensures Collect(done + [line], |done| + 1, take) ==
      if |entries| >= FILE_LIMIT then Failed(LimitExceeded)
      else if take(line).Failed? then Failed(take(line).status)
      else Good(entries + [take(line).value])
  {
    SamePrefix(done, done + [line], |done|, take);
  }

  /** What one more line does to the whole list. */
  lemma LineTaken(all: seq<seq<byte>>, done: seq<seq<byte>>, line: seq<byte>, left: seq<seq<byte>>,
                  entries: seq<Entry>, take: Taker)
    requires all == done + ([line] + left) && Collect(done, |done|, take) == Good(entries)
    ensures all == (done + [line]) + left && |done + [line]| == |done| + 1
    ensures if |entries| < FILE_LIMIT && take(line).Good?
      then Collect(done + [line], |done + [line]|, take) == Good(entries + [take(line).value])
      else Collect(all, |all|, take) == Failed(if |entries| >= FILE_LIMIT then LimitExceeded else take(line).status)
  {
    CollectMore(done, line, entries, take);
    if |entries| >= FILE_LIMIT || take(line).Failed? {
      StaysFailed(done + [line], all, take);
    }
  }

  /** The whole list, with at least one file in it. */
  function ImportAll(data: seq<byte>, disk: Disk): Result<seq<Entry>> {
    var lines := Lines(data);
    match Collect(lines, |lines|, Importer(disk))
    case Failed(status) => Failed(status)
    case Good(entries) => if entries == [] then Failed(Unsupported) else Good(entries)
  }

  /** The files shared on the clipboard; every entry holds one open descriptor. */
  class ClipboardFiles {
    var entries: seq<Entry>
    var generation: nat
    ghost var descriptors: nat

    ghost predicate Valid()
      reads this
    {
      descriptors == |entries|
    }

    constructor ()
      ensures Valid() && entries == [] && generation == 0
    {
      entries, generation, descriptors := [], 0, 0;
    }

    /** Open one file; a failure leaves no descriptor behind. */
    method OpenEntry(line: seq<byte>, disk: Disk) returns (r: Result<Entry>)
      modifies this`descriptors
      ensures r == ImportFile(line, disk)
      ensures descriptors == old(descriptors) + if r.Good? then 1 else 0
    {
      var uri := ReadUri(line);
      if uri.Bad? {
        return Failed(uri.status);
      }
      var name := Basename(uri.path);
      if name == [] {
        return Failed(Unsupported);
      }
      if |name| > NAME_LIMIT {
        return Failed(LimitExceeded);
      }
      var probe := disk(uri.path);
      if probe.status != Ok {
        return Failed(probe.status);
      }
      descriptors := descriptors + 1;
      return Good(Entry(name, probe.size));
    }

    /** Read every line into temporary entries, up to the first failure. */
    method ReadEntries(data: seq<byte>, disk: Disk, ghost take: Taker) returns (status: Status, pending: seq<Entry>)
      requires Serves(take, disk)
      modifies this`descriptors
      ensures descriptors == old(descriptors) + |pending|
      ensures var r := Collect(Lines(data), |Lines(data)|, take);
        if status == Ok then r == Good(pending) else r == Failed(status)
    {
      status, pending := Ok, [];
      var offset := 0;
      ghost var done: seq<seq<byte>> := [];
      assert data[0..] == data && done + Lines(data) == Lines(data);
      while offset < |data|
        invariant 0 <= offset <= |data| && status == Ok
        invariant Lines(data) == done + Lines(data[offset..])
        invariant Collect(done, |done|, take) == Good(pending)
        invariant descriptors == old(descriptors) + |pending|
      {
        status, offset, pending, done := ReadLine(data, offset, pending, disk, done, take);
        if status != Ok {
          return;
        }
      }
      assert data[offset..] == [] && done + [] == done;
    }

    /** One turn of the loop: skip a blank line, or take the file of the next one. */
    method ReadLine(data: seq<byte>, offset: nat, pending: seq<Entry>, disk: Disk,
                    ghost done: seq<seq<byte>>, ghost take: Taker)
      returns (status: Status, next: nat, r: seq<Entry>, ghost more: seq<seq<byte>>)
      requires Serves(take, disk) && offset < |data|
      requires Lines(data) == done + Lines(data[offset..]) && Collect(done, |done|, take) == Good(pending)
      modifies this`descriptors
      ensures descriptors + |pending| == old(descriptors) + |r|
      ensures offset < next <= |data|
      ensures status == Ok ==> Lines(data) == more + Lines(data[next..]) && Collect(more, |more|, take) == Good(r)
      ensures status != Ok ==> Collect(Lines(data), |Lines(data)|, take) == Failed(status)
    {
      var line;
      line, next := TakeLine(data, offset);
      status, r, more := Ok, pending, done;
      if Blank(line) {
        return;
      }
      LineTaken(Lines(data), done, line, Lines(data[next..]), pending, take);
      status, r := TakeEntry(line, pending, disk, take);
      more := done + [line];
    }

    /** The line at `offset` without its end, and where the next one starts. */
    method TakeLine(data: seq<byte>, offset: nat) returns (line: seq<byte>, next: nat)
      requires offset < |data|
      ensures offset < next <= |data|
      ensures Blank(line) ==> Lines(data[offset..]) == Lines(data[next..])
      ensures !Blank(line) ==> Lines(data[offset..]) == [line] + Lines(data[next..])
    {
      var end := ScanLine(data, offset);
      ghost var rest := data[offset..];
      assert data[offset..end] == rest[..end - offset];
      LineEndIs(rest, end - offset);
      next := if end < |data| then end + 1 else end;
      assert After(rest) == data[next..];
      line := Trim(data[offset..end]);
      assert [] + Lines(data[next..]) == Lines(data[next..]);
    }

    /** One more entry, unless the table is full or the file cannot be taken. */
    method TakeEntry(line: seq<byte>, pending: seq<Entry>, disk: Disk, ghost take: Taker)
      returns (status: Status, r: seq<Entry>)
      requires Serves(take, disk)
      modifies this`descriptors
      ensures descriptors + |pending| == old(descriptors) + |r|
      ensures status == Ok <==> |pending| < FILE_LIMIT && take(line).Good?
      ensures r == if status == Ok then pending + [take(line).value] else pending
      ensures status != Ok ==> status == if |pending| >= FILE_LIMIT then LimitExceeded else take(line).status
    {
      if |pending| >= FILE_LIMIT {
        return LimitExceeded, pending;
      }
      FailureIsReal(line, disk);
      var entry := OpenEntry(line, disk);
      if entry.Failed? {
        return entry.status, pending;
      }
      return Ok, pending + [entry.value];
    }

    method ScanLine(data: seq<byte>, start: nat) returns (end: nat)
      requires start <= |data|
      ensures start <= end <= |data| && LF !in data[start..end] && (end < |data| ==> data[end] == LF)
    {
      end := start;
      while end < |data| && data[end] != LF
        invariant start <= end <= |data| && LF !in data[start..end]
      {
        end := end + 1;
      }
    }

    /**
      Replace the shared files by those of a list, as a whole or not at all. `encode` is the
      outcome of encoding the file descriptors for the wire.
     */
    method ImportUriList(data: seq<byte>, ownership: nat, disk: Disk, encode: seq<Entry> -> Status)
      returns (status: Status)
      requires Valid()
      modifies this
      ensures Valid()
      ensures status == Ok <==>
        && 0 < |data| <= URI_LIMIT && ownership != 0
        && ImportAll(data, disk).Good? && encode(ImportAll(data, disk).value) == Ok
      ensures status == Ok ==> entries == ImportAll(data, disk).value && generation == ownership
      ensures status != Ok ==> entries == old(entries) && generation == old(generation)
    {
      if data == [] || |data| > URI_LIMIT || ownership == 0 {
        return InvalidArgument;
      }
      var pending;
      status, pending := ReadEntries(data, disk, Importer(disk));
      if status == Ok && pending == [] {
        status := Unsupported;
      }
      if status == Ok {
        status := encode(pending);
      }
      if status != Ok {
        descriptors := descriptors - |pending|;
        return;
      }
      descriptors := descriptors - |entries|;
      entries, generation := pending, ownership;
    }
  }

  lemma FailureIsReal(line: seq<byte>, disk: Disk)
    ensures ImportFile(line, disk).Failed? ==> ImportFile(line, disk).status != Ok
  {
  }

  // --- A printed list imports as the files it was printed from ---

  /** A path that names a file the import can take. */
  predicate Importable(path: seq<byte>, disk: Disk) {
    Absolute(path) && Clean(path) && 0 < |Basename(path)| <= NAME_LIMIT && disk(path).status == Ok
  }

  function EntriesOf(paths: seq<seq<byte>>, n: nat, disk: Disk): (r: seq<Entry>)
    requires n <= |paths|
    ensures |r| == n
  {
    if n == 0 then [] else EntriesOf(paths, n - 1, disk) + [Entry(Basename(paths[n - 1]), disk(paths[n - 1]).size)]
  }

  lemma {:induction false} AllLinesAt(paths: seq<seq<byte>>, i: nat)
    requires i < |paths|
    ensures |AllLines(paths)| == |paths| && AllLines(paths)[i] == Line(paths[i])
  {
    if i > 0 {
      AllLinesAt(paths[1..], i - 1);
    } else if |paths| > 1 {
      AllLinesAt(paths[1..], 0);
    }
  }

  lemma {:induction false} CollectGood(lines: seq<seq<byte>>, entries: seq<Entry>, n: nat, take: Taker)
    requires n <= |lines| == |entries| <= FILE_LIMIT
    requires forall i | 0 <= i < |lines| :: take(lines[i]) == Good(entries[i])
    ensures Collect(lines, n, take) == Good(entries[..n])
  {
    if n > 0 {
      CollectGood(lines, entries, n - 1, take);
      assert entries[..n] == entries[..n - 1] + [entries[n - 1]];
    }
  }

  lemma CollectAllGood(lines: seq<seq<byte>>, entries: seq<Entry>, take: Taker)
    requires |lines| == |entries| <= FILE_LIMIT
    requires forall i | 0 <= i < |lines| :: take(lines[i]) == Good(entries[i])
    ensures Collect(lines, |lines|, take) == Good(entries)
  {
    CollectGood(lines, entries, |lines|, take);
    assert entries[..|lines|] == entries;
  }

  lemma {:induction false} EntriesOfAt(paths: seq<seq<byte>>, n: nat, disk: Disk, i: nat)
    requires i < n <= |paths|
    ensures EntriesOf(paths, n, disk)[i] == Entry(Basename(paths[i]), disk(paths[i]).size)
  {
    if i < n - 1 {
      EntriesOfAt(paths, n - 1, disk, i);
    }
  }

  lemma ImportPrintedAt(paths: seq<seq<byte>>, disk: Disk, i: nat)
    requires i < |paths| && Importable(paths[i], disk)
    ensures |AllLines(paths)| == |paths|
    ensures Importer(disk)(AllLines(paths)[i]) == Good(EntriesOf(paths, |paths|, disk)[i])
  {
    AllLinesAt(paths, i);
    EntriesOfAt(paths, |paths|, disk, i);
    ImportPrintedLine(paths[i], disk);
  }

  lemma ImportPrintedLine(path: seq<byte>, disk: Disk)
    requires Importable(path, disk)
    ensures ImportFile(Line(path), disk) == Good(Entry(Basename(path), disk(path).size))
  {
    LineRoundTrip(path);
  }

  /** Up to the file limit, importing a printed list shares exactly those files, in order. */
  lemma ImportPrinted(paths: seq<seq<byte>>, disk: Disk)
    requires 0 < |paths| <= FILE_LIMIT && forall i | 0 <= i < |paths| :: Importable(paths[i], disk)
    ensures ImportAll(Printed(paths), disk) == Good(EntriesOf(paths, |paths|, disk))
  {
    PrintedSplits(paths);
    AllLinesAt(paths, 0);
    var lines, entries := AllLines(paths), EntriesOf(paths, |paths|, disk);
    forall i | 0 <= i < |lines| ensures Importer(disk)(lines[i]) == Good(entries[i]) {
      ImportPrintedAt(paths, disk, i);
    }
    CollectAllGood(lines, entries, Importer(disk));
  }
}
