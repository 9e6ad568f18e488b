/** Reading SIP packets off a byte stream (RFC 3261, sections 7.5, 18.3 and 20.14). */
module SipFraming {
  import opened Wrappers
  import opened Text
  import opened SipMessage
  import opened SipRequests
  import opened SipResponses

  datatype Taken = Taken(text: string, rest: string)

  // The bytes up to and including the next line feed; None when the stream ends first.
  function TakeLine(stream: string): (r: Option<Taken>)
    ensures r.Some? ==> |r.value.rest| < |stream|
  {
    var k := Index(stream, "\n");
    if k < 0 then None else Some(Taken(stream[..k + 1], stream[k + 1..]))
  }

  /** A line ends with the first line feed, and without one there is none to take. */
  lemma LineTaken(line: string, rest: string)
    requires '\n' !in line
    ensures TakeLine(line + "\n" + rest) == Some(Taken(line + "\n", rest)) && TakeLine(line) == None
  {
    IndexAfter(line, "\n", rest);
    IndexAbsent(line, "\n");
    assert (line + "\n" + rest)[..|line| + 1] == line + "\n";
  }

  // The content length known after one more line.
  function LengthAfter(line: string, known: nat): nat {
    var trimmed := TrimSpace(line);
    if !HasPrefix(Lower(trimmed), "content-length:") then known
    else
      var digits := TrimSpace(TrimPrefix(TrimSpace(TrimPrefix(trimmed, "Content-Length:")), "content-length:"));
      var v := Atoi(digits);
      if v.Some? && v.value >= 0 then v.value else known
  }

  datatype HeaderBlock = HeaderBlock(text: string, length: nat, rest: string)

  // Lines up to and including the first blank one.
  function TakeHeaders(stream: string, known: nat): Option<HeaderBlock>
    decreases |stream|
  {
    var line := TakeLine(stream);
    if line.None? then None
    else
      var length := LengthAfter(line.value.text, known);
      if TrimSpace(line.value.text) == "" then Some(HeaderBlock(line.value.text, length, line.value.rest))
      else
        var more := TakeHeaders(line.value.rest, length);
        if more.None? then None
        else Some(HeaderBlock(line.value.text + more.value.text, more.value.length, more.value.rest))
  }

  function TakePacket(stream: string): (r: Option<Taken>)
  {
    var first := TakeLine(stream);
    if first.None? then None
    else
      var headers := TakeHeaders(first.value.rest, 0);
      if headers.None? || |headers.value.rest| < headers.value.length then None
      else
        var h := headers.value;
        Some(Taken(first.value.text + h.text + h.rest[..h.length], h.rest[h.length..]))
  }

  lemma {:induction false} HeadersShrink(stream: string, known: nat)
    ensures var h := TakeHeaders(stream, known); h.Some? ==> |h.value.rest| <= |stream|
    decreases |stream|
  {
    var line := TakeLine(stream);
    if line.Some? && TrimSpace(line.value.text) != "" {
      HeadersShrink(line.value.rest, LengthAfter(line.value.text, known));
    }
  }

  lemma PacketShrinks(stream: string)
    ensures TakePacket(stream).Some? ==> |TakePacket(stream).value.rest| < |stream|
  {
    var first := TakeLine(stream);
    if first.Some? { HeadersShrink(first.value.rest, 0); }
  }

  // All packets until the first read error.
  function TakeAll(stream: string): seq<string>
    decreases |stream|
  {
    PacketShrinks(stream);
    var p := TakePacket(stream);
    if p.None? then [] else [p.value.text] + TakeAll(p.value.rest)
  }

  // `whole` is `read` followed by what `more` goes on to read.
  ghost predicate Continues(whole: Option<HeaderBlock>, read: string, more: Option<HeaderBlock>) {
    if more.None? then whole.None?
    else whole == Some(HeaderBlock(read + more.value.text, more.value.length, more.value.rest))
  }

  lemma ContinuesStep(whole: Option<HeaderBlock>, read: string, stream: string, known: nat)
    requires Continues(whole, read, TakeHeaders(stream, known))
    ensures var line := TakeLine(stream);
      if line.None? then whole.None?
      else
        var text, length := line.value.text, LengthAfter(line.value.text, known);
        if TrimSpace(text) == "" then whole == Some(HeaderBlock(read + text, length, line.value.rest))
        else Continues(whole, read + text, TakeHeaders(line.value.rest, length))
  {
    hide TrimSpace, LengthAfter, TakeLine;
    var line := TakeLine(stream);
    if line.Some? && TrimSpace(line.value.text) != "" {
      var more := TakeHeaders(line.value.rest, LengthAfter(line.value.text, known));
      if more.Some? {
        assert read + (line.value.text + more.value.text) == read + line.value.text + more.value.text;
      }
    }
  }

  // The buffered reader of one connection; `rest` is what has not been read yet.
  class Reader {
    var rest: string

    constructor (stream: string)
      ensures rest == stream
    {
      rest := stream;
    }

    method ReadString() returns (line: Option<string>)
      modifies this
      ensures var t := TakeLine(old(rest));
        if t.None? then line.None? else line == Some(t.value.text) && rest == t.value.rest
    {
      var k := Index(rest, "\n");
      if k < 0 {
        rest := "";
        return None;
      }
      line := Some(rest[..k + 1]);
      rest := rest[k + 1..];
    }

    // The loop over header lines.
    method ReadHeaders() returns (text: Option<string>, length: nat)
      modifies this
      ensures var h := TakeHeaders(old(rest), 0);
        if h.None? then text.None? else text == Some(h.value.text) && length == h.value.length && rest == h.value.rest
    {
      var buffer := "";
      length := 0;
      ghost var headers := TakeHeaders(rest, 0);
      assert headers.Some? ==> "" + headers.value.text == headers.value.text;
      while true
        invariant Continues(headers, buffer, TakeHeaders(rest, length))
        decreases |rest|
      {
        ContinuesStep(headers, buffer, rest, length);
        var line := ReadString();
        if line.None? { return None, 0; }
        buffer := buffer + line.value;
        length := LengthAfter(line.value, length);
        if TrimSpace(line.value) == "" { return Some(buffer), length; }
      }
    }

    /** Reads one packet, or reports the error of a stream that ends too early. */
    method ReadPacket() returns (packet: Option<string>)
      modifies this
      ensures var t := TakePacket(old(rest));
        if t.None? then packet.None? else packet == Some(t.value.text) && rest == t.value.rest
    {
      var first := ReadString();
      if first.None? { return None; }
      var text, length := ReadHeaders();
      if text.None? || |rest| < length { return None; }
      packet := Some(first.value + text.value + rest[..length]);
      rest := rest[length..];
    }

    /** The connection's read loop: packets until the first error. */
    method ReadAll() returns (packets: seq<string>)
      modifies this
      ensures packets == TakeAll(old(rest))
    {
      packets := [];
      ghost var stream := rest;
      while true
        invariant TakeAll(stream) == packets + TakeAll(rest)
        decreases |rest|
      {
        PacketShrinks(rest);
        var packet := ReadPacket();
        if packet.None? { break; }
        packets := packets + [packet.value];
      }
    }
  }

  // --- Packets whose lines end in CRLF ---

  function Lines(lines: seq<string>): string {
    if lines == [] then "" else lines[0] + CRLF + Lines(lines[1..])
  }

  function Head(start: string, lines: seq<string>): string {
    start + CRLF + (Lines(lines) + CRLF)
  }

  function Packet(start: string, lines: seq<string>, body: string): string {
    Head(start, lines) + body
  }

  predicate NoLineFeed(s: string) { forall i | 0 <= i < |s| :: s[i] != '\n' }

  // A header line the reader does not take for the blank line.
  predicate IsHeaderLine(s: string) {
    NoLineFeed(s) && TrimSpace(s + CRLF) != ""
  }

  function DeclaredLength(lines: seq<string>, known: nat): nat {
    if lines == [] then known else DeclaredLength(lines[1..], LengthAfter(lines[0] + CRLF, known))
  }

  lemma TakeLineOf(line: string, rest: string)
    requires NoLineFeed(line)
    ensures TakeLine(line + CRLF + rest) == Some(Taken(line + CRLF, rest))
  {
    var head := line + "\r";
    assert line + CRLF + rest == head + "\n" + rest;
    IndexAfter(head, "\n", rest);
    assert (head + "\n" + rest)[..|head| + 1] == head + "\n" == line + CRLF;
  }

  lemma BlankLine(known: nat)
    ensures TrimSpace(CRLF) == "" && LengthAfter(CRLF, known) == known
  {}

  predicate AreHeaderLines(lines: seq<string>) {
    forall i | 0 <= i < |lines| :: IsHeaderLine(lines[i])
  }

  lemma HeaderLineTaken(line: string, more: string, known: nat, h: HeaderBlock)
    requires IsHeaderLine(line) && TakeHeaders(more, LengthAfter(line + CRLF, known)) == Some(h)
    ensures TakeHeaders(line + CRLF + more, known) == Some(HeaderBlock(line + CRLF + h.text, h.length, h.rest))
  {
    TakeLineOf(line, more);
  }

  lemma {:induction false} TakeHeadersOf(lines: seq<string>, rest: string, known: nat)
    requires AreHeaderLines(lines)
    ensures TakeHeaders(Lines(lines) + CRLF + rest, known) ==
      Some(HeaderBlock(Lines(lines) + CRLF, DeclaredLength(lines, known), rest))
  {
    if lines == [] {
      NoHeaders(rest, known);
    } else {
      var next, more := LengthAfter(lines[0] + CRLF, known), Lines(lines[1..]) + CRLF;
      TakeHeadersOf(lines[1..], rest, next);
      HeaderLineTaken(lines[0], more + rest, known, HeaderBlock(more, DeclaredLength(lines[1..], next), rest));
      LinesCons(lines, rest);
    }
  }

  lemma NoHeaders(rest: string, known: nat)
    ensures TakeHeaders(Lines([]) + CRLF + rest, known) == Some(HeaderBlock(Lines([]) + CRLF, known, rest))
  {
    assert Lines([]) + CRLF == "" + CRLF == CRLF;
    TakeLineOf("", rest);
    BlankLine(known);
  }

  lemma LinesCons(lines: seq<string>, rest: string)
    requires lines != []
    ensures Lines(lines) + CRLF == lines[0] + CRLF + (Lines(lines[1..]) + CRLF)
    ensures Lines(lines) + CRLF + rest == lines[0] + CRLF + (Lines(lines[1..]) + CRLF + rest)
  {}

  lemma PacketTaken(start: string, lines: seq<string>, after: string, stream: string)
    requires NoLineFeed(start) && AreHeaderLines(lines) && stream == start + CRLF + (Lines(lines) + CRLF + after)
    ensures var n, head := DeclaredLength(lines, 0), start + CRLF + (Lines(lines) + CRLF);
      TakePacket(stream) == if |after| < n then None else Some(Taken(head + after[..n], after[n..]))
  {
    var block := Lines(lines) + CRLF;
    TakeLineOf(start, block + after);
    TakeHeadersOf(lines, after, 0);
    PacketFrom(stream, Taken(start + CRLF, block + after), HeaderBlock(block, DeclaredLength(lines, 0), after));
  }

  /** Whatever the body holds, reading returns exactly the packet and leaves exactly what follows it
      if and only if the length the reader finds in the header lines is the body's length. */
  lemma FramingExact(start: string, lines: seq<string>, body: string, tail: string)
    requires NoLineFeed(start) && AreHeaderLines(lines)
    ensures TakePacket(Packet(start, lines, body) + tail) == Some(Taken(Packet(start, lines, body), tail))
      <==> DeclaredLength(lines, 0) == |body|
  {
    var head, n, after := Head(start, lines), DeclaredLength(lines, 0), body + tail;
    var r := if |after| < n then None else Some(Taken(head + after[..n], after[n..]));
    assert TakePacket(head + body + tail) == r by {
      assert head + body + tail == start + CRLF + (Lines(lines) + CRLF + after);
      PacketTaken(start, lines, after, head + body + tail);
    }
    SamePacket(head, body, tail, n);
  }

  lemma SamePacket(head: string, body: string, tail: string, n: nat)
    ensures var after := body + tail;
      (n <= |after| && Taken(head + after[..n], after[n..]) == Taken(head + body, tail)) <==> n == |body|
  {}

  lemma PacketFrom(stream: string, first: Taken, h: HeaderBlock)
    requires TakeLine(stream) == Some(first) && TakeHeaders(first.rest, 0) == Some(h)
    ensures TakePacket(stream) ==
      if |h.rest| < h.length then None else Some(Taken(first.text + h.text + h.rest[..h.length], h.rest[h.length..]))
  {}

  // --- What length a header line declares ---

  lemma LengthPrefix(name: string, rest: string)
    requires ':' !in name
    ensures HasPrefix(Lower(name + ":" + rest), "content-length:") <==> Lower(name) == "content-length"
  {
    var low, tail := Lower(name + ":" + rest), Lower(rest);
    assert low == Lower(name) + ":" + tail;
    IndexAfter(Lower(name), ":", tail);
    if HasPrefix(low, "content-length:") {
      var more := low[15..];
      assert low == low[..15] + more == "content-length" + ":" + more;
      IndexAfter("content-length", ":", more);
    }
  }

  lemma TrimFieldLineEnd(f: Field)
    requires ValidField(f)
    ensures TrimSpace(FieldLine(f) + CRLF) == TrimSpace(FieldLine(f)) != ""
  {
    TrimFieldLine(f);
    if f.value == "" {
      var colon := f.name + ":";
      assert Trimmed(colon);
      assert FieldLine(f) + CRLF == colon + [' '] + ['\r'] + ['\n'];
      TrimRightSpace(colon + [' '] + ['\r'], '\n');
      TrimRightSpace(colon + [' '], '\r');
      TrimRightSpace(colon, ' ');
      assert LeadingSpace(FieldLine(f) + CRLF) == 0 && LeadingSpace(FieldLine(f)) == 0;
    } else {
      FieldLineTrimmed(f);
      TrimLineEnd(FieldLine(f));
    }
  }

  lemma OtherLine(f: Field, known: nat)
    requires ValidField(f) && Lower(f.name) != "content-length"
    ensures LengthAfter(FieldLine(f) + CRLF, known) == known
  {
    TrimFieldLineEnd(f);
    TrimFieldLine(f);
    LengthPrefix(f.name, if f.value == "" then "" else " " + f.value);
  }

  lemma LengthNameStart(name: string)
    requires Lower(TrimSpace(name)) == "content-length"
    ensures var t := TrimLeft(name);
      TrimSpace(t) == TrimSpace(name) && TrimSpace(name) <= t && |t| >= 14 && (t[0] == 'c' || t[0] == 'C')
  {
    var t, word := TrimLeft(name), TrimSpace(name);
    TrimRightIsPrefix(t);
    assert |word| == |Lower(word)| == 14 && word[0] == t[0];
    assert LowerChar(word[0]) == Lower(word)[0] == 'c';
    TrimLeftIdempotent(name);
  }

  // The text of a length line whose name may have white space around it.
  lemma TrimLengthLine(name: string, digits: string)
    requires Solid(digits) && TrimLeft(name) != "" && 33 <= TrimLeft(name)[0] as int <= 126
    ensures var line, whole := FieldLine(Field(name, digits)), TrimLeft(name) + ":" + (" " + digits);
      TrimSpace(line + CRLF) == TrimSpace(line) == whole
  {
    hide TrimLeft, LeadingSpace;
    var t, rest := TrimLeft(name), ": " + digits;
    var whole := t + rest;
    assert whole == t + ":" + (" " + digits);
    assert TrimRight(whole) == whole;
    assert FieldLine(Field(name, digits)) == name + rest;
    TrimLeftJoin(name, rest);
    assert name + rest + CRLF == name + (rest + CRLF) && t + (rest + CRLF) == whole + ['\r'] + ['\n'];
    TrimLeftJoin(name, rest + CRLF);
    TrimRightSpace(whole + ['\r'], '\n');
    TrimRightSpace(whole, '\r');
  }

  /** Of the names the parser takes for the length header, which may have white space around them and
      any mix of cases, the reader honours exactly two: the spellings it strips, the colon next to them. */
  lemma SpellingsIff(name: string, n: nat, known: nat, headers: map<string, string>)
    requires ':' !in name && Lower(TrimSpace(name)) == "content-length" && n <= MAX_INT64 && known != n
    ensures WithHeader(headers, FieldLine(Field(name, Itoa(n)))) == WithEntry(headers, "content-length", Itoa(n))
    ensures LengthAfter(FieldLine(Field(name, Itoa(n))) + CRLF, known) == n
      <==> TrimLeft(name) == "Content-Length" || TrimLeft(name) == "content-length"
  {
    hide TrimLeft, TrimRight, TrimSpace, Lower, HasPrefix, TrimPrefix, WithLine, WithEntry, Atoi;
    var t, digits := TrimLeft(name), Itoa(n);
    ItoaSolid(n);
    LengthNameStart(name);
    TrimLengthLine(name, digits);
    TrimLeftIsPart(name);
    ParsedLength(headers, t, digits);
    LengthPrefix(t, " " + digits);
    LowerSpellings();
    if t == "Content-Length" || t == "content-length" {
      StrippedLength(t, digits);
      AtoiItoa(n);
    } else if Lower(t) == "content-length" {
      UnstrippedLength(t, digits);
    }
  }

  lemma ParsedLength(headers: map<string, string>, name: string, digits: string)
    requires ':' !in name && Lower(TrimSpace(name)) == "content-length" && name != "" && Solid(digits)
    ensures WithLine(headers, name + ":" + (" " + digits)) == WithEntry(headers, "content-length", digits)
  {
    IndexAfter(name, ":", " " + digits);
    TrimAsciiSpace(digits, ' ');
  }

  lemma LowerSpellings()
    ensures Lower("Content-Length") == Lower("content-length") == "content-length"
  {}

  function Stripped(trimmed: string): string {
    TrimSpace(TrimPrefix(TrimSpace(TrimPrefix(trimmed, "Content-Length:")), "content-length:"))
  }

  lemma StrippedLength(name: string, digits: string)
    requires name == "Content-Length" || name == "content-length"
    requires Solid(digits) && IsDigit(digits[0])
    ensures Stripped(name + ":" + (" " + digits)) == digits
  {
    hide TrimLeft, TrimRight, TrimSpace, Lower, Atoi;
    var trimmed := name + ":" + (" " + digits);
    TrimAsciiSpace(digits, ' ');
    TrimSpaceTrims(digits);
    if name == "Content-Length" {
      assert trimmed[..15] == "Content-Length:" && trimmed[15..] == [' '] + digits;
      assert digits[0] != "content-length:"[0];
    } else {
      assert trimmed[0] != "Content-Length:"[0];
      assert trimmed[..15] == "content-length:" && trimmed[15..] == [' '] + digits;
      SolidAround("content-length:", " ", digits);
      assert trimmed == "content-length:" + " " + digits;
      TrimSpaceTrims(trimmed);
    }
  }

  lemma UnstrippedLength(name: string, digits: string)
    requires Lower(name) == "content-length" && Solid(digits)
    requires name != "Content-Length" && name != "content-length"
    ensures Atoi(Stripped(name + ":" + (" " + digits))) == None
  {
    var trimmed := name + ":" + (" " + digits);
    assert |name| == |Lower(name)| == 14;
    NamePrefix(name, "Content-Length", " " + digits);
    NamePrefix(name, "content-length", " " + digits);
    assert "Content-Length" + ":" == "Content-Length:" && "content-length" + ":" == "content-length:";
    assert LowerChar(name[0]) == Lower(name)[0] == "content-length"[0] == 'c';
    assert TrimSpace(trimmed) == trimmed by {
      SolidAround(name + ":", " ", digits);
      assert trimmed == name + ":" + " " + digits;
      TrimSpaceTrims(trimmed);
    }
    NotANumber(trimmed);
  }

  lemma NamePrefix(name: string, word: string, rest: string)
    requires |name| == |word|
    ensures HasPrefix(name + ":" + rest, word + ":") <==> name == word
  {
    assert (name + ":" + rest)[..|word| + 1] == name + ":";
    assert (name + ":")[..|word|] == name && (word + ":")[..|word|] == word;
  }

  lemma NotANumber(s: string)
    requires s != "" && !IsDigit(s[0]) && s[0] != '-' && s[0] != '+'
    ensures Atoi(s) == None
  {}

  // --- Printed messages are framed exactly ---

  // Read back exactly, whatever follows on the stream.
  ghost predicate Framed(packet: string) {
    forall tail {:trigger TakePacket(packet + tail)} :: TakePacket(packet + tail) == Some(Taken(packet, tail))
  }

  lemma {:induction false} RenderIsPacket(first: string, lines: seq<string>, body: string)
    ensures Join([first] + lines + ["", body], CRLF) == Packet(first, lines, body)
    decreases |lines|
  {
    var all := [first] + lines + ["", body];
    if lines == [] {
      assert all == [first, "", body] && all[1..] == ["", body] && ["", body][1..] == [body];
      assert Join(["", body], CRLF) == "" + CRLF + body;
      assert Packet(first, [], body) == first + CRLF + ("" + CRLF) + body;
    } else {
      assert all[1..] == [lines[0]] + lines[1..] + ["", body];
      RenderIsPacket(lines[0], lines[1..], body);
      assert Packet(first, lines, body) == first + CRLF + Packet(lines[0], lines[1..], body);
    }
  }

  lemma {:induction false} DeclaredByLast(fields: seq<Field>, body: string, known: nat)
    requires GoodFields(fields) && EndsWithLength(fields, body) && |body| <= MAX_INT64
    ensures DeclaredLength(FieldLines(fields), known) == |body|
    decreases |fields|
  {
    hide LengthAfter, FieldLine, TrimSpace, Lower;
    var lines := FieldLines(fields);
    LowerNames();
    if |fields| == 1 {
      LengthLine(body, known);
      assert lines[1..] == [];
    } else {
      assert Lower(fields[0].name) != Lower(fields[|fields| - 1].name);
      OtherLine(fields[0], known);
      assert lines[1..] == FieldLines(fields[1..]);
      DeclaredByLast(fields[1..], body, known);
    }
  }

  lemma LengthLine(body: string, known: nat)
    requires |body| <= MAX_INT64
    ensures LengthAfter(FieldLine(LengthField(body)) + CRLF, known) == |body|
  {
    var f, digits := LengthField(body), Itoa(|body|);
    LengthFieldValid(body);
    ItoaSolid(|body|);
    LowerNames();
    TrimFieldLineEnd(f);
    TrimFieldLine(f);
    LengthPrefix("Content-Length", " " + digits);
    StrippedLength("Content-Length", digits);
    AtoiItoa(|body|);
  }

  /** A printed message whose last header is the length of its body is framed exactly, whatever
      bytes the body and the rest of the stream hold. */
  lemma PrintedIsFramed(start: string, fields: seq<Field>, body: string)
    requires IsLine(start) && GoodFields(fields) && EndsWithLength(fields, body) && |body| <= MAX_INT64
    ensures Framed(Render(start, fields, body))
  {
    var lines := FieldLines(fields);
    RenderIsPacket(start, lines, body);
    assert AreHeaderLines(lines) by {
      forall i | 0 <= i < |lines| ensures IsHeaderLine(lines[i]) { FieldIsHeaderLine(fields[i]); }
    }
    DeclaredByLast(fields, body, 0);
    forall tail ensures TakePacket(Render(start, fields, body) + tail) == Some(Taken(Render(start, fields, body), tail)) {
      FramingExact(start, lines, body, tail);
    }
  }

  lemma FieldIsHeaderLine(f: Field)
    requires ValidField(f)
    ensures IsHeaderLine(FieldLine(f))
  {
    FieldLineIsLine(f);
    TrimFieldLineEnd(f);
  }

  function Concat(packets: seq<string>): string {
    if packets == [] then "" else packets[0] + Concat(packets[1..])
  }

  lemma TakeAllStep(stream: string, p: Taken)
    requires TakePacket(stream) == Some(p)
    ensures TakeAll(stream) == [p.text] + TakeAll(p.rest)
  {}

  // Reading `packets` one after the other from `stream` leaves `rest`.
  ghost predicate Yields(stream: string, packets: seq<string>, rest: string)
    decreases |packets|
  {
    if packets == [] then stream == rest
    else
      var p := TakePacket(stream);
      p.Some? && p.value.text == packets[0] && Yields(p.value.rest, packets[1..], rest)
  }

  lemma {:induction false} YieldsAll(stream: string, packets: seq<string>, rest: string)
    requires Yields(stream, packets, rest)
    ensures TakeAll(stream) == packets + TakeAll(rest)
    decreases |packets|
  {
    if packets != [] {
      var p := TakePacket(stream).value;
      TakeAllStep(stream, p);
      YieldsAll(p.rest, packets[1..], rest);
      ConsApp(packets, TakeAll(rest));
    } else {
      assert packets + TakeAll(rest) == TakeAll(rest);
    }
  }

  lemma ConsApp(packets: seq<string>, more: seq<string>)
    requires packets != []
    ensures packets + more == [packets[0]] + (packets[1..] + more)
  {}

  lemma {:induction false} PacketsYield(packets: seq<string>, tail: string)
    requires forall i | 0 <= i < |packets| :: Framed(packets[i])
    ensures Yields(Concat(packets) + tail, packets, tail)
  {
    if packets == [] {
      assert Concat(packets) + tail == tail;
    } else {
      var rest := Concat(packets[1..]) + tail;
      assert Concat(packets) + tail == packets[0] + rest;
      assert Framed(packets[0]) && TakePacket(packets[0] + rest) == Some(Taken(packets[0], rest));
      PacketsYield(packets[1..], tail);
    }
  }

  /** Reading a concatenation of framed packets returns exactly those packets, in order, and goes
      on with exactly the bytes that follow them. */
  lemma StreamOfPackets(packets: seq<string>, tail: string)
    requires forall i | 0 <= i < |packets| :: Framed(packets[i])
    ensures Yields(Concat(packets) + tail, packets, tail)
    ensures TakeAll(Concat(packets) + tail) == packets + TakeAll(tail)
  {
    PacketsYield(packets, tail);
    YieldsAll(Concat(packets) + tail, packets, tail);
  }

  /** Every request builder prints a framed packet. */
  lemma CatalogIsFramed(cfg: Config, transport: string, deviceId: string, host: string, port: int, body: string,
                        callId: string, branch: string, tag: string, cseq: int)
    requires CleanConfig(cfg) && Clean(transport) && Clean(branch) && OneLine(callId) && OneLine(tag)
    requires UriPart(deviceId) && UriPart(host) && |body| <= MAX_INT64
    ensures Framed(CatalogRequest(cfg, transport, deviceId, host, port, body, callId, branch, tag, cseq))
  {
    hide Render, GoodFields, EndsWithLength, Framed, TrimSpace, IsLine, RequestLine, CatalogFields, InviteFields, DialogFields;
    CatalogGood(cfg, transport, deviceId, body, callId, branch, tag, cseq);
    RequestLineIsLine("MESSAGE", deviceId, host, port);
    PrintedIsFramed(RequestLine("MESSAGE", deviceId, host, port),
                    CatalogFields(cfg, transport, deviceId, body, callId, branch, tag, cseq), body);
  }

  lemma RequestLineIsLine(verb: string, id: string, host: string, port: int)
    requires IsVerb(verb) && UriPart(id) && UriPart(host)
    ensures IsLine(RequestLine(verb, id, host, port))
  {
    hide RequestLine, TrimSpace, Split3;
    RequestLineStarts(verb, id, host, port);
  }

  lemma InviteIsFramed(cfg: Config, transport: string, deviceId: string, channelId: string, host: string, port: int, body: string,
                       callId: string, tag: string, branch: string, cseq: int, streamId: string)
    requires CleanConfig(cfg) && Clean(transport) && Clean(branch) && OneLine(callId) && OneLine(tag)
    requires UriPart(channelId) && UriPart(host) && |body| <= MAX_INT64
    requires OneLine(channelId) && (OneLine(streamId) || TrimSpace(streamId) == "") && Clean(deviceId)
    ensures Framed(InviteRequest(cfg, transport, deviceId, channelId, host, port, body, callId, tag, branch, cseq, streamId))
  {
    hide Render, GoodFields, EndsWithLength, Framed, TrimSpace, IsLine, RequestLine, CatalogFields, InviteFields, DialogFields;
    InviteGood(cfg, transport, deviceId, channelId, body, callId, tag, branch, cseq, streamId);
    RequestLineIsLine("INVITE", channelId, host, port);
    PrintedIsFramed(RequestLine("INVITE", channelId, host, port),
                    InviteFields(cfg, transport, deviceId, channelId, body, callId, tag, branch, cseq, streamId), body);
  }

  lemma DialogIsFramed(verb: string, cfg: Config, transport: string, channelId: string, host: string, port: int, callId: string,
                       tag: string, toHeader: string, branch: string, cseq: int)
    requires IsVerb(verb) && CleanConfig(cfg) && Clean(transport) && Clean(branch)
    requires OneLine(callId) && OneLine(tag) && Clean(toHeader) && UriPart(channelId) && UriPart(host)
    ensures Framed(Render(RequestLine(verb, channelId, host, port),
                          DialogFields(verb, cfg, transport, channelId, callId, tag, toHeader, branch, cseq), ""))
  {
    hide Render, GoodFields, EndsWithLength, Framed, TrimSpace, IsLine, RequestLine, CatalogFields, InviteFields, DialogFields;
    DialogGood(verb, cfg, transport, channelId, callId, tag, toHeader, branch, cseq);
    RequestLineIsLine(verb, channelId, host, port);
    PrintedIsFramed(RequestLine(verb, channelId, host, port),
                    DialogFields(verb, cfg, transport, channelId, callId, tag, toHeader, branch, cseq), "");
  }

  /** Every printed response is framed too. */
  lemma ResponseIsFramed(headers: map<string, string>, code: int, reason: string, extra: map<string, string>, token: string)
    requires CleanValues(headers, ECHOED) && CleanValues(extra, {"WWW-Authenticate", "Date"}) && IsToken(token)
    requires reason == "" || IsPhrase(reason)
    ensures Framed(BuildResponse(headers, code, reason, extra, token))
  {
    var fields := EchoFields(headers, token) + OwnFields(extra);
    assert IsPhrase(ReasonOf(reason));
    ResponseLineStarts(code, ReasonOf(reason));
    assert GoodFields(fields) by { FieldsGood(headers, extra, token); }
    assert EndsWithLength(fields, "") by { assert Itoa(0) == "0"; }
    PrintedIsFramed("SIP/2.0" + " " + Itoa(code) + " " + ReasonOf(reason), fields, "");
  }
}
