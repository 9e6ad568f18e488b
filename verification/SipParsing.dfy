/** What the SIP parser makes of any bytes: where the header ends, how it falls into lines, which
    packets are refused, and that packets with bare line feeds parse like printed ones. */
module SipParsing {
  import opened Wrappers
  import opened Text
  import opened SipMessage

  ghost predicate Absent(s: string, sub: string) {
    forall i: int :: !OccursAt(s, sub, i)
  }

  ghost predicate FirstAt(s: string, sub: string, k: int) {
    OccursAt(s, sub, k) && forall i | 0 <= i < k :: !OccursAt(s, sub, i)
  }

  lemma IndexMeans(s: string, sub: string, k: int)
    ensures FirstAt(s, sub, k) <==> 0 <= k && Index(s, sub) == k
    ensures Absent(s, sub) <==> Index(s, sub) < 0
  {
    var found := Index(s, sub);
    if found >= 0 {
      FoundIsFirst(s, sub, 0);
      if FirstAt(s, sub, k) { FindFromFirst(s, sub, 0, k); }
    } else {
      NoneFound(s, sub, 0);
    }
  }

  lemma {:induction false} FoundIsFirst(s: string, sub: string, i: nat)
    requires i <= |s| && FindFrom(s, sub, i) >= 0
    ensures forall j | i <= j < FindFrom(s, sub, i) :: !OccursAt(s, sub, j)
    decreases |s| - i
  {
    if !OccursAt(s, sub, i) { FoundIsFirst(s, sub, i + 1); }
  }

  lemma {:induction false} NoneFound(s: string, sub: string, i: nat)
    requires i <= |s| && FindFrom(s, sub, i) < 0
    ensures forall j | i <= j :: !OccursAt(s, sub, j)
    decreases |s| - i
  {
    if i < |s| { NoneFound(s, sub, i + 1); }
  }

  // --- Where the header ends ---

  /** At the first blank line, or, in a packet without one, at the first empty bare line. */
  ghost predicate HeaderIs(raw: string, header: string, body: string) {
    || (raw == header + BLANK_LINE + body && FirstAt(raw, BLANK_LINE, |header|))
    || (Absent(raw, BLANK_LINE) && raw == header + "\n\n" + body && FirstAt(raw, "\n\n", |header|))
  }

  lemma CutAt(raw: string, sub: string, k: nat)
    requires OccursAt(raw, sub, k)
    ensures raw == raw[..k] + sub + raw[k + |sub|..] && |raw[..k]| == k
  {}

  lemma CutApart(header: string, sub: string, body: string)
    ensures var raw := header + sub + body;
      raw[..|header|] == header && raw[|header| + |sub|..] == body
  {}

  /** Any packet: its parts are these exactly when its header ends there, and it is refused exactly when
      it is empty or has no blank line of either kind. */
  lemma SplitIff(raw: string, header: string, body: string)
    ensures SplitHeaderBody(raw) == Ok(Parts(header, body)) <==> HeaderIs(raw, header, body)
    ensures SplitHeaderBody(raw) == Err(EmptyPacket) <==> raw == ""
    ensures SplitHeaderBody(raw) == Err(NoDelimiter) <==>
            raw != "" && Absent(raw, BLANK_LINE) && Absent(raw, "\n\n")
  {
    hide Index, OccursAt;
    var k, m := Index(raw, BLANK_LINE), Index(raw, "\n\n");
    IndexMeans(raw, BLANK_LINE, |header|);
    IndexMeans(raw, "\n\n", |header|);
    if k >= 0 { CutAt(raw, BLANK_LINE, k); }
    if m >= 0 { CutAt(raw, "\n\n", m); }
    CutApart(header, BLANK_LINE, body);
    CutApart(header, "\n\n", body);
  }

  // --- Lines ---

  /** The text is these pieces with the separator between them, and no piece holds it. */
  ghost predicate Pieces(s: string, sep: string, pieces: seq<string>) {
    pieces != [] && Join(pieces, sep) == s && forall i | 0 <= i < |pieces| :: Absent(pieces[i], sep)
  }

  predicate IsBreak(sep: string) {
    |sep| == 1 || (|sep| == 2 && sep[0] != sep[1])
  }

  lemma OccursWithin(a: string, rest: string, sub: string, i: int)
    requires i + |sub| <= |a|
    ensures OccursAt(a + rest, sub, i) <==> OccursAt(a, sub, i)
  {
    if 0 <= i { assert (a + rest)[i..i + |sub|] == a[i..i + |sub|]; }
  }

  lemma OccursNext(s: string, sub: string, i: nat)
    requires 2 <= |sub| && i + 1 < |s|
    ensures OccursAt(s, sub, i) ==> s[i + 1] == sub[1]
  {
    if OccursAt(s, sub, i) { assert s[i..i + |sub|][1] == s[i + 1]; }
  }

  lemma FirstBreak(a: string, sep: string, rest: string)
    requires IsBreak(sep) && Absent(a, sep)
    ensures FirstAt(a + sep + rest, sep, |a|)
  {
    var all := a + sep + rest;
    assert all[|a|..|a| + |sep|] == sep;
    forall i | 0 <= i < |a| ensures !OccursAt(all, sep, i) {
      if i + |sep| <= |a| {
        assert all == a + (sep + rest);
        OccursWithin(a, sep + rest, sep, i);
      } else {
        OccursNext(all, sep, i);
        assert all[|a|] == sep[0];
      }
    }
  }

  lemma {:induction false} SplitPieces(s: string, sep: string)
    requires sep != ""
    ensures Pieces(s, sep, Split(s, sep))
    decreases |s|
  {
    var k := Index(s, sep);
    IndexMeans(s, sep, k);
    if k >= 0 {
      CutAt(s, sep, k);
      SplitPieces(s[k + |sep|..], sep);
      var tail := Split(s[k + |sep|..], sep);
      assert Split(s, sep) == [s[..k]] + tail && (([s[..k]] + tail)[1..]) == tail;
      assert Absent(s[..k], sep) by { HeadAbsent(s, sep, k); }
    }
  }

  lemma HeadAbsent(s: string, sep: string, k: nat)
    requires sep != "" && FirstAt(s, sep, k)
    ensures Absent(s[..k], sep)
  {
    forall i: int ensures !OccursAt(s[..k], sep, i) {
      if 0 <= i && i + |sep| <= k {
        assert s[..k] + s[k..] == s;
        OccursWithin(s[..k], s[k..], sep, i);
      }
    }
  }

  lemma {:induction false} PiecesSplit(s: string, sep: string, pieces: seq<string>)
    requires IsBreak(sep) && Pieces(s, sep, pieces)
    ensures Split(s, sep) == pieces
    decreases |pieces|
  {
    if |pieces| == 1 {
      IndexMeans(s, sep, 0);
      assert pieces == [s];
    } else {
      var rest := Join(pieces[1..], sep);
      FirstBreak(pieces[0], sep, rest);
      IndexMeans(s, sep, |pieces[0]|);
      CutApart(pieces[0], sep, rest);
      PiecesSplit(rest, sep, pieces[1..]);
      assert [pieces[0]] + pieces[1..] == pieces;
    }
  }

  ghost predicate LinesAre(header: string, lines: seq<string>) {
    Pieces(header, if Absent(header, CRLF) then "\n" else CRLF, lines)
  }

  /** The header falls into lines at CRLF, or at bare line feeds when it holds no CRLF. */
  lemma LinesIff(header: string, lines: seq<string>)
    ensures SplitLines(header) == lines <==> LinesAre(header, lines)
  {
    hide Split, Pieces;
    IndexMeans(header, CRLF, 0);
    var sep := if Absent(header, CRLF) then "\n" else CRLF;
    assert SplitLines(header) == Split(header, sep);
    SplitPieces(header, sep);
    if Pieces(header, sep, lines) { PiecesSplit(header, sep, lines); }
  }

  // --- Requests and responses ---

  ghost predicate NoSpace(s: string) { Absent(s, " ") }

  lemma SplitThree(a: string, b: string, c: string)
    requires NoSpace(a) && NoSpace(b)
    ensures Split3(a + " " + b + " " + c, " ") == [a, b, c]
  {
    var rest := b + " " + c;
    assert a + " " + b + " " + c == a + " " + rest;
    FirstBreak(a, " ", rest);
    IndexMeans(a + " " + rest, " ", |a|);
    CutApart(a, " ", rest);
    FirstBreak(b, " ", c);
    IndexMeans(rest, " ", |b|);
    CutApart(b, " ", c);
  }

  lemma SplitTwo(a: string, b: string)
    requires NoSpace(a) && NoSpace(b)
    ensures Split3(a + " " + b, " ") == [a, b]
  {
    FirstBreak(a, " ", b);
    assert a + " " + b == a + " " + b + "";
    IndexMeans(a + " " + b, " ", |a|);
    CutApart(a, " ", b);
    IndexMeans(b, " ", 0);
  }

  lemma SplitOne(a: string)
    requires NoSpace(a)
    ensures Split3(a, " ") == [a]
  {
    IndexMeans(a, " ", 0);
  }

  ghost predicate Packet(raw: string, lines: seq<string>, body: string) {
    exists header :: HeaderIs(raw, header, body) && LinesAre(header, lines)
  }

  lemma PacketParses(raw: string, lines: seq<string>, body: string)
    requires Packet(raw, lines, body)
    ensures lines != []
    ensures RequestOf(raw) == RequestFrom(Split3(TrimSpace(lines[0]), " "), HeadersOf(lines[1..]), body)
    ensures ResponseOf(raw) == ResponseFrom(Split3(TrimSpace(lines[0]), " "), HeadersOf(lines[1..]), body)
  {
    var header :| HeaderIs(raw, header, body) && LinesAre(header, lines);
    SplitIff(raw, header, body);
    LinesIff(header, lines);
    ParsedFromParts(raw, header, body, lines);
  }

  /** Any packet whose first line holds two words and a rest is a request: the first word in capitals,
      the others trimmed, the header lines' map, and the body up to the declared length. */
  lemma RequestParsed(raw: string, lines: seq<string>, body: string, a: string, b: string, c: string)
    requires Packet(raw, lines, body) && lines != []
    requires TrimSpace(lines[0]) == a + " " + b + " " + c && NoSpace(a) && NoSpace(b)
    ensures var headers := HeadersOf(lines[1..]);
      RequestOf(raw) == Ok(Request(Upper(TrimSpace(a)), TrimSpace(b), TrimSpace(c), headers, DeclaredBody(headers, body)))
  {
    hide TrimSpace, HeadersOf, DeclaredBody, Split3, Upper, RequestOf, ResponseOf, Packet, NoSpace;
    PacketParses(raw, lines, body);
    SplitThree(a, b, c);
  }

  /** Fewer words make no request. */
  lemma RequestRefused(raw: string, lines: seq<string>, body: string, a: string, b: string)
    requires Packet(raw, lines, body) && lines != [] && NoSpace(a) && NoSpace(b)
    requires TrimSpace(lines[0]) == a || TrimSpace(lines[0]) == a + " " + b
    ensures RequestOf(raw) == Err(BadStartLine)
  {
    hide TrimSpace, HeadersOf, DeclaredBody, Split3, RequestOf, ResponseOf, Packet, NoSpace;
    PacketParses(raw, lines, body);
    if TrimSpace(lines[0]) == a { SplitOne(a); } else { SplitTwo(a, b); }
  }

  /** A status line needs a number as its second word; the reason may be missing. */
  lemma ResponseParsed(raw: string, lines: seq<string>, body: string, a: string, b: string, c: string)
    requires Packet(raw, lines, body) && lines != [] && NoSpace(a) && NoSpace(b)
    requires TrimSpace(lines[0]) == a + " " + b + " " + c || (c == "" && TrimSpace(lines[0]) == a + " " + b)
    ensures var headers, code := HeadersOf(lines[1..]), Atoi(TrimSpace(b));
      ResponseOf(raw) ==
      if code.None? then Err(BadStatusCode)
      else Ok(Response(TrimSpace(a), code.value, TrimSpace(c), headers, DeclaredBody(headers, body)))
  {
    assert TrimSpace("") == "";
    hide TrimSpace, HeadersOf, DeclaredBody, Split3, RequestOf, ResponseOf, Packet, NoSpace, Atoi;
    PacketParses(raw, lines, body);
    if TrimSpace(lines[0]) == a + " " + b + " " + c { SplitThree(a, b, c); } else { SplitTwo(a, b); }
  }

  lemma ResponseRefused(raw: string, lines: seq<string>, body: string)
    requires Packet(raw, lines, body) && lines != [] && NoSpace(TrimSpace(lines[0]))
    ensures ResponseOf(raw) == Err(BadStartLine)
  {
    hide TrimSpace, HeadersOf, DeclaredBody, Split3, RequestOf, ResponseOf, Packet, NoSpace;
    PacketParses(raw, lines, body);
    SplitOne(TrimSpace(lines[0]));
  }

  /** A length that is there cuts the body; one that is missing, unreadable, negative or too long does not. */
  lemma DeclaredBodyIff(headers: map<string, string>, body: string, n: int)
    requires -MAX_INT64 - 1 <= n <= MAX_INT64
    ensures "content-length" !in headers ==> DeclaredBody(headers, body) == body
    ensures "content-length" in headers && Trimmed(headers["content-length"]) ==>
      var text := headers["content-length"];
      && (text == Itoa(n) ==> DeclaredBody(headers, body) == if 0 <= n <= |body| then body[..n] else body)
      && (text == "" || !AllDigits(text[1..]) ==> DeclaredBody(headers, body) == body)
  {
    assert TrimSpace("") == "" && Atoi("").None?;
    AtoiItoa(n);
    if "content-length" in headers && Trimmed(headers["content-length"]) {
      TrimSpaceTrims(headers["content-length"]);
    }
  }

  // --- Bare line feeds ---

  lemma {:induction false} JoinClean(lines: seq<string>, sep: string)
    requires AreLines(lines) && '\r' !in sep
    ensures '\r' !in Join(lines, sep)
  {
    if |lines| > 1 { JoinClean(lines[1..], sep); }
  }

  lemma {:induction false} JoinBare(lines: seq<string>, body: string)
    requires lines != []
    ensures Join(lines + ["", body], "\n") == Join(lines, "\n") + "\n\n" + body
  {
    var all := lines + ["", body];
    if |lines| == 1 {
      assert all == [lines[0], "", body] && all[1..] == ["", body] && ["", body][1..] == [body];
      assert Join(["", body], "\n") == "\n" + body;
    } else {
      assert all[1..] == lines[1..] + ["", body];
      JoinBare(lines[1..], body);
    }
  }

  lemma {:induction false} NoEarlyEmptyLine(lines: seq<string>, tail: string, j: nat)
    requires AreLines(lines) && j < |Join(lines, "\n")|
    ensures !OccursAt(Join(lines, "\n") + "\n\n" + tail, "\n\n", j)
  {
    var first, all := lines[0], Join(lines, "\n") + "\n\n" + tail;
    if OccursAt(all, "\n\n", j) {
      assert all[j] == '\n' && all[j + 1] == '\n';
      if |lines| > 1 {
        var rest := Join(lines[1..], "\n") + "\n\n" + tail;
        assert all == first + "\n" + rest;
        assert rest[0] == lines[1][0];
        if j >= |first| + 1 {
          assert rest[j - |first| - 1..][..2] == all[j..][..2] == all[j..j + 2];
          NoEarlyEmptyLine(lines[1..], tail, j - |first| - 1);
        }
      }
    }
  }

  // A blank line can only lie in the body of such a packet.
  lemma BlankLineInBody(header: string, body: string)
    requires '\r' !in header
    ensures Absent(header + "\n\n" + body, BLANK_LINE) <==> Absent(body, BLANK_LINE)
  {
    var raw, n := header + "\n\n" + body, |header| + 2;
    forall i: int ensures OccursAt(raw, BLANK_LINE, i) <==> i >= n && OccursAt(body, BLANK_LINE, i - n) {
      if OccursAt(raw, BLANK_LINE, i) {
        assert raw[i] == '\r';
        assert raw[i..i + 4] == body[i - n..i - n + 4];
      }
      if i >= n && OccursAt(body, BLANK_LINE, i - n) {
        assert raw[i..i + 4] == body[i - n..i - n + 4];
      }
    }
    if !Absent(body, BLANK_LINE) {
      var i :| OccursAt(body, BLANK_LINE, i);
      assert OccursAt(raw, BLANK_LINE, i + n);
    }
  }

  /** Lines ended by bare line feeds are read as the lines of a printed message, with the same body, if
      and only if no blank line with carriage returns lies in the body. */
  lemma BareFeedsIff(lines: seq<string>, body: string)
    requires AreLines(lines)
    ensures SplitHeaderBody(Join(lines + ["", body], "\n")) == Ok(Parts(Join(lines, "\n"), body)) <==>
            Absent(body, BLANK_LINE)
    ensures SplitLines(Join(lines, "\n")) == lines
  {
    var header := Join(lines, "\n");
    var raw := header + "\n\n" + body;
    JoinBare(lines, body);
    JoinClean(lines, "\n");
    BlankLineInBody(header, body);
    assert FirstAt(raw, "\n\n", |header|) by {
      assert raw[|header|..|header| + 2] == "\n\n";
      forall j | 0 <= j < |header| ensures !OccursAt(raw, "\n\n", j) {
        NoEarlyEmptyLine(lines, body, j);
      }
    }
    SplitIff(raw, header, body);
    OccursHead(raw, BLANK_LINE, |header|);
    BareLines(lines);
  }

  lemma AbsentChar(s: string, sub: string)
    requires sub != "" && sub[0] !in s
    ensures Absent(s, sub)
  {
    forall i: int ensures !OccursAt(s, sub, i) {
      if 0 <= i < |s| { OccursHead(s, sub, i); }
    }
  }

  lemma BareLines(lines: seq<string>)
    requires AreLines(lines)
    ensures SplitLines(Join(lines, "\n")) == lines
  {
    var header := Join(lines, "\n");
    JoinClean(lines, "\n");
    AbsentChar(header, CRLF);
    forall i | 0 <= i < |lines| ensures Absent(lines[i], "\n") {
      assert IsLine(lines[i]);
      AbsentChar(lines[i], "\n");
    }
    LinesIff(header, lines);
  }

  /** A request or response sent with bare line feeds parses like the one with CRLF. */
  lemma BareFeedsParse(lines: seq<string>, body: string)
    requires AreLines(lines) && |lines| > 1 && Absent(body, BLANK_LINE)
    ensures RequestOf(Join(lines + ["", body], "\n")) == RequestOf(Join(lines + ["", body], CRLF))
    ensures ResponseOf(Join(lines + ["", body], "\n")) == ResponseOf(Join(lines + ["", body], CRLF))
  {
    hide *;
    BareFeedsIff(lines, body);
    SplitPrinted(lines, body);
    SplitLinesOfJoin(lines);
    ParsedFromParts(Join(lines + ["", body], "\n"), Join(lines, "\n"), body, lines);
    ParsedFromParts(Join(lines + ["", body], CRLF), Join(lines, CRLF), body, lines);
  }
}
