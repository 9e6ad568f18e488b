/** SIP messages (RFC 3261, section 7): the printed form the builders share, the parser, and
    the proof that parsing a printed message gives its parts back. */
module SipMessage {
  import opened Wrappers
  import opened Text

  const CRLF := "\r\n"
  const BLANK_LINE := "\r\n\r\n"

  datatype Request = Request(verb: string, uri: string, version: string, headers: map<string, string>, body: string)

  datatype Response = Response(version: string, code: int, reason: string, headers: map<string, string>, body: string)

  datatype ParseError = EmptyPacket | NoDelimiter | BadStartLine | BadStatusCode

  // --- Parsing ---

  datatype Parts = Parts(header: string, body: string)

  function SplitHeaderBody(raw: string): Result<Parts, ParseError> {
    if raw == "" then Err(EmptyPacket)
    else
      var k := Index(raw, BLANK_LINE);
      if k >= 0 then Ok(Parts(raw[..k], raw[k + 4..]))
      else
        var m := Index(raw, "\n\n");
        if m >= 0 then Ok(Parts(raw[..m], raw[m + 2..])) else Err(NoDelimiter)
  }

  function SplitLines(text: string): seq<string> {
    if Index(text, CRLF) >= 0 then Split(text, CRLF) else Split(text, "\n")
  }

  // Repeated headers are joined with a comma.
  function WithEntry(headers: map<string, string>, key: string, value: string): map<string, string> {
    if key in headers && headers[key] != "" then headers[key := headers[key] + "," + value] else headers[key := value]
  }

  // One header line added to the map; lines without a name are skipped.
  function WithHeader(headers: map<string, string>, rawLine: string): map<string, string> {
    WithLine(headers, TrimSpace(rawLine))
  }

  function WithLine(headers: map<string, string>, line: string): map<string, string> {
    var k := Index(line, ":");
    if k <= 0 then headers
    else
      var key := Lower(TrimSpace(line[..k]));
      if key == "" then headers else WithEntry(headers, key, TrimSpace(line[k + 1..]))
  }

  function HeadersOf(lines: seq<string>): map<string, string> {
    if lines == [] then map[] else WithHeader(HeadersOf(lines[..|lines| - 1]), lines[|lines| - 1])
  }

  method CollectHeaders(lines: seq<string>) returns (headers: map<string, string>)
    ensures headers == HeadersOf(lines)
    ensures forall key :: key in headers <==> key != "" && ValuesUnder(lines, key) != []
    ensures forall key | key in headers :: headers[key] == Listed(ValuesUnder(lines, key))
  {
    headers := map[];
    for i := 0 to |lines|
      invariant headers == HeadersOf(lines[..i])
    {
      var line := TrimSpace(lines[i]);
      assert lines[..i + 1][..i] == lines[..i] && lines[..i + 1][i] == lines[i];
      if line == "" { continue; }
      var k := Index(line, ":");
      if k <= 0 { continue; }
      var key, value := Lower(TrimSpace(line[..k])), TrimSpace(line[k + 1..]);
      if key == "" { continue; }
      if key in headers && headers[key] != "" {
        headers := headers[key := headers[key] + "," + value];
      } else {
        headers := headers[key := value];
      }
    }
    assert lines[..|lines|] == lines;
    AllHeadersHold(lines);
  }

  lemma AllHeadersHold(lines: seq<string>)
    ensures forall key :: key in HeadersOf(lines) <==> key != "" && ValuesUnder(lines, key) != []
    ensures forall key | key in HeadersOf(lines) :: HeadersOf(lines)[key] == Listed(ValuesUnder(lines, key))
  {
    NoNameless(lines);
    forall key | key != ""
      ensures key in HeadersOf(lines) <==> ValuesUnder(lines, key) != []
      ensures key in HeadersOf(lines) ==> HeadersOf(lines)[key] == Listed(ValuesUnder(lines, key))
    {
      HeadersHold(lines, key);
    }
  }

  function Header(headers: map<string, string>, key: string): string {
    if key in headers then headers[key] else ""
  }

  // The body cut to the declared length, when that is a number no larger than what is there.
  function DeclaredBody(headers: map<string, string>, body: string): string {
    var declared := Atoi(TrimSpace(Header(headers, "content-length")));
    if declared.Some? && 0 <= declared.value <= |body| then body[..declared.value] else body
  }

  function RequestFrom(start: seq<string>, headers: map<string, string>, body: string): Result<Request, ParseError> {
    if |start| != 3 then Err(BadStartLine)
    else
      Ok(Request(Upper(TrimSpace(start[0])), TrimSpace(start[1]), TrimSpace(start[2]), headers, DeclaredBody(headers, body)))
  }

  function RequestOf(raw: string): Result<Request, ParseError> {
    var parts := SplitHeaderBody(raw);
    if parts.Err? then Err(parts.error)
    else
      var lines := SplitLines(parts.value.header);
      if lines == [] then Err(EmptyPacket)
      else RequestFrom(Split3(TrimSpace(lines[0]), " "), HeadersOf(lines[1..]), parts.value.body)
  }

  function ResponseFrom(start: seq<string>, headers: map<string, string>, body: string): Result<Response, ParseError> {
    if |start| < 2 then Err(BadStartLine)
    else
      var code := Atoi(TrimSpace(start[1]));
      if code.None? then Err(BadStatusCode)
      else
        Ok(Response(TrimSpace(start[0]), code.value, if |start| == 3 then TrimSpace(start[2]) else "", headers,
                    DeclaredBody(headers, body)))
  }

  function ResponseOf(raw: string): Result<Response, ParseError> {
    var parts := SplitHeaderBody(raw);
    if parts.Err? then Err(parts.error)
    else
      var lines := SplitLines(parts.value.header);
      if lines == [] then Err(EmptyPacket)
      else ResponseFrom(Split3(TrimSpace(lines[0]), " "), HeadersOf(lines[1..]), parts.value.body)
  }

  method ParseRequest(raw: string) returns (r: Result<Request, ParseError>)
    ensures r == RequestOf(raw)
  {
    var parts := SplitHeaderBody(raw);
    if parts.Err? { return Err(parts.error); }
    var lines := SplitLines(parts.value.header);
    if |lines| == 0 { return Err(EmptyPacket); }
    var start := Split3(TrimSpace(lines[0]), " ");
    if |start| != 3 { return Err(BadStartLine); }
    var headers := CollectHeaders(lines[1..]);
    r := Ok(Request(Upper(TrimSpace(start[0])), TrimSpace(start[1]), TrimSpace(start[2]), headers,
                    DeclaredBody(headers, parts.value.body)));
  }

  method ParseResponse(raw: string) returns (r: Result<Response, ParseError>)
    ensures r == ResponseOf(raw)
  {
    var parts := SplitHeaderBody(raw);
    if parts.Err? { return Err(parts.error); }
    var lines := SplitLines(parts.value.header);
    if |lines| == 0 { return Err(EmptyPacket); }
    var start := Split3(TrimSpace(lines[0]), " ");
    if |start| < 2 { return Err(BadStartLine); }
    var code := Atoi(TrimSpace(start[1]));
    if code.None? { return Err(BadStatusCode); }
    var headers := CollectHeaders(lines[1..]);
    r := Ok(Response(TrimSpace(start[0]), code.value, if |start| == 3 then TrimSpace(start[2]) else "", headers,
                     DeclaredBody(headers, parts.value.body)));
  }

  // --- Printing ---

  datatype Field = Field(name: string, value: string)

  function FieldLine(f: Field): string { f.name + ": " + f.value }

  function FieldLines(fields: seq<Field>): seq<string> {
    seq(|fields|, i requires 0 <= i < |fields| => FieldLine(fields[i]))
  }

  function Render(start: string, fields: seq<Field>, body: string): string {
    Join([start] + FieldLines(fields) + ["", body], CRLF)
  }

  // Visible at both ends, on one line, without a colon.
  predicate IsName(s: string) {
    Solid(s) && Clean(s) && forall i | 0 <= i < |s| :: s[i] != ':'
  }

  // On one line, with no space around it; may be empty.
  predicate OneLine(s: string) { Trimmed(s) && Clean(s) }

  predicate ValidField(f: Field) {
    IsName(f.name) && OneLine(f.value)
  }

  predicate ValidFields(fields: seq<Field>) {
    forall i | 0 <= i < |fields| :: ValidField(fields[i])
  }

  // The header map the fields stand for.
  function FieldMap(fields: seq<Field>): map<string, string> {
    if fields == [] then map[] else WithField(FieldMap(fields[..|fields| - 1]), fields[|fields| - 1])
  }

  function WithField(headers: map<string, string>, f: Field): map<string, string> {
    WithEntry(headers, Lower(f.name), f.value)
  }

  // --- Lines survive joining and splitting ---

  predicate IsLine(s: string) { s != "" && Clean(s) }

  predicate AreLines(lines: seq<string>) {
    lines != [] && forall i | 0 <= i < |lines| :: IsLine(lines[i])
  }

  lemma {:induction false} JoinParts(lines: seq<string>, body: string)
    requires lines != []
    ensures Join(lines + ["", body], CRLF) == Join(lines, CRLF) + BLANK_LINE + body
  {
    var all := lines + ["", body];
    if |lines| == 1 {
      assert all == [lines[0], "", body] && all[1..] == ["", body] && ["", body][1..] == [body];
      assert Join(["", body], CRLF) == CRLF + body;
    } else {
      assert all[1..] == lines[1..] + ["", body];
      JoinParts(lines[1..], body);
    }
  }

  lemma {:induction false} NoEarlyBlankLine(lines: seq<string>, tail: string, j: nat)
    requires AreLines(lines) && j < |Join(lines, CRLF)|
    ensures !OccursAt(Join(lines, CRLF) + BLANK_LINE + tail, BLANK_LINE, j)
  {
    var first, all := lines[0], Join(lines, CRLF) + BLANK_LINE + tail;
    if OccursAt(all, BLANK_LINE, j) {
      assert all[j] == '\r' && all[j + 2] == '\r';
      if |lines| > 1 {
        var rest := Join(lines[1..], CRLF) + BLANK_LINE + tail;
        assert all == first + CRLF + rest;
        assert rest[0] == lines[1][0];
        if j >= |first| + 2 {
          assert rest[j - |first| - 2..][..4] == all[j..][..4] == all[j..j + 4];
          NoEarlyBlankLine(lines[1..], tail, j - |first| - 2);
        }
      }
    }
  }

  lemma {:induction false} SplitJoin(lines: seq<string>)
    requires AreLines(lines)
    ensures Split(Join(lines, CRLF), CRLF) == lines
  {
    if |lines| == 1 {
      IndexAbsent(lines[0], CRLF);
    } else {
      var rest := Join(lines[1..], CRLF);
      IndexAfter(lines[0], CRLF, rest);
      SplitJoin(lines[1..]);
      assert Join(lines, CRLF) == lines[0] + CRLF + rest;
      assert [lines[0]] + lines[1..] == lines;
    }
  }

  lemma SplitLinesOfJoin(lines: seq<string>)
    requires AreLines(lines) && |lines| > 1
    ensures SplitLines(Join(lines, CRLF)) == lines
  {
    var rest := Join(lines[1..], CRLF);
    assert Join(lines, CRLF) == lines[0] + CRLF + rest;
    IndexAfter(lines[0], CRLF, rest);
    SplitJoin(lines);
  }

  /** The first blank line of a printed message ends its header, whatever the body holds. */
  lemma SplitPrinted(lines: seq<string>, body: string)
    requires AreLines(lines)
    ensures SplitHeaderBody(Join(lines + ["", body], CRLF)) == Ok(Parts(Join(lines, CRLF), body))
  {
    var h := Join(lines, CRLF);
    JoinParts(lines, body);
    var raw := h + BLANK_LINE + body;
    forall j | 0 <= j < |h| ensures !OccursAt(raw, BLANK_LINE, j) {
      NoEarlyBlankLine(lines, body, j);
    }
    assert OccursAt(raw, BLANK_LINE, |h|);
    FindFromFirst(raw, BLANK_LINE, 0, |h|);
    assert raw[..|h|] == h && raw[|h| + 4..] == body;
  }

  // --- Header lines survive printing and parsing ---

  lemma TrimFieldLine(f: Field)
    requires ValidField(f)
    ensures TrimSpace(FieldLine(f)) == f.name + ":" + (if f.value == "" then "" else " " + f.value)
  {
    var colon := f.name + ":";
    if f.value == "" {
      assert Solid(colon) && FieldLine(f) == colon + [' '] && colon + "" == colon;
      TrimAsciiSpace(colon, ' ');
    } else {
      FieldLineTrimmed(f);
      TrimSpaceTrims(FieldLine(f));
      assert FieldLine(f) == colon + (" " + f.value);
    }
  }

  lemma TrimValue(f: Field)
    requires ValidField(f)
    ensures TrimSpace(if f.value == "" then "" else " " + f.value) == f.value
  {
    TrimSpaceTrims(f.value);
    if f.value != "" { TrimAsciiSpace(f.value, ' '); }
  }

  lemma FieldLineParses(headers: map<string, string>, f: Field)
    requires ValidField(f)
    ensures WithHeader(headers, FieldLine(f)) == WithField(headers, f)
  {
    TrimFieldLine(f);
    TrimValue(f);
    NamedLine(headers, f.name, if f.value == "" then "" else " " + f.value);
  }

  lemma FieldLineIsLine(f: Field)
    requires ValidField(f)
    ensures IsLine(FieldLine(f))
  {}

  lemma NamedLine(headers: map<string, string>, name: string, rest: string)
    requires Solid(name) && forall i | 0 <= i < |name| :: name[i] != ':'
    ensures WithLine(headers, name + ":" + rest) == WithEntry(headers, Lower(name), TrimSpace(rest))
  {
    IndexAfter(name, ":", rest);
    TrimSpaceTrims(name);
    assert |Lower(name)| == |name|;
  }

  lemma FieldLineTrimmed(f: Field)
    requires ValidField(f) && f.value != ""
    ensures Trimmed(FieldLine(f))
  {}

  lemma {:induction false} FieldLinesParse(fields: seq<Field>)
    requires ValidFields(fields)
    ensures HeadersOf(FieldLines(fields)) == FieldMap(fields)
  {
    if fields != [] {
      var init, last := fields[..|fields| - 1], fields[|fields| - 1];
      FieldLinesParse(init);
      assert FieldLines(fields)[..|fields| - 1] == FieldLines(init);
      FieldLineParses(HeadersOf(FieldLines(init)), last);
    }
  }

  lemma PrintedLines(start: string, fields: seq<Field>, body: string)
    requires IsLine(start) && ValidFields(fields) && fields != []
    ensures var lines := [start] + FieldLines(fields);
      && SplitHeaderBody(Render(start, fields, body)) == Ok(Parts(Join(lines, CRLF), body))
      && SplitLines(Join(lines, CRLF)) == lines
      && HeadersOf(lines[1..]) == FieldMap(fields)
  {
    var lines := [start] + FieldLines(fields);
    forall i | 0 <= i < |lines| ensures IsLine(lines[i]) {
      if i > 0 { FieldLineIsLine(fields[i - 1]); }
    }
    SplitPrinted(lines, body);
    SplitLinesOfJoin(lines);
    assert lines[1..] == FieldLines(fields);
    FieldLinesParse(fields);
  }

  // A word of a start line: visible at both ends, without spaces or line breaks.
  predicate IsWord(s: string) {
    Solid(s) && Clean(s) && forall i | 0 <= i < |s| :: s[i] != ' '
  }

  lemma SplitStartLine(a: string, b: string, c: string)
    requires IsWord(a) && IsWord(b)
    ensures Split3(a + " " + b + " " + c, " ") == [a, b, c]
  {
    var rest := b + " " + c;
    assert a + " " + b + " " + c == a + " " + rest;
    IndexAfter(a, " ", rest);
    IndexAfter(b, " ", c);
  }

  lemma StartLineTrimmed(a: string, b: string, c: string)
    requires Solid(a) && Clean(a) && Clean(b) && Trimmed(c) && c != "" && Clean(c)
    ensures IsLine(a + " " + b + " " + c) && TrimSpace(a + " " + b + " " + c) == a + " " + b + " " + c
  {}

  // Not empty; it may hold inner spaces.
  predicate IsPhrase(s: string) {
    s != "" && OneLine(s)
  }

  // A line that is already trimmed and splits into these words.
  predicate StartsWith(start: string, words: seq<string>) {
    IsLine(start) && TrimSpace(start) == start && Split3(start, " ") == words
  }

  // A start line of two words and a trimmed rest.
  predicate ValidStart(a: string, b: string, c: string) {
    IsWord(a) && IsWord(b) && IsPhrase(c)
  }

  lemma StartLineParses(a: string, b: string, c: string)
    requires ValidStart(a, b, c)
    ensures StartsWith(a + " " + b + " " + c, [a, b, c])
  {
    StartLineTrimmed(a, b, c);
    SplitStartLine(a, b, c);
  }

  lemma ParsedFromParts(raw: string, header: string, body: string, lines: seq<string>)
    requires SplitHeaderBody(raw) == Ok(Parts(header, body)) && SplitLines(header) == lines && lines != []
    ensures RequestOf(raw) == RequestFrom(Split3(TrimSpace(lines[0]), " "), HeadersOf(lines[1..]), body)
    ensures ResponseOf(raw) == ResponseFrom(Split3(TrimSpace(lines[0]), " "), HeadersOf(lines[1..]), body)
  {}

  lemma RenderParses(start: string, words: seq<string>, fields: seq<Field>, body: string)
    requires StartsWith(start, words) && ValidFields(fields) && fields != []
    ensures RequestOf(Render(start, fields, body)) == RequestFrom(words, FieldMap(fields), body)
    ensures ResponseOf(Render(start, fields, body)) == ResponseFrom(words, FieldMap(fields), body)
  {
    var lines := [start] + FieldLines(fields);
    PrintedLines(start, fields, body);
    ParsedFromParts(Render(start, fields, body), Join(lines, CRLF), body, lines);
  }

  /** Parsing a printed request gives back its method, URI, version, every header under its
      lower-cased name, and its body up to the declared length. */
  lemma RequestRoundTrip(start: string, verb: string, uri: string, version: string, fields: seq<Field>, body: string)
    requires StartsWith(start, [verb, uri, version])
    requires IsWord(verb) && Upper(verb) == verb && IsWord(uri) && IsWord(version)
    requires ValidFields(fields) && fields != []
    ensures RequestOf(Render(start, fields, body)) ==
      Ok(Request(verb, uri, version, FieldMap(fields), DeclaredBody(FieldMap(fields), body)))
  {
    hide *;
    RenderParses(start, [verb, uri, version], fields, body);
    WordsOfRequest(verb, uri, version, FieldMap(fields), body);
  }

  lemma WordsOfRequest(verb: string, uri: string, version: string, headers: map<string, string>, body: string)
    requires IsWord(verb) && Upper(verb) == verb && IsWord(uri) && IsWord(version)
    ensures RequestFrom([verb, uri, version], headers, body) ==
      Ok(Request(verb, uri, version, headers, DeclaredBody(headers, body)))
  {}

  lemma WordsOfResponse(version: string, code: int, reason: string, headers: map<string, string>, body: string)
    requires IsWord(version) && IsPhrase(reason) && -MAX_INT64 - 1 <= code <= MAX_INT64
    ensures ResponseFrom([version, Itoa(code), reason], headers, body) ==
      Ok(Response(version, code, reason, headers, DeclaredBody(headers, body)))
  {
    ItoaSolid(code);
    TrimSpaceTrims(version);
    TrimSpaceTrims(Itoa(code));
    TrimSpaceTrims(reason);
    AtoiItoa(code);
  }

  /** Parsing a printed response gives back its version, code, reason, headers and body. */
  lemma ResponseRoundTrip(start: string, version: string, code: int, reason: string, fields: seq<Field>, body: string)
    requires StartsWith(start, [version, Itoa(code), reason])
    requires IsWord(version) && -MAX_INT64 - 1 <= code <= MAX_INT64 && IsPhrase(reason)
    requires ValidFields(fields) && fields != []
    ensures ResponseOf(Render(start, fields, body)) ==
      Ok(Response(version, code, reason, FieldMap(fields), DeclaredBody(FieldMap(fields), body)))
  {
    hide *;
    RenderParses(start, [version, Itoa(code), reason], fields, body);
    WordsOfResponse(version, code, reason, FieldMap(fields), body);
  }

  // --- Distinct fields ---

  predicate DistinctKeys(fields: seq<Field>) {
    forall i, j | 0 <= i < j < |fields| :: Lower(fields[i].name) != Lower(fields[j].name)
  }

  /** With no repeated name, the header map holds exactly the printed values. */
  lemma {:induction false} FieldMapHolds(fields: seq<Field>)
    requires DistinctKeys(fields)
    ensures forall key :: key in FieldMap(fields) <==> exists i :: 0 <= i < |fields| && Lower(fields[i].name) == key
    ensures forall i | 0 <= i < |fields| ::
      Lower(fields[i].name) in FieldMap(fields) && FieldMap(fields)[Lower(fields[i].name)] == fields[i].value
  {
    if fields != [] {
      var init, last := fields[..|fields| - 1], fields[|fields| - 1];
      FieldMapHolds(init);
      forall i | 0 <= i < |fields| - 1
        ensures Lower(fields[i].name) != Lower(last.name) && fields[i] == init[i]
      {}
      assert Lower(last.name) !in FieldMap(init);
    }
  }

  // --- What the header map holds, whatever the lines ---

  // The text before the first colon of a line, when there is one to name a header.
  function NameOf(line: string): string {
    var k := Index(TrimSpace(line), ":");
    if k <= 0 then "" else Lower(TrimSpace(TrimSpace(line)[..k]))
  }

  function ValueOf(line: string): string {
    var k := Index(TrimSpace(line), ":");
    if k < 0 then "" else TrimSpace(TrimSpace(line)[k + 1..])
  }

  // The values given under a name, in order.
  function ValuesUnder(lines: seq<string>, key: string): seq<string> {
    if lines == [] then []
    else
      var last := lines[|lines| - 1];
      ValuesUnder(lines[..|lines| - 1], key) + if NameOf(last) == key then [ValueOf(last)] else []
  }

  function SkipBlank(values: seq<string>): seq<string> {
    if values != [] && values[0] == "" then SkipBlank(values[1..]) else values
  }

  // All values of a repeated header, without the empty ones in front.
  function Listed(values: seq<string>): string { Join(SkipBlank(values), ",") }

  lemma {:induction false} JoinSnoc(values: seq<string>, v: string)
    requires values != []
    ensures Join(values + [v], ",") == Join(values, ",") + "," + v
  {
    var all := values + [v];
    assert all[1..] == values[1..] + [v];
    if |values| > 1 { JoinSnoc(values[1..], v); }
  }

  lemma {:induction false} SkipSnoc(values: seq<string>, v: string)
    ensures SkipBlank(values + [v]) == if SkipBlank(values) == [] then SkipBlank([v]) else SkipBlank(values) + [v]
    ensures SkipBlank(values) != [] ==> SkipBlank(values)[0] != ""
  {
    if values != [] && values[0] == "" {
      assert (values + [v])[1..] == values[1..] + [v];
      SkipSnoc(values[1..], v);
    } else if values == [] {
      assert values + [v] == [v];
    }
  }

  lemma ListedSnoc(values: seq<string>, v: string)
    ensures Listed(values + [v]) == if Listed(values) == "" then v else Listed(values) + "," + v
  {
    SkipSnoc(values, v);
    var kept := SkipBlank(values);
    if kept == [] {
      assert SkipBlank([]) == [];
    } else {
      JoinSnoc(kept, v);
      assert Join(kept, ",") != "";
    }
  }

  lemma LineEntry(headers: map<string, string>, line: string)
    ensures WithHeader(headers, line) == if NameOf(line) == "" then headers else WithEntry(headers, NameOf(line), ValueOf(line))
  {}

  /** Whatever the lines, the map holds exactly the named headers, and under each name all its values in
      order, joined by commas; empty values in front are dropped. */
  lemma {:induction false} HeadersHold(lines: seq<string>, key: string)
    requires key != ""
    ensures key in HeadersOf(lines) <==> ValuesUnder(lines, key) != []
    ensures key in HeadersOf(lines) ==> HeadersOf(lines)[key] == Listed(ValuesUnder(lines, key))
  {
    hide NameOf, ValueOf, WithHeader, Listed;
    if lines != [] {
      var init, last := lines[..|lines| - 1], lines[|lines| - 1];
      HeadersHold(init, key);
      LineEntry(HeadersOf(init), last);
      ListedSnoc(ValuesUnder(init, key), ValueOf(last));
      ListedFirst(ValueOf(last));
      assert ValuesUnder(init, key) + [] == ValuesUnder(init, key) && [] + [ValueOf(last)] == [ValueOf(last)];
    }
  }

  lemma ListedFirst(v: string)
    ensures Listed([v]) == v && Listed([]) == ""
  {
    assert v == "" ==> SkipBlank([v]) == SkipBlank([v][1..]) == SkipBlank([]) == [];
  }

  lemma {:induction false} NoNameless(lines: seq<string>)
    ensures "" !in HeadersOf(lines)
  {
    if lines != [] {
      NoNameless(lines[..|lines| - 1]);
      LineEntry(HeadersOf(lines[..|lines| - 1]), lines[|lines| - 1]);
    }
  }

  // The values of the fields of one name, in order.
  function FieldValues(fields: seq<Field>, key: string): seq<string> {
    if fields == [] then []
    else
      var last := fields[|fields| - 1];
      FieldValues(fields[..|fields| - 1], key) + if Lower(last.name) == key then [last.value] else []
  }

  /** Parsing printed fields gives under each name all values printed under it, joined by commas. */
  lemma {:induction false} PrintedHeadersHold(fields: seq<Field>, key: string)
    ensures key in FieldMap(fields) <==> FieldValues(fields, key) != []
    ensures key in FieldMap(fields) ==> FieldMap(fields)[key] == Listed(FieldValues(fields, key))
  {
    hide Listed;
    if fields != [] {
      var init, last := fields[..|fields| - 1], fields[|fields| - 1];
      PrintedHeadersHold(init, key);
      ListedSnoc(FieldValues(init, key), last.value);
      ListedFirst(last.value);
      assert FieldValues(init, key) + [] == FieldValues(init, key) && [] + [last.value] == [last.value];
    }
  }

  /** A request that came through a proxy: both Via lines are kept. */
  lemma TwoViasExample()
    ensures var headers := FieldMap([Field("Via", "A"), Field("CSeq", "1 BYE"), Field("Via", "B")]);
      "via" in headers && headers["via"] == "A,B"
  {
    var fields := [Field("Via", "A"), Field("CSeq", "1 BYE"), Field("Via", "B")];
    assert Lower("Via") == "via" && Lower("CSeq")[0] == 'c';
    assert fields[..2] == [Field("Via", "A"), Field("CSeq", "1 BYE")] && fields[..2][..1] == [Field("Via", "A")];
    assert FieldValues(fields[..2][..1], "via") == ["A"] by { assert fields[..2][..1][..0] == []; }
    assert FieldValues(fields[..2], "via") == ["A"];
    assert FieldValues(fields, "via") == ["A", "B"];
    PrintedHeadersHold(fields, "via");
    assert ["A", "B"][1..] == ["B"] && Join(["B"], ",") == "B";
  }
}
