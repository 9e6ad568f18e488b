/** The response builder and what it echoes of the request (RFC 3261, section 8.2.6.2). */
module SipResponses {
  import opened Wrappers
  import opened Text
  import opened SipMessage
  import opened SipRequests

  predicate HasTag(to: string) {
    Index(Lower(to), ";tag=") >= 0
  }

  function EnsureTag(to: string, token: string): string {
    if HasTag(to) then to else to + ";tag=" + token
  }

  // The field, unless its trimmed value is empty.
  function Optional(name: string, value: string): seq<Field> {
    if TrimSpace(value) == "" then [] else [Field(name, TrimSpace(value))]
  }

  function ToField(to: string, token: string): seq<Field> {
    if TrimSpace(to) == "" then [] else [Field("To", EnsureTag(TrimSpace(to), token))]
  }

  function EchoFields(headers: map<string, string>, token: string): seq<Field> {
    Optional("Via", Header(headers, "via")) + Optional("From", Header(headers, "from")) + ToField(Header(headers, "to"), token) +
    Optional("Call-ID", Header(headers, "call-id")) + Optional("CSeq", Header(headers, "cseq"))
  }

  function OwnFields(extra: map<string, string>): seq<Field> {
    [Field("User-Agent", "maas-box")] + Optional("WWW-Authenticate", Header(extra, "WWW-Authenticate")) +
    Optional("Date", Header(extra, "Date")) + [Field("Content-Length", "0")]
  }

  function ReasonOf(reason: string): string { if reason == "" then "Unknown" else reason }

  function BuildResponse(headers: map<string, string>, code: int, reason: string, extra: map<string, string>, token: string): string {
    Render("SIP/2.0" + " " + Itoa(code) + " " + ReasonOf(reason), EchoFields(headers, token) + OwnFields(extra), "")
  }

  // --- Values a parsed request can hold ---

  lemma {:induction false} ParsedValuesTrimmed(lines: seq<string>)
    ensures forall key | key in HeadersOf(lines) :: Trimmed(HeadersOf(lines)[key])
  {
    if lines != [] {
      ParsedValuesTrimmed(lines[..|lines| - 1]);
      WithLineTrimmed(HeadersOf(lines[..|lines| - 1]), TrimSpace(lines[|lines| - 1]));
    }
  }

  lemma WithLineTrimmed(headers: map<string, string>, line: string)
    requires forall key | key in headers :: Trimmed(headers[key])
    ensures forall key | key in WithLine(headers, line) :: Trimmed(WithLine(headers, line)[key])
  {
    var k := Index(line, ":");
    if k > 0 {
      var key, value := Lower(TrimSpace(line[..k])), TrimSpace(line[k + 1..]);
      TrimSpaceTrims(line[k + 1..]);
      if key in headers && headers[key] != "" { CommaTrimmed(headers[key], value); }
    }
  }

  lemma CommaTrimmed(a: string, b: string)
    requires a != "" && Trimmed(a) && Trimmed(b)
    ensures Trimmed(a + "," + b)
  {}

  // --- The printed response ---

  lemma OptionalGood(name: string, value: string, key: string)
    requires IsName(name) && Lower(name) == key && Clean(value)
    ensures GoodFields(Optional(name, value)) && KeysWithin(Optional(name, value), {key})
  {
    TrimSpaceTrims(value);
  }

  predicate IsToken(token: string) { Solid(token) && Clean(token) }

  lemma ToFieldGood(to: string, token: string)
    requires Clean(to) && IsToken(token)
    ensures GoodFields(ToField(to, token)) && KeysWithin(ToField(to, token), {"to"})
  {
    var t := TrimSpace(to);
    assert OneLine(t) by { TrimSpaceTrims(to); }
    assert OneLine(t + ";tag=" + token) by {
      assert t + ";tag=" + token == t + (";tag=" + token) && Solid(";tag=" + token);
      TrimmedJoin(";tag=" + token, t);
    }
    assert IsName("To") by { HeaderNames(); }
    LowerNames();
  }

  predicate CleanValues(headers: map<string, string>, keys: set<string>) {
    forall key | key in keys :: Clean(Header(headers, key))
  }

  ghost const ECHOED := {"via", "from", "to", "call-id", "cseq"}

  // One optional header of a given key.
  predicate AllKeyed(part: seq<Field>, key: string) {
    forall f | f in part :: Lower(f.name) == key
  }

  predicate IsPart(part: seq<Field>, key: string) {
    GoodFields(part) && AllKeyed(part, key)
  }

  lemma EchoParts(headers: map<string, string>, token: string)
    requires CleanValues(headers, ECHOED) && IsToken(token)
    ensures IsPart(Optional("Via", Header(headers, "via")), "via") && IsPart(Optional("From", Header(headers, "from")), "from")
    ensures IsPart(ToField(Header(headers, "to"), token), "to")
    ensures IsPart(Optional("Call-ID", Header(headers, "call-id")), "call-id")
    ensures IsPart(Optional("CSeq", Header(headers, "cseq")), "cseq")
  {
    HeaderNames();
    LowerNames();
    OptionalGood("Via", Header(headers, "via"), "via");
    OptionalGood("From", Header(headers, "from"), "from");
    ToFieldGood(Header(headers, "to"), token);
    OptionalGood("Call-ID", Header(headers, "call-id"), "call-id");
    OptionalGood("CSeq", Header(headers, "cseq"), "cseq");
  }

  lemma FiveParts(via: seq<Field>, from: seq<Field>, to: seq<Field>, callId: seq<Field>, cseq: seq<Field>)
    requires IsPart(via, "via") && IsPart(from, "from") && IsPart(to, "to") && IsPart(callId, "call-id") && IsPart(cseq, "cseq")
    ensures GoodFields(via + from + to + callId + cseq) && KeysWithin(via + from + to + callId + cseq, ECHOED)
  {}

  lemma EchoGood(headers: map<string, string>, token: string)
    requires CleanValues(headers, ECHOED) && IsToken(token)
    ensures GoodFields(EchoFields(headers, token)) && KeysWithin(EchoFields(headers, token), ECHOED)
  {
    EchoParts(headers, token);
    FiveParts(Optional("Via", Header(headers, "via")), Optional("From", Header(headers, "from")),
              ToField(Header(headers, "to"), token),
              Optional("Call-ID", Header(headers, "call-id")), Optional("CSeq", Header(headers, "cseq")));
  }

  lemma SingleGood(name: string, value: string, key: string)
    requires IsName(name) && Lower(name) == key && OneLine(value)
    ensures GoodFields([Field(name, value)]) && KeysWithin([Field(name, value)], {key})
  {}

  ghost const OWN := {"user-agent", "www-authenticate", "date", "content-length"}

  lemma OwnGood(extra: map<string, string>)
    requires CleanValues(extra, {"WWW-Authenticate", "Date"})
    ensures GoodFields(OwnFields(extra)) && KeysWithin(OwnFields(extra), OWN)
  {
    var agent, length := [Field("User-Agent", "maas-box")], [Field("Content-Length", "0")];
    var auth, date := Optional("WWW-Authenticate", Header(extra, "WWW-Authenticate")), Optional("Date", Header(extra, "Date"));
    OwnParts(extra);
    JoinGood(agent, auth, {"user-agent"}, {"www-authenticate"});
    JoinGood(agent + auth, date, {"user-agent", "www-authenticate"}, {"date"});
    JoinGood(agent + auth + date, length, {"user-agent", "www-authenticate", "date"}, {"content-length"});
  }

  lemma OwnParts(extra: map<string, string>)
    requires CleanValues(extra, {"WWW-Authenticate", "Date"})
    ensures GoodFields([Field("User-Agent", "maas-box")]) && KeysWithin([Field("User-Agent", "maas-box")], {"user-agent"})
    ensures GoodFields([Field("Content-Length", "0")]) && KeysWithin([Field("Content-Length", "0")], {"content-length"})
    ensures var auth := Optional("WWW-Authenticate", Header(extra, "WWW-Authenticate"));
      GoodFields(auth) && KeysWithin(auth, {"www-authenticate"})
    ensures var date := Optional("Date", Header(extra, "Date"));
      GoodFields(date) && KeysWithin(date, {"date"})
  {
    HeaderNames();
    LowerNames();
    assert Lower("WWW-Authenticate") == "www-authenticate" && Lower("Date") == "date";
    assert OneLine("maas-box") && OneLine("0");
    SingleGood("User-Agent", "maas-box", "user-agent");
    SingleGood("Content-Length", "0", "content-length");
    OptionalGood("WWW-Authenticate", Header(extra, "WWW-Authenticate"), "www-authenticate");
    OptionalGood("Date", Header(extra, "Date"), "date");
  }

  lemma FieldsGood(headers: map<string, string>, extra: map<string, string>, token: string)
    requires CleanValues(headers, ECHOED) && CleanValues(extra, {"WWW-Authenticate", "Date"}) && IsToken(token)
    ensures GoodFields(EchoFields(headers, token) + OwnFields(extra))
  {
    EchoGood(headers, token);
    OwnGood(extra);
    assert "date"[0] != "from"[0] && "date"[0] != "cseq"[0];
    JoinGood(EchoFields(headers, token), OwnFields(extra), ECHOED, {"user-agent", "www-authenticate", "date", "content-length"});
  }

  // The one value a list of distinct fields holds under a key, "" when it holds none.
  ghost predicate Holds(fields: seq<Field>, key: string, value: string) {
    if value == "" then forall f | f in fields :: Lower(f.name) != key
    else exists f :: f in fields && Lower(f.name) == key && f.value == value
  }

  lemma LookUp(fields: seq<Field>, key: string, value: string)
    requires DistinctKeys(fields) && Holds(fields, key, value)
    ensures Header(FieldMap(fields), key) == value
  {
    FieldMapHolds(fields);
    if value != "" {
      var f :| f in fields && Lower(f.name) == key && f.value == value;
      var i :| 0 <= i < |fields| && fields[i] == f;
    }
  }

  predicate PartValue(part: seq<Field>, value: string) {
    if value == "" then part == [] else |part| == 1 && part[0].value == value
  }

  function Flatten(parts: seq<seq<Field>>): seq<Field> {
    if parts == [] then [] else Flatten(parts[..|parts| - 1]) + parts[|parts| - 1]
  }

  lemma {:induction false} FlattenMembers(parts: seq<seq<Field>>)
    ensures forall f :: f in Flatten(parts) <==> exists j :: 0 <= j < |parts| && f in parts[j]
  {
    if parts != [] {
      var init := parts[..|parts| - 1];
      FlattenMembers(init);
      forall f ensures f in Flatten(parts) <==> exists j :: 0 <= j < |parts| && f in parts[j] {
        if f in Flatten(init) {
          var j :| 0 <= j < |init| && f in init[j];
          assert f in parts[j];
        }
      }
    }
  }

  lemma PartHolds(parts: seq<seq<Field>>, keys: seq<string>, own: seq<Field>, i: nat, value: string)
    requires |parts| == |keys| && i < |keys| && PartValue(parts[i], value)
    requires forall j | 0 <= j < |keys| :: AllKeyed(parts[j], keys[j])
    requires forall j | 0 <= j < |keys| && j != i :: keys[j] != keys[i]
    requires forall f | f in own :: Lower(f.name) != keys[i]
    ensures Holds(Flatten(parts) + own, keys[i], value)
  {
    FlattenMembers(parts);
    if value != "" { assert parts[i][0] in Flatten(parts); }
  }

  function EchoList(h: map<string, string>, token: string): seq<seq<Field>> {
    [Optional("Via", Header(h, "via")), Optional("From", Header(h, "from")), ToField(Header(h, "to"), token),
     Optional("Call-ID", Header(h, "call-id")), Optional("CSeq", Header(h, "cseq"))]
  }

  function EchoValues(h: map<string, string>, token: string): seq<string> {
    [Header(h, "via"), Header(h, "from"), if Header(h, "to") == "" then "" else EnsureTag(Header(h, "to"), token),
     Header(h, "call-id"), Header(h, "cseq")]
  }

  lemma OptionalValue(name: string, value: string)
    requires TrimSpace(value) == value
    ensures PartValue(Optional(name, value), value)
  {}

  lemma EchoListValues(raw: string, req: Request, token: string)
    requires RequestOf(raw) == Ok(req)
    ensures forall i | 0 <= i < 5 :: PartValue(EchoList(req.headers, token)[i], EchoValues(req.headers, token)[i])
  {
    var h := req.headers;
    RequestValueTrimmed(raw, req, "via");
    RequestValueTrimmed(raw, req, "from");
    RequestValueTrimmed(raw, req, "to");
    RequestValueTrimmed(raw, req, "call-id");
    RequestValueTrimmed(raw, req, "cseq");
    OptionalValue("Via", Header(h, "via"));
    OptionalValue("From", Header(h, "from"));
    OptionalValue("Call-ID", Header(h, "call-id"));
    OptionalValue("CSeq", Header(h, "cseq"));
  }

  lemma EchoHeld(raw: string, req: Request, extra: map<string, string>, token: string)
    requires RequestOf(raw) == Ok(req)
    requires CleanValues(req.headers, ECHOED) && CleanValues(extra, {"WWW-Authenticate", "Date"}) && IsToken(token)
    ensures var fields := EchoFields(req.headers, token) + OwnFields(extra);
      && (forall key | key in {"via", "from", "call-id", "cseq"} :: Holds(fields, key, Header(req.headers, key)))
      && Holds(fields, "to", if Header(req.headers, "to") == "" then "" else EnsureTag(Header(req.headers, "to"), token))
  {
    hide RequestOf, Lower, TrimSpace, HasTag, Holds, Flatten;
    var parts, values, own := EchoList(req.headers, token), EchoValues(req.headers, token), OwnFields(extra);
    var keys := EchoKeys();
    assert forall i | 0 <= i < 5 :: AllKeyed(parts[i], keys[i]) by { EchoParts(req.headers, token); }
    assert forall i | 0 <= i < 5 :: PartValue(parts[i], values[i]) by { EchoListValues(raw, req, token); }
    assert KeysWithin(own, OWN) by { OwnGood(extra); }
    AllHold(parts, keys, own, values);
    assert Flatten(parts) == EchoFields(req.headers, token) by {
      FlattenFive(parts[0], parts[1], parts[2], parts[3], parts[4]);
    }
    assert Holds(Flatten(parts) + own, keys[0], values[0]) && Holds(Flatten(parts) + own, keys[1], values[1]);
    assert Holds(Flatten(parts) + own, keys[2], values[2]);
    assert Holds(Flatten(parts) + own, keys[3], values[3]) && Holds(Flatten(parts) + own, keys[4], values[4]);
  }

  lemma FlattenFive(a: seq<Field>, b: seq<Field>, c: seq<Field>, d: seq<Field>, e: seq<Field>)
    ensures Flatten([a, b, c, d, e]) == a + b + c + d + e
  {
    assert [a][..0] == [] && Flatten([a]) == a;
    assert [a, b][..1] == [a] && Flatten([a, b]) == a + b;
    assert [a, b, c][..2] == [a, b] && Flatten([a, b, c]) == a + b + c;
    assert [a, b, c, d][..3] == [a, b, c] && Flatten([a, b, c, d]) == a + b + c + d;
    assert [a, b, c, d, e][..4] == [a, b, c, d];
  }

  predicate Distinct(keys: seq<string>) {
    forall i, j | 0 <= i < j < |keys| :: keys[i] != keys[j]
  }

  lemma EchoKeys() returns (keys: seq<string>)
    ensures keys == ["via", "from", "to", "call-id", "cseq"]
    ensures Distinct(keys) && forall i | 0 <= i < |keys| :: keys[i] !in OWN
  {
    keys := ["via", "from", "to", "call-id", "cseq"];
    assert "from"[0] != "cseq"[0] && "date"[0] != "from"[0] && "date"[0] != "cseq"[0];
  }

  lemma AllHold(parts: seq<seq<Field>>, keys: seq<string>, own: seq<Field>, values: seq<string>)
    requires |parts| == |keys| == |values| && Distinct(keys)
    requires KeysWithin(own, OWN) && forall i | 0 <= i < |keys| :: keys[i] !in OWN
    requires forall i | 0 <= i < |keys| :: AllKeyed(parts[i], keys[i]) && PartValue(parts[i], values[i])
    ensures forall i | 0 <= i < |keys| :: Holds(Flatten(parts) + own, keys[i], values[i])
  {
    forall i | 0 <= i < |keys| ensures Holds(Flatten(parts) + own, keys[i], values[i]) {
      PartHolds(parts, keys, own, i, values[i]);
    }
  }

  lemma RequestValueTrimmed(raw: string, req: Request, key: string)
    requires RequestOf(raw) == Ok(req)
    ensures TrimSpace(Header(req.headers, key)) == Header(req.headers, key)
  {
    ParsedValuesTrimmed(SplitLines(SplitHeaderBody(raw).value.header)[1..]);
    TrimSpaceTrims(Header(req.headers, key));
  }

  lemma BuiltResponseParses(headers: map<string, string>, code: int, reason: string, extra: map<string, string>, token: string)
    requires CleanValues(headers, ECHOED) && CleanValues(extra, {"WWW-Authenticate", "Date"}) && IsToken(token)
    requires -MAX_INT64 - 1 <= code <= MAX_INT64 && (reason == "" || IsPhrase(reason))
    ensures ResponseOf(BuildResponse(headers, code, reason, extra, token)) ==
      Ok(Response("SIP/2.0", code, ReasonOf(reason), FieldMap(EchoFields(headers, token) + OwnFields(extra)), ""))
  {
    var fields := EchoFields(headers, token) + OwnFields(extra);
    assert fields[|fields| - 1] == Field("Content-Length", "0");
    assert DeclaredBody(FieldMap(fields), "") == "";
    hide ResponseOf, Render, FieldMap, IsPhrase, IsWord, DeclaredBody, EchoFields, OwnFields, Itoa, StartsWith, ReasonOf, ValidField;
    var phrase := ReasonOf(reason);
    var start := "SIP/2.0" + " " + Itoa(code) + " " + phrase;
    ReasonPhrase(reason);
    FieldsGood(headers, extra, token);
    ResponseLineStarts(code, phrase);
    ResponseRoundTrip(start, "SIP/2.0", code, phrase, fields, "");
  }

  lemma ReasonPhrase(reason: string)
    requires reason == "" || IsPhrase(reason)
    ensures IsPhrase(ReasonOf(reason)) && IsWord("SIP/2.0")
  {}

  lemma ResponseLineStarts(code: int, phrase: string)
    requires IsPhrase(phrase)
    ensures StartsWith("SIP/2.0" + " " + Itoa(code) + " " + phrase, ["SIP/2.0", Itoa(code), phrase])
  {
    ItoaSolid(code);
    assert IsWord("SIP/2.0");
    StartLineParses("SIP/2.0", Itoa(code), phrase);
  }

  /** Parsing the response to any parsed request whose echoed header values hold no line break
      gives back the code and reason, Via, From, Call-ID and CSeq identical to the request, and
      To unchanged when it has a tag and with one tag added when it has none. */
  lemma ResponseEcho(raw: string, req: Request, code: int, reason: string, extra: map<string, string>, token: string)
    requires RequestOf(raw) == Ok(req)
    requires CleanValues(req.headers, ECHOED) && CleanValues(extra, {"WWW-Authenticate", "Date"}) && IsToken(token)
    requires -MAX_INT64 - 1 <= code <= MAX_INT64 && (reason == "" || IsPhrase(reason))
    ensures var r := ResponseOf(BuildResponse(req.headers, code, reason, extra, token));
      && r.Ok? && r.value.version == "SIP/2.0" && r.value.code == code && r.value.reason == ReasonOf(reason) && r.value.body == ""
      && (forall key | key in {"via", "from", "call-id", "cseq"} :: Header(r.value.headers, key) == Header(req.headers, key))
      && Header(r.value.headers, "to") ==
           (if Header(req.headers, "to") == "" then "" else EnsureTag(Header(req.headers, "to"), token))
  {
    var fields := EchoFields(req.headers, token) + OwnFields(extra);
    BuiltResponseParses(req.headers, code, reason, extra, token);
    FieldsGood(req.headers, extra, token);
    EchoHeld(raw, req, extra, token);
    forall key | key in {"via", "from", "call-id", "cseq"}
      ensures Header(FieldMap(fields), key) == Header(req.headers, key)
    {
      LookUp(fields, key, Header(req.headers, key));
    }
    LookUp(fields, "to", if Header(req.headers, "to") == "" then "" else EnsureTag(Header(req.headers, "to"), token));
  }

  lemma OwnHeld(headers: map<string, string>, extra: map<string, string>, token: string)
    requires CleanValues(headers, ECHOED) && IsToken(token)
    ensures var fields := EchoFields(headers, token) + OwnFields(extra);
      && Holds(fields, "user-agent", "maas-box") && Holds(fields, "content-length", "0")
      && Holds(fields, "www-authenticate", TrimSpace(Header(extra, "WWW-Authenticate")))
      && Holds(fields, "date", TrimSpace(Header(extra, "Date")))
  {
    hide TrimSpace, Lower, EchoFields;
    var echo, own := EchoFields(headers, token), OwnFields(extra);
    var fields := echo + own;
    EchoGood(headers, token);
    LowerNames();
    ExtraNames();
    assert Field("User-Agent", "maas-box") in fields && Field("Content-Length", "0") in fields by {
      assert own[0] == Field("User-Agent", "maas-box") && own[|own| - 1] == Field("Content-Length", "0");
      assert fields[|echo|] == own[0] && fields[|fields| - 1] == own[|own| - 1];
    }
    OneOf(echo, own, "www-authenticate", "WWW-Authenticate", Header(extra, "WWW-Authenticate"));
    OneOf(echo, own, "date", "Date", Header(extra, "Date"));
  }

  lemma ExtraNames()
    ensures Lower("WWW-Authenticate") == "www-authenticate" && Lower("Date") == "date"
    ensures "date" !in ECHOED && "www-authenticate" !in ECHOED
  {
    assert "date"[0] != "from"[0] && "date"[0] != "cseq"[0];
  }

  // An optional field among the others.
  lemma OneOf(echo: seq<Field>, own: seq<Field>, key: string, name: string, value: string)
    requires KeysWithin(echo, ECHOED) && key !in ECHOED && Lower(name) == key
    requires forall f | f in own :: if Lower(f.name) == key then [f] == Optional(name, value) else f !in Optional(name, value)
    requires forall f | f in Optional(name, value) :: f in own
    ensures Holds(echo + own, key, TrimSpace(value))
  {
    hide TrimSpace, Lower;
    forall f | f in echo ensures Lower(f.name) != key {
      var i :| 0 <= i < |echo| && echo[i] == f;
    }
    if TrimSpace(value) != "" { assert Field(name, TrimSpace(value)) in Optional(name, value); }
  }

  /** The receiver also reads who answers, that there is no body, and the challenge and the date, when given. */
  lemma OwnRead(headers: map<string, string>, code: int, reason: string, extra: map<string, string>, token: string)
    requires CleanValues(headers, ECHOED) && CleanValues(extra, {"WWW-Authenticate", "Date"}) && IsToken(token)
    requires -MAX_INT64 - 1 <= code <= MAX_INT64 && (reason == "" || IsPhrase(reason))
    ensures var r := ResponseOf(BuildResponse(headers, code, reason, extra, token));
      && r.Ok? && (reason == "" ==> r.value.reason == "Unknown") && (reason != "" ==> r.value.reason == reason)
      && Header(r.value.headers, "user-agent") == "maas-box" && Header(r.value.headers, "content-length") == "0"
      && Header(r.value.headers, "www-authenticate") == TrimSpace(Header(extra, "WWW-Authenticate"))
      && Header(r.value.headers, "date") == TrimSpace(Header(extra, "Date"))
  {
    hide ResponseOf, BuildResponse, Holds, TrimSpace, EchoFields, OwnFields, GoodFields, FieldMap;
    var fields := EchoFields(headers, token) + OwnFields(extra);
    BuiltResponseParses(headers, code, reason, extra, token);
    assert DistinctKeys(fields) by { GoodDistinct(headers, extra, token); }
    OwnHeld(headers, extra, token);
    LookUp(fields, "user-agent", "maas-box");
    LookUp(fields, "content-length", "0");
    LookUp(fields, "www-authenticate", TrimSpace(Header(extra, "WWW-Authenticate")));
    LookUp(fields, "date", TrimSpace(Header(extra, "Date")));
  }

  lemma GoodDistinct(headers: map<string, string>, extra: map<string, string>, token: string)
    requires CleanValues(headers, ECHOED) && CleanValues(extra, {"WWW-Authenticate", "Date"}) && IsToken(token)
    ensures DistinctKeys(EchoFields(headers, token) + OwnFields(extra))
  {
    hide EchoFields, OwnFields;
    FieldsGood(headers, extra, token);
  }

  /** A tag is added exactly when the value holds none, in any case. */
  lemma EnsureTagMeans(to: string, token: string)
    ensures (exists k :: OccursAt(Lower(to), ";tag=", k)) ==> EnsureTag(to, token) == to
    ensures (forall k :: !OccursAt(Lower(to), ";tag=", k)) ==> EnsureTag(to, token) == to + ";tag=" + token
  {
    if k :| OccursAt(Lower(to), ";tag=", k) { AbsentNowhere(Lower(to), ";tag=", 0, k); }
    if Index(Lower(to), ";tag=") >= 0 { assert OccursAt(Lower(to), ";tag=", Index(Lower(to), ";tag=")); }
  }

  /** Tagging is idempotent: the tagged value has a tag, so answering it again changes nothing. */
  lemma EnsureTagIdempotent(to: string, token: string, other: string)
    ensures HasTag(EnsureTag(to, token)) && EnsureTag(EnsureTag(to, token), other) == EnsureTag(to, token)
  {
    if !HasTag(to) {
      var all := Lower(to + ";tag=" + token);
      assert all == Lower(to) + Lower(";tag=") + Lower(token);
      assert Lower(";tag=") == ";tag=";
      assert all[|to|..|to| + 5] == ";tag=";
      if Index(all, ";tag=") < 0 { AbsentNowhere(all, ";tag=", 0, |to|); }
    }
  }

  lemma {:induction false} AbsentNowhere(s: string, sub: string, i: nat, k: nat)
    requires i <= k && OccursAt(s, sub, k)
    ensures FindFrom(s, sub, i) >= 0
    decreases k - i
  {
    if i < k { AbsentNowhere(s, sub, i + 1, k); }
  }
}
