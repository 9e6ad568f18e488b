/** The request builders (MESSAGE catalog query, INVITE, ACK, BYE), what parsing their output
    returns, and the test that tells requests from responses. Random tokens are parameters. */
module SipRequests {
  import opened Wrappers
  import opened Text
  import opened SipMessage

  datatype Config = Config(listenIP: string, port: int, serverID: string, domain: string)

  function TransportName(transport: string): string {
    var name := Upper(TrimSpace(transport));
    if name == "" then "UDP" else name
  }

  function ViaHost(cfg: Config): string {
    var host := TrimSpace(cfg.listenIP);
    if host == "" || host == "0.0.0.0" || host == "::" then "127.0.0.1" else host
  }

  function Uri(id: string, host: string, port: int): string {
    "sip:" + id + "@" + host + ":" + Itoa(port)
  }

  function ViaField(cfg: Config, transport: string, branch: string): Field {
    Field("Via", "SIP/2.0/" + (TransportName(transport) + " " + ViaHost(cfg) + ":" + Itoa(cfg.port) + ";branch=" + branch) + ";rport")
  }

  function FromField(cfg: Config, tag: string): Field {
    Field("From", "<sip:" + cfg.serverID + "@" + cfg.domain + ">;tag=" + tag)
  }

  function ToValue(cfg: Config, id: string): string {
    "<sip:" + (id + "@" + cfg.domain) + ">"
  }

  function LengthField(body: string): Field {
    Field("Content-Length", Itoa(|body|))
  }

  // The line starting a request to `id`.
  function RequestLine(verb: string, id: string, host: string, port: int): string {
    verb + " " + Uri(id, host, port) + " " + "SIP/2.0"
  }

  // The headers all four requests carry in front.
  function CommonFields(verb: string, via: Field, from: Field, to: string, callId: string, cseq: int): seq<Field> {
    [via, from, Field("To", to), Field("Call-ID", callId), Field("CSeq", Itoa(cseq) + " " + verb), Field("Max-Forwards", "70")]
  }

  function CatalogFields(cfg: Config, transport: string, deviceId: string, body: string,
                         callId: string, branch: string, tag: string, cseq: int): seq<Field> {
    CommonFields("MESSAGE", ViaField(cfg, transport, "z9hG4bK" + branch), FromField(cfg, tag), ToValue(cfg, deviceId), callId, cseq) +
    [Field("Content-Type", "Application/MANSCDP+xml"), Field("User-Agent", "maas-box"), LengthField(body)]
  }

  function CatalogRequest(cfg: Config, transport: string, deviceId: string, host: string, port: int, body: string,
                          callId: string, branch: string, tag: string, cseq: int): string {
    Render(RequestLine("MESSAGE", deviceId, host, port),
           CatalogFields(cfg, transport, deviceId, body, callId, branch, tag, cseq), body)
  }

  function StreamOf(streamId: string, channelId: string): string {
    if TrimSpace(streamId) == "" then channelId else streamId
  }

  function InviteFields(cfg: Config, transport: string, deviceId: string, channelId: string, body: string,
                        callId: string, tag: string, branch: string, cseq: int, streamId: string): seq<Field> {
    var stream := StreamOf(streamId, channelId);
    CommonFields("INVITE", ViaField(cfg, transport, branch), FromField(cfg, tag), ToValue(cfg, channelId), callId, cseq) +
    [Field("Contact", "<sip:" + (cfg.serverID + "@" + ViaHost(cfg) + ":" + Itoa(cfg.port)) + ">"),
     Field("Subject", channelId + (":" + stream + "," + deviceId + ":") + stream),
     Field("Content-Type", "Application/SDP"), Field("User-Agent", "maas-box"), LengthField(body)]
  }

  function InviteRequest(cfg: Config, transport: string, deviceId: string, channelId: string, host: string, port: int, body: string,
                         callId: string, tag: string, branch: string, cseq: int, streamId: string): string {
    Render(RequestLine("INVITE", channelId, host, port),
           InviteFields(cfg, transport, deviceId, channelId, body, callId, tag, branch, cseq, streamId), body)
  }

  // ACK and BYE differ in the verb only, once BYE has replaced a blank tag and a missing CSeq.
  function DialogFields(verb: string, cfg: Config, transport: string, channelId: string, callId: string, tag: string,
                        toHeader: string, branch: string, cseq: int): seq<Field> {
    var to := if TrimSpace(toHeader) == "" then ToValue(cfg, channelId) else TrimSpace(toHeader);
    CommonFields(verb, ViaField(cfg, transport, "z9hG4bK" + branch), FromField(cfg, tag), to, callId, cseq) +
    [Field("User-Agent", "maas-box"), LengthField("")]
  }

  function AckRequest(cfg: Config, transport: string, channelId: string, host: string, port: int, callId: string, tag: string,
                      toHeader: string, branch: string, cseq: int): string {
    Render(RequestLine("ACK", channelId, host, port),
           DialogFields("ACK", cfg, transport, channelId, callId, tag, toHeader, branch, cseq), "")
  }

  function ByeRequest(cfg: Config, transport: string, channelId: string, host: string, port: int, callId: string, tag: string,
                      toHeader: string, branch: string, cseq: int, freshTag: string, freshCSeq: int): string {
    Render(RequestLine("BYE", channelId, host, port),
           DialogFields("BYE", cfg, transport, channelId, callId, if TrimSpace(tag) == "" then freshTag else tag,
                        toHeader, branch, if cseq <= 0 then freshCSeq else cseq), "")
  }

  // --- Which inputs print well-formed fields ---

  // May stand inside the start line.
  predicate UriPart(s: string) {
    Clean(s) && forall i | 0 <= i < |s| :: s[i] != ' '
  }

  predicate CleanConfig(cfg: Config) {
    Clean(cfg.listenIP) && Clean(cfg.serverID) && Clean(cfg.domain)
  }

  lemma UriIsWord(id: string, host: string, port: int)
    requires UriPart(id) && UriPart(host)
    ensures IsWord(Uri(id, host, port))
  {
    ItoaSolid(port);
  }

  lemma HeaderNames()
    ensures IsName("Via") && IsName("From") && IsName("To") && IsName("Call-ID") && IsName("CSeq")
    ensures IsName("Max-Forwards") && IsName("Contact") && IsName("Subject") && IsName("Content-Type")
    ensures IsName("User-Agent") && IsName("Content-Length") && IsName("WWW-Authenticate") && IsName("Date")
  {}

  lemma TransportClean(transport: string)
    requires Clean(transport)
    ensures Clean(TransportName(transport))
  {
    TrimSpaceTrims(transport);
    UpperClean(TrimSpace(transport));
  }

  lemma ViaHostClean(cfg: Config)
    requires CleanConfig(cfg)
    ensures Clean(ViaHost(cfg))
  {
    TrimSpaceTrims(cfg.listenIP);
  }

  lemma CleanJoin(a: string, b: string)
    requires Clean(a) && Clean(b)
    ensures Clean(a + b)
  {}

  lemma ViaFieldValid(cfg: Config, transport: string, branch: string)
    requires CleanConfig(cfg) && Clean(transport) && Clean(branch)
    ensures ValidField(ViaField(cfg, transport, branch))
  {
    var name, host, port := TransportName(transport), ViaHost(cfg), Itoa(cfg.port);
    var mid := name + " " + host + ":" + port + ";branch=" + branch;
    assert Clean(mid) by {
      TransportClean(transport);
      ViaHostClean(cfg);
      ItoaSolid(cfg.port);
    }
    assert OneLine("SIP/2.0/" + mid + ";rport") by {
      SolidAround("SIP/2.0/", mid, ";rport");
      CleanJoin("SIP/2.0/", mid);
      CleanJoin("SIP/2.0/" + mid, ";rport");
    }
    HeaderNames();
  }

  lemma FromFieldValid(cfg: Config, tag: string)
    requires CleanConfig(cfg) && OneLine(tag)
    ensures ValidField(FromField(cfg, tag))
  {}

  lemma ToValueValid(cfg: Config, id: string)
    requires CleanConfig(cfg) && Clean(id)
    ensures OneLine(ToValue(cfg, id))
  {}

  lemma CommonFieldsValid(verb: string, via: Field, from: Field, to: string, callId: string, cseq: int)
    requires IsWord(verb) && ValidField(via) && ValidField(from) && OneLine(to) && OneLine(callId)
    ensures ValidFields(CommonFields(verb, via, from, to, callId, cseq))
  {
    var digits := Itoa(cseq);
    assert OneLine(digits + " " + verb) by {
      ItoaSolid(cseq);
      SolidAround(digits, " ", verb);
    }
    assert OneLine("70");
    HeaderNames();
  }

  lemma LengthFieldValid(body: string)
    ensures ValidField(LengthField(body))
  {}

  // --- Header names ---

  lemma LowerNames()
    ensures Lower("Via") == "via" && Lower("From") == "from" && Lower("To") == "to" && Lower("Call-ID") == "call-id"
    ensures Lower("CSeq") == "cseq" && Lower("Max-Forwards") == "max-forwards" && Lower("Contact") == "contact"
    ensures Lower("Subject") == "subject" && Lower("Content-Type") == "content-type"
    ensures Lower("User-Agent") == "user-agent" && Lower("Content-Length") == "content-length"
  {}

  // What a list of fields needs to be printed and read back one by one.
  predicate GoodFields(fields: seq<Field>) {
    ValidFields(fields) && DistinctKeys(fields)
  }

  // The declared length comes last and is the body's.
  predicate EndsWithLength(fields: seq<Field>, body: string) {
    fields != [] && fields[|fields| - 1] == LengthField(body)
  }

  ghost predicate KeysWithin(fields: seq<Field>, keys: set<string>) {
    forall i | 0 <= i < |fields| :: Lower(fields[i].name) in keys
  }

  lemma JoinGood(front: seq<Field>, back: seq<Field>, frontKeys: set<string>, backKeys: set<string>)
    requires GoodFields(front) && GoodFields(back)
    requires KeysWithin(front, frontKeys) && KeysWithin(back, backKeys) && frontKeys !! backKeys
    ensures GoodFields(front + back) && KeysWithin(front + back, frontKeys + backKeys)
  {}

  ghost const COMMON_KEYS := {"via", "from", "to", "call-id", "cseq", "max-forwards"}

  lemma CommonKeysDistinct(verb: string, via: Field, from: Field, to: string, callId: string, cseq: int)
    requires via.name == "Via" && from.name == "From"
    ensures var fields := CommonFields(verb, via, from, to, callId, cseq);
      DistinctKeys(fields) && KeysWithin(fields, COMMON_KEYS)
  {
    LowerNames();
    assert "from"[0] != "cseq"[0];
  }

  lemma CommonGood(verb: string, cfg: Config, transport: string, branch: string, tag: string, to: string, callId: string, cseq: int)
    requires IsVerb(verb) && CleanConfig(cfg) && Clean(transport) && Clean(branch) && OneLine(tag) && OneLine(to) && OneLine(callId)
    ensures var front := CommonFields(verb, ViaField(cfg, transport, branch), FromField(cfg, tag), to, callId, cseq);
      GoodFields(front) && KeysWithin(front, COMMON_KEYS)
  {
    var via, from := ViaField(cfg, transport, branch), FromField(cfg, tag);
    ViaFieldValid(cfg, transport, branch);
    FromFieldValid(cfg, tag);
    CommonFieldsValid(verb, via, from, to, callId, cseq);
    CommonKeysDistinct(verb, via, from, to, callId, cseq);
  }

  lemma LiteralValues()
    ensures OneLine("maas-box") && OneLine("Application/SDP") && OneLine("Application/MANSCDP+xml")
  {}

  lemma CatalogTailGood(body: string)
    ensures var back := [Field("Content-Type", "Application/MANSCDP+xml"), Field("User-Agent", "maas-box"), LengthField(body)];
      GoodFields(back) && KeysWithin(back, {"content-type", "user-agent", "content-length"})
  {
    hide IsName, OneLine, Lower;
    LiteralValues();
    HeaderNames();
    LengthFieldValid(body);
    LowerNames();
  }

  lemma InviteTailGood(contact: string, subject: string, body: string)
    requires OneLine(contact) && OneLine(subject)
    ensures var back := [Field("Contact", contact), Field("Subject", subject),
                         Field("Content-Type", "Application/SDP"), Field("User-Agent", "maas-box"), LengthField(body)];
      GoodFields(back) && KeysWithin(back, {"contact", "subject", "content-type", "user-agent", "content-length"})
  {
    hide IsName, OneLine, Lower;
    LiteralValues();
    HeaderNames();
    LengthFieldValid(body);
    LowerNames();
    assert "subject"[0] != "contact"[0];
  }

  lemma DialogTailGood()
    ensures var back := [Field("User-Agent", "maas-box"), LengthField("")];
      GoodFields(back) && KeysWithin(back, {"user-agent", "content-length"})
  {
    hide IsName, OneLine, Lower;
    LiteralValues();
    HeaderNames();
    LengthFieldValid("");
    LowerNames();
  }

  lemma CommonKeysApart()
    ensures COMMON_KEYS !! {"contact", "subject", "content-type", "user-agent", "content-length"}
  {}

  /** A declared length that equals the body's length cuts nothing off. */
  lemma DeclaredBodyExact(headers: map<string, string>, body: string)
    requires |body| <= MAX_INT64 && "content-length" in headers && headers["content-length"] == Itoa(|body|)
    ensures DeclaredBody(headers, body) == body
  {
    var digits := Itoa(|body|);
    assert TrimSpace(digits) == digits by {
      ItoaSolid(|body|);
      TrimSpaceTrims(digits);
    }
    AtoiItoa(|body|);
    assert body[..|body|] == body;
  }

  // The parsed request has exactly these parts: each header under its lower-cased name, and no other.
  ghost predicate Carries(r: Result<Request, ParseError>, verb: string, uri: string, fields: seq<Field>, body: string) {
    && r.Ok? && r.value.verb == verb && r.value.uri == uri && r.value.version == "SIP/2.0" && r.value.body == body
    && (forall i | 0 <= i < |fields| ::
          Lower(fields[i].name) in r.value.headers && r.value.headers[Lower(fields[i].name)] == fields[i].value)
    && (forall key | key in r.value.headers :: exists i :: 0 <= i < |fields| && Lower(fields[i].name) == key)
  }

  predicate IsVerb(verb: string) {
    IsWord(verb) && Upper(verb) == verb && |verb| < 8 && verb != "SIP/2.0"
  }

  lemma PrintedRequestCarries(verb: string, id: string, host: string, port: int, fields: seq<Field>, body: string)
    requires IsVerb(verb) && UriPart(id) && UriPart(host) && |body| <= MAX_INT64
    requires GoodFields(fields) && EndsWithLength(fields, body)
    ensures Carries(RequestOf(Render(RequestLine(verb, id, host, port), fields, body)), verb, Uri(id, host, port), fields, body)
  {
    hide *;
    var uri := Uri(id, host, port);
    RequestLineStarts(verb, id, host, port);
    GoodParts(fields, body);
    RequestRoundTrip(RequestLine(verb, id, host, port), verb, uri, "SIP/2.0", fields, body);
    PartsCarried(verb, uri, fields, body);
  }

  lemma VersionWord()
    ensures IsWord("SIP/2.0") && IsPhrase("SIP/2.0")
  {}

  lemma VerbIsWord(verb: string)
    requires IsVerb(verb)
    ensures IsWord(verb) && Upper(verb) == verb
  {}

  lemma WordsStart(verb: string, uri: string)
    requires IsWord(verb) && IsWord(uri)
    ensures StartsWith(verb + " " + uri + " " + "SIP/2.0", [verb, uri, "SIP/2.0"])
  {
    hide IsWord, IsPhrase, StartsWith;
    VersionWord();
    StartLineParses(verb, uri, "SIP/2.0");
  }

  lemma RequestLineStarts(verb: string, id: string, host: string, port: int)
    requires IsVerb(verb) && UriPart(id) && UriPart(host)
    ensures StartsWith(RequestLine(verb, id, host, port), [verb, Uri(id, host, port), "SIP/2.0"])
    ensures IsWord(verb) && Upper(verb) == verb && IsWord(Uri(id, host, port)) && IsWord("SIP/2.0")
  {
    hide IsWord, IsPhrase, StartsWith, IsVerb, UriPart, Uri, Upper;
    VersionWord();
    VerbIsWord(verb);
    UriIsWord(id, host, port);
    WordsStart(verb, Uri(id, host, port));
  }

  lemma GoodParts(fields: seq<Field>, body: string)
    requires GoodFields(fields) && EndsWithLength(fields, body)
    ensures ValidFields(fields) && DistinctKeys(fields) && fields != []
  {}

  lemma PartsCarried(verb: string, uri: string, fields: seq<Field>, body: string)
    requires DistinctKeys(fields) && EndsWithLength(fields, body) && |body| <= MAX_INT64
    ensures Carries(Ok(Request(verb, uri, "SIP/2.0", FieldMap(fields), DeclaredBody(FieldMap(fields), body))), verb, uri, fields, body)
  {
    FieldMapHolds(fields);
    LastIsLength(fields, body);
    DeclaredBodyExact(FieldMap(fields), body);
  }

  lemma LastIsLength(fields: seq<Field>, body: string)
    requires DistinctKeys(fields) && EndsWithLength(fields, body)
    ensures "content-length" in FieldMap(fields) && FieldMap(fields)["content-length"] == Itoa(|body|)
  {
    FieldMapHolds(fields);
    LowerNames();
  }

  lemma CatalogGood(cfg: Config, transport: string, deviceId: string, body: string, callId: string, branch: string, tag: string, cseq: int)
    requires CleanConfig(cfg) && Clean(transport) && Clean(branch) && OneLine(callId) && OneLine(tag) && Clean(deviceId)
    ensures var fields := CatalogFields(cfg, transport, deviceId, body, callId, branch, tag, cseq);
      GoodFields(fields) && EndsWithLength(fields, body)
  {
    hide TrimSpace, GoodFields, KeysWithin, ViaField, FromField, ToValue, CommonFields;
    var to := ToValue(cfg, deviceId);
    var front := CommonFields("MESSAGE", ViaField(cfg, transport, "z9hG4bK" + branch), FromField(cfg, tag), to, callId, cseq);
    var back := [Field("Content-Type", "Application/MANSCDP+xml"), Field("User-Agent", "maas-box"), LengthField(body)];
    CleanJoin("z9hG4bK", branch);
    ToValueValid(cfg, deviceId);
    CommonGood("MESSAGE", cfg, transport, "z9hG4bK" + branch, tag, to, callId, cseq);
    CatalogTailGood(body);
    CommonKeysApart();
    JoinGood(front, back, COMMON_KEYS, {"content-type", "user-agent", "content-length"});
  }

  /** Parsing a printed catalog query gives back its method, URI, version, headers and exact body. */
  lemma CatalogRoundTrip(cfg: Config, transport: string, deviceId: string, host: string, port: int, body: string,
                         callId: string, branch: string, tag: string, cseq: int)
    requires CleanConfig(cfg) && Clean(transport) && Clean(branch) && OneLine(callId) && OneLine(tag)
    requires UriPart(deviceId) && UriPart(host) && |body| <= MAX_INT64
    ensures Carries(RequestOf(CatalogRequest(cfg, transport, deviceId, host, port, body, callId, branch, tag, cseq)),
                    "MESSAGE", Uri(deviceId, host, port),
                    CatalogFields(cfg, transport, deviceId, body, callId, branch, tag, cseq), body)
  {
    hide RequestOf, Render, GoodFields, Carries, TrimSpace;
    var fields := CatalogFields(cfg, transport, deviceId, body, callId, branch, tag, cseq);
    CatalogGood(cfg, transport, deviceId, body, callId, branch, tag, cseq);
    PrintedRequestCarries("MESSAGE", deviceId, host, port, fields, body);
  }

  lemma SubjectOneLine(channelId: string, stream: string, deviceId: string)
    requires OneLine(channelId) && OneLine(stream) && Clean(deviceId)
    ensures OneLine(channelId + (":" + stream + "," + deviceId + ":") + stream)
  {}

  lemma InviteGood(cfg: Config, transport: string, deviceId: string, channelId: string, body: string,
                   callId: string, tag: string, branch: string, cseq: int, streamId: string)
    requires CleanConfig(cfg) && Clean(transport) && Clean(branch) && OneLine(callId) && OneLine(tag)
    requires OneLine(channelId) && (OneLine(streamId) || TrimSpace(streamId) == "") && Clean(deviceId)
    ensures var fields := InviteFields(cfg, transport, deviceId, channelId, body, callId, tag, branch, cseq, streamId);
      GoodFields(fields) && EndsWithLength(fields, body)
  {
    hide TrimSpace, GoodFields, KeysWithin, ViaField, FromField, ToValue, CommonFields;
    var stream, to := StreamOf(streamId, channelId), ToValue(cfg, channelId);
    var front := CommonFields("INVITE", ViaField(cfg, transport, branch), FromField(cfg, tag), to, callId, cseq);
    var contact := "<sip:" + (cfg.serverID + "@" + ViaHost(cfg) + ":" + Itoa(cfg.port)) + ">";
    var subject := channelId + (":" + stream + "," + deviceId + ":") + stream;
    var back := [Field("Contact", contact), Field("Subject", subject),
                 Field("Content-Type", "Application/SDP"), Field("User-Agent", "maas-box"), LengthField(body)];
    ToValueValid(cfg, channelId);
    CommonGood("INVITE", cfg, transport, branch, tag, to, callId, cseq);
    SubjectOneLine(channelId, stream, deviceId);
    ContactOneLine(cfg);
    InviteTailGood(contact, subject, body);
    CommonKeysApart();
    JoinGood(front, back, COMMON_KEYS, {"contact", "subject", "content-type", "user-agent", "content-length"});
  }

  /** Parsing a printed INVITE gives back its method, URI, version, headers and exact body. */
  lemma InviteRoundTrip(cfg: Config, transport: string, deviceId: string, channelId: string, host: string, port: int, body: string,
                        callId: string, tag: string, branch: string, cseq: int, streamId: string)
    requires CleanConfig(cfg) && Clean(transport) && Clean(branch) && OneLine(callId) && OneLine(tag)
    requires UriPart(channelId) && UriPart(host) && |body| <= MAX_INT64
    requires OneLine(channelId) && (OneLine(streamId) || TrimSpace(streamId) == "") && Clean(deviceId)
    ensures Carries(RequestOf(InviteRequest(cfg, transport, deviceId, channelId, host, port, body, callId, tag, branch, cseq, streamId)),
                    "INVITE", Uri(channelId, host, port),
                    InviteFields(cfg, transport, deviceId, channelId, body, callId, tag, branch, cseq, streamId), body)
  {
    hide RequestOf, Render, GoodFields, Carries, TrimSpace;
    var fields := InviteFields(cfg, transport, deviceId, channelId, body, callId, tag, branch, cseq, streamId);
    InviteGood(cfg, transport, deviceId, channelId, body, callId, tag, branch, cseq, streamId);
    PrintedRequestCarries("INVITE", channelId, host, port, fields, body);
  }

  lemma ContactOneLine(cfg: Config)
    requires CleanConfig(cfg)
    ensures OneLine("<sip:" + (cfg.serverID + "@" + ViaHost(cfg) + ":" + Itoa(cfg.port)) + ">")
  {
    ViaHostClean(cfg);
    ItoaSolid(cfg.port);
    var host, port := ViaHost(cfg), Itoa(cfg.port);
    var mid := cfg.serverID + "@" + host + ":" + port;
    SolidAround("<sip:", mid, ">");
  }

  lemma DialogGood(verb: string, cfg: Config, transport: string, channelId: string, callId: string, tag: string,
                   toHeader: string, branch: string, cseq: int)
    requires IsVerb(verb) && CleanConfig(cfg) && Clean(transport) && Clean(branch)
    requires OneLine(callId) && OneLine(tag) && Clean(toHeader) && Clean(channelId)
    ensures var fields := DialogFields(verb, cfg, transport, channelId, callId, tag, toHeader, branch, cseq);
      GoodFields(fields) && EndsWithLength(fields, "")
  {
    hide TrimSpace, GoodFields, KeysWithin, ViaField, FromField, ToValue, CommonFields;
    var to := if TrimSpace(toHeader) == "" then ToValue(cfg, channelId) else TrimSpace(toHeader);
    var front := CommonFields(verb, ViaField(cfg, transport, "z9hG4bK" + branch), FromField(cfg, tag), to, callId, cseq);
    var back := [Field("User-Agent", "maas-box"), LengthField("")];
    CleanJoin("z9hG4bK", branch);
    assert OneLine(to) by {
      ToValueValid(cfg, channelId);
      TrimSpaceTrims(toHeader);
    }
    CommonGood(verb, cfg, transport, "z9hG4bK" + branch, tag, to, callId, cseq);
    DialogTailGood();
    CommonKeysApart();
    JoinGood(front, back, COMMON_KEYS, {"user-agent", "content-length"});
  }

  lemma DialogRoundTrip(verb: string, cfg: Config, transport: string, channelId: string, host: string, port: int, callId: string,
                        tag: string, toHeader: string, branch: string, cseq: int)
    requires IsVerb(verb) && CleanConfig(cfg) && Clean(transport) && Clean(branch)
    requires OneLine(callId) && OneLine(tag) && Clean(toHeader) && UriPart(channelId) && UriPart(host)
    ensures var fields := DialogFields(verb, cfg, transport, channelId, callId, tag, toHeader, branch, cseq);
      Carries(RequestOf(Render(RequestLine(verb, channelId, host, port), fields, "")), verb, Uri(channelId, host, port), fields, "")
  {
    hide RequestOf, Render, GoodFields, Carries, TrimSpace;
    var fields := DialogFields(verb, cfg, transport, channelId, callId, tag, toHeader, branch, cseq);
    DialogGood(verb, cfg, transport, channelId, callId, tag, toHeader, branch, cseq);
    PrintedRequestCarries(verb, channelId, host, port, fields, "");
  }

  /** Parsing a printed ACK gives back its method, URI, version, headers and empty body. */
  lemma AckRoundTrip(cfg: Config, transport: string, channelId: string, host: string, port: int, callId: string, tag: string,
                     toHeader: string, branch: string, cseq: int)
    requires CleanConfig(cfg) && Clean(transport) && Clean(branch) && OneLine(callId) && OneLine(tag) && Clean(toHeader)
    requires UriPart(channelId) && UriPart(host)
    ensures Carries(RequestOf(AckRequest(cfg, transport, channelId, host, port, callId, tag, toHeader, branch, cseq)),
                    "ACK", Uri(channelId, host, port),
                    DialogFields("ACK", cfg, transport, channelId, callId, tag, toHeader, branch, cseq), "")
  {
    hide RequestOf, Render, GoodFields, Carries, TrimSpace;
    DialogRoundTrip("ACK", cfg, transport, channelId, host, port, callId, tag, toHeader, branch, cseq);
  }

  /** Parsing a printed BYE gives back its parts, with a blank tag and a missing CSeq replaced. */
  lemma ByeRoundTrip(cfg: Config, transport: string, channelId: string, host: string, port: int, callId: string, tag: string,
                     toHeader: string, branch: string, cseq: int, freshTag: string, freshCSeq: int)
    requires CleanConfig(cfg) && Clean(transport) && Clean(branch) && OneLine(callId) && Clean(toHeader)
    requires OneLine(tag) && OneLine(freshTag) && UriPart(channelId) && UriPart(host)
    ensures Carries(RequestOf(ByeRequest(cfg, transport, channelId, host, port, callId, tag, toHeader, branch, cseq, freshTag, freshCSeq)),
                    "BYE", Uri(channelId, host, port),
                    DialogFields("BYE", cfg, transport, channelId, callId, if TrimSpace(tag) == "" then freshTag else tag,
                                 toHeader, branch, if cseq <= 0 then freshCSeq else cseq), "")
  {
    DialogRoundTrip("BYE", cfg, transport, channelId, host, port, callId, if TrimSpace(tag) == "" then freshTag else tag,
                    toHeader, branch, if cseq <= 0 then freshCSeq else cseq);
  }

  // --- What the receiver reads ---

  // The receiver finds this value under this name.
  predicate Reads(r: Result<Request, ParseError>, key: string, value: string) {
    r.Ok? && key in r.value.headers && r.value.headers[key] == value
  }

  // The six headers in front of every request.
  predicate ReadsCommon(r: Result<Request, ParseError>, verb: string, via: string, from: string, to: string, callId: string, cseq: int) {
    && Reads(r, "via", via) && Reads(r, "from", from) && Reads(r, "to", to) && Reads(r, "call-id", callId)
    && Reads(r, "cseq", Itoa(cseq) + " " + verb) && Reads(r, "max-forwards", "70")
  }

  /** The transport is sent in capitals, UDP when none is given; and the local host in place of a
      listening address that stands for all of them. */
  lemma NamesSent(transport: string, cfg: Config)
    ensures TransportName(transport) == if TrimSpace(transport) == "" then "UDP" else Upper(TrimSpace(transport))
    ensures TrimSpace(cfg.listenIP) in {"", "0.0.0.0", "::"} ==> ViaHost(cfg) == "127.0.0.1"
    ensures TrimSpace(cfg.listenIP) !in {"", "0.0.0.0", "::"} ==> ViaHost(cfg) == TrimSpace(cfg.listenIP)
  {
    assert |Upper(TrimSpace(transport))| == |TrimSpace(transport)|;
  }

  lemma ReadAt(r: Result<Request, ParseError>, verb: string, uri: string, fields: seq<Field>, body: string, i: nat, name: string, key: string)
    requires Carries(r, verb, uri, fields, body) && i < |fields| && fields[i].name == name && Lower(name) == key
    ensures Reads(r, key, fields[i].value)
  {
    assert Lower(fields[i].name) == key;
  }

  lemma CommonRead(r: Result<Request, ParseError>, verb: string, uri: string, via: Field, from: Field, to: string, callId: string, cseq: int,
                   back: seq<Field>, body: string)
    requires Carries(r, verb, uri, CommonFields(verb, via, from, to, callId, cseq) + back, body) && via.name == "Via" && from.name == "From"
    ensures ReadsCommon(r, verb, via.value, from.value, to, callId, cseq)
  {
    hide Carries, Reads, Lower;
    var fields := CommonFields(verb, via, from, to, callId, cseq) + back;
    LowerNames();
    ReadAt(r, verb, uri, fields, body, 0, "Via", "via");
    ReadAt(r, verb, uri, fields, body, 1, "From", "from");
    ReadAt(r, verb, uri, fields, body, 2, "To", "to");
    ReadAt(r, verb, uri, fields, body, 3, "Call-ID", "call-id");
    ReadAt(r, verb, uri, fields, body, 4, "CSeq", "cseq");
    ReadAt(r, verb, uri, fields, body, 5, "Max-Forwards", "max-forwards");
  }

  // The value of the Via header of a request of ours.
  function ViaSent(cfg: Config, transport: string, branch: string): string {
    "SIP/2.0/" + (TransportName(transport) + " " + ViaHost(cfg) + ":" + Itoa(cfg.port) + ";branch=" + branch) + ";rport"
  }

  /** The receiver of a catalog query is asked by name, from the configured server, and told what follows. */
  lemma CatalogRead(cfg: Config, transport: string, deviceId: string, host: string, port: int, body: string,
                    callId: string, branch: string, tag: string, cseq: int)
    requires CleanConfig(cfg) && Clean(transport) && Clean(branch) && OneLine(callId) && OneLine(tag)
    requires UriPart(deviceId) && UriPart(host) && |body| <= MAX_INT64
    ensures var r := RequestOf(CatalogRequest(cfg, transport, deviceId, host, port, body, callId, branch, tag, cseq));
      && r.Ok? && r.value.verb == "MESSAGE" && r.value.uri == "sip:" + deviceId + "@" + host + ":" + Itoa(port) && r.value.body == body
      && ReadsCommon(r, "MESSAGE", ViaSent(cfg, transport, "z9hG4bK" + branch), "<sip:" + cfg.serverID + "@" + cfg.domain + ">;tag=" + tag,
                     "<sip:" + (deviceId + "@" + cfg.domain) + ">", callId, cseq)
      && Reads(r, "content-type", "Application/MANSCDP+xml") && Reads(r, "user-agent", "maas-box") && Reads(r, "content-length", Itoa(|body|))
  {
    hide RequestOf, CatalogRequest, Reads, ReadsCommon, Lower, TransportName, ViaHost;
    var r := RequestOf(CatalogRequest(cfg, transport, deviceId, host, port, body, callId, branch, tag, cseq));
    var via, from, uri := ViaField(cfg, transport, "z9hG4bK" + branch), FromField(cfg, tag), Uri(deviceId, host, port);
    var fields := CatalogFields(cfg, transport, deviceId, body, callId, branch, tag, cseq);
    CatalogRoundTrip(cfg, transport, deviceId, host, port, body, callId, branch, tag, cseq);
    CommonRead(r, "MESSAGE", uri, via, from, ToValue(cfg, deviceId), callId, cseq, fields[6..], body);
    LowerNames();
    ReadAt(r, "MESSAGE", uri, fields, body, 6, "Content-Type", "content-type");
    ReadAt(r, "MESSAGE", uri, fields, body, 7, "User-Agent", "user-agent");
    ReadAt(r, "MESSAGE", uri, fields, body, 8, "Content-Length", "content-length");
  }

  /** An invited channel also reads where to answer and which stream is meant: the given one, or its own id. */
  lemma InviteRead(cfg: Config, transport: string, deviceId: string, channelId: string, host: string, port: int, body: string,
                   callId: string, tag: string, branch: string, cseq: int, streamId: string)
    requires CleanConfig(cfg) && Clean(transport) && Clean(branch) && OneLine(callId) && OneLine(tag)
    requires UriPart(channelId) && UriPart(host) && |body| <= MAX_INT64
    requires OneLine(channelId) && (OneLine(streamId) || TrimSpace(streamId) == "") && Clean(deviceId)
    ensures var r := RequestOf(InviteRequest(cfg, transport, deviceId, channelId, host, port, body, callId, tag, branch, cseq, streamId));
      var stream := if TrimSpace(streamId) != "" then streamId else channelId;
      && r.Ok? && r.value.verb == "INVITE" && r.value.uri == "sip:" + channelId + "@" + host + ":" + Itoa(port) && r.value.body == body
      && ReadsCommon(r, "INVITE", ViaSent(cfg, transport, branch), "<sip:" + cfg.serverID + "@" + cfg.domain + ">;tag=" + tag,
                     "<sip:" + (channelId + "@" + cfg.domain) + ">", callId, cseq)
      && Reads(r, "contact", "<sip:" + (cfg.serverID + "@" + ViaHost(cfg) + ":" + Itoa(cfg.port)) + ">")
      && Reads(r, "subject", channelId + (":" + stream + "," + deviceId + ":") + stream)
      && Reads(r, "content-type", "Application/SDP") && Reads(r, "user-agent", "maas-box") && Reads(r, "content-length", Itoa(|body|))
  {
    hide RequestOf, InviteRequest, Reads, ReadsCommon, Lower, TransportName, ViaHost;
    var r := RequestOf(InviteRequest(cfg, transport, deviceId, channelId, host, port, body, callId, tag, branch, cseq, streamId));
    var via, from, uri := ViaField(cfg, transport, branch), FromField(cfg, tag), Uri(channelId, host, port);
    var fields := InviteFields(cfg, transport, deviceId, channelId, body, callId, tag, branch, cseq, streamId);
    InviteRoundTrip(cfg, transport, deviceId, channelId, host, port, body, callId, tag, branch, cseq, streamId);
    CommonRead(r, "INVITE", uri, via, from, ToValue(cfg, channelId), callId, cseq, fields[6..], body);
    LowerNames();
    ReadAt(r, "INVITE", uri, fields, body, 6, "Contact", "contact");
    ReadAt(r, "INVITE", uri, fields, body, 7, "Subject", "subject");
    ReadAt(r, "INVITE", uri, fields, body, 8, "Content-Type", "content-type");
    ReadAt(r, "INVITE", uri, fields, body, 9, "User-Agent", "user-agent");
    ReadAt(r, "INVITE", uri, fields, body, 10, "Content-Length", "content-length");
  }

  // What an ACK or a BYE says: to the address of the answer when one is known, else to the channel.
  predicate ReadsDialog(r: Result<Request, ParseError>, verb: string, cfg: Config, transport: string, channelId: string, host: string, port: int,
                        callId: string, tag: string, toHeader: string, branch: string, cseq: int) {
    && r.Ok? && r.value.verb == verb && r.value.uri == "sip:" + channelId + "@" + host + ":" + Itoa(port) && r.value.body == ""
    && ReadsCommon(r, verb, ViaSent(cfg, transport, "z9hG4bK" + branch), "<sip:" + cfg.serverID + "@" + cfg.domain + ">;tag=" + tag,
                   if TrimSpace(toHeader) != "" then TrimSpace(toHeader) else "<sip:" + (channelId + "@" + cfg.domain) + ">", callId, cseq)
    && Reads(r, "user-agent", "maas-box") && Reads(r, "content-length", "0")
  }

  lemma DialogRead(verb: string, cfg: Config, transport: string, channelId: string, host: string, port: int, callId: string,
                   tag: string, toHeader: string, branch: string, cseq: int)
    requires IsVerb(verb) && CleanConfig(cfg) && Clean(transport) && Clean(branch)
    requires OneLine(callId) && OneLine(tag) && Clean(toHeader) && UriPart(channelId) && UriPart(host)
    ensures var fields := DialogFields(verb, cfg, transport, channelId, callId, tag, toHeader, branch, cseq);
      ReadsDialog(RequestOf(Render(RequestLine(verb, channelId, host, port), fields, "")), verb, cfg, transport, channelId, host, port,
                  callId, tag, toHeader, branch, cseq)
  {
    hide RequestOf, Render, RequestLine, Reads, ReadsCommon, Lower, TransportName, ViaHost, IsVerb, TrimSpace;
    var fields := DialogFields(verb, cfg, transport, channelId, callId, tag, toHeader, branch, cseq);
    var r := RequestOf(Render(RequestLine(verb, channelId, host, port), fields, ""));
    var via, from, uri := ViaField(cfg, transport, "z9hG4bK" + branch), FromField(cfg, tag), Uri(channelId, host, port);
    DialogRoundTrip(verb, cfg, transport, channelId, host, port, callId, tag, toHeader, branch, cseq);
    CommonRead(r, verb, uri, via, from, fields[2].value, callId, cseq, fields[6..], "");
    LowerNames();
    ReadAt(r, verb, uri, fields, "", 6, "User-Agent", "user-agent");
    ReadAt(r, verb, uri, fields, "", 7, "Content-Length", "content-length");
    assert Itoa(|""|) == "0";
  }

  /** The ACK goes to the address of the answer; */
  lemma AckRead(cfg: Config, transport: string, channelId: string, host: string, port: int, callId: string, tag: string,
                toHeader: string, branch: string, cseq: int)
    requires CleanConfig(cfg) && Clean(transport) && Clean(branch) && OneLine(callId) && OneLine(tag) && Clean(toHeader)
    requires UriPart(channelId) && UriPart(host)
    ensures ReadsDialog(RequestOf(AckRequest(cfg, transport, channelId, host, port, callId, tag, toHeader, branch, cseq)), "ACK",
                        cfg, transport, channelId, host, port, callId, tag, toHeader, branch, cseq)
  {
    hide RequestOf, Render, ReadsDialog;
    DialogRead("ACK", cfg, transport, channelId, host, port, callId, tag, toHeader, branch, cseq);
  }

  /** so does the BYE, with a fresh tag when none is known and a fresh number when it is not positive. */
  lemma ByeRead(cfg: Config, transport: string, channelId: string, host: string, port: int, callId: string, tag: string,
                toHeader: string, branch: string, cseq: int, freshTag: string, freshCSeq: int)
    requires CleanConfig(cfg) && Clean(transport) && Clean(branch) && OneLine(callId) && Clean(toHeader)
    requires OneLine(tag) && OneLine(freshTag) && UriPart(channelId) && UriPart(host)
    ensures var r := RequestOf(ByeRequest(cfg, transport, channelId, host, port, callId, tag, toHeader, branch, cseq, freshTag, freshCSeq));
      && (TrimSpace(tag) != "" && cseq > 0 ==>
            ReadsDialog(r, "BYE", cfg, transport, channelId, host, port, callId, tag, toHeader, branch, cseq))
      && (TrimSpace(tag) == "" && cseq > 0 ==>
            ReadsDialog(r, "BYE", cfg, transport, channelId, host, port, callId, freshTag, toHeader, branch, cseq))
      && (TrimSpace(tag) != "" && cseq <= 0 ==>
            ReadsDialog(r, "BYE", cfg, transport, channelId, host, port, callId, tag, toHeader, branch, freshCSeq))
      && (TrimSpace(tag) == "" && cseq <= 0 ==>
            ReadsDialog(r, "BYE", cfg, transport, channelId, host, port, callId, freshTag, toHeader, branch, freshCSeq))
  {
    hide RequestOf, Render, ReadsDialog, DialogFields, TrimSpace, OneLine;
    DialogRead("BYE", cfg, transport, channelId, host, port, callId, if TrimSpace(tag) == "" then freshTag else tag,
               toHeader, branch, if cseq <= 0 then freshCSeq else cseq);
  }

  // --- Requests and responses are told apart ---

  function FirstLine(raw: string): string {
    var k := Index(raw, "\n");
    if k >= 0 then raw[..k] else raw
  }

  predicate IsResponsePacket(raw: string) {
    raw != "" && HasPrefix(Upper(TrimSpace(FirstLine(raw))), "SIP/2.0 ")
  }

  lemma FirstLineOfRender(start: string, fields: seq<Field>, body: string)
    requires IsPhrase(start)
    ensures Render(start, fields, body) != ""
    ensures TrimSpace(FirstLine(Render(start, fields, body))) == start
  {
    var lines := [start] + FieldLines(fields) + ["", body];
    assert lines[0] == start && |lines| > 1;
    var line, rest := start + ['\r'], Join(lines[1..], CRLF);
    assert Join(lines, CRLF) == start + CRLF + rest == line + "\n" + rest;
    IndexAfter(line, "\n", rest);
    TrimAsciiSpace(start, '\r');
  }

  /** The classifier answers for a printed message whether its start line begins with the word "SIP/2.0",
      in any case, so it never takes a printed request for a response. */
  lemma ClassifierExact(a: string, b: string, c: string, fields: seq<Field>, body: string)
    requires ValidStart(a, b, c)
    ensures IsResponsePacket(Render(a + " " + b + " " + c, fields, body)) <==> Upper(a) == "SIP/2.0"
  {
    var start := a + " " + b + " " + c;
    assert IsPhrase(start) && TrimSpace(start) == start by {
      StartLineParses(a, b, c);
      StartLineTrimmed(a, b, c);
      TrimSpaceTrims(start);
    }
    FirstLineOfRender(start, fields, body);
    UpperJoin(a, b + " " + c);
    assert start == a + " " + (b + " " + c);
    PrefixWord(Upper(a), Upper(b + " " + c));
  }

  lemma UpperJoin(a: string, rest: string)
    requires IsWord(a)
    ensures Upper(a + " " + rest) == Upper(a) + " " + Upper(rest) && ' ' !in Upper(a)
  {}

  lemma PrefixWord(a: string, rest: string)
    requires ' ' !in a
    ensures HasPrefix(a + " " + rest, "SIP/2.0 ") <==> a == "SIP/2.0"
  {
    var line := a + " " + rest;
    FirstWord(a, rest);
    if HasPrefix(line, "SIP/2.0 ") {
      assert line == "SIP/2.0" + " " + line[8..];
      FirstWord("SIP/2.0", line[8..]);
    }
  }

  lemma FirstWord(a: string, rest: string)
    requires ' ' !in a
    ensures Index(a + " " + rest, " ") == |a| && (a + " " + rest)[..|a|] == a
  {
    IndexAfter(a, " ", rest);
  }
}
