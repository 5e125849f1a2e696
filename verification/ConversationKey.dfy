/** Conversation keys: six text parts, each in base64url, joined with colons.

    A text stands for its UTF-8 bytes.  `repair` is what reading bytes as UTF-8 and writing the text
    back does: it keeps well-formed bytes and replaces anything else.  */
module ConversationKey {
  import opened Wrappers
  import opened Base64Url

  type Text = seq<Byte>

  datatype Error = BadEncoding | BadKey

  datatype Message = Message(chatId: Text, threadId: Option<Text>, rootId: Option<Text>)

  datatype Scope = Chat | Thread

  datatype Address = Address(appKey: Text, agentId: Text, tenantKey: Text, chatId: Text, topicKey: Text)

  const PREFIX: Text := [0x76, 0x32]                                  // v2
  const UNKNOWN: Text := [0x75, 0x6e, 0x6b, 0x6e, 0x6f, 0x77, 0x6e]   // unknown
  const MAIN: Text := [0x6d, 0x61, 0x69, 0x6e]                        // main

  // ---------------------------------------------------------------- building

  function Join(segments: seq<string>): string
    requires segments != []
  {
    if |segments| == 1 then segments[0] else segments[0] + ":" + Join(segments[1..])
  }

  function EncodeAll(parts: seq<Text>): (r: seq<string>)
    ensures |r| == |parts|
  {
    if parts == [] then [] else [Encode(parts[0])] + EncodeAll(parts[1..])
  }

  /** The address that a message has. */
  function AddressOf(appKey: Text, agentId: Text, tenantKey: Option<Text>, message: Message, scope: Scope,
                     trim: Text -> Text): Address {
    var topic := match scope
      case Chat => MAIN
      case Thread => if message.threadId.Some? then message.threadId.value
          else if message.rootId.Some? then message.rootId.value else MAIN;
    var tenant := if tenantKey.Some? && trim(tenantKey.value) != [] then trim(tenantKey.value) else UNKNOWN;
    Address(appKey, agentId, tenant, message.chatId, topic)
  }

  function Format(a: Address): string {
    Join(EncodeAll([PREFIX, a.appKey, a.agentId, a.tenantKey, a.chatId, a.topicKey]))
  }

  function Build(appKey: Text, agentId: Text, tenantKey: Option<Text>, message: Message, scope: Scope,
                 trim: Text -> Text): string {
    Format(AddressOf(appKey, agentId, tenantKey, message, scope, trim))
  }

  // ---------------------------------------------------------------- parsing

  function Split(s: string): (r: seq<string>)
    ensures r != []
  {
    if s == "" then [""]
    else
      var rest := Split(s[1..]);
      if s[0] == ':' then [""] + rest else [[s[0]] + rest[0]] + rest[1..]
  }

  function DecodeSegment(s: string, repair: Text -> Text): Result<Text, Error> {
    if s == "" || !AllDigits(s) then Err(BadEncoding)
    else
      var decoded := repair(Decode(s));
      if decoded == [] || Encode(decoded) != s then Err(BadEncoding) else Ok(decoded)
  }

  function DecodeAll(segments: seq<string>, repair: Text -> Text): (r: Result<seq<Text>, Error>)
    ensures r.Ok? ==> |r.value| == |segments|
  {
    if segments == [] then Ok([])
    else
      match DecodeSegment(segments[0], repair)
      case Err(e) => Err(e)
      case Ok(part) =>
        match DecodeAll(segments[1..], repair)
        case Err(e) => Err(e)
        case Ok(rest) => Ok([part] + rest)
  }

  function Parse(s: string, repair: Text -> Text): Result<Address, Error> {
    match DecodeAll(Split(s), repair)
    case Err(e) => Err(e)
    case Ok(p) =>
      if |p| != 6 || p[0] != PREFIX then Err(BadKey)
      else if p[1] == [] || p[2] == [] || p[3] == [] || p[4] == [] || p[5] == [] then Err(BadKey)
      else Ok(Address(p[1], p[2], p[3], p[4], p[5]))
  }

  function BelongsTo(key: string, appKey: Text, agentId: Text, chatId: Option<Text>, repair: Text -> Text): bool {
    match Parse(key, repair)
    case Err(_) => false
    case Ok(a) =>
      a.appKey == appKey && a.agentId == agentId &&
      (chatId.None? || chatId.value == [] || a.chatId == chatId.value)
  }

  // ---------------------------------------------------------------- the codec is a bijection

  /** What a text can be: well-formed, as reading and writing it back keeps it. */
  predicate Readable(t: Text, repair: Text -> Text) {
    t != [] && repair(t) == t
  }

  predicate AllReadable(a: Address, repair: Text -> Text) {
    Readable(a.appKey, repair) && Readable(a.agentId, repair) && Readable(a.tenantKey, repair) &&
    Readable(a.chatId, repair) && Readable(a.topicKey, repair)
  }

  predicate NoColon(s: string) {
    forall i :: 0 <= i < |s| ==> s[i] != ':'
  }

  lemma {:induction false} SplitOne(s: string, rest: string)
    requires NoColon(s)
    ensures Split(s) == [s]
    ensures Split(s + ":" + rest) == [s] + Split(rest)
  {
    if s == "" {
      assert s + ":" + rest == ":" + rest;
      assert (":" + rest)[1..] == rest;
    } else {
      SplitOne(s[1..], rest);
      assert (s + ":" + rest)[1..] == s[1..] + ":" + rest;
      assert [s[0]] + s[1..] == s;
    }
  }

  lemma {:induction false} SplitJoin(segments: seq<string>)
    requires segments != [] && forall i :: 0 <= i < |segments| ==> NoColon(segments[i])
    ensures Split(Join(segments)) == segments
  {
    if |segments| == 1 {
      SplitOne(segments[0], "");
    } else {
      SplitJoin(segments[1..]);
      SplitOne(segments[0], Join(segments[1..]));
    }
  }

  lemma {:induction false} JoinSplit(s: string)
    ensures Join(Split(s)) == s
  {
    if s != "" {
      JoinSplit(s[1..]);
      var rest := Split(s[1..]);
      if s[0] == ':' {
        assert ([""] + rest)[1..] == rest;
      } else {
        assert Split(s)[1..] == rest[1..];
      }
      assert s == [s[0]] + s[1..];
    }
  }

  lemma {:induction false} EncodedHaveNoColon(parts: seq<Text>)
    ensures forall i :: 0 <= i < |parts| ==> EncodeAll(parts)[i] == Encode(parts[i]) && NoColon(EncodeAll(parts)[i])
  {
    if parts != [] {
      EncodedHaveNoColon(parts[1..]);
    }
  }

  /** One segment: readable text survives, and what is accepted is canonical. */
  lemma SegmentRoundTrip(t: Text, repair: Text -> Text)
    ensures DecodeSegment(Encode(t), repair) == if Readable(t, repair) then Ok(t) else Err(BadEncoding)
  {
    DecodeEncode(t);
    if repair(t) != t {
      DecodeEncode(repair(t));
    }
  }

  lemma {:induction false} PartsRoundTrip(parts: seq<Text>, repair: Text -> Text)
    ensures DecodeAll(EncodeAll(parts), repair) ==
      if forall i :: 0 <= i < |parts| ==> Readable(parts[i], repair) then Ok(parts) else Err(BadEncoding)
  {
    if parts != [] {
      SegmentRoundTrip(parts[0], repair);
      PartsRoundTrip(parts[1..], repair);
      assert EncodeAll(parts)[1..] == EncodeAll(parts[1..]);
      assert parts == [parts[0]] + parts[1..];
      assert (forall i :: 0 <= i < |parts| ==> Readable(parts[i], repair)) <==>
             Readable(parts[0], repair) && forall i :: 0 <= i < |parts| - 1 ==> Readable(parts[1..][i], repair);
    }
  }

  lemma {:induction false} AcceptedPartsAreCanonical(segments: seq<string>, repair: Text -> Text)
    requires DecodeAll(segments, repair).Ok?
    ensures EncodeAll(DecodeAll(segments, repair).value) == segments
  {
    if segments != [] {
      AcceptedPartsAreCanonical(segments[1..], repair);
      var rest := DecodeAll(segments[1..], repair).value;
      assert DecodeAll(segments, repair).value[1..] == rest;
    }
  }

  /** Parsing a built key gives back exactly the address, when every part is readable; a part that is
      not (an empty one, say) makes the key unparsable. */
  lemma ParseFormat(a: Address, repair: Text -> Text)
    requires repair(PREFIX) == PREFIX
    ensures Parse(Format(a), repair) == if AllReadable(a, repair) then Ok(a) else Err(BadEncoding)
  {
    var parts := [PREFIX, a.appKey, a.agentId, a.tenantKey, a.chatId, a.topicKey];
    EncodedHaveNoColon(parts);
    SplitJoin(EncodeAll(parts));
    PartsRoundTrip(parts, repair);
    assert (forall i :: 0 <= i < |parts| ==> Readable(parts[i], repair)) <==>
           Readable(parts[0], repair) && Readable(parts[1], repair) && Readable(parts[2], repair) &&
           Readable(parts[3], repair) && Readable(parts[4], repair) && Readable(parts[5], repair);
  }

  lemma {:induction false} EncodeAllInjective(x: seq<Text>, y: seq<Text>)
    requires EncodeAll(x) == EncodeAll(y)
    ensures x == y
  {
    if x != [] && y != [] {
      DecodeEncode(x[0]);
      DecodeEncode(y[0]);
      assert EncodeAll(x)[0] == EncodeAll(y)[0];
      assert EncodeAll(x)[1..] == EncodeAll(y)[1..];
      EncodeAllInjective(x[1..], y[1..]);
      assert x == [x[0]] + x[1..] && y == [y[0]] + y[1..];
    }
  }

  /** The text of a key: six segments between colons, the version and the five parts in this order. */
  lemma KeySegments(a: Address)
    ensures Split(Format(a)) ==
      [Encode(PREFIX), Encode(a.appKey), Encode(a.agentId), Encode(a.tenantKey), Encode(a.chatId), Encode(a.topicKey)]
  {
    var parts := [PREFIX, a.appKey, a.agentId, a.tenantKey, a.chatId, a.topicKey];
    EncodedHaveNoColon(parts);
    SplitJoin(EncodeAll(parts));
  }

  /** The separator is a colon, and nothing else separates. */
  lemma ColonsSeparate(s: string)
    ensures Join(Split(s)) == s
    ensures forall i :: 0 <= i < |Split(s)| ==> NoColon(Split(s)[i])
  {
    JoinSplit(s);
    SplitHasNoColon(s);
  }

  lemma {:induction false} SplitHasNoColon(s: string)
    ensures forall i :: 0 <= i < |Split(s)| ==> NoColon(Split(s)[i])
  {
    if s != "" {
      SplitHasNoColon(s[1..]);
    }
  }

  /** Two keys are equal exactly when their addresses are: no two conversations share a key. */
  lemma FormatInjective(a: Address, b: Address)
    ensures Format(a) == Format(b) <==> a == b
  {
    if Format(a) == Format(b) {
      var x := [PREFIX, a.appKey, a.agentId, a.tenantKey, a.chatId, a.topicKey];
      var y := [PREFIX, b.appKey, b.agentId, b.tenantKey, b.chatId, b.topicKey];
      EncodedHaveNoColon(x);
      EncodedHaveNoColon(y);
      SplitJoin(EncodeAll(x));
      SplitJoin(EncodeAll(y));
      EncodeAllInjective(x, y);
      assert x[1] == y[1] && x[2] == y[2] && x[3] == y[3] && x[4] == y[4] && x[5] == y[5];
    }
  }

  /** Every accepted string is the key of the address it is parsed to: nothing but what building
      makes is ever accepted. */
  lemma AcceptedKeysReencode(s: string, repair: Text -> Text)
    requires Parse(s, repair).Ok?
    ensures Format(Parse(s, repair).value) == s
  {
    var segments := Split(s);
    AcceptedPartsAreCanonical(segments, repair);
    JoinSplit(s);
    var p := DecodeAll(segments, repair).value;
    var a := Parse(s, repair).value;
    assert p == [PREFIX, a.appKey, a.agentId, a.tenantKey, a.chatId, a.topicKey];
  }

  /** The accepted language: a string parses exactly when it is the key of some readable address. */
  lemma AcceptedLanguage(s: string, repair: Text -> Text)
    requires repair(PREFIX) == PREFIX
    ensures Parse(s, repair).Ok? <==> exists a :: AllReadable(a, repair) && Format(a) == s
  {
    if Parse(s, repair).Ok? {
      var a := Parse(s, repair).value;
      AcceptedKeysReencode(s, repair);
      ParseFormat(a, repair);
    }
    forall a | AllReadable(a, repair) && Format(a) == s
      ensures Parse(s, repair).Ok?
    {
      ParseFormat(a, repair);
    }
  }

  /** The key of a message: it parses to the message's address when app, agent, chat and topic are
      readable (an absent or blank tenant becomes the placeholder), and it differs from every key of
      another address. */
  lemma BuiltKeysIdentifyConversations(
      appKey: Text, agentId: Text, tenantKey: Option<Text>, message: Message, scope: Scope, trim: Text -> Text,
        repair: Text -> Text,
      other: string)
    requires repair(PREFIX) == PREFIX
    requires AllReadable(AddressOf(appKey, agentId, tenantKey, message, scope, trim), repair)
    ensures var key := Build(appKey, agentId, tenantKey, message, scope, trim);
      Parse(key, repair) == Ok(AddressOf(appKey, agentId, tenantKey, message, scope, trim)) &&
      (Parse(other, repair) == Parse(key, repair) <==> other == key)
  {
    ParseFormat(AddressOf(appKey, agentId, tenantKey, message, scope, trim), repair);
    if Parse(other, repair) == Parse(Build(appKey, agentId, tenantKey, message, scope, trim), repair) {
      AcceptedKeysReencode(other, repair);
    }
  }

  /** Two messages to one agent of an app are in the same conversation exactly when they come from the
      same tenant and chat and, where conversations are per thread, have the same topic: the thread,
      else the message answered, else the main topic. */
  lemma SameConversationIff(
      appKey: Text, agentId: Text, tenant: Option<Text>, m: Message, other: Option<Text>, n: Message, scope: Scope,
      trim: Text -> Text)
    ensures Build(appKey, agentId, tenant, m, scope, trim) == Build(appKey, agentId, other, n, scope, trim) <==>
      (var t := if tenant == None || trim(tenant.value) == [] then UNKNOWN else trim(tenant.value);
       var u := if other == None || trim(other.value) == [] then UNKNOWN else trim(other.value);
       t == u) &&
      m.chatId == n.chatId &&
      (scope == Thread ==>
        var x := if m.threadId.Some? then m.threadId else if m.rootId.Some? then m.rootId else Some(MAIN);
        var y := if n.threadId.Some? then n.threadId else if n.rootId.Some? then n.rootId else Some(MAIN);
        x == y)
  {
    FormatInjective(AddressOf(appKey, agentId, tenant, m, scope, trim),
                    AddressOf(appKey, agentId, other, n, scope, trim));
  }

  /** The parts of a message's key when it is read back. */
  lemma BuiltKeyReads(appKey: Text, agentId: Text, tenant: Option<Text>, m: Message, scope: Scope, trim: Text -> Text,
                      repair: Text -> Text)
    requires repair(PREFIX) == PREFIX
    requires Parse(Build(appKey, agentId, tenant, m, scope, trim), repair).Ok?
    ensures var a := Parse(Build(appKey, agentId, tenant, m, scope, trim), repair).value;
      a.appKey == appKey && a.agentId == agentId && a.chatId == m.chatId && (scope == Chat ==> a.topicKey == MAIN) &&
      (scope == Thread ==>
        (m.threadId.Some? ==> a.topicKey == m.threadId.value) &&
        (m.threadId == None && m.rootId.Some? ==> a.topicKey == m.rootId.value) &&
        (m.threadId == None && m.rootId == None ==> a.topicKey == MAIN)) &&
      (tenant.Some? && trim(tenant.value) != [] ==> a.tenantKey == trim(tenant.value)) &&
      (tenant == None || trim(tenant.value) == [] ==> a.tenantKey == UNKNOWN)
  {
    ParseFormat(AddressOf(appKey, agentId, tenant, m, scope, trim), repair);
  }

  /** A key belongs to an app, an agent and a chat exactly when it is the key of an address with
      these; anything unparsable belongs to nobody. */
  lemma BelongsToItsAddress(key: string, appKey: Text, agentId: Text, chatId: Option<Text>, repair: Text -> Text)
    requires repair(PREFIX) == PREFIX
    ensures BelongsTo(key, appKey, agentId, chatId, repair) <==>
      exists a :: AllReadable(a, repair) && Format(a) == key && a.appKey == appKey && a.agentId == agentId &&
        (chatId.None? || chatId.value == [] || a.chatId == chatId.value)
  {
    AcceptedLanguage(key, repair);
    if Parse(key, repair).Ok? {
      AcceptedKeysReencode(key, repair);
      ParseFormat(Parse(key, repair).value, repair);
    }
    forall a | AllReadable(a, repair) && Format(a) == key
      ensures Parse(key, repair) == Ok(a)
    {
      ParseFormat(a, repair);
    }
  }
}
