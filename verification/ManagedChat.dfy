/**
 * The managed chat bridge's consumer (examples/managed_ai_sdk/bridge.ts): it
 * turns the frames of a run's event stream into UI chunks and may report
 * `finish` only for a result it has confirmed with the control plane.
 */
module ManagedChat {
  import opened Common
  import opened Texts
  import opened CanonicalJson
  import S = SseFrames

  // ----- Texts and documents -----

  /** A string literal as code units. */
  function Units(s: string): (t: Text)
    ensures |t| == |s|
  {
    seq(|s|, i requires 0 <= i < |s| => if s[i] < '\U{10000}' then s[i] as int else 0xD800)
  }

  /** UTF-8 bytes of a text; each half of a surrogate pair stands for two. */
  function TextBytes(t: Text): nat {
    if t == [] then 0
    else (if t[0] < 0x80 then 1 else if t[0] < 0x800 then 2 else if 0xD800 <= t[0] < 0xE000 then 2 else 3) + TextBytes(t[1..])
  }

  /** The code points of a valid text. */
  function CodePoints(t: Text): seq<int>
    requires ValidText(t)
  {
    if t == [] then []
    else if 0xD800 <= t[0] < 0xDC00 then [0x10000 + (t[0] - 0xD800) * 0x400 + (t[1] - 0xDC00)] + CodePoints(t[2..])
    else [t[0]] + CodePoints(t[1..])
  }

  /** The bytes of a code point in UTF-8 (section 3 of RFC 3629). */
  function Utf8Width(c: int): nat {
    if c <= 0x7F then 1 else if c <= 0x7FF then 2 else if c <= 0xFFFF then 3 else 4
  }

  function Utf8Size(points: seq<int>): nat {
    if points == [] then 0 else Utf8Width(points[0]) + Utf8Size(points[1..])
  }

  /** The parser counts characters the same way. */
  lemma CharBytesAreUtf8(c: char)
    ensures S.CharBytes(c) == Utf8Width(c as int)
  {}

  /** So a valid text counts as many bytes as its UTF-8 form has. */
  lemma {:induction false} BytesAreUtf8(t: Text)
    requires ValidText(t)
    ensures TextBytes(t) == Utf8Size(CodePoints(t))
    decreases t
  {
    if t != [] {
      if 0xD800 <= t[0] < 0xDC00 {
        BytesAreUtf8(t[2..]);
        assert t[1..][0] == t[1] && t[1..][1..] == t[2..];
        assert TextBytes(t) == 4 + TextBytes(t[2..]);
      } else {
        BytesAreUtf8(t[1..]);
      }
    }
  }

  /** A property of a value; absent unless the value is an object that has it. */
  function Field(v: Option<Json>, key: string): (f: Option<Json>) {
    if v.Some? && v.value.Object? && Has(v.value.members, Units(key)) then Some(Get(v.value.members, Units(key))) else None
  }

  /** The value at the end of a path of keys. */
  function Path(v: Option<Json>, keys: seq<string>): Option<Json>
    decreases keys
  {
    if keys == [] then v else Path(Field(v, keys[0]), keys[1..])
  }

  lemma PathTwo(v: Option<Json>, a: string, b: string)
    ensures Path(v, [a, b]) == Field(Field(v, a), b)
  {
    assert [a, b][1..] == [b] && [b][1..] == [];
    assert Path(Field(v, a), [b]) == Path(Field(Field(v, a), b), []);
  }

  lemma PathThree(v: Option<Json>, a: string, b: string, c: string)
    ensures Path(v, [a, b, c]) == Field(Field(Field(v, a), b), c)
  {
    assert [a, b, c][1..] == [b, c];
    PathTwo(Field(v, a), b, c);
  }

  predicate IsObject(v: Option<Json>) {
    v.Some? && v.value.Object?
  }

  predicate IsText(v: Option<Json>, t: Text) {
    v == Some(String(t))
  }

  predicate IsValidText(v: Option<Json>) {
    v.Some? && v.value.String? && ValidText(v.value.s)
  }

  // ----- Profiles -----

  datatype Profile = AiSdk | AgentFramework | OpenAiAgents | PydanticAi | GoogleAdk

  function Name(p: Profile): Text {
    match p
    case AiSdk => Units("ai-sdk")
    case AgentFramework => Units("agent-framework")
    case OpenAiAgents => Units("openai-agents")
    case PydanticAi => Units("pydantic-ai")
    case GoogleAdk => Units("google-adk")
  }

  function MetadataKey(p: Profile): string {
    match p
    case AiSdk => "ai_sdk"
    case AgentFramework => "agent_framework"
    case OpenAiAgents => "openai_agents"
    case PydanticAi => "pydantic_ai"
    case GoogleAdk => "google_adk"
  }

  predicate ValidProfile(value: Option<Json>, profile: Profile, generation: int) {
    var metadata := Field(value, MetadataKey(profile));
    IsObject(metadata) && IsText(Field(metadata, "framework"), Name(profile)) && Field(metadata, "generation") == Some(Number(generation))
  }

  // ----- Messages -----

  predicate OnlyKeys(members: seq<(Text, Json)>, keys: set<Text>) {
    forall m <- members :: m.0 in keys
  }

  /** The text of one message chunk of a Python runner, if it has the one supported shape. */
  function PythonDelta(value: Option<Json>, runId: string): (delta: Option<Text>)
    ensures delta.Some? ==> ValidText(delta.value)
  {
    if !(value.Some? && value.value.Array? && |value.value.items| == 2) then None
    else
      var message, extra := Some(value.value.items[0]), Some(value.value.items[1]);
      if && IsObject(message) && IsObject(extra) && extra.value.members == []
         && OnlyKeys(message.value.members, {Units("id"), Units("type"), Units("content")})
         && IsText(Field(message, "id"), Units(runId + ":assistant")) && IsText(Field(message, "type"), Units("ai"))
         && IsValidText(Field(message, "content"))
      then Some(Field(message, "content").value.s) else None
  }

  /** JavaScript white space and line ends. */
  predicate Space(u: Unit) {
    9 <= u <= 13 || u == 32 || u == 0xA0 || u == 0x1680 || 0x2000 <= u <= 0x200A || u == 0x2028 || u == 0x2029 ||
    u == 0x202F || u == 0x205F || u == 0x3000 || u == 0xFEFF
  }

  /** The white space and line ends of ECMAScript (sections 12.2 and 12.3 of ECMA-262). */
  lemma SpaceIs(u: Unit)
    ensures Space(u) <==>
            u in {0x9, 0xA, 0xB, 0xC, 0xD, 0x20, 0xA0, 0x1680, 0x2000, 0x2001, 0x2002, 0x2003, 0x2004, 0x2005, 0x2006, 0x2007,
                  0x2008, 0x2009, 0x200A, 0x2028, 0x2029, 0x202F, 0x205F, 0x3000, 0xFEFF}
  {}

  predicate Blank(t: Text) {
    forall u <- t :: Space(u)
  }

  /** The user's text of the turn, if the run input has exactly one message and it is a usable one. */
  function TurnInput(input: Option<Json>, expected: Option<Text>): (text: Option<Text>) {
    var messages := Field(input, "messages");
    if !(IsObject(input) && OnlyKeys(input.value.members, {Units("messages")}) && messages.Some? && messages.value.Array? &&
         |messages.value.items| == 1) then None
    else
      var incoming := Some(messages.value.items[0]);
      var content := Field(incoming, "content");
      if && IsText(Field(incoming, "role"), Units("user")) && IsValidText(content) && !Blank(content.value.s)
         && (expected.Some? ==> content.value.s == expected.value)
      then Some(content.value.s) else None
  }

  /** The assistant's text of the last turn of a thread, empty when it has not answered; absent when the turn is another one. */
  function CurrentTurnText(value: Option<Json>, input: Option<Json>, expected: Option<Text>): (text: Option<Text>) {
    var list := Field(value, "messages");
    var asked := TurnInput(input, expected);
    if !(list.Some? && list.value.Array? && asked.Some?) then None
    else
      var messages := list.value.items;
      var final := if |messages| > 0 then Some(messages[|messages| - 1]) else None;
      var assistant := IsText(Field(final, "role"), Units("assistant"));
      var back := if assistant then 2 else 1;
      var user := if |messages| >= back then Some(messages[|messages| - back]) else None;
      if !(IsText(Field(user, "role"), Units("user")) && IsText(Field(user, "content"), asked.value)) then None
      else if !assistant then Some([])
      else if IsValidText(Field(final, "content")) then Some(Field(final, "content").value.s)
      else None
  }

  // ----- What those documents look like -----

  function Message(role: string, content: Text): Json {
    Object([(Units("role"), String(Units(role))), (Units("content"), String(content))])
  }

  function ThreadDocument(messages: seq<Json>): Json {
    Object([(Units("messages"), Array(messages))])
  }

  function ChunkDocument(runId: string, content: Text): Json {
    Array([Object([(Units("id"), String(Units(runId + ":assistant"))), (Units("type"), String(Units("ai"))), (Units("content"), String(content))]),
           Object([])])
  }

  function ProfileDocument(p: Profile, generation: int): Json {
    Object([(Units(MetadataKey(p)), Object([(Units("framework"), String(Name(p))), (Units("generation"), Number(generation))]))])
  }

  lemma MessageFields(role: string, content: Text)
    ensures IsText(Field(Some(Message(role, content)), "role"), Units(role))
    ensures Field(Some(Message(role, content)), "content") == Some(String(content))
  {
    var members := Message(role, content).members;
    assert members[0].0 == Units("role") && members[1].0 == Units("content") && |Units("role")| != |Units("content")|;
    assert members[1..][0].0 == Units("content");
  }

  lemma OneField(key: string, value: Json)
    ensures Field(Some(Object([(Units(key), value)])), key) == Some(value)
  {
    assert [(Units(key), value)][0].0 == Units(key);
  }

  /** However long the thread, the text of its last turn is what the assistant answered to this input, or nothing yet. */
  lemma LastTurnIsRead(history: seq<Json>, asked: Text, answer: Text, expected: Option<Text>)
    requires ValidText(asked) && !Blank(asked) && ValidText(answer) && (expected.Some? ==> expected.value == asked)
    ensures var input := Some(ThreadDocument([Message("user", asked)]));
            var open := history + [Message("user", asked)];
            && CurrentTurnText(Some(ThreadDocument(open + [Message("assistant", answer)])), input, expected) == Some(answer)
            && CurrentTurnText(Some(ThreadDocument(open)), input, expected) == Some([])
  {
    var input := Some(ThreadDocument([Message("user", asked)]));
    var open := history + [Message("user", asked)];
    MessageFields("user", asked);
    MessageFields("assistant", answer);
    OneField("messages", Array([Message("user", asked)]));
    OneField("messages", Array(open));
    OneField("messages", Array(open + [Message("assistant", answer)]));
    assert |Units("user")| != |Units("assistant")|;
    hide Field, Units, Blank, ValidText;
    assert TurnInput(input, expected) == Some(asked);
    assert (open + [Message("assistant", answer)])[|open|] == Message("assistant", answer);
    assert (open + [Message("assistant", answer)])[|open| - 1] == open[|open| - 1] == Message("user", asked);
  }

  predicate Says(message: Json, role: string, content: Text) {
    IsText(Field(Some(message), "role"), Units(role)) && IsText(Field(Some(message), "content"), content)
  }

  /** And nothing else is read: the run's input is one message of the user, not blank and
      the one expected, the thread's last turn answers that very message, and the text is
      what the assistant said to it, or nothing yet. */
  lemma OnlyThisTurnIsRead(value: Option<Json>, input: Option<Json>, expected: Option<Text>)
    requires CurrentTurnText(value, input, expected).Some?
    ensures Field(value, "messages").Some? && Field(value, "messages").value.Array?
    ensures Field(input, "messages").Some? && Field(input, "messages").value.Array? && |Field(input, "messages").value.items| == 1
    ensures var text := CurrentTurnText(value, input, expected).value;
            var thread := Field(value, "messages").value.items;
            exists asked :: Says(Field(input, "messages").value.items[0], "user", asked) && ValidText(asked) && !Blank(asked)
                            && (expected.Some? ==> asked == expected.value)
                            && if IsText(Field(Some(thread[|thread| - 1]), "role"), Units("assistant"))
                               then |thread| >= 2 && Says(thread[|thread| - 2], "user", asked) && Says(thread[|thread| - 1], "assistant", text) && ValidText(text)
                               else Says(thread[|thread| - 1], "user", asked) && text == []
  {
    assert Field(None, "role").None? && Field(None, "content").None?;
    hide Field, Units, Blank, ValidText;
    var asked := TurnInput(input, expected).value;
    var text := CurrentTurnText(value, input, expected).value;
    var thread := Field(value, "messages").value.items;
    assert Says(Field(input, "messages").value.items[0], "user", asked);
    assert thread != [];
    if IsText(Field(Some(thread[|thread| - 1]), "role"), Units("assistant")) {
      assert |thread| >= 2 && Says(thread[|thread| - 2], "user", asked) && Says(thread[|thread| - 1], "assistant", text);
    } else {
      assert Says(thread[|thread| - 1], "user", asked) && text == [];
    }
  }

  predicate Holds(members: seq<(Text, Json)>, key: Text, text: Text) {
    Has(members, key) && Get(members, key) == String(text)
  }

  /** To be an object of three texts is to hold them and nothing else. */
  lemma ThreeTexts(a: Text, x: Text, b: Text, y: Text, c: Text, z: Text, w: Json)
    ensures Same(Object([(a, String(x)), (b, String(y)), (c, String(z))]), w) <==>
            w.Object? && OnlyKeys(w.members, {a, b, c}) && Holds(w.members, a, x) && Holds(w.members, b, y) && Holds(w.members, c, z)
  {
    hide Get;
    var ms := [(a, String(x)), (b, String(y)), (c, String(z))];
    assert ms[0] == (a, String(x)) && ms[1] == (b, String(y)) && ms[2] == (c, String(z));
    assert forall key :: Has(ms, key) <==> key == a || key == b || key == c by {
      assert ms[0].0 == a && ms[1].0 == b && ms[2].0 == c;
    }
    if w.Object? {
      hide Has;
      assert OnlyKeys(w.members, {a, b, c}) <==> forall j :: 0 <= j < |w.members| ==> Has(ms, w.members[j].0) by {
        assert forall j :: 0 <= j < |w.members| ==> w.members[j] in w.members;
      }
      forall key, text
        ensures Holds(w.members, key, text) <==> Has(w.members, key) && Same(String(text), Get(w.members, key))
      {
      }
    }
  }

  lemma NoMembers(w: Json)
    ensures Same(Object([]), w) <==> w == Object([])
  {
    if w.Object? && w.members != [] {
      assert !Has([], w.members[0].0);
    }
  }

  /** A message chunk has a text exactly when it is the supported document of that text, its keys in any order. */
  lemma DeltaIff(value: Json, runId: string, content: Text)
    ensures PythonDelta(Some(value), runId) == Some(content) <==> ValidText(content) && Same(ChunkDocument(runId, content), value)
  {
    hide Units, ValidText, Get, Has;
    var wanted := ChunkDocument(runId, content);
    if value.Array? && |value.items| == 2 {
      var message, extra := value.items[0], value.items[1];
      ThreeTexts(Units("id"), Units(runId + ":assistant"), Units("type"), Units("ai"), Units("content"), content, message);
      NoMembers(extra);
      SamePair(wanted, value);
    }
  }

  lemma SamePair(v: Json, w: Json)
    requires v.Array? && w.Array? && |v.items| == 2 == |w.items|
    ensures Same(v, w) <==> Same(v.items[0], w.items[0]) && Same(v.items[1], w.items[1])
  {
  }

  /** A message chunk is read back as the text it was made of. */
  lemma ChunkIsRead(runId: string, content: Text)
    requires ValidText(content)
    ensures PythonDelta(Some(ChunkDocument(runId, content)), runId) == Some(content)
  {
    var message := ChunkDocument(runId, content).items[0];
    var members := message.members;
    assert members[0].0 == Units("id") && members[1].0 == Units("type") && members[2].0 == Units("content");
    assert |Units("id")| == 2 && |Units("type")| == 4 && |Units("content")| == 7;
    assert members[1..][0] == members[1] && members[1..][1..][0] == members[2];
    assert Field(Some(message), "id") == Some(members[0].1);
    assert Field(Some(message), "type") == Some(members[1].1);
    assert Field(Some(message), "content") == Some(members[2].1);
  }

  /** A document is valid for the attempt that wrote it and no other. */
  lemma ProfileIsRead(p: Profile, written: int, read: int)
    ensures ValidProfile(Some(ProfileDocument(p, written)), p, read) <==> read == written
  {
    var metadata := Object([(Units("framework"), String(Name(p))), (Units("generation"), Number(written))]);
    OneField(MetadataKey(p), metadata);
    var members := metadata.members;
    assert members[0].0 == Units("framework") && members[1].0 == Units("generation");
    assert |Units("framework")| != |Units("generation")| && members[1..][0] == members[1];
    assert Field(Some(metadata), "framework") == Some(members[0].1);
    assert Field(Some(metadata), "generation") == Some(members[1].1);
  }

  // ----- Runner event identities -----

  /** The digits of a sequence number and, if given, of an attempt. */
  datatype Ref = Ref(seq_: Text, attempt: Option<Text>)

  predicate AllDigits(t: Text) {
    forall u <- t :: Digit(u)
  }

  function ParseRef(t: Text): (r: Option<Ref>) {
    var n := LeadingDigits(t);
    if n == 0 || n > |t| then None
    else if n == |t| then Some(Ref(t, None))
    else
      var rest := t[n..];
      if |rest| > 2 && rest[..2] == Units(":g") && AllDigits(rest[2..]) then Some(Ref(t[..n], Some(rest[2..]))) else None
  }

  function Seq(r: Ref): int {
    DigitsValue(r.seq_)
  }

  function Attempt(r: Ref): int {
    if r.attempt.Some? then DigitsValue(r.attempt.value) else 1
  }

  predicate InRange(r: Ref) {
    1 <= Seq(r) <= MAX_SAFE && 1 <= Attempt(r) <= MAX_SAFE
  }

  /** Written as a number is printed: no leading zeros. */
  predicate Plain(r: Ref) {
    && Seq(r) >= 0 && r.seq_ == Digits(Seq(r))
    && (r.attempt.Some? ==> Attempt(r) >= 0 && r.attempt.value == Digits(Attempt(r)))
  }

  /** What a runner and the control plane print after the run's prefix. */
  function PrintRef(seq_: nat, attempt: nat): Text {
    Digits(seq_) + (if attempt == 1 then [] else Units(":g") + Digits(attempt))
  }

  /** What an identity looks like: digits, and then perhaps ":g" and more digits. */
  predicate Spelled(t: Text, r: Ref) {
    && r.seq_ != [] && AllDigits(r.seq_)
    && match r.attempt
       case None => t == r.seq_
       case Some(digits) => digits != [] && AllDigits(digits) && t == r.seq_ + Units(":g") + digits
  }

  /** Exactly those are read, and each in one way. */
  lemma ParseRefIff(t: Text, r: Ref)
    ensures ParseRef(t) == Some(r) <==> Spelled(t, r)
  {
    var n := LeadingDigits(t);
    LeadingIsDigits(t);
    if ParseRef(t) == Some(r) && r.attempt.Some? {
      var rest := t[n..];
      assert rest == rest[..2] + rest[2..] && t == t[..n] + rest;
      assert t == t[..n] + Units(":g") + rest[2..];
    }
    if Spelled(t, r) {
      var suffix := if r.attempt.Some? then Units(":g") + r.attempt.value else [];
      assert suffix != [] ==> suffix[0] == Units(":g")[0] == 58;
      assert t == r.seq_ + suffix;
      LeadingDigitsOf(r.seq_, suffix);
      assert t[..n] == r.seq_ && t[n..] == suffix;
      if r.attempt.Some? {
        assert suffix[..2] == Units(":g") && suffix[2..] == r.attempt.value;
      }
    }
  }

  lemma {:induction false} LeadingIsDigits(t: Text)
    ensures LeadingDigits(t) <= |t| && AllDigits(t[..LeadingDigits(t)])
    decreases t
  {
    if t != [] && Digit(t[0]) {
      LeadingIsDigits(t[1..]);
      var n := LeadingDigits(t[1..]);
      assert t[..n + 1] == [t[0]] + t[1..][..n];
    }
  }

  /** Reading inverts printing, and what was printed is plain. */
  lemma RefRoundTrip(seq_: nat, attempt: nat)
    ensures var r := ParseRef(PrintRef(seq_, attempt)); r.Some? && Seq(r.value) == seq_ && Attempt(r.value) == attempt && Plain(r.value)
    ensures var r := ParseRef(PrintRef(seq_, attempt)).value;
            InRange(r) <==> 1 <= seq_ <= 9007199254740991 && 1 <= attempt <= 9007199254740991
  {
    var suffix := if attempt == 1 then [] else Units(":g") + Digits(attempt);
    var t := Digits(seq_) + suffix;
    assert suffix != [] ==> suffix[0] == Units(":g")[0] == 58;
    LeadingDigitsOf(Digits(seq_), suffix);
    DigitsRoundTrip(seq_);
    DigitsRoundTrip(attempt);
    if attempt == 1 {
      assert t == Digits(seq_);
    } else {
      assert t[|Digits(seq_)|..] == suffix && t[..|Digits(seq_)|] == Digits(seq_);
      assert suffix[..2] == Units(":g") && suffix[2..] == Digits(attempt);
    }
  }

  function MessageId(runId: string, generation: int): Text {
    Units(runId + ":g") + Decimal(generation) + Units(":assistant")
  }

  // ----- Chunks -----

  datatype Chunk =
    | Start(messageId: Option<Text>)
    | TextStart
    | TextDelta(delta: Text)
    | TextEnd
    | DataResult(data: Json)
    | Finish(body: Json)
    | ErrorChunk(body: Json)
    | AbortChunk(body: Json)
    | OtherChunk(body: Json)

  predicate Closing(c: Chunk) {
    c.Finish? || c.ErrorChunk? || c.AbortChunk?
  }

  // What the bridge itself has to say.

  function Say(text: string): Json { String(Units(text)) }

  function Interrupted(): (c: Chunk)
    ensures c.AbortChunk?
  {
    AbortChunk(Say("Managed run interrupted"))
  }

  function RunFailed(): (c: Chunk)
    ensures c.ErrorChunk?
  {
    ErrorChunk(Say("Managed run failed"))
  }

  function Cancelled(): (c: Chunk)
    ensures c.AbortChunk?
  {
    AbortChunk(Say("Application request cancelled"))
  }

  function Finished(): (c: Chunk)
    ensures c.Finish?
  {
    Finish(Say("stop"))
  }

  datatype Failure = ReplayUnavailable | AttemptChanged | Unsupported

  function Undelivered(failure: Failure): (c: Chunk)
    ensures c.ErrorChunk?
  {
    match failure
    case ReplayUnavailable => ErrorChunk(Say("Managed chat replay is unavailable; reload saved messages"))
    case AttemptChanged => ErrorChunk(Say("The managed run changed attempts; reload its durable result"))
    case Unsupported => ErrorChunk(Say("Managed chat delivery failed; inspect the Runkite run"))
  }

  /** The reader can tell a missing replay, a changed attempt and any other failure apart, and from a run that failed. */
  lemma FailuresDiffer(f: Failure, g: Failure)
    ensures Undelivered(f) == Undelivered(g) <==> f == g
    ensures Undelivered(f) != RunFailed()
  {
    assert |Undelivered(ReplayUnavailable).body.s| == 57 && |Undelivered(AttemptChanged).body.s| == 59;
    assert |Undelivered(Unsupported).body.s| == 53 && |RunFailed().body.s| == 18;
  }

  /** A body of chunks: one start, first, and nothing that closes the stream. */
  ghost predicate OpenStream(out: seq<Chunk>) {
    && (out != [] ==> out[0].Start?)
    && (forall i :: 1 <= i < |out| ==> !out[i].Start?)
    && (forall c :: c in out ==> !Closing(c))
  }

  /** The text a reader of the chunks has seen. */
  function Deltas(out: seq<Chunk>): Text {
    if out == [] then []
    else Deltas(out[..|out| - 1]) + (if out[|out| - 1].TextDelta? then out[|out| - 1].delta else [])
  }

  lemma DeltasSnoc(out: seq<Chunk>, c: Chunk)
    ensures Deltas(out + [c]) == if c.TextDelta? then Deltas(out) + c.delta else Deltas(out)
  {
  }

  /** What the chunks show of a Python run under way: its start and, once there is text,
      the mark that opens it and the pieces of it. */
  ghost predicate Framed(out: seq<Chunk>, textStarted: bool) {
    if textStarted then |out| > 2 && out[1] == TextStart && forall i :: 2 <= i < |out| ==> out[i].TextDelta? && out[i].delta != []
    else |out| <= 1
  }

  /** How a Python run that succeeded is closed. */
  function PythonEnding(textStarted: bool, result: Option<Json>): seq<Chunk> {
    (if textStarted then [TextEnd] else []) + (if result.Some? then [DataResult(result.value)] else []) + [Finished()]
  }

  /** The chunks of a Python run that succeeded: a start, its text between two marks if
      there was any, the structured result if there is one, and the finish. */
  ghost predicate Complete(out: seq<Chunk>, result: Option<Json>) {
    exists n: nat, text: bool :: n <= |out| && Framed(out[..n], text) && out == out[..n] + PythonEnding(text, result)
  }

  /** The native chunks that are shown as they arrive. */
  function Visible(chunks: seq<Chunk>): seq<Chunk> {
    if chunks == [] then []
    else Visible(chunks[..|chunks| - 1]) + if Closing(chunks[|chunks| - 1]) then [] else [chunks[|chunks| - 1]]
  }

  /** The last of the native chunks of each kind that is kept back. */
  datatype KeptBack = KeptBack(finish: Option<Chunk>, error: Option<Chunk>, abort: Option<Chunk>)

  function KeepBack(before: KeptBack, c: Chunk): KeptBack {
    if c.Finish? then before.(finish := Some(c))
    else if c.ErrorChunk? then before.(error := Some(c))
    else if c.AbortChunk? then before.(abort := Some(c))
    else before
  }

  function KeptOf(chunks: seq<Chunk>): KeptBack {
    if chunks == [] then KeptBack(None, None, None) else KeepBack(KeptOf(chunks[..|chunks| - 1]), chunks[|chunks| - 1])
  }

  /** What is kept back is the last of its kind. */
  lemma {:induction false} KeptIsLast(chunks: seq<Chunk>)
    ensures var kept := KeptOf(chunks);
            && (kept.finish.None? <==> forall c <- chunks :: !c.Finish?)
            && (kept.error.None? <==> forall c <- chunks :: !c.ErrorChunk?)
            && (kept.abort.None? <==> forall c <- chunks :: !c.AbortChunk?)
            && (kept.finish.Some? ==> LastFinish(chunks, kept.finish.value))
    decreases chunks
  {
    hide LastFinish;
    if chunks != [] {
      var front, last := chunks[..|chunks| - 1], chunks[|chunks| - 1];
      assert chunks == front + [last];
      KeptIsLast(front);
      LastFinishOn(front, last, KeptOf(front).finish);
    }
  }

  /** `c` is the last finish among the chunks. */
  predicate LastFinish(chunks: seq<Chunk>, c: Chunk) {
    exists i :: 0 <= i < |chunks| && chunks[i] == c && c.Finish? && forall j :: i < j < |chunks| ==> !chunks[j].Finish?
  }

  lemma LastFinishOn(front: seq<Chunk>, last: Chunk, before: Option<Chunk>)
    requires before.Some? ==> LastFinish(front, before.value)
    ensures last.Finish? ==> LastFinish(front + [last], last)
    ensures !last.Finish? && before.Some? ==> LastFinish(front + [last], before.value)
  {
    var chunks := front + [last];
    assert chunks[|front|] == last;
    if !last.Finish? && before.Some? {
      var i :| 0 <= i < |front| && front[i] == before.value && before.value.Finish? && forall j :: i < j < |front| ==> !front[j].Finish?;
      assert chunks[i] == before.value;
    }
  }

  /** Runner events 1, 2, ... of one attempt. */
  ghost predicate Consecutive(consumed: seq<(int, int)>, attempt: int) {
    forall i :: 0 <= i < |consumed| ==> consumed[i] == (attempt, i + 1)
  }

  /** What the frames are known to be: nothing, or all events of one attempt, which
      a native runner numbers from 1 or, its first event trimmed, from 2. */
  datatype Replay = Unknown | OfPython | OfNative(first: nat)

  /** Where a response stands: what has been counted, collected, kept back and shown. */
  datatype View = View(
    seen: set<string>,
    sequence: map<int, int>,
    generation: Option<int>,
    started: bool,
    text: Text,
    textBytes: nat,
    finalValues: Option<Json>,
    kept: KeptBack,
    out: seq<Chunk>)

  datatype Step = Continue | Done | Threw(failure: Failure)

  datatype Admission = Proceed | Skip | Refuse(failure: Failure)

  const MAX_EVENT_ID_BYTES := 512
  const MAX_EVENTS := 20000

  /**
   * One response.  `parse` is JSON.parse, `validate` the UI chunk schema,
   * `wait` the control plane's answer about the run once it is complete,
   * `persisted` whether the application accepted the message start.
   * `consumed` records the runner events that were not duplicates or stale.
   */
  class Chat {
    const runId: string
    const threadId: string
    const profile: Profile
    const parse: string -> Option<Json>
    const validate: Json -> Option<Chunk>
    const expectedMessage: Option<Text>
    const persisted: bool
    const newTurn: Option<Text>
    const wait: Option<Json>

    var seen: set<string>
    var sequence: map<int, int>
    var generation: Option<int>
    var started: bool
    var textStarted: bool
    var text: Text
    var textBytes: nat
    var finalValues: Option<Json>
    var finish: Option<Chunk>
    var nativeError: Option<Chunk>
    var nativeAbort: Option<Chunk>
    var out: seq<Chunk>
    ghost var consumed: seq<(int, int)>

    ghost predicate Python() {
      !profile.AiSdk?
    }

    /** What has been shown so far. */
    ghost predicate Shown()
      reads this
    {
      && OpenStream(out) && (started <==> out != [])
      && (started ==> generation.Some? && out[0] == Start(Some(MessageId(runId, generation.value))))
      && (finish.Some? ==> finish.value.Finish?)
      && (nativeError.Some? ==> nativeError.value.ErrorChunk?)
      && (nativeAbort.Some? ==> nativeAbort.value.AbortChunk?)
      && (Python() ==> Deltas(out) == text && finish.None? && nativeError.None? && nativeAbort.None? && (!started ==> generation.None?))
      && (Python() ==> Framed(out, textStarted))
    }

    /** Python profiles: the events behind it are the first ones of the attempt, none missing. */
    ghost predicate Replayed()
      reads this
    {
      Python() && started ==>
        && generation.Some? && Consecutive(consumed, generation.value)
        && consumed != [] && sequence == map[generation.value := |consumed|]
    }

    ghost predicate Valid()
      reads this
    {
      Shown() && Replayed() && (Python() && !started ==> consumed == [] && sequence == map[])
    }

    constructor (runId: string, threadId: string, profile: Profile, parse: string -> Option<Json>, validate: Json -> Option<Chunk>,
                 expectedMessage: Option<Text>, persisted: bool, newTurn: Option<Text>, wait: Option<Json>)
      ensures Valid() && out == [] && seen == {} && sequence == map[] && generation == None && !started
      ensures text == [] && textBytes == 0 && finalValues == None
      ensures this.runId == runId && this.threadId == threadId && this.profile == profile && this.parse == parse
      ensures this.validate == validate && this.expectedMessage == expectedMessage && this.persisted == persisted
      ensures this.newTurn == newTurn && this.wait == wait
    {
      this.runId, this.threadId, this.profile, this.parse, this.validate := runId, threadId, profile, parse, validate;
      this.expectedMessage, this.persisted, this.newTurn, this.wait := expectedMessage, persisted, newTurn, wait;
      seen, sequence, generation, started := {}, map[], None, false;
      textStarted, text, textBytes, finalValues := false, [], 0, None;
      finish, nativeError, nativeAbort, out := None, None, None, [];
      consumed := [];
    }

    method Emit(c: Chunk)
      modifies this`out
      ensures out == old(out) + [c]
      ensures Deltas(out) == if c.TextDelta? then Deltas(old(out)) + c.delta else Deltas(old(out))
      ensures OpenStream(old(out)) && !Closing(c) && (old(out) == [] <==> c.Start?) ==> OpenStream(out)
      ensures out[..|out| - 1] == old(out) && old(out) <= out
      ensures old(out) != [] ==> out[0] == old(out)[0]
    {
      DeltasSnoc(out, c);
      out := out + [c];
    }

    /** The application is told about a message before its first chunk is shown. */
    function StartFailure(messageId: Text): Option<Failure> {
      if expectedMessage.Some? && expectedMessage.value != messageId then Some(AttemptChanged)
      else if !persisted then Some(Unsupported)
      else None
    }

    predicate Ending(frame: S.Frame) {
      frame.event == "end" || frame.event == "error"
    }

    predicate Running(frame: S.Frame) {
      frame.event == "lifecycle" && IsText(Field(parse(frame.data), "event"), Units("running"))
    }

    /** Event `r` follows what was counted so far. */
    static predicate Next(started: bool, generation: Option<int>, sequence: map<int, int>, r: Ref) {
      if started then generation == Some(Attempt(r)) && sequence == map[Attempt(r) := Seq(r) - 1]
      else generation.None? && sequence == map[] && Seq(r) == 1
    }

    /** Events before `r` are missing. */
    static predicate Gap(sequence: map<int, int>, r: Ref) {
      if Attempt(r) in sequence then Seq(r) != sequence[Attempt(r)] + 1 else Seq(r) > 2
    }

    static predicate Newer(generation: Option<int>, r: Ref) { generation.Some? && Attempt(r) > generation.value }

    /** An event of a newer attempt, or one of this attempt before which others are missing. */
    static predicate Misplaced(generation: Option<int>, sequence: map<int, int>, r: Ref) {
      InRange(r) && (Newer(generation, r) || ((generation.None? || generation == Some(Attempt(r))) && Gap(sequence, r)))
    }

    /** The checks on a runner event before it is counted. */
    function Screen(generation: Option<int>, sequence: map<int, int>, r: Ref): (answer: Admission) {
      if !InRange(r) then Refuse(Unsupported)
      else if generation.Some? && Attempt(r) < generation.value then Skip
      else if generation.Some? && Attempt(r) != generation.value then Refuse(AttemptChanged)
      else if (Attempt(r) !in sequence && Seq(r) > 2) || (Attempt(r) in sequence && Seq(r) != sequence[Attempt(r)] + 1)
      then Refuse(ReplayUnavailable)
      else if !profile.AiSdk? && !Plain(r) then Refuse(Unsupported)
      else Proceed
    }

    /** A Python attempt starts with its first event, and no other. */
    method StartPython(frame: S.Frame, number: int, attempt: int) returns (answer: Admission)
      requires Shown() && Python() && !started && consumed == [(attempt, number)] && sequence == map[attempt := number]
      modifies this`generation, this`started, this`out
      ensures answer.Proceed? <==> number == 1 && Running(frame) && StartFailure(MessageId(runId, attempt)).None?
      ensures answer.Proceed? ==> Valid() && started && generation == Some(attempt)
      ensures !answer.Proceed? ==> out == old(out) && !answer.Skip?
      ensures answer.Refuse? ==>
                if number != 1 || !Running(frame) then answer.failure == ReplayUnavailable else StartFailure(MessageId(runId, attempt)) == Some(answer.failure)
    {
      hide OpenStream, Deltas, MessageId, Running;
      if number != 1 || !Running(frame) {
        return Refuse(ReplayUnavailable);
      }
      generation := Some(attempt);
      var messageId := MessageId(runId, attempt);
      var failure := StartFailure(messageId);
      if failure.Some? {
        return Refuse(failure.value);
      }
      started := true;
      Emit(Start(Some(messageId)));
      answer := Proceed;
    }

    /** Check and count a runner event; the first one of a Python attempt starts the message. */
    method AcceptRunner(frame: S.Frame, r: Ref) returns (answer: Admission)
      requires Valid()
      modifies this`sequence, this`generation, this`started, this`out, this`consumed
      ensures answer.Proceed? ==> Shown() && Replayed() && (Ending(frame) || Valid())
      ensures answer.Proceed? && Python() && !Ending(frame) ==> started
      ensures answer.Skip? ==> Valid()
      ensures !answer.Proceed? ==> out == old(out)
      ensures answer.Proceed? && (old(started) || profile.AiSdk?) ==> out == old(out) && started == old(started) && generation == old(generation)
      // the next event of the attempt is accepted, and so is a first one that starts it
      ensures Python() && InRange(r) && Plain(r) && Next(old(started), old(generation), old(sequence), r) &&
              (old(started) || (Running(frame) && !Ending(frame) && StartFailure(MessageId(runId, Attempt(r))).None?)) ==>
                answer.Proceed? && started && generation == Some(Attempt(r)) && sequence == map[Attempt(r) := Seq(r)]
      ensures profile.AiSdk? && InRange(r) && (old(generation).None? || old(generation) == Some(Attempt(r))) &&
              ((old(sequence) == map[] && Seq(r) <= 2) || old(sequence) == map[Attempt(r) := Seq(r) - 1]) ==>
                answer.Proceed? && sequence == map[Attempt(r) := Seq(r)]
      // a number out of range or not printed plainly is refused, and what is out of order refused as such
      ensures !InRange(r) || (Python() && !Plain(r) && (old(generation).None? || old(generation) == Some(Attempt(r))) && !Gap(old(sequence), r)) ==>
                answer == Refuse(Unsupported)
      ensures InRange(r) && Older(old(generation), r) <==> answer.Skip?
      ensures answer.Skip? ==> sequence == old(sequence) && generation == old(generation) && started == old(started)
      ensures Misplaced(old(generation), old(sequence), r) ==> answer == Refuse(if Newer(old(generation), r) then AttemptChanged else ReplayUnavailable)
    {
      hide OpenStream, Deltas, MessageId, Running, Plain, Seq, Attempt, StartFailure, InRange;
      answer := Screen(generation, sequence, r);
      if !answer.Proceed? {
        return;
      }
      var number, attempt := Seq(r), Attempt(r);
      sequence := sequence[attempt := number];
      consumed := consumed + [(attempt, number)];
      if !profile.AiSdk? && !started && !Ending(frame) {
        answer := StartPython(frame, number, attempt);
      }
    }

    /** The text a frame adds. */
    function DeltaOf(frame: S.Frame): Text {
      var delta := PythonDelta(parse(frame.data), runId);
      if frame.event == "messages" && delta.Some? then delta.value else []
    }

    /** A message chunk of a Python runner. */
    method OnMessages(frame: S.Frame, runner: bool) returns (step: Step)
      requires Valid() && Python() && (runner ==> started) && frame.event == "messages"
      modifies this`out, this`text, this`textBytes, this`textStarted
      ensures step.Continue? ==> Valid()
      ensures step.Continue? || step.Threw?
      ensures step.Threw? ==> out == old(out)
      ensures step.Continue? <==> runner && PythonDelta(parse(frame.data), runId).Some? && textBytes <= S.MAX_FRAME_BYTES
      ensures step.Continue? ==> text == old(text) + DeltaOf(frame) && textBytes == old(textBytes) + TextBytes(DeltaOf(frame))
      ensures runner && PythonDelta(parse(frame.data), runId).Some? ==> textBytes == old(textBytes) + TextBytes(DeltaOf(frame))
      ensures step.Threw? ==> step.failure == if runner then Unsupported else ReplayUnavailable
    {
      hide OpenStream, Deltas, MessageId, PythonDelta, TextBytes;
      if !runner || !started {
        return Threw(ReplayUnavailable);
      }
      var delta := PythonDelta(parse(frame.data), runId);
      if delta.None? {
        return Threw(Unsupported);
      }
      textBytes := textBytes + TextBytes(delta.value);
      if textBytes > S.MAX_FRAME_BYTES {
        return Threw(Unsupported);
      }
      text := text + delta.value;
      if delta.value != [] {
        if !textStarted {
          textStarted := true;
          Emit(TextStart);
        }
        Emit(TextDelta(delta.value));
      }
      step := Continue;
    }

    /** A values document of a Python runner; the last one is compared with the durable result. */
    method OnValues(frame: S.Frame, runner: bool) returns (step: Step)
      requires Valid() && Python() && (runner ==> started)
      modifies this`finalValues
      ensures step.Continue? ==> Valid()
      ensures step.Continue? || step.Threw?
      ensures step.Threw? ==> Valid()
      ensures step.Continue? <==> runner && ValidProfile(parse(frame.data), profile, generation.value)
      ensures step.Continue? ==> finalValues == parse(frame.data)
      ensures step.Threw? ==> step.failure == if runner then Unsupported else ReplayUnavailable
    {
      if !runner || !started {
        return Threw(ReplayUnavailable);
      }
      var value := parse(frame.data);
      if !ValidProfile(value, profile, generation.value) {
        return Threw(Unsupported);
      }
      finalValues := value;
      step := Continue;
    }

    /** The native start chunk, once and for the right message. */
    method StartNative(chunk: Chunk, attempt: int) returns (step: Step)
      requires Valid() && profile.AiSdk? && chunk.Start? && !started
      modifies this`generation, this`started, this`out
      ensures step.Continue? ==> Valid()
      ensures step.Continue? || step.Threw?
      // shown exactly when it names this attempt's message and the application takes it
      ensures step.Continue? <==> chunk.messageId == Some(MessageId(runId, attempt)) && StartFailure(MessageId(runId, attempt)).None?
      ensures step.Continue? ==> out == old(out) + [chunk] && started && generation == Some(attempt)
      ensures step.Threw? ==> out == old(out)
      ensures step.Threw? && chunk.messageId == Some(MessageId(runId, attempt)) ==> Some(step.failure) == StartFailure(MessageId(runId, attempt))
      ensures step.Threw? && chunk.messageId != Some(MessageId(runId, attempt)) ==> step.failure == Unsupported
    {
      hide OpenStream, Deltas, MessageId, Replayed;
      generation := Some(attempt);
      if chunk.messageId != Some(MessageId(runId, attempt)) {
        return Threw(Unsupported);
      }
      var failure := StartFailure(chunk.messageId.value);
      if failure.Some? {
        return Threw(failure.value);
      }
      started := true;
      Emit(chunk);
      NativeReplayed();
      step := Continue;
    }

    /** Any later native chunk; finish, error and abort are kept back until the end is confirmed. */
    method ShowNative(chunk: Chunk)
      requires Valid() && profile.AiSdk? && !chunk.Start? && started
      modifies this`out, this`finish, this`nativeError, this`nativeAbort
      ensures Valid()
      ensures out == if Closing(chunk) then old(out) else old(out) + [chunk]
      ensures finish == if chunk.Finish? then Some(chunk) else old(finish)
      ensures nativeError == if chunk.ErrorChunk? then Some(chunk) else old(nativeError)
      ensures nativeAbort == if chunk.AbortChunk? then Some(chunk) else old(nativeAbort)
    {
      hide OpenStream, Deltas, MessageId, Replayed;
      NativeReplayed();
      if chunk.Finish? {
        finish := Some(chunk);
      } else if chunk.ErrorChunk? {
        nativeError := Some(chunk);
      } else if chunk.AbortChunk? {
        nativeAbort := Some(chunk);
      } else {
        Emit(chunk);
      }
      NativeReplayed();
    }

    lemma KnownAttempt()
      ensures Valid() && started ==> generation.Some?
    {
    }

    lemma NativeReplayed()
      ensures profile.AiSdk? ==> Replayed()
    {
    }

    /** The chunk in a frame, if it parses and fits the UI chunk schema. */
    function NativeChunk(frame: S.Frame): Option<Chunk> {
      var parsed := parse(frame.data);
      if parsed.Some? then validate(parsed.value) else None
    }

    /** The frame names a runner event, as native chunks must. */
    predicate Native(frame: S.Frame, r: Option<Ref>) {
      profile.AiSdk? && frame.id != "" && r.Some? && Attempt(r.value) >= 1
    }

    static predicate Older(generation: Option<int>, r: Ref) { generation.Some? && Attempt(r) < generation.value }

    /** The frame's chunk is the one due: the start of this attempt's message first, any other after it. */
    predicate Due(frame: S.Frame, attempt: int, started: bool) {
      var chunk := NativeChunk(frame);
      && chunk.Some? && chunk.value.Start? != started
      && (chunk.value.Start? ==> chunk.value.messageId == Some(MessageId(runId, attempt)) && StartFailure(MessageId(runId, attempt)).None?)
    }

    function KeptNow(): KeptBack
      reads this`finish, this`nativeError, this`nativeAbort
    {
      KeptBack(finish, nativeError, nativeAbort)
    }

    function Now(): View
      reads this
    {
      View(seen, sequence, generation, started, text, textBytes, finalValues, KeptNow(), out)
    }

    /** A frame carrying a native UI chunk. */
    method OnNative(frame: S.Frame, r: Option<Ref>) returns (step: Step)
      requires Valid()
      modifies this`generation, this`started, this`out, this`finish, this`nativeError, this`nativeAbort
      ensures step.Continue? ==> Valid()
      ensures step.Continue? || step.Threw?
      ensures step.Threw? ==> out == old(out)
      // it shows at most its own chunk, and not one that would close the stream
      ensures out == old(out) || (NativeChunk(frame).Some? && !Closing(NativeChunk(frame).value) && out == old(out) + [NativeChunk(frame).value])
      ensures finish == old(finish) || (finish == NativeChunk(frame) && out == old(out))
      // frames of an older attempt change nothing, and one of this attempt is taken exactly when its chunk is due
      ensures Native(frame, r) && Older(old(generation), r.value) ==>
                step.Continue? && out == old(out) && KeptNow() == old(KeptNow()) && started == old(started) && generation == old(generation)
      ensures step.Continue? <==> Native(frame, r) && (Older(old(generation), r.value) ||
                                                       ((old(generation).None? || old(generation) == Some(Attempt(r.value))) &&
                                                        Due(frame, Attempt(r.value), old(started))))
      ensures step.Continue? && !Older(old(generation), r.value) ==>
                && started && generation == Some(Attempt(r.value)) && KeptNow() == KeepBack(old(KeptNow()), NativeChunk(frame).value)
                && out == old(out) + if Closing(NativeChunk(frame).value) then [] else [NativeChunk(frame).value]
      ensures step.Threw? && Native(frame, r) ==>
                if old(generation).Some? && Attempt(r.value) > old(generation).value then step.failure == AttemptChanged
                else if NativeChunk(frame).None? then step.failure == Unsupported
                else NativeChunk(frame).value.Start? == old(started) ==> step.failure == ReplayUnavailable
      ensures step.Threw? && !Native(frame, r) ==> step.failure == Unsupported
    {
      hide Attempt, Valid, MessageId, StartFailure;
      if !profile.AiSdk? || frame.id == "" || r.None? || Attempt(r.value) < 1 {
        return Threw(Unsupported);
      }
      var attempt := Attempt(r.value);
      if generation.Some? && attempt < generation.value {
        return Continue;
      }
      if generation.Some? && attempt != generation.value {
        return Threw(AttemptChanged);
      }
      var checked := NativeChunk(frame);
      if checked.None? {
        return Threw(Unsupported);
      }
      if checked.value.Start? == started {
        return Threw(ReplayUnavailable);
      }
      if checked.value.Start? {
        step := StartNative(checked.value, attempt);
      } else {
        KnownAttempt();
        ShowNative(checked.value);
        step := Continue;
      }
    }

    // ----- The end -----

    function DurableRun(): Option<Json> {
      Field(wait, "run")
    }

    predicate Status(status: string) {
      IsText(Field(DurableRun(), "status"), Units(status))
    }

    /** The answer is about this run and says it is complete. */
    predicate Confirmed() {
      && IsText(Field(DurableRun(), "run_id"), Units(runId)) && IsText(Field(DurableRun(), "thread_id"), Units(threadId))
      && (Status("success") || Status("error") || Status("timeout") || Status("interrupted"))
    }

    predicate CompletedIn(g: int) {
      Field(Field(DurableRun(), "metadata"), "_runkite_completion_generation") == Some(Number(g))
    }

    function DurableText(): Option<Text> {
      CurrentTurnText(Field(wait, "values"), Field(DurableRun(), "input"), newTurn)
    }

    /** The stored native result is the one that was streamed. */
    predicate NativeResult(g: int) {
      var native := Field(Field(wait, "values"), "ai_sdk");
      Field(native, "generation") == Some(Number(g)) && IsText(Field(native, "message_id"), MessageId(runId, g))
    }

    /** What the answer must say: it is about this run on this thread and gives one of the
        four final statuses; it names the attempt that completed; and for a native run its
        values name the attempt and its message. */
    lemma AnswerMeans(g: int)
      ensures Confirmed() <==>
              && Path(wait, ["run", "run_id"]) == Some(String(Units(runId))) && Path(wait, ["run", "thread_id"]) == Some(String(Units(threadId)))
              && exists status <- ["success", "error", "timeout", "interrupted"] :: Path(wait, ["run", "status"]) == Some(String(Units(status)))
      ensures CompletedIn(g) <==> Path(wait, ["run", "metadata", "_runkite_completion_generation"]) == Some(Number(g))
      ensures NativeResult(g) <==>
              && Path(wait, ["values", "ai_sdk", "generation"]) == Some(Number(g))
              && Path(wait, ["values", "ai_sdk", "message_id"]) == Some(String(MessageId(runId, g)))
    {
      hide Field, Units, MessageId;
      PathTwo(wait, "run", "run_id");
      PathTwo(wait, "run", "thread_id");
      PathTwo(wait, "run", "status");
      PathTwo(wait, "run", "metadata");
      PathTwo(wait, "values", "ai_sdk");
      PathThree(wait, "run", "metadata", "_runkite_completion_generation");
      PathThree(wait, "values", "ai_sdk", "generation");
      PathThree(wait, "values", "ai_sdk", "message_id");
      var final := ["success", "error", "timeout", "interrupted"];
      assert final[0] in final && final[1] in final && final[2] in final && final[3] in final;
    }

    /** Everything a `finish` vouches for. */
    ghost predicate Vouched()
      reads this
    {
      && Confirmed() && Status("success") && started && generation.Some?
      && (Python() ==>
            && CompletedIn(generation.value) && DurableText() == Some(text)
            && ResultCheck(Field(Field(wait, "values"), "result"), Field(finalValues, "result"))
            && Consecutive(consumed, generation.value) && consumed != [])
      && (profile.AiSdk? ==> NativeResult(generation.value))
    }

    /** The structured results agree up to key order, and only one profile may have one. */
    function ResultCheck(durable: Option<Json>, streamed: Option<Json>): (ok: bool) {
      && durable.Some? == streamed.Some?
      && (durable.Some? ==>
            && Canonical(durable.value, 0).Some? && Canonical(streamed.value, 0).Some?
            && Canonical(durable.value, 0) == Canonical(streamed.value, 0) && profile.PydanticAi?)
    }

    /** The check passes exactly when both sides lack a result, or both have the same JSON
        value, one that the printer accepts, and the profile allows one. */
    lemma ResultsAgree(durable: Option<Json>, streamed: Option<Json>)
      requires durable.Some? ==> WellFormed(durable.value)
      requires streamed.Some? ==> WellFormed(streamed.value)
      ensures ResultCheck(durable, streamed) <==>
              || (durable.None? && streamed.None?)
              || (durable.Some? && streamed.Some? && Same(durable.value, streamed.value) && profile == PydanticAi
                  && Sound(durable.value) && Nested(durable.value, 64) && Sound(streamed.value) && Nested(streamed.value, 64))
    {
      hide Canonical, Sound, Nested, Same, WellFormed;
      if durable.Some? && streamed.Some? {
        PrintAlikeIff(durable.value, streamed.value);
      }
    }

    /** The streamed text and last values document are those of the durable result. */
    predicate Agrees(generation: Option<int>, text: Text, finalValues: Option<Json>) {
      && generation.Some? && finalValues.Some?
      && ValidProfile(Field(wait, "values"), profile, generation.value)
      && DurableText() == Some(text) && CurrentTurnText(finalValues, Field(DurableRun(), "input"), newTurn) == Some(text)
      && ResultCheck(Field(Field(wait, "values"), "result"), Field(finalValues, "result"))
    }

    /** The end of a Python run that succeeded. */
    method FinishPython() returns (step: Step)
      requires Shown() && Replayed() && Python() && Confirmed() && Status("success")
      requires generation.Some? ==> CompletedIn(generation.value)
      modifies this`out
      ensures step.Done? || step.Threw?
      ensures step.Threw? ==> out == old(out)
      ensures step.Done? ==> Vouched() && old(out) <= out && Deltas(out) == text
      ensures step.Done? ==> |out| > |old(out)| > 0 && out[|out| - 1].Finish? && OpenStream(out[..|out| - 1]) && out[0] == old(out)[0]
      ensures step.Done? <==> started && Agrees(generation, text, finalValues)
      ensures step.Done? ==> out == old(out) + PythonEnding(textStarted, Field(Field(wait, "values"), "result"))
      ensures step.Threw? ==> step.failure == if !started || generation.None? || finalValues.None? then ReplayUnavailable else Unsupported
    {
      hide OpenStream, Deltas, MessageId, CurrentTurnText, ValidProfile, Field, ResultCheck, Units;
      if !started || generation.None? || finalValues.None? {
        return Threw(ReplayUnavailable);
      }
      var values := Field(wait, "values");
      if !ValidProfile(values, profile, generation.value) {
        return Threw(Unsupported);
      }
      var shown := CurrentTurnText(finalValues, Field(DurableRun(), "input"), newTurn);
      if DurableText() != Some(text) || shown != Some(text) {
        return Threw(Unsupported);
      }
      var result := Field(values, "result");
      if !ResultCheck(result, Field(finalValues, "result")) {
        return Threw(Unsupported);
      }
      if textStarted {
        Emit(TextEnd);
      }
      if result.Some? {
        Emit(DataResult(result.value));
      }
      Emit(Finished());
      step := Done;
    }

    /** A finish was streamed, no error or abort, and the durable result is of the same message. */
    predicate NativeAgrees(started: bool, generation: Option<int>, kept: KeptBack) {
      && started && kept.finish.Some? && kept.abort.None? && kept.error.None?
      && generation.Some? && NativeResult(generation.value)
    }

    /** The end of a native run that succeeded: only now is the kept finish shown. */
    method FinishNative() returns (step: Step)
      requires Shown() && profile.AiSdk? && Confirmed() && Status("success")
      modifies this`out
      ensures step.Done? || step.Threw?
      ensures step.Threw? ==> out == old(out)
      ensures step.Done? ==> Vouched()
      ensures step.Done? ==> |out| > |old(out)| > 0 && out[|out| - 1].Finish? && OpenStream(out[..|out| - 1]) && out[0] == old(out)[0]
      // it is shown exactly when the run's own end was streamed and the durable result is of that message
      ensures step.Done? <==> NativeAgrees(started, generation, KeptNow())
      ensures step.Done? ==> out == old(out) + [finish.value]
      ensures step.Threw? ==> step.failure == if !started || finish.None? then ReplayUnavailable else Unsupported
    {
      hide OpenStream, Deltas, MessageId, Confirmed, Status, NativeResult;
      if !started || finish.None? {
        return Threw(ReplayUnavailable);
      }
      if nativeAbort.Some? || nativeError.Some? || generation.None? || !NativeResult(generation.value) {
        return Threw(Unsupported);
      }
      Emit(finish.value);
      step := Done;
    }

    /** A run that ended otherwise: the runner's own closing chunk if it sent one. */
    method CloseWith(c: Chunk)
      requires Shown() && Closing(c) && !c.Finish?
      modifies this`out
      ensures |out| > |old(out)| && Closing(out[|out| - 1]) && !out[|out| - 1].Finish? && OpenStream(out[..|out| - 1])
      ensures out == old(out) + [c]
      ensures Python() ==> Deltas(out) == text
    {
      hide OpenStream, Deltas, MessageId;
      Emit(c);
    }

    /** The end of a run that succeeded. */
    method FinishRun() returns (step: Step)
      requires Shown() && Replayed() && Confirmed() && Status("success")
      requires Python() && generation.Some? ==> CompletedIn(generation.value)
      modifies this`out
      ensures step.Done? || step.Threw?
      ensures step.Threw? ==> out == old(out)
      ensures step.Done? ==> |out| > |old(out)| > 0 && out[|out| - 1].Finish? && OpenStream(out[..|out| - 1]) && out[0] == old(out)[0]
      ensures step.Done? ==> Vouched() && (Python() ==> Deltas(out) == text)
      ensures Python() ==> (step.Done? <==> started && Agrees(generation, text, finalValues))
      ensures !Python() ==> (step.Done? <==> NativeAgrees(started, generation, KeptNow()))
      ensures step.Done? ==> out == old(out) + if Python() then PythonEnding(textStarted, Field(Field(wait, "values"), "result")) else [finish.value]
    {
      hide NativeAgrees, PythonEnding, Vouched, OpenStream, Deltas, Confirmed, Status, CompletedIn, Consecutive, Agrees;
      if !profile.AiSdk? {
        step := FinishPython();
      } else {
        step := FinishNative();
      }
    }

    /** The run succeeded in this attempt, and the control plane says so. */
    predicate Succeeded(generation: Option<int>) {
      Confirmed() && Status("success") && generation.Some? && CompletedIn(generation.value)
    }

    lemma OneStatus()
      ensures Status("success") ==> !Status("interrupted") && !Status("error") && !Status("timeout")
      ensures Status("interrupted") ==> !Status("error") && !Status("timeout")
      ensures Confirmed() && !Status("success") ==> Status("interrupted") || Status("error") || Status("timeout")
    {
      assert |Units("success")| == 7 && |Units("interrupted")| == 11 && |Units("error")| == 5;
      assert Units("success")[0] != Units("timeout")[0];
    }

    /** The chunk that closes a run that did not succeed: the runner's own if it sent one. */
    function FailureChunk(kept: KeptBack): Chunk {
      if Status("interrupted") then (if kept.abort.Some? then kept.abort.value else Interrupted())
      else (if kept.error.Some? then kept.error.value else RunFailed())
    }

    /** A run that was interrupted is shown as aborted, one that failed or timed out as an error. */
    lemma FailureIsTold(kept: KeptBack)
      requires Confirmed() && !Status("success")
      ensures Status("interrupted") || Status("error") || Status("timeout")
      ensures Status("interrupted") ==> FailureChunk(kept) == if kept.abort.Some? then kept.abort.value else Interrupted()
      ensures Status("error") || Status("timeout") ==> FailureChunk(kept) == if kept.error.Some? then kept.error.value else RunFailed()
    {
      OneStatus();
    }

    lemma FailureCloses()
      ensures Shown() ==> Closing(FailureChunk(KeptNow())) && !FailureChunk(KeptNow()).Finish?
    {
    }

    /** An end frame is only a hint: the durable answer decides how the stream closes. */
    method OnEnd() returns (step: Step)
      requires Shown() && Replayed()
      modifies this`out
      ensures step.Done? || step.Threw?
      ensures step.Threw? ==> out == old(out)
      ensures step.Done? ==> |out| > |old(out)| && Closing(out[|out| - 1]) && OpenStream(out[..|out| - 1])
      ensures step.Done? && out[|out| - 1].Finish? ==> Vouched() && |old(out)| > 0 && out[0] == old(out)[0]
      ensures step.Done? && Python() ==> Deltas(out) == text
      ensures Python() && started && Succeeded(generation) && Agrees(generation, text, finalValues) ==>
                step.Done? && out[|out| - 1].Finish? && out == old(out) + PythonEnding(textStarted, Field(Field(wait, "values"), "result"))
      ensures !Python() && Confirmed() && Status("success") && NativeAgrees(started, generation, KeptNow()) ==>
                step.Done? && out == old(out) + [finish.value]
      ensures step.Done? && out[|out| - 1].Finish? && Python() ==>
                out == old(out) + PythonEnding(textStarted, Field(Field(wait, "values"), "result"))
      ensures step.Threw? && !Confirmed() ==> step.failure == Unsupported
      ensures step.Threw? && Confirmed() && Python() && generation.Some? && !CompletedIn(generation.value) ==> step.failure == AttemptChanged
      ensures step.Done? ==> Confirmed() && (Python() && generation.Some? ==> CompletedIn(generation.value))
      ensures Confirmed() && !Status("success") && (Python() && generation.Some? ==> CompletedIn(generation.value)) ==>
                step.Done? && out == old(out) + [FailureChunk(KeptNow())]
    {
      OneStatus();
      FailureCloses();
      hide Interrupted, RunFailed, FailureChunk, Field, Units, IsText, Shown, Replayed, Vouched, OpenStream, Deltas, Confirmed, Status, CompletedIn, Consecutive, Agrees, NativeAgrees, PythonEnding, Framed, MessageId;
      if !Confirmed() {
        return Threw(Unsupported);
      }
      if !profile.AiSdk? && generation.Some? && !CompletedIn(generation.value) {
        return Threw(AttemptChanged);
      }
      if !Status("success") || Status("interrupted") {
        CloseWith(FailureChunk(KeptNow()));
        step := Done;
      } else {
        step := FinishRun();
      }
    }

    /** The run is durably over, in this attempt if a Python run, and did not succeed. */
    predicate Stopped(generation: Option<int>) {
      Confirmed() && !Status("success") && (profile.AiSdk? || (generation.Some? ==> CompletedIn(generation.value)))
    }

    /** The end of the stream, as the browser will see it. */
    method CloseRun() returns (step: Step)
      requires Shown() && Replayed()
      modifies this`out
      ensures step.Done? || step.Threw?
      ensures step.Threw? ==> OpenStream(out)
      ensures step.Done? ==> Closed()
      ensures Python() && started && Succeeded(generation) && Agrees(generation, text, finalValues) ==> step.Done? && out[|out| - 1].Finish?
      ensures profile.AiSdk? && Confirmed() && Status("success") && NativeAgrees(started, generation, KeptNow()) ==>
                step.Done? && out == old(out) + [finish.value]
      ensures Stopped(generation) ==> step.Done? && out == old(out) + [FailureChunk(old(KeptNow()))]
    {
      hide OpenStream, Deltas, Vouched, Consecutive, Agrees, NativeAgrees, Status, Confirmed, CompletedIn, Framed, FailureChunk, MessageId, DurableText,
           Complete, PythonEnding, Field, Interrupted, RunFailed;
      step := OnEnd();
      VouchedText();
      if step.Done? && Python() && out[|out| - 1].Finish? {
        CompletesIt(old(out), textStarted, out, Field(Field(wait, "values"), "result"));
      }
    }

    static lemma CompletesIt(before: seq<Chunk>, textStarted: bool, out: seq<Chunk>, result: Option<Json>)
      requires Framed(before, textStarted) && out == before + PythonEnding(textStarted, result)
      ensures Complete(out, result)
    {
      assert out[..|before|] == before;
    }

    // ----- A complete replay -----

    /** The frame is event number `n` of attempt `g`. */
    predicate Named(frame: S.Frame, n: nat, g: int) {
      && frame.id != "" && S.ByteLength(frame.id) <= MAX_EVENT_ID_BYTES
      && RefOf(frame).Some? && InRange(RefOf(frame).value)
      && Seq(RefOf(frame).value) == n && Attempt(RefOf(frame).value) == g
    }

    /** And its numbers are written plainly. */
    predicate Numbered(frame: S.Frame, n: nat, g: int) {
      Named(frame, n, g) && Plain(RefOf(frame).value)
    }

    /** A frame in the middle of a Python run of attempt `g`. */
    predicate Orderly(frame: S.Frame, g: int) {
      && !Ending(frame) && frame.event != "custom:ai_sdk"
      && (frame.event == "messages" ==> PythonDelta(parse(frame.data), runId).Some?)
      && (frame.event == "values" ==> ValidProfile(parse(frame.data), profile, g))
    }

    /** The text, its size and the last values document that the first `n` frames carry. */
    function TextAt(frames: seq<S.Frame>, n: nat): Text
      requires n <= |frames|
    {
      if n == 0 then [] else TextAt(frames, n - 1) + DeltaOf(frames[n - 1])
    }

    function BytesAt(frames: seq<S.Frame>, n: nat): nat
      requires n <= |frames|
    {
      if n == 0 then 0 else BytesAt(frames, n - 1) + TextBytes(DeltaOf(frames[n - 1]))
    }

    function ValuesAt(frames: seq<S.Frame>, n: nat): Option<Json>
      requires n <= |frames|
    {
      if n == 0 then None else Kept(frames[n - 1], ValuesAt(frames, n - 1))
    }

    function IdsAt(frames: seq<S.Frame>, n: nat): set<string>
      requires n <= |frames|
    {
      if n == 0 then {} else IdsAt(frames, n - 1) + {frames[n - 1].id}
    }

    /** The values document kept after a frame. */
    function Kept(frame: S.Frame, before: Option<Json>): Option<Json> {
      if frame.event == "values" then parse(frame.data) else before
    }

    /** All events of a Python attempt, from the one that starts it to its end, within the limits. */
    ghost predicate Replays(frames: seq<S.Frame>, g: int) {
      && 2 <= |frames| <= MAX_EVENTS
      && (forall i :: 0 <= i < |frames| ==> Numbered(frames[i], i + 1, g))
      && Running(frames[0]) && (forall i :: 0 <= i < |frames| - 1 ==> Orderly(frames[i], g)) && Ending(frames[|frames| - 1])
      && (forall i :: 0 <= i <= |frames| ==> BytesAt(frames, i) <= S.MAX_FRAME_BYTES)
    }

    /** The first `n` frames of such a replay have been consumed. */
    ghost predicate Progress(v: View, frames: seq<S.Frame>, g: int, n: nat) {
      && Python() && n < |frames| && StartFailure(MessageId(runId, g)).None?
      && v.seen == IdsAt(frames, n)
      && (if n == 0 then !v.started && v.generation.None? && v.sequence == map[]
          else v.started && v.generation == Some(g) && v.sequence == map[g := n])
      && v.text == TextAt(frames, n) && v.textBytes == BytesAt(frames, n) && v.finalValues == ValuesAt(frames, n)
      && v.kept == KeptBack(None, None, None)
    }

    lemma NumbersDiffer(a: S.Frame, b: S.Frame, k: nat, n: nat, g: int)
      requires Named(a, k, g) && Named(b, n, g) && k != n
      ensures a.id != b.id
    {
    }

    lemma {:induction false} NextIsUnseen(frames: seq<S.Frame>, g: int, first: nat, k: nat, n: nat)
      requires (forall i :: 0 <= i < |frames| ==> Named(frames[i], i + first, g)) && k <= n < |frames|
      ensures frames[n].id !in IdsAt(frames, k) && |IdsAt(frames, k)| <= k
      decreases k
    {
      hide Named;
      if k > 0 {
        NextIsUnseen(frames, g, first, k - 1, n);
        NumbersDiffer(frames[k - 1], frames[n], k - 1 + first, n + first, g);
      }
    }

    // ----- A complete native replay -----

    /** The native chunks that the first `n` frames carry. */
    function NativeAt(frames: seq<S.Frame>, n: nat): seq<Chunk>
      requires n <= |frames|
    {
      if n == 0 then []
      else NativeAt(frames, n - 1) + if NativeFrame(frames[n - 1]) && NativeChunk(frames[n - 1]).Some? then [NativeChunk(frames[n - 1]).value] else []
    }

    predicate NativeFrame(frame: S.Frame) { frame.event == "custom:ai_sdk" }

    /** All events of a native attempt, up to its end and within the limits, every chunk of them due. */
    ghost predicate NativeReplays(frames: seq<S.Frame>, g: int, first: nat) {
      && 1 <= first <= 2 && 1 <= |frames| <= MAX_EVENTS
      && (forall i :: 0 <= i < |frames| ==> Named(frames[i], i + first, g))
      && (forall i :: 0 <= i < |frames| - 1 ==> !Ending(frames[i]))
      && (forall i :: 0 <= i < |frames| - 1 && NativeFrame(frames[i]) ==> Due(frames[i], g, NativeAt(frames, i) != []))
      && Ending(frames[|frames| - 1])
    }

    /** The first `n` frames of such a replay have been consumed. */
    ghost predicate NativeProgress(v: View, frames: seq<S.Frame>, g: int, first: nat, n: nat) {
      && !Python() && n < |frames| && v.seen == IdsAt(frames, n)
      && v.sequence == (if n == 0 then map[] else map[g := n - 1 + first])
      && NativeState(v, NativeAt(frames, n), g)
    }

    /** Exactly these native chunks of attempt `g` have been dealt with. */
    ghost predicate NativeState(v: View, chunks: seq<Chunk>, g: int) {
      && v.started == (chunks != []) && v.generation == (if chunks == [] then None else Some(g))
      && v.out == Visible(chunks) && v.kept == KeptOf(chunks)
    }

    /** What one more frame adds to the native chunks. */
    lemma NativeStep(frames: seq<S.Frame>, n: nat)
      requires n < |frames|
      ensures var before, after, chunk := NativeAt(frames, n), NativeAt(frames, n + 1), NativeChunk(frames[n]);
              if NativeFrame(frames[n]) && chunk.Some?
              then after == before + [chunk.value] && after != [] && KeptOf(after) == KeepBack(KeptOf(before), chunk.value)
                   && Visible(after) == Visible(before) + if Closing(chunk.value) then [] else [chunk.value]
              else after == before
    {
      var before, chunk := NativeAt(frames, n), NativeChunk(frames[n]);
      if NativeFrame(frames[n]) && chunk.Some? {
        assert (before + [chunk.value])[..|before|] == before;
      }
    }

    lemma IdsGrow(frames: seq<S.Frame>, n: nat)
      requires n < |frames|
      ensures IdsAt(frames, n + 1) == IdsAt(frames, n) + {frames[n].id}
    {}

    /** The next frame of a native replay is new and in order. */
    lemma NextFits(v: View, frames: seq<S.Frame>, g: int, first: nat, n: nat)
      requires NativeReplays(frames, g, first) && NativeProgress(v, frames, g, first, n)
      ensures NativeFits(v, frames[n], g, n + first)
    {
      hide MessageId, RefOf, StartFailure, NativeAt, Visible, KeptOf, Ending, IdsAt, Due, Seq, Attempt, NativeChunk;
      NextIsUnseen(frames, g, first, n, n);
      assert Named(frames[n], n + first, g);
    }

    /** So it moves on by one, its chunk shown or kept back. */
    lemma NativeMoves(before: View, after: View, frames: seq<S.Frame>, g: int, first: nat, n: nat, step: Step)
      requires NativeReplays(frames, g, first) && NativeProgress(before, frames, g, first, n) && n < |frames| - 1
      requires NativeTurn(before, after, frames[n], g, n + first, step)
      ensures step.Continue? && NativeProgress(after, frames, g, first, n + 1)
    {
      hide Visible, KeptOf, NativeAt, IdsAt, Named, KeepBack, NativeChunk, Ending, FailureChunk, Confirmed, Status;
      NativeStep(frames, n);
      IdsGrow(frames, n);
    }

    /** And its end is that of the run. */
    lemma NativeEnds(before: View, after: View, frames: seq<S.Frame>, g: int, first: nat, step: Step)
      requires NativeReplays(frames, g, first) && NativeProgress(before, frames, g, first, |frames| - 1)
      requires NativeTurn(before, after, frames[|frames| - 1], g, |frames| - 1 + first, step)
      ensures !step.Continue?
      ensures NativeSettles(frames, g) || Stopped(None) ==> step.Done? && NativeClose(frames, g, after.out)
    {
      hide Visible, NativeAt, IdsAt, Named, KeepBack, NativeChunk, Ending, FailureChunk, Confirmed, Status, NativeResult;
    }

    /** How a native replay that has come to its end is closed: by its own finish if the
        durable result is of that message, and by abort or error if the run did not succeed. */
    ghost predicate NativeClose(frames: seq<S.Frame>, g: int, chunks: seq<Chunk>) {
      && frames != []
      && var native := NativeAt(frames, |frames| - 1);
         && (NativeSettles(frames, g) ==> chunks == Visible(native) + [KeptOf(native).finish.value])
         && (Stopped(None) ==> chunks == Visible(native) + [FailureChunk(KeptOf(native))])
    }

    /** What a frame that fits does to a native response. */
    ghost predicate NativeTurn(before: View, after: View, frame: S.Frame, g: int, n: nat, step: Step) {
      && (!Ending(frame) && (NativeFrame(frame) ==> Due(frame, g, before.started)) ==>
            step.Continue? && after.seen == before.seen + {frame.id} && after.sequence == map[g := n])
      && (!Ending(frame) && !NativeFrame(frame) ==>
            after.out == before.out && after.kept == before.kept && after.started == before.started && after.generation == before.generation)
      && (NativeFrame(frame) && Due(frame, g, before.started) ==>
            && after.started && after.generation == Some(g) && after.kept == KeepBack(before.kept, NativeChunk(frame).value)
            && after.out == before.out + if Closing(NativeChunk(frame).value) then [] else [NativeChunk(frame).value])
      && (Ending(frame) ==> !step.Continue?)
      && (Ending(frame) && Confirmed() && Status("success") && NativeAgrees(before.started, before.generation, before.kept) ==>
            step.Done? && after.out == before.out + [before.kept.finish.value])
      && (Ending(frame) && Stopped(None) ==> step.Done? && after.out == before.out + [FailureChunk(before.kept)])
    }

    /** The frame is new and is the next event, number `k`, of native attempt `g`. */
    ghost predicate NativeFits(v: View, frame: S.Frame, g: int, k: nat) {
      && !Python() && Named(frame, k, g) && frame.id !in v.seen && |v.seen| < MAX_EVENTS
      && (v.generation.None? || v.generation == Some(g))
      && ((v.sequence == map[] && k <= 2) || v.sequence == map[g := k - 1])
    }

    /** The durable result is a success of this message, and its own finish was streamed. */
    ghost predicate NativeSettles(frames: seq<S.Frame>, g: int) {
      && frames != [] && Confirmed() && Status("success") && NativeResult(g)
      && var kept := KeptOf(NativeAt(frames, |frames| - 1)); kept.finish.Some? && kept.error.None? && kept.abort.None?
    }

    // ----- The whole stream -----

    /** What the frame's id says of a runner event. */
    function RefOf(frame: S.Frame): Option<Ref> {
      var prefix := runId + "_evt_";
      if prefix <= frame.id then ParseRef(Units(frame.id[|prefix|..])) else None
    }

    /** A named frame is looked at once. */
    method Notice(frame: S.Frame) returns (answer: Admission)
      modifies this`seen
      ensures answer.Proceed? ==> seen == if frame.id == "" then old(seen) else old(seen) + {frame.id}
      ensures answer.Proceed? <==>
              frame.id == "" || (S.ByteLength(frame.id) <= MAX_EVENT_ID_BYTES && frame.id !in old(seen) && |old(seen)| < MAX_EVENTS)
      ensures !answer.Proceed? ==> seen == old(seen)
      ensures answer.Skip? <==> frame.id != "" && S.ByteLength(frame.id) <= MAX_EVENT_ID_BYTES && frame.id in old(seen)
      ensures answer.Refuse? ==> answer.failure == Unsupported
    {
      if frame.id != "" {
        if S.ByteLength(frame.id) > MAX_EVENT_ID_BYTES {
          return Refuse(Unsupported);
        }
        if frame.id in seen {
          return Skip;
        }
        if |seen| >= MAX_EVENTS {
          return Refuse(Unsupported);
        }
        seen := seen + {frame.id};
      }
      answer := Proceed;
    }

    /** A runner event is checked and counted; other frames pass. */
    method Identify(frame: S.Frame) returns (answer: Admission)
      requires Valid()
      modifies this`sequence, this`generation, this`started, this`out, this`consumed
      ensures answer.Proceed? ==> Shown() && Replayed() && (Ending(frame) || Valid())
      ensures answer.Proceed? && Python() && RefOf(frame).Some? && !Ending(frame) ==> started
      ensures answer.Skip? ==> Valid()
      ensures !answer.Proceed? ==> out == old(out)
      ensures Python() && RefOf(frame).Some? && InRange(RefOf(frame).value) && Plain(RefOf(frame).value) &&
              Next(old(started), old(generation), old(sequence), RefOf(frame).value) &&
              (old(started) || (Running(frame) && !Ending(frame) && StartFailure(MessageId(runId, Attempt(RefOf(frame).value))).None?)) ==>
                && answer.Proceed? && started && generation == Some(Attempt(RefOf(frame).value))
                && sequence == map[Attempt(RefOf(frame).value) := Seq(RefOf(frame).value)]
      ensures answer.Proceed? && profile.AiSdk? ==> out == old(out) && started == old(started) && generation == old(generation)
      ensures profile.AiSdk? && RefOf(frame).Some? && InRange(RefOf(frame).value) &&
              (old(generation).None? || old(generation) == Some(Attempt(RefOf(frame).value))) &&
              ((old(sequence) == map[] && Seq(RefOf(frame).value) <= 2) || old(sequence) == map[Attempt(RefOf(frame).value) := Seq(RefOf(frame).value) - 1]) ==>
                answer.Proceed? && sequence == map[Attempt(RefOf(frame).value) := Seq(RefOf(frame).value)]
      // frames without a runner's name pass and change nothing, unless a Python frame only looks like one
      ensures answer.Skip? <==> RefOf(frame).Some? && InRange(RefOf(frame).value) && Older(old(generation), RefOf(frame).value)
      ensures answer.Skip? ==> sequence == old(sequence) && generation == old(generation) && started == old(started)
      ensures RefOf(frame).None? ==> out == old(out) && answer == if profile.AiSdk? || !(runId + "_evt_" <= frame.id) then Proceed else Refuse(Unsupported)
      ensures RefOf(frame).Some? && Misplaced(old(generation), old(sequence), RefOf(frame).value) ==>
                answer == Refuse(if Newer(old(generation), RefOf(frame).value) then AttemptChanged else ReplayUnavailable)
    {
      hide OpenStream, Deltas, RefOf, MessageId, Consecutive, Running, Plain, InRange, Next;
      var r := RefOf(frame);
      if r.Some? {
        answer := AcceptRunner(frame, r.value);
      } else if !profile.AiSdk? && runId + "_evt_" <= frame.id {
        answer := Refuse(Unsupported);
      } else {
        answer := Proceed;
      }
    }

    /** The frame is new and is the next event, number `n`, of attempt `g`. */
    ghost predicate Fits(v: View, frame: S.Frame, g: int, n: nat) {
      && Python() && Numbered(frame, n, g) && frame.id !in v.seen && |v.seen| < MAX_EVENTS
      && Next(v.started, v.generation, v.sequence, RefOf(frame).value)
      && (v.started || (Running(frame) && !Ending(frame) && StartFailure(MessageId(runId, g)).None?))
    }

    /** A frame that may be named and has not been seen before. */
    ghost predicate New(v: View, frame: S.Frame) {
      frame.id == "" || (S.ByteLength(frame.id) <= MAX_EVENT_ID_BYTES && frame.id !in v.seen && |v.seen| < MAX_EVENTS)
    }

    /** A frame seen before, or one of an older attempt. */
    ghost predicate Stale(v: View, frame: S.Frame) {
      || (frame.id != "" && S.ByteLength(frame.id) <= MAX_EVENT_ID_BYTES && frame.id in v.seen)
      || (New(v, frame) && RefOf(frame).Some? && InRange(RefOf(frame).value) && Older(v.generation, RefOf(frame).value))
    }

    /** Nothing but the seen identifiers has changed. */
    ghost predicate SameBut(before: View, after: View) { after == before.(seen := after.seen) }

    /** A frame not seen before, whose event is misplaced. */
    ghost predicate OutOfPlace(v: View, frame: S.Frame) {
      && New(v, frame) && RefOf(frame).Some? && Misplaced(v.generation, v.sequence, RefOf(frame).value)
    }

    /** A frame goes on unless it is a duplicate, stale, or out of order. */
    method Admit(frame: S.Frame, ghost g: int, ghost n: nat) returns (answer: Admission)
      requires Valid()
      modifies this`seen, this`sequence, this`generation, this`started, this`out, this`consumed
      ensures answer.Proceed? ==> Shown() && Replayed() && (Ending(frame) || Valid())
      ensures answer.Proceed? && Python() && RefOf(frame).Some? && !Ending(frame) ==> started
      ensures answer.Skip? ==> Valid()
      ensures !answer.Proceed? ==> out == old(out)
      ensures Fits(old(Now()), frame, g, n) ==>
                && answer.Proceed? && seen == old(seen) + {frame.id}
                && started && generation == Some(g) && sequence == map[g := n]
      ensures answer.Skip? <==> Stale(old(Now()), frame)
      ensures answer.Skip? ==> SameBut(old(Now()), Now())
      ensures OutOfPlace(old(Now()), frame) ==>
                answer == Refuse(if Newer(old(generation), RefOf(frame).value) then AttemptChanged else ReplayUnavailable)
      ensures NativeFits(old(Now()), frame, g, n) ==>
                && answer.Proceed? && seen == old(seen) + {frame.id} && sequence == map[g := n]
                && out == old(out) && started == old(started) && generation == old(generation)
    {
      hide OpenStream, Deltas, RefOf, MessageId, Consecutive, Running, Plain, InRange, Next, StartFailure;
      answer := Notice(frame);
      if answer.Proceed? {
        answer := Identify(frame);
      }
    }

    /**
     * One frame: duplicates are passed over, runner events are checked and
     * counted, then the event is acted on.  `g` and `n` say which event it is,
     * if it is the next one of its attempt.
     */
    method Consume(frame: S.Frame, ghost g: int, ghost n: nat) returns (step: Step)
      requires Valid()
      modifies this
      ensures step.Continue? ==> Valid()
      ensures step.Threw? ==> OpenStream(out)
      ensures step.Done? ==> Closed()
      // duplicates and frames of older attempts change nothing, and only an end frame closes the stream
      ensures Stale(old(Now()), frame) ==> step.Continue? && SameBut(old(Now()), Now())
      ensures step.Done? ==> Ending(frame)
      // a gap and a newer attempt end the response, each with its own message
      ensures OutOfPlace(old(Now()), frame) ==>
                step == Threw(if Newer(old(generation), RefOf(frame).value) then AttemptChanged else ReplayUnavailable) && out == old(out)
      ensures Fits(old(Now()), frame, g, n) ==> PythonTurn(old(Now()), Now(), frame, g, n, step)
      ensures NativeFits(old(Now()), frame, g, n) ==> NativeTurn(old(Now()), Now(), frame, g, n, step)
    {
      ValidIsOpen();
      FitsNamed(Now(), frame, g, n);
      hide NativeFits, NativeAgrees, Named, Due, FailureChunk, Native, Status, Confirmed, CompletedIn, KeepBack, NativeChunk, OutOfPlace, Newer, Stale;
      hide Valid, Closed, Fits, Agrees, Succeeded, OpenStream, MessageId, StartFailure, Orderly, TextBytes, DeltaOf, Kept, Ending, Vouched, RefOf;
      var answer := Admit(frame, g, n);
      if answer.Proceed? {
        step := Act(frame);
      } else if answer.Skip? {
        step := Continue;
      } else {
        step := Threw(answer.failure);
      }
    }

    /** What a frame that fits does to a Python response. */
    ghost predicate PythonTurn(before: View, after: View, frame: S.Frame, g: int, n: nat, step: Step) {
      && (Orderly(frame, g) && before.textBytes + TextBytes(DeltaOf(frame)) <= S.MAX_FRAME_BYTES ==>
            && step.Continue? && after.seen == before.seen + {frame.id} && after.started && after.generation == Some(g) && after.sequence == map[g := n]
            && after.text == before.text + DeltaOf(frame) && after.textBytes == before.textBytes + TextBytes(DeltaOf(frame))
            && after.finalValues == Kept(frame, before.finalValues) && after.kept == before.kept)
      && (Ending(frame) ==> !step.Continue?)
      && (Ending(frame) && Succeeded(Some(g)) && Agrees(Some(g), before.text, before.finalValues) ==>
            step.Done? && after.out != [] && after.out[|after.out| - 1].Finish?)
      && (Ending(frame) && Stopped(Some(g)) ==> step.Done? && after.out != [] && after.out[|after.out| - 1] == FailureChunk(before.kept))
    }

    lemma FitsNamed(v: View, frame: S.Frame, g: int, n: nat)
      ensures Fits(v, frame, g, n) ==> Python() && RefOf(frame).Some?
      ensures NativeFits(v, frame, g, n) ==>
                Native(frame, RefOf(frame)) && Attempt(RefOf(frame).value) == g && (v.generation.None? || v.generation == Some(g))
    {
    }

    /** A position in a complete replay of that kind. */
    ghost predicate ReplayAt(replay: Replay, v: View, frames: seq<S.Frame>, g: int, n: nat) {
      match replay
      case Unknown => true
      case OfPython => Replays(frames, g) && Progress(v, frames, g, n)
      case OfNative(first) => NativeReplays(frames, g, first) && NativeProgress(v, frames, g, first, n)
    }

    /** How a complete replay of that kind is closed, if its run is durably over and, if
        it succeeded, agrees with what was streamed. */
    ghost predicate ReplayClosed(replay: Replay, frames: seq<S.Frame>, g: int, done: bool, chunks: seq<Chunk>) {
      match replay
      case Unknown => true
      case OfPython =>
        && (Settles(frames, g) ==> done && chunks != [] && chunks[|chunks| - 1].Finish?)
        && (Stopped(Some(g)) ==> done && chunks != [] && chunks[|chunks| - 1] == if Status("interrupted") then Interrupted() else RunFailed())
      case OfNative(_) => NativeSettles(frames, g) || Stopped(None) ==> done && NativeClose(frames, g, chunks)
    }

    /** Seen from a position in a complete replay, one frame moves on by one. */
    lemma ReplayMoves(replay: Replay, before: View, after: View, frames: seq<S.Frame>, g: int, n: nat, step: Step)
      requires n < |frames| && !replay.Unknown? && ReplayAt(replay, before, frames, g, n)
      requires replay.OfPython? && Fits(before, frames[n], g, n + 1) ==> PythonTurn(before, after, frames[n], g, n + 1, step)
      requires replay.OfNative? && NativeFits(before, frames[n], g, n + replay.first) ==> NativeTurn(before, after, frames[n], g, n + replay.first, step)
      ensures if n < |frames| - 1 then step.Continue? && ReplayAt(replay, after, frames, g, n + 1)
              else !step.Continue? && ReplayClosed(replay, frames, g, step.Done?, after.out)
    {
      hide NativeReplays, NativeProgress, NativeFits, NativeTurn, NativeSettles, NativeClose, Fits, PythonTurn, Replays, Progress, Settles, Stopped, Status;
      if replay.OfPython? {
        ReplayStep(before, frames, g, n);
        if n < |frames| - 1 { PythonMoves(before, after, frames, g, n, step); } else { PythonEnds(before, after, frames, g, step); }
      } else {
        NextFits(before, frames, g, replay.first, n);
        if n < |frames| - 1 {
          NativeMoves(before, after, frames, g, replay.first, n, step);
        } else {
          NativeEnds(before, after, frames, g, replay.first, step);
        }
      }
    }

    lemma PythonMoves(before: View, after: View, frames: seq<S.Frame>, g: int, n: nat, step: Step)
      requires Replays(frames, g) && Progress(before, frames, g, n) && n < |frames| - 1
      requires PythonTurn(before, after, frames[n], g, n + 1, step)
      ensures step.Continue? && Progress(after, frames, g, n + 1)
    {
      ReplayStep(before, frames, g, n);
      hide Replays, IdsAt, TextAt, BytesAt, ValuesAt, StartFailure, MessageId, Orderly, Ending, DeltaOf, TextBytes, Kept, FailureChunk, Agrees, Succeeded;
    }

    lemma PythonEnds(before: View, after: View, frames: seq<S.Frame>, g: int, step: Step)
      requires Replays(frames, g) && Progress(before, frames, g, |frames| - 1)
      requires PythonTurn(before, after, frames[|frames| - 1], g, |frames|, step)
      ensures !step.Continue? && ReplayClosed(OfPython, frames, g, step.Done?, after.out)
    {
      hide IdsAt, TextAt, BytesAt, ValuesAt, StartFailure, MessageId, Orderly, Ending, DeltaOf, TextBytes, Kept, Agrees, Succeeded, Confirmed, Status;
    }

    /** The next frame of a replay fits, and what it adds is what the longer prefix has. */
    lemma ReplayStep(v: View, frames: seq<S.Frame>, g: int, n: nat)
      requires Replays(frames, g) && Progress(v, frames, g, n)
      ensures Fits(v, frames[n], g, n + 1) && RefOf(frames[n]).Some?
      ensures TextAt(frames, n + 1) == v.text + DeltaOf(frames[n])
      ensures BytesAt(frames, n + 1) == v.textBytes + TextBytes(DeltaOf(frames[n])) <= S.MAX_FRAME_BYTES
      ensures ValuesAt(frames, n + 1) == Kept(frames[n], v.finalValues)
      ensures IdsAt(frames, n + 1) == v.seen + {frames[n].id}
      ensures if n < |frames| - 1 then Orderly(frames[n], g) else Ending(frames[n]) && v.started
    {
      hide MessageId, DeltaOf, Kept, Orderly, TextBytes, RefOf, StartFailure, Fits, Running, Ending, Numbered;
      NextPythonFits(v, frames, g, n);
    }

    /** The next frame of a Python replay is new and in order. */
    lemma NextPythonFits(v: View, frames: seq<S.Frame>, g: int, n: nat)
      requires Replays(frames, g) && Progress(v, frames, g, n)
      ensures Fits(v, frames[n], g, n + 1) && RefOf(frames[n]).Some?
    {
      hide MessageId, PythonDelta, ValidProfile, Plain, InRange, RefOf, StartFailure, TextAt, BytesAt, ValuesAt, IdsAt, Running;
      assert forall i :: 0 <= i < |frames| ==> Numbered(frames[i], i + 1, g);
      NextIsUnseen(frames, g, 1, n, n);
      assert Numbered(frames[n], n + 1, g);
      assert n == 0 ==> Orderly(frames[0], g);
    }

    lemma VouchedText()
      ensures Vouched() ==> started && generation.Some? && (Python() ==> DurableText() == Some(text))
    {
    }

    /** A Python event that does not end the run. */
    method PythonEvent(frame: S.Frame) returns (step: Step)
      requires Valid() && Python() && !Ending(frame) && (RefOf(frame).Some? ==> started)
      modifies this`out, this`text, this`textBytes, this`textStarted, this`finalValues
      ensures step.Continue? ==> Valid()
      ensures step.Threw? ==> OpenStream(out)
      ensures !step.Done?
      ensures RefOf(frame).Some? && Orderly(frame, generation.value) && old(textBytes) + TextBytes(DeltaOf(frame)) <= S.MAX_FRAME_BYTES ==>
                && step.Continue? && text == old(text) + DeltaOf(frame) && textBytes == old(textBytes) + TextBytes(DeltaOf(frame))
                && finalValues == Kept(frame, old(finalValues))
      // text and values must come from the runner, native chunks not at all, and other events say nothing
      ensures (frame.event == "messages" || frame.event == "values") && RefOf(frame).None? ==> step == Threw(ReplayUnavailable)
      ensures NativeFrame(frame) ==> step == Threw(Unsupported) && out == old(out)
      ensures frame.event != "messages" && frame.event != "values" && !NativeFrame(frame) ==> step.Continue? && Now() == old(Now())
    {
      hide OpenStream, Deltas, RefOf, Consecutive, ValidProfile, PythonDelta;
      if frame.event == "messages" {
        step := OnMessages(frame, RefOf(frame).Some?);
      } else if frame.event == "values" {
        step := OnValues(frame, RefOf(frame).Some?);
      } else if frame.event == "custom:ai_sdk" {
        step := Threw(Unsupported);
      } else {
        step := Continue;
      }
    }

    /** What a frame asks for, once its identity has been checked. */
    method Act(frame: S.Frame) returns (step: Step)
      requires Shown() && Replayed() && (Ending(frame) || Valid())
      requires Python() && RefOf(frame).Some? && !Ending(frame) ==> started
      modifies this`generation, this`started, this`out, this`text, this`textBytes, this`textStarted, this`finalValues,
               this`finish, this`nativeError, this`nativeAbort
      ensures step.Continue? ==> Valid()
      ensures step.Threw? ==> OpenStream(out)
      ensures step.Done? ==> Closed() && out != [] && Ending(frame)
      ensures NativeFrame(frame) && Python() ==> step == Threw(Unsupported)
      ensures Python() && RefOf(frame).Some? && old(generation).Some? && Orderly(frame, old(generation).value) &&
              old(textBytes) + TextBytes(DeltaOf(frame)) <= S.MAX_FRAME_BYTES ==>
                && step.Continue? && started == old(started) && generation == old(generation)
                && text == old(text) + DeltaOf(frame) && textBytes == old(textBytes) + TextBytes(DeltaOf(frame))
                && finalValues == Kept(frame, old(finalValues)) && KeptNow() == old(KeptNow())
      ensures Python() && Ending(frame) && old(started) && Succeeded(old(generation)) && Agrees(old(generation), old(text), old(finalValues)) ==>
                step.Done? && out[|out| - 1].Finish?
      // a native run goes on, its chunk taken, until its end
      ensures profile.AiSdk? && !Ending(frame) && !NativeFrame(frame) ==>
                step.Continue? && out == old(out) && KeptNow() == old(KeptNow()) && started == old(started) && generation == old(generation)
      ensures NativeFrame(frame) && Native(frame, RefOf(frame)) && Due(frame, Attempt(RefOf(frame).value), old(started)) &&
              (old(generation).None? || old(generation) == Some(Attempt(RefOf(frame).value))) ==>
                && step.Continue? && started && generation == Some(Attempt(RefOf(frame).value))
                && KeptNow() == KeepBack(old(KeptNow()), NativeChunk(frame).value)
                && out == old(out) + if Closing(NativeChunk(frame).value) then [] else [NativeChunk(frame).value]
      ensures profile.AiSdk? && Ending(frame) && Confirmed() && Status("success") && old(NativeAgrees(started, generation, KeptNow())) ==>
                step.Done? && out == old(out) + [old(finish).value]
      ensures Ending(frame) ==> !step.Continue?
      ensures Ending(frame) && Stopped(old(generation)) ==> step.Done? && out == old(out) + [FailureChunk(old(KeptNow()))]
    {
      hide OpenStream, Deltas, Vouched, Consecutive, Agrees, Succeeded, RefOf, TextBytes, DeltaOf, NativeAgrees, Stopped, Due, NativeChunk, Confirmed, Status, FailureChunk, Attempt, MessageId;
      if Ending(frame) {
        step := CloseRun();
      } else if !profile.AiSdk? {
        step := PythonEvent(frame);
      } else if frame.event == "custom:ai_sdk" {
        step := OnNative(frame, RefOf(frame));
      } else {
        step := Continue;
      }
    }

    /** The stream is closed by its last chunk and only that one; if it is a finish, everything it vouches for holds. */
    ghost predicate Closed()
      reads this
    {
      && out != [] && Closing(out[|out| - 1]) && OpenStream(out[..|out| - 1])
      && (out[|out| - 1].Finish? ==>
            && Vouched() && |out| > 1 && out[0] == Start(Some(MessageId(runId, generation.value)))
            && (Python() ==> Some(Deltas(out)) == DurableText() && Complete(out, Field(Field(wait, "values"), "result"))))
    }

    /** All frames; running out of them, or a broken transport where they stop, is a failure too. */
    method Chunks(frames: seq<S.Frame>, ghost g: int, ghost replay: Replay) returns (step: Step)
      requires Valid()
      modifies this
      ensures step.Done? || step.Threw?
      ensures step.Threw? ==> OpenStream(out)
      ensures step.Done? ==> Closed() && exists f <- frames :: Ending(f)
      ensures ReplayAt(replay, old(Now()), frames, g, 0) && frames != [] ==> ReplayClosed(replay, frames, g, step.Done?, out)
    {
      hide Valid, Agrees, Succeeded, OpenStream, Closed, ReplayAt, ReplayClosed, PythonTurn, NativeTurn, Fits, NativeFits;
      UnknownIsClosed(frames, g);
      ghost var kind := if ReplayAt(replay, Now(), frames, g, 0) && frames != [] then replay else Unknown;
      var i := 0;
      while i < |frames|
        invariant 0 <= i <= |frames| && Valid()
        invariant !kind.Unknown? ==> i < |frames| && ReplayAt(kind, Now(), frames, g, i)
      {
        ghost var before := Now();
        step := Consume(frames[i], g, if kind.OfNative? then i + kind.first else i + 1);
        if !kind.Unknown? { ReplayMoves(kind, before, Now(), frames, g, i, step); }
        if !step.Continue? {
          return;
        }
        i := i + 1;
      }
      ValidIsOpen();
      step := Threw(Unsupported);
    }

    /** A replay that was not closed as it should be had no claim to it, whatever is shown. */
    lemma NotClosedYet(replay: Replay, frames: seq<S.Frame>, g: int)
      ensures forall a: seq<Chunk>, b: seq<Chunk> :: ReplayClosed(replay, frames, g, false, a) ==> ReplayClosed(replay, frames, g, false, b)
    {
    }

    lemma UnknownIsClosed(frames: seq<S.Frame>, g: int)
      ensures forall done: bool, chunks: seq<Chunk> :: ReplayClosed(Unknown, frames, g, done, chunks)
    {
    }

    lemma ValidIsOpen()
      ensures Valid() ==> OpenStream(out)
    {
    }

    /** The durable result is a success of attempt `g` and agrees with what the frames carry. */
    ghost predicate Settles(frames: seq<S.Frame>, g: int) {
      frames != [] && Succeeded(Some(g)) && Agrees(Some(g), TextAt(frames, |frames| - 1), ValuesAt(frames, |frames| - 1))
    }

    /**
     * What the browser receives: a failure of the consumer is turned into an
     * error or abort chunk.  So every response ends in exactly one closing
     * chunk, and a finish is vouched for.  Conversely a complete replay that
     * agrees with the durable success does end in a finish: the text and the
     * result of a Python attempt, every chunk of a native one in order.  And a
     * complete replay of a run that did not succeed ends as that run did.
     */
    method Deliver(frames: seq<S.Frame>, aborted: bool, ghost g: int, ghost replay: Replay) returns (chunks: seq<Chunk>, ghost failed: Option<Failure>)
      requires Valid()
      modifies this
      ensures chunks == out && Closed()
      ensures failed.Some? ==> chunks[|chunks| - 1] == if aborted then Cancelled() else Undelivered(failed.value)
      ensures ReplayAt(replay, old(Now()), frames, g, 0) && frames != [] ==> ReplayClosed(replay, frames, g, failed.None?, chunks)
    {
      NotClosedYet(replay, frames, g);
      hide OpenStream, Deltas, Vouched, ReplayAt, ReplayClosed, Complete, Field, MessageId, DurableText, Say, Valid, Now;
      var step := Chunks(frames, g, replay);
      failed := if step.Threw? then Some(step.failure) else None;
      if step.Threw? {
        Emit(if aborted then Cancelled() else Undelivered(step.failure));
      }
      chunks := out;
    }
  }
}
