/** The chatbot schemas (src/pages/core/bot/schemas/chatbot.schema.ts) over
    parsed JSON-like values: the query a user sends, a chat message and the
    server's answer. Objects may carry extra keys, which are dropped; a
    missing key reads as `undefined`. */
module ChatbotSchema {
  import opened Basics

  datatype Js =
    | JUndefined
    | JNull
    | JBool(b: bool)
    | JNum(x: real)
    | JStr(s: string)
    | JArr(items: seq<Js>)
    | JObj(fields: map<string, Js>)
    /** A `Date`, valid unless it is an Invalid Date. */
    | JDate(valid: bool, time: int)

  function Get(v: Js, key: string): (r: Js)
    ensures !v.JObj? ==> r == JUndefined
    ensures v.JObj? && key in v.fields ==> r == v.fields[key]
  {
    if v.JObj? && key in v.fields then v.fields[key] else JUndefined
  }

  /** `Number.MAX_SAFE_INTEGER`, the bound zod's `.int()` enforces. */
  const MaxSafeInteger: int := 0x1F_FFFF_FFFF_FFFF

  // ---------------------------------------------------------------------
  // querySchema

  /** `z.number().int().positive()`: a safe integer above zero. */
  predicate PositiveInt(v: Js) {
    v.JNum? && v.x == v.x.Floor as real && 0 < v.x.Floor <= MaxSafeInteger
  }

  predicate ValidQuestion(v: Js) {
    v.JStr? && 1 <= |v.s| <= 500
  }

  datatype Query = Query(question: string, maxResults: int)

  function ParseQuery(v: Js): (r: Option<Query>)
    ensures r.Some? <==> v.JObj? && ValidQuestion(Get(v, "question")) && PositiveInt(Get(v, "maxResults"))
    ensures r.Some? ==> 1 <= |r.value.question| <= 500 && r.value.maxResults >= 1
    ensures r.Some? ==>
      && r.value == Query(Get(v, "question").s, Get(v, "maxResults").x.Floor)
      && r.value.maxResults as real == Get(v, "maxResults").x
  {
    if v.JObj? && ValidQuestion(Get(v, "question")) && PositiveInt(Get(v, "maxResults"))
    then Some(Query(Get(v, "question").s, Get(v, "maxResults").x.Floor))
    else None
  }

  function QueryToJs(q: Query): Js {
    JObj(map["question" := JStr(q.question), "maxResults" := JNum(q.maxResults as real)])
  }

  /** A query within the bounds survives serialisation. */
  lemma QueryRoundTrip(q: Query)
    requires 1 <= |q.question| <= 500 && 1 <= q.maxResults <= MaxSafeInteger
    ensures ParseQuery(QueryToJs(q)) == Some(q)
  {
    var v := QueryToJs(q);
    assert Get(v, "question") == JStr(q.question);
    assert Get(v, "maxResults") == JNum(q.maxResults as real);
  }

  /** A fractional or non-positive number of results is rejected. */
  lemma MaxResultsMustBePositiveInt(question: string, x: real)
    requires 1 <= |question| <= 500
    requires x <= 0.0 || x != x.Floor as real
    ensures ParseQuery(JObj(map["question" := JStr(question), "maxResults" := JNum(x)])) == None
  {
    var v := JObj(map["question" := JStr(question), "maxResults" := JNum(x)]);
    assert Get(v, "maxResults") == JNum(x);
  }

  // ---------------------------------------------------------------------
  // messageSchema

  datatype Sender = User | Bot

  /** A validated message; `isStreaming` is the only optional field. */
  datatype Message = Message(id: string, text: string, sender: Sender, timestamp: int, isStreaming: Option<bool>)

  function ParseSender(v: Js): (r: Option<Sender>)
    ensures r == Some(User) <==> v == JStr("user")
    ensures r == Some(Bot) <==> v == JStr("bot")
    ensures r.None? <==> v != JStr("user") && v != JStr("bot")
  {
    if v == JStr("user") then Some(User)
    else if v == JStr("bot") then Some(Bot)
    else None
  }

  function ParseMessage(v: Js): (r: Option<Message>)
    ensures r.Some? <==>
      && v.JObj? && Get(v, "id").JStr? && Get(v, "text").JStr?
      && Get(v, "timestamp").JDate? && Get(v, "timestamp").valid
      && ParseSender(Get(v, "sender")).Some?
      && (Get(v, "isStreaming").JUndefined? || Get(v, "isStreaming").JBool?)
    ensures r.Some? ==>
      r.value == Message(Get(v, "id").s, Get(v, "text").s, ParseSender(Get(v, "sender")).value,
                         Get(v, "timestamp").time,
                         if Get(v, "isStreaming").JBool? then Some(Get(v, "isStreaming").b) else None)
    ensures v.JObj? && !Get(v, "isStreaming").JUndefined? && !Get(v, "isStreaming").JBool? ==> r.None?
  {
    var id := Get(v, "id");
    var text := Get(v, "text");
    var sender := ParseSender(Get(v, "sender"));
    var ts := Get(v, "timestamp");
    var streaming := Get(v, "isStreaming");
    if v.JObj? && id.JStr? && text.JStr? && sender.Some? && ts.JDate? && ts.valid
       && (streaming.JUndefined? || streaming.JBool?)
    then Some(Message(id.s, text.s, sender.value, ts.time,
                      if streaming.JBool? then Some(streaming.b) else None))
    else None
  }

  function SenderToJs(s: Sender): Js {
    match s
    case User => JStr("user")
    case Bot => JStr("bot")
  }

  function MessageToJs(m: Message): Js {
    var base := map["id" := JStr(m.id), "text" := JStr(m.text), "sender" := SenderToJs(m.sender),
                     "timestamp" := JDate(true, m.timestamp)];
    JObj(if m.isStreaming.Some? then base["isStreaming" := JBool(m.isStreaming.value)] else base)
  }

  /** Every message survives serialisation, with or without `isStreaming`. */
  lemma MessageRoundTrip(m: Message)
    ensures ParseMessage(MessageToJs(m)) == Some(m)
  {
    var v := MessageToJs(m);
    assert Get(v, "id") == JStr(m.id);
    assert Get(v, "text") == JStr(m.text);
    assert Get(v, "sender") == SenderToJs(m.sender);
    assert Get(v, "timestamp") == JDate(true, m.timestamp);
    if m.isStreaming.Some? {
      assert Get(v, "isStreaming") == JBool(m.isStreaming.value);
    } else {
      assert "isStreaming" !in v.fields;
    }
  }

  /** Each required field is required: dropping it makes the message
      invalid, while dropping `isStreaming` does not. */
  lemma RequiredFields(m: Message, key: string)
    requires key in {"id", "text", "sender", "timestamp"}
    ensures var v := MessageToJs(m);
      ParseMessage(JObj(v.fields - {key})) == None
    ensures var v := MessageToJs(m);
      ParseMessage(JObj(v.fields - {"isStreaming"})) == Some(m.(isStreaming := None))
  {
    var v := MessageToJs(m);
    var w := JObj(v.fields - {key});
    assert Get(w, key) == JUndefined;
    var u := JObj(v.fields - {"isStreaming"});
    assert Get(u, "id") == JStr(m.id);
    assert Get(u, "text") == JStr(m.text);
    assert Get(u, "sender") == SenderToJs(m.sender);
    assert Get(u, "timestamp") == JDate(true, m.timestamp);
    assert Get(u, "isStreaming") == JUndefined;
  }

  // ---------------------------------------------------------------------
  // queryResponseSchema

  datatype Chunk = Chunk(content: string, similarity: real, distance: real, fileName: string, chunkIndex: real)

  datatype QueryResponse = QueryResponse(answer: string, relevantChunks: seq<Chunk>, processingTimeMs: real)

  function ParseChunk(v: Js): (r: Option<Chunk>)
    ensures r.Some? <==>
      v.JObj? && Get(v, "content").JStr? && Get(v, "similarity").JNum? && Get(v, "distance").JNum?
      && Get(v, "fileName").JStr? && Get(v, "chunkIndex").JNum?
  {
    if v.JObj? && Get(v, "content").JStr? && Get(v, "similarity").JNum? && Get(v, "distance").JNum?
       && Get(v, "fileName").JStr? && Get(v, "chunkIndex").JNum?
    then Some(Chunk(Get(v, "content").s, Get(v, "similarity").x, Get(v, "distance").x,
                    Get(v, "fileName").s, Get(v, "chunkIndex").x))
    else None
  }

  /** `z.array(relevantChunkSchema)`: every element must parse. */
  function ParseChunks(items: seq<Js>): (r: Option<seq<Chunk>>)
    ensures r.Some? <==> forall i | 0 <= i < |items| :: ParseChunk(items[i]).Some?
    ensures r.Some? ==> |r.value| == |items| && forall i | 0 <= i < |items| :: r.value[i] == ParseChunk(items[i]).value
  {
    if items == [] then Some([])
    else
      match (ParseChunk(items[0]), ParseChunks(items[1..]))
      case (Some(c), Some(cs)) => Some([c] + cs)
      case (None, _) => None
      case (Some(_), None) =>
        assert !(forall i | 0 <= i < |items| - 1 :: ParseChunk(items[1..][i]).Some?);
        None
  }

  function ParseQueryResponse(v: Js): (r: Option<QueryResponse>)
    ensures r.Some? <==>
      && v.JObj? && Get(v, "answer").JStr? && Get(v, "processingTimeMs").JNum?
      && Get(v, "relevantChunks").JArr?
      && ParseChunks(Get(v, "relevantChunks").items).Some?
    ensures r.Some? ==>
      && r.value.answer == Get(v, "answer").s
      && r.value.relevantChunks == ParseChunks(Get(v, "relevantChunks").items).value
      && r.value.processingTimeMs == Get(v, "processingTimeMs").x
      && |r.value.relevantChunks| == |Get(v, "relevantChunks").items|
  {
    var answer := Get(v, "answer");
    var chunks := Get(v, "relevantChunks");
    var time := Get(v, "processingTimeMs");
    if v.JObj? && answer.JStr? && time.JNum? && chunks.JArr? then
      match ParseChunks(chunks.items)
      case Some(cs) => Some(QueryResponse(answer.s, cs, time.x))
      case None => None
    else None
  }

  function ChunkToJs(c: Chunk): Js {
    JObj(map["content" := JStr(c.content), "similarity" := JNum(c.similarity), "distance" := JNum(c.distance),
             "fileName" := JStr(c.fileName), "chunkIndex" := JNum(c.chunkIndex)])
  }

  function ResponseToJs(q: QueryResponse): Js {
    JObj(map["answer" := JStr(q.answer),
             "relevantChunks" := JArr(seq(|q.relevantChunks|, i requires 0 <= i < |q.relevantChunks| => ChunkToJs(q.relevantChunks[i]))),
             "processingTimeMs" := JNum(q.processingTimeMs)])
  }

  lemma ChunkRoundTrip(c: Chunk)
    ensures ParseChunk(ChunkToJs(c)) == Some(c)
  {
    var v := ChunkToJs(c);
    assert Get(v, "content") == JStr(c.content);
    assert Get(v, "similarity") == JNum(c.similarity);
    assert Get(v, "distance") == JNum(c.distance);
    assert Get(v, "fileName") == JStr(c.fileName);
    assert Get(v, "chunkIndex") == JNum(c.chunkIndex);
  }

  /** Every answer survives serialisation. */
  lemma QueryResponseRoundTrip(q: QueryResponse)
    ensures ParseQueryResponse(ResponseToJs(q)) == Some(q)
  {
    var v := ResponseToJs(q);
    var items := Get(v, "relevantChunks").items;
    forall i | 0 <= i < |items| ensures ParseChunk(items[i]) == Some(q.relevantChunks[i]) {
      ChunkRoundTrip(q.relevantChunks[i]);
    }
    assert Get(v, "answer") == JStr(q.answer);
    assert Get(v, "processingTimeMs") == JNum(q.processingTimeMs);
    assert ParseChunks(items).value == q.relevantChunks;
  }
}
