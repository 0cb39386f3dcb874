/** The streaming chatbot query (src/pages/core/bot/services/chatbotService.ts).
    The transport delivers already-parsed server-sent events to four
    callbacks; their closure state is the accumulated answer, the chunk
    list, the processing time and the `isComplete` flag, and the promise the
    query returns settles at most once.

    `Session` and `Step` describe one callback at a time as a value;
    `StreamSession` is the closure itself, whose callbacks update its fields
    in place and are proved to follow `Step`. */
module ChatStream {
  import opened Basics

  // ---------------------------------------------------------------------
  // Values

  /** `1 / (1 + distance)` in floating point: a ratio, or Infinity when the
      divisor is zero. */
  datatype Similarity = Ratio(value: real) | Infinity

  function SimilarityOf(distance: real): Similarity {
    if 1.0 + distance == 0.0 then Infinity else Ratio(1.0 / (1.0 + distance))
  }

  /** A chunk as the server sends it. */
  datatype RawChunk = RawChunk(content: string, fileName: string, distance: real)

  datatype RelevantChunk = RelevantChunk(
    content: string,
    similarity: Similarity,
    distance: real,
    fileName: string,
    chunkIndex: nat)

  /** `processingTimeMs` is a JavaScript number, possibly fractional;
      `None` is the `undefined` a done payload without the field leaves. */
  datatype QueryResponse = QueryResponse(answer: string, relevantChunks: seq<RelevantChunk>, processingTimeMs: Option<real>)

  /** One parsed server-sent event. `Token(None)` is a token payload without
      `content`, `Done(None)` a done payload without `processingTimeMs`, and
      `ServerError(None)` an error object without `message`.
      `NullServerError` is an error event whose data is JSON `null`: the
      handler sets `isComplete` and aborts, and only then throws on
      `errorData.message`, so the promise is never rejected.
      `Malformed` is data that `JSON.parse` rejects, or `null` data for a
      chunks, token or done event; those throw before any variable changes
      and the `try` around the switch catches the error. */
  datatype Event =
    | Chunks(chunks: seq<RawChunk>)
    | Start
    | Token(content: Option<string>)
    | Done(processingTimeMs: Option<real>)
    | ServerError(message: Option<string>)
    | NullServerError
    | Unknown(name: string)
    | Malformed

  /** The state of the promise `queryChatbotStream` returns. */
  datatype Outcome = Pending | Resolved(response: QueryResponse) | Rejected(message: string)

  /** A promise settles once: later calls to resolve or reject are ignored. */
  function Settle(o: Outcome, next: Outcome): (r: Outcome)
    ensures o.Pending? ==> r == next
    ensures !o.Pending? ==> r == o
  {
    if o.Pending? then next else o
  }

  /** `accumulatedAnswer += tokenData.content`: a missing content is
      appended as the text "undefined". */
  function TokenText(content: Option<string>): string {
    match content
    case Some(t) => t
    case None => "undefined"
  }

  /** The chunk list a chunks event installs (chatbotService.ts:51-57). */
  function ToRelevant(raw: seq<RawChunk>): (r: seq<RelevantChunk>)
    ensures |r| == |raw|
    ensures forall i | 0 <= i < |raw| ::
      && r[i].chunkIndex == i
      && r[i].content == raw[i].content
      && r[i].fileName == raw[i].fileName
      && r[i].distance == raw[i].distance
      && r[i].similarity == SimilarityOf(raw[i].distance)
  {
    seq(|raw|, i requires 0 <= i < |raw| =>
      RelevantChunk(raw[i].content, SimilarityOf(raw[i].distance), raw[i].distance, raw[i].fileName, i))
  }

  /** A non-negative distance gives a similarity in (0, 1], and a larger
      distance a smaller similarity. */
  lemma SimilarityBounds(d: real, e: real)
    requires 0.0 <= d <= e
    ensures SimilarityOf(d).Ratio? && 0.0 < SimilarityOf(d).value <= 1.0
    ensures SimilarityOf(e).value <= SimilarityOf(d).value
  {
    var x := 1.0 / (1.0 + d);
    var y := 1.0 / (1.0 + e);
    assert x * (1.0 + d) == 1.0;
    assert y * (1.0 + e) == 1.0;
    assert y * (1.0 + d) <= y * (1.0 + e);
  }

  const DefaultError := "Error del servidor"

  /** `errorData.message || 'Error del servidor'`: an empty message is falsy. */
  function ErrorMessage(message: Option<string>): (r: string)
    ensures r != ""
    ensures message.Some? && message.value != "" ==> r == message.value
  {
    if message.Some? && message.value != "" then message.value else DefaultError
  }

  /** `onopen` (chatbotService.ts:31-41): the error it throws, if any. */
  function OpenError(ok: bool, status: int, body: string, contentType: Option<string>): (r: Option<string>)
    ensures r.None? <==> ok && contentType.Some? && Contains(contentType.value, "text/event-stream")
    ensures !ok ==> r == Some("HTTP " + IntToString(status) + ": " + body)
  {
    if !ok then Some("HTTP " + IntToString(status) + ": " + body)
    else if contentType.None? || !Contains(contentType.value, "text/event-stream") then Some("Respuesta no es SSE")
    else None
  }

  // ---------------------------------------------------------------------
  // The closure state and its steps

  /** The closure variables, whether the transport was aborted, the
      promise's state, and the contents passed to the `onStream` callback. */
  datatype Session = Session(
    answer: string,
    chunks: seq<RelevantChunk>,
    processingTimeMs: Option<real>,
    isComplete: bool,
    aborted: bool,
    outcome: Outcome,
    streamed: seq<string>)

  function Initial(): Session {
    Session("", [], Some(0.0), false, false, Pending, [])
  }

  function Response(s: Session): QueryResponse {
    QueryResponse(s.answer, s.chunks, s.processingTimeMs)
  }

  /** `onmessage` (chatbotService.ts:43-109). The `onStream` callback is
      called with each token's content when it is given; an exception it
      throws is caught and changes nothing. */
  function Step(s: Session, e: Event, hasOnStream: bool): (t: Session)
    ensures t.answer == s.answer + (if e.Token? then TokenText(e.content) else "")
    ensures t.streamed == s.streamed + (if hasOnStream && e.Token? then [TokenText(e.content)] else [])
    ensures t.isComplete <==> s.isComplete || Completes(e)
    ensures e.NullServerError? ==> t == s.(isComplete := true, aborted := true)
    ensures !s.outcome.Pending? ==> t.outcome == s.outcome
    ensures s.outcome.Pending? && e.Done? ==>
      t.outcome == Resolved(QueryResponse(s.answer, s.chunks, e.processingTimeMs))
    ensures s.outcome.Pending? && e.ServerError? ==> t.outcome == Rejected(ErrorMessage(e.message))
    ensures !Finishes(e) ==> t.outcome == s.outcome
  {
    match e
    case Chunks(raw) => s.(chunks := ToRelevant(raw))
    case Start => s
    case Token(content) =>
      s.(answer := s.answer + TokenText(content),
         streamed := if hasOnStream then s.streamed + [TokenText(content)] else s.streamed)
    case Done(t) =>
      var s' := s.(processingTimeMs := t, isComplete := true, aborted := true);
      s'.(outcome := Settle(s.outcome, Resolved(Response(s'))))
    case ServerError(message) =>
      s.(isComplete := true, aborted := true, outcome := Settle(s.outcome, Rejected(ErrorMessage(message))))
    case NullServerError => s.(isComplete := true, aborted := true)
    case Unknown(_) => s
    case Malformed => s
  }

  /** `onclose` (chatbotService.ts:111-124). */
  function Close(s: Session): (t: Session)
    ensures s.isComplete ==> t == s
    ensures !s.isComplete && s.outcome.Pending? ==> t.outcome == Resolved(QueryResponse(s.answer, s.chunks, s.processingTimeMs))
    ensures !s.outcome.Pending? ==> t == s
  {
    if s.isComplete then s else s.(outcome := Settle(s.outcome, Resolved(Response(s))))
  }

  /** `onerror` (chatbotService.ts:126-135); the error is rethrown either way. */
  function TransportError(s: Session, error: string): (t: Session)
    ensures s.isComplete ==> t == s
    ensures !s.isComplete && s.outcome.Pending? ==> t.outcome == Rejected(error)
    ensures !s.outcome.Pending? ==> t.outcome == s.outcome
    ensures t.answer == s.answer
  {
    if s.isComplete then s else s.(aborted := true, outcome := Settle(s.outcome, Rejected(error)))
  }

  /** The session after a sequence of messages. */
  function Replay(s: Session, es: seq<Event>, hasOnStream: bool): (t: Session)
    ensures !s.outcome.Pending? ==> t.outcome == s.outcome
    ensures s.isComplete ==> t.isComplete
    ensures (forall i | 0 <= i < |es| :: !Finishes(es[i])) ==> t.outcome == s.outcome
    ensures (forall i | 0 <= i < |es| :: !Completes(es[i])) ==> t.isComplete == s.isComplete
    decreases |es|
  {
    if es == [] then s else Replay(Step(s, es[0], hasOnStream), es[1..], hasOnStream)
  }

  /** The concatenated token contents of a sequence of events. */
  function Tokens(es: seq<Event>): string {
    if es == [] then ""
    else (if es[0].Token? then TokenText(es[0].content) else "") + Tokens(es[1..])
  }

  /** The token contents, one per token event. */
  function TokenList(es: seq<Event>): seq<string> {
    if es == [] then []
    else (if es[0].Token? then [TokenText(es[0].content)] else []) + TokenList(es[1..])
  }

  /** The events that settle a pending promise. */
  predicate Finishes(e: Event) {
    e.Done? || e.ServerError?
  }

  /** The events that set `isComplete`. */
  predicate Completes(e: Event) {
    Finishes(e) || e.NullServerError?
  }

  // ---------------------------------------------------------------------
  // Properties

  /** The answer is the token contents in arrival order, and the callback
      (when given) sees the same contents one by one. */
  lemma ReplayAnswer(s: Session, es: seq<Event>, hasOnStream: bool)
    ensures Replay(s, es, hasOnStream).answer == s.answer + Tokens(es)
    ensures Replay(s, es, hasOnStream).streamed == s.streamed + (if hasOnStream then TokenList(es) else [])
  {
    ReplayText(s, es, hasOnStream);
    ReplayStreamed(s, es, hasOnStream);
  }

  lemma {:induction false} ReplayText(s: Session, es: seq<Event>, hasOnStream: bool)
    ensures Replay(s, es, hasOnStream).answer == s.answer + Tokens(es)
    decreases |es|
  {
    if es != [] {
      var s' := Step(s, es[0], hasOnStream);
      ReplayText(s', es[1..], hasOnStream);
      var head := if es[0].Token? then TokenText(es[0].content) else "";
      assert Tokens(es) == head + Tokens(es[1..]);
      assert s'.answer + Tokens(es[1..]) == s.answer + (head + Tokens(es[1..]));
    }
  }

  lemma {:induction false} ReplayStreamed(s: Session, es: seq<Event>, hasOnStream: bool)
    ensures Replay(s, es, hasOnStream).streamed == s.streamed + (if hasOnStream then TokenList(es) else [])
    decreases |es|
  {
    if es != [] {
      var s' := Step(s, es[0], hasOnStream);
      assert Replay(s, es, hasOnStream) == Replay(s', es[1..], hasOnStream);
      ReplayStreamed(s', es[1..], hasOnStream);
      if hasOnStream {
        var head := if es[0].Token? then [TokenText(es[0].content)] else [];
        assert TokenList(es) == head + TokenList(es[1..]);
        assert s'.streamed == s.streamed + head;
        assert (s.streamed + head) + TokenList(es[1..]) == s.streamed + (head + TokenList(es[1..]));
      }
    }
  }

  /** Once settled, the outcome never changes again, whatever arrives. */
  lemma {:induction false} SettledStaysSettled(s: Session, es: seq<Event>, hasOnStream: bool, error: string)
    requires !s.outcome.Pending?
    ensures Replay(s, es, hasOnStream).outcome == s.outcome
    ensures Close(s).outcome == s.outcome && TransportError(s, error).outcome == s.outcome
    decreases |es|
  {
    if es != [] {
      SettledStaysSettled(Step(s, es[0], hasOnStream), es[1..], hasOnStream, error);
    }
  }

  /** The session is complete exactly when a done or error event has
      arrived; unless one of them was an error event with `null` data, the
      promise is then settled. */
  lemma {:induction false} CompleteIffFinished(s: Session, es: seq<Event>, hasOnStream: bool)
    requires s.isComplete ==> !s.outcome.Pending?
    ensures Replay(s, es, hasOnStream).isComplete <==> s.isComplete || exists i | 0 <= i < |es| :: Completes(es[i])
    ensures (forall i | 0 <= i < |es| :: !es[i].NullServerError?) && Replay(s, es, hasOnStream).isComplete ==>
      !Replay(s, es, hasOnStream).outcome.Pending?
    decreases |es|
  {
    if es != [] {
      if es[0].NullServerError? {
        assert Completes(es[0]);
      } else {
        CompleteIffFinished(Step(s, es[0], hasOnStream), es[1..], hasOnStream);
        if exists i | 0 <= i < |es[1..]| :: Completes(es[1..][i]) {
          var i :| 0 <= i < |es[1..]| && Completes(es[1..][i]);
          assert Completes(es[i + 1]);
        }
        if exists i | 0 <= i < |es| :: Completes(es[i]) {
          var i :| 0 <= i < |es| && Completes(es[i]);
          if i > 0 {
            assert Completes(es[1..][i - 1]);
          }
        }
        if forall i | 0 <= i < |es| :: !es[i].NullServerError? {
          assert forall i | 0 <= i < |es[1..]| :: !es[1..][i].NullServerError? by {
            forall i | 0 <= i < |es[1..]| ensures !es[1..][i].NullServerError? {
              assert es[1..][i] == es[i + 1];
            }
          }
        }
      }
    }
  }

  /** Only a done event sets the processing time. */
  lemma {:induction false} TimeOnlyFromDone(s: Session, es: seq<Event>, hasOnStream: bool)
    requires forall i | 0 <= i < |es| :: !es[i].Done?
    ensures Replay(s, es, hasOnStream).processingTimeMs == s.processingTimeMs
    decreases |es|
  {
    if es != [] {
      TimeOnlyFromDone(Step(s, es[0], hasOnStream), es[1..], hasOnStream);
    }
  }

  /** The chunk list is the one installed by the last chunks event, or the
      initial one when there was none: a chunks event replaces, it does not
      extend. */
  function LastChunks(current: seq<RelevantChunk>, es: seq<Event>): seq<RelevantChunk>
    decreases |es|
  {
    if es == [] then current
    else LastChunks(if es[0].Chunks? then ToRelevant(es[0].chunks) else current, es[1..])
  }

  lemma {:induction false} ReplayChunks(s: Session, es: seq<Event>, hasOnStream: bool)
    ensures Replay(s, es, hasOnStream).chunks == LastChunks(s.chunks, es)
    decreases |es|
  {
    if es != [] {
      ReplayChunks(Step(s, es[0], hasOnStream), es[1..], hasOnStream);
    }
  }

  /** A stream of tokens and chunks closed by a done event resolves with the
      concatenated tokens, the last chunk list and the reported time. */
  lemma DoneResolves(es: seq<Event>, t: Option<real>, hasOnStream: bool)
    requires forall i | 0 <= i < |es| :: !Finishes(es[i])
    ensures Replay(Initial(), es + [Done(t)], hasOnStream).outcome ==
      Resolved(QueryResponse(Tokens(es), LastChunks([], es), t))
  {
    var s := Replay(Initial(), es, hasOnStream);
    ReplayAnswer(Initial(), es, hasOnStream);
    ReplayChunks(Initial(), es, hasOnStream);
    CompleteIffFinished(Initial(), es, hasOnStream);
    PendingWhileUnfinished(Initial(), es, hasOnStream);
    ReplaySplit(Initial(), es, [Done(t)], hasOnStream);
  }

  /** A stream closed before done or error resolves with the partial answer,
      the last chunk list and a processing time of 0. */
  lemma CloseBeforeDoneResolvesPartial(es: seq<Event>, hasOnStream: bool)
    requires forall i | 0 <= i < |es| :: !Completes(es[i])
    ensures Close(Replay(Initial(), es, hasOnStream)).outcome ==
      Resolved(QueryResponse(Tokens(es), LastChunks([], es), Some(0.0)))
  {
    ReplayAnswer(Initial(), es, hasOnStream);
    ReplayChunks(Initial(), es, hasOnStream);
    CompleteIffFinished(Initial(), es, hasOnStream);
    PendingWhileUnfinished(Initial(), es, hasOnStream);
    TimeOnlyFromDone(Initial(), es, hasOnStream);
  }

  lemma {:induction false} PendingWhileUnfinished(s: Session, es: seq<Event>, hasOnStream: bool)
    requires s.outcome.Pending?
    requires forall i | 0 <= i < |es| :: !Finishes(es[i])
    ensures Replay(s, es, hasOnStream).outcome.Pending?
    decreases |es|
  {
    if es != [] {
      PendingWhileUnfinished(Step(s, es[0], hasOnStream), es[1..], hasOnStream);
    }
  }

  lemma {:induction false} ReplaySplit(s: Session, xs: seq<Event>, ys: seq<Event>, hasOnStream: bool)
    ensures Replay(s, xs + ys, hasOnStream) == Replay(Replay(s, xs, hasOnStream), ys, hasOnStream)
    decreases |xs|
  {
    if xs != [] {
      assert (xs + ys)[0] == xs[0] && (xs + ys)[1..] == xs[1..] + ys;
      ReplaySplit(Step(s, xs[0], hasOnStream), xs[1..], ys, hasOnStream);
    } else {
      assert xs + ys == ys;
    }
  }

  /** An error event completes the session, aborts, and rejects a pending
      promise with its message or the default one. */
  lemma ServerErrorRejects(s: Session, message: Option<string>, hasOnStream: bool)
    requires s.outcome.Pending?
    ensures var s' := Step(s, ServerError(message), hasOnStream);
      s'.isComplete && s'.aborted && s'.outcome == Rejected(ErrorMessage(message))
      && s'.answer == s.answer && s'.chunks == s.chunks
    ensures ErrorMessage(Some("")) == DefaultError && ErrorMessage(None) == DefaultError
  {
  }

  /** After done or error, close and transport errors change nothing; before,
      a transport error aborts and rejects. */
  lemma AfterCompletion(s: Session, error: string)
    ensures s.isComplete ==> Close(s) == s && TransportError(s, error) == s
    ensures !s.isComplete && s.outcome.Pending? ==>
      TransportError(s, error).outcome == Rejected(error) && TransportError(s, error).aborted
  {
  }

  /** Start events, unknown event names and malformed payloads change
      nothing. */
  lemma NeutralEvents(s: Session, name: string, hasOnStream: bool)
    ensures Step(s, Start, hasOnStream) == s
    ensures Step(s, Unknown(name), hasOnStream) == s
    ensures Step(s, Malformed, hasOnStream) == s
  {
  }

  // ---------------------------------------------------------------------
  // An error event with null data

  /** As written, an error event whose data is `null` completes and aborts
      the stream without settling the promise. After the abort no message
      arrives, and the close and error callbacks do nothing because the
      session is complete, so the promise stays pending for good. */
  lemma NullErrorHangs(es: seq<Event>, hasOnStream: bool, error: string)
    requires forall i | 0 <= i < |es| :: !Completes(es[i])
    ensures var s := Replay(Initial(), es + [NullServerError], hasOnStream);
      && s.isComplete && s.aborted && s.outcome.Pending?
      && Close(s) == s && TransportError(s, error) == s
  {
    ReplaySplit(Initial(), es, [NullServerError], hasOnStream);
    var s := Replay(Initial(), es, hasOnStream);
    assert Replay(s, [NullServerError], hasOnStream) == Step(s, NullServerError, hasOnStream);
  }

  /** The evidently intended handler, `errorData?.message || 'Error del
      servidor'`: a `null` error payload rejects with the default message
      like an error object without a message. */
  function StepIntended(s: Session, e: Event, hasOnStream: bool): (t: Session)
    ensures e.NullServerError? ==> t == Step(s, ServerError(None), hasOnStream)
    ensures e.NullServerError? && s.outcome.Pending? ==> t.isComplete && t.outcome == Rejected(DefaultError)
    ensures !e.NullServerError? ==> t == Step(s, e, hasOnStream)
  {
    if e.NullServerError? then Step(s, ServerError(None), hasOnStream) else Step(s, e, hasOnStream)
  }

  function ReplayIntended(s: Session, es: seq<Event>, hasOnStream: bool): Session
    decreases |es|
  {
    if es == [] then s else ReplayIntended(StepIntended(s, es[0], hasOnStream), es[1..], hasOnStream)
  }

  /** With the intended handler, a completed session always has a settled
      promise, whatever events arrive, so the caller's `finally` runs. */
  lemma {:induction false} IntendedCompleteImpliesSettled(s: Session, es: seq<Event>, hasOnStream: bool)
    requires s.isComplete ==> !s.outcome.Pending?
    ensures ReplayIntended(s, es, hasOnStream).isComplete ==> !ReplayIntended(s, es, hasOnStream).outcome.Pending?
    ensures ReplayIntended(s, es, hasOnStream).isComplete <==> s.isComplete || exists i | 0 <= i < |es| :: Completes(es[i])
    decreases |es|
  {
    if es != [] {
      var s' := StepIntended(s, es[0], hasOnStream);
      assert s'.isComplete ==> !s'.outcome.Pending?;
      IntendedCompleteImpliesSettled(s', es[1..], hasOnStream);
      if exists i | 0 <= i < |es[1..]| :: Completes(es[1..][i]) {
        var i :| 0 <= i < |es[1..]| && Completes(es[1..][i]);
        assert Completes(es[i + 1]);
      }
      if exists i | 0 <= i < |es| :: Completes(es[i]) {
        var i :| 0 <= i < |es| && Completes(es[i]);
        if i > 0 {
          assert Completes(es[1..][i - 1]);
        }
      }
    }
  }

  // ---------------------------------------------------------------------
  // The closure, updated in place

  /** The caller's query object, which the service overwrites. */
  class Query {
    var question: string
    var maxResults: int
    var useModelVps: bool

    constructor (question: string, maxResults: int, useModelVps: bool)
      ensures this.question == question && this.maxResults == maxResults && this.useModelVps == useModelVps
    {
      this.question := question;
      this.maxResults := maxResults;
      this.useModelVps := useModelVps;
    }
  }

  class StreamSession {
    var accumulatedAnswer: string
    var relevantChunks: seq<RelevantChunk>
    var processingTimeMs: Option<real>
    var isComplete: bool
    var aborted: bool
    var outcome: Outcome
    var streamed: seq<string>
    const hasOnStream: bool

    function State(): Session
      reads this
    {
      Session(accumulatedAnswer, relevantChunks, processingTimeMs, isComplete, aborted, outcome, streamed)
    }

    /** `queryChatbotStream(query, onStream)` up to the point where the
        transport starts: the query's maxResults is set to 5 in place and the
        closure variables start empty. */
    constructor (query: Query, hasOnStream: bool)
      modifies query
      ensures query.maxResults == 5
      ensures query.question == old(query.question) && query.useModelVps == old(query.useModelVps)
      ensures State() == Initial() && this.hasOnStream == hasOnStream
    {
      query.maxResults := 5;
      accumulatedAnswer := "";
      relevantChunks := [];
      processingTimeMs := Some(0.0);
      isComplete := false;
      aborted := false;
      outcome := Pending;
      streamed := [];
      this.hasOnStream := hasOnStream;
    }

    method Resolve(response: QueryResponse)
      modifies this`outcome
      ensures outcome == Settle(old(outcome), Resolved(response))
    {
      if outcome.Pending? {
        outcome := Resolved(response);
      }
    }

    method Reject(message: string)
      modifies this`outcome
      ensures outcome == Settle(old(outcome), Rejected(message))
    {
      if outcome.Pending? {
        outcome := Rejected(message);
      }
    }

    method OnMessage(e: Event)
      modifies this
      ensures State() == Step(old(State()), e, hasOnStream)
    {
      match e {
        case Chunks(raw) =>
          relevantChunks := ToRelevant(raw);
        case Start =>
        case Token(content) =>
          accumulatedAnswer := accumulatedAnswer + TokenText(content);
          if hasOnStream {
            streamed := streamed + [TokenText(content)];
          }
        case Done(t) =>
          processingTimeMs := t;
          isComplete := true;
          aborted := true;
          Resolve(QueryResponse(accumulatedAnswer, relevantChunks, processingTimeMs));
        case ServerError(message) =>
          isComplete := true;
          aborted := true;
          Reject(ErrorMessage(message));
        case NullServerError =>
          // `errorData.message` throws before `reject`; the catch swallows it
          isComplete := true;
          aborted := true;
        case Unknown(_) =>
        case Malformed =>
      }
    }

    method OnClose()
      modifies this
      ensures State() == Close(old(State()))
    {
      if !isComplete {
        Resolve(QueryResponse(accumulatedAnswer, relevantChunks, processingTimeMs));
      }
    }

    /** Returns the error it rethrows. */
    method OnError(error: string) returns (rethrown: string)
      modifies this
      ensures State() == TransportError(old(State()), error)
      ensures rethrown == error
    {
      if !isComplete {
        aborted := true;
        Reject(error);
      }
      rethrown := error;
    }
  }

  /** Two tokens and a done event: the promise resolves with their
      concatenation, and a late close does not change it. */
  method TokensThenDone(a: string, b: string, t: Option<real>) returns (result: Outcome, streamed: seq<string>)
    ensures result == Resolved(QueryResponse(a + b, [], t))
    ensures streamed == [a, b]
  {
    var q := new Query("hola", 3, false);
    var session := new StreamSession(q, true);
    session.OnMessage(Start);
    session.OnMessage(Token(Some(a)));
    session.OnMessage(Token(Some(b)));
    session.OnMessage(Done(t));
    session.OnClose();
    result := session.outcome;
    streamed := session.streamed;
  }
}
