/** The chat window's message list (src/pages/core/bot/Chatbot.tsx:44-125).
    A submission appends the question and an empty bot message flagged as
    streaming, streams the answer into that bot message by id, and finally
    either replaces its text with the full answer or swaps it for a fallback
    message.

    The `setMessages` updaters are the pure functions below; `ChatWindow`
    holds the component's state and runs `onSubmit`'s steps in order. The
    ids that `Date.now()` produces are parameters. */
module Chatbot {
  import opened Basics
  import ChatStream

  datatype Sender = User | Bot

  /** A message; its timestamp is not modelled. */
  datatype Message = Message(id: string, text: string, sender: Sender, isStreaming: bool)

  const FallbackText := "Por el momento, esta funcionalidad no está disponible para el público."

  /** The request `onSubmit` sends: the question and `useModelVps`. */
  datatype ChatQuery = ChatQuery(question: string, useModelVps: bool)

  // ---------------------------------------------------------------------
  // The updaters

  /** The streaming updater (Chatbot.tsx:79-85): the chunk is appended to
      the message with the given id and to no other. */
  function AppendChunk(msgs: seq<Message>, id: string, chunk: string): (r: seq<Message>)
    ensures |r| == |msgs|
    ensures forall i | 0 <= i < |msgs| && msgs[i].id != id :: r[i] == msgs[i]
    ensures forall i | 0 <= i < |msgs| && msgs[i].id == id :: r[i] == msgs[i].(text := msgs[i].text + chunk)
  {
    seq(|msgs|, i requires 0 <= i < |msgs| =>
      if msgs[i].id == id then msgs[i].(text := msgs[i].text + chunk) else msgs[i])
  }

  /** The success updater (Chatbot.tsx:88-98). */
  function Complete(msgs: seq<Message>, id: string, answer: string): (r: seq<Message>)
    ensures |r| == |msgs|
    ensures forall i | 0 <= i < |msgs| && msgs[i].id != id :: r[i] == msgs[i]
    ensures forall i | 0 <= i < |msgs| && msgs[i].id == id ::
      r[i] == msgs[i].(text := answer, isStreaming := false)
  {
    seq(|msgs|, i requires 0 <= i < |msgs| =>
      if msgs[i].id == id then msgs[i].(text := answer, isStreaming := false) else msgs[i])
  }

  /** The failure updater (Chatbot.tsx:108-120): every message with the bot
      id is dropped and the fallback message goes last. */
  function FailWith(msgs: seq<Message>, id: string, fallbackId: string): (r: seq<Message>)
    ensures |r| >= 1 && r[|r| - 1] == Message(fallbackId, FallbackText, Bot, false)
    ensures forall m | m in r[..|r| - 1] :: m in msgs && m.id != id
    ensures forall m | m in msgs && m.id != id :: m in r[..|r| - 1]
    ensures IsSubsequence(r[..|r| - 1], msgs)
    ensures r[..|r| - 1] == Filter(msgs, (m: Message) => m.id != id)
  {
    var kept := Filter(msgs, (m: Message) => m.id != id);
    var r := kept + [Message(fallbackId, FallbackText, Bot, false)];
    FilterIsSubsequence(msgs, (m: Message) => m.id != id);
    forall m | m in msgs && m.id != id ensures m in kept {
      FilterMembership(msgs, (m: Message) => m.id != id, m);
    }
    assert r[..|r| - 1] == kept;
    r
  }

  /** The bot message's text after streaming the chunks in order. */
  function AppendAll(msgs: seq<Message>, id: string, chunks: seq<string>): seq<Message>
    decreases |chunks|
  {
    if chunks == [] then msgs else AppendAll(AppendChunk(msgs, id, chunks[0]), id, chunks[1..])
  }

  function Concat(chunks: seq<string>): string {
    if chunks == [] then "" else chunks[0] + Concat(chunks[1..])
  }

  /** Streaming chunks one after another appends their concatenation to the
      message with the id, and leaves every other message as it was. */
  lemma {:induction false} AppendAllConcat(msgs: seq<Message>, id: string, chunks: seq<string>)
    ensures |AppendAll(msgs, id, chunks)| == |msgs|
    ensures forall i | 0 <= i < |msgs| ::
      AppendAll(msgs, id, chunks)[i] ==
        if msgs[i].id == id then msgs[i].(text := msgs[i].text + Concat(chunks)) else msgs[i]
    decreases |chunks|
  {
    if chunks != [] {
      var next := AppendChunk(msgs, id, chunks[0]);
      AppendAllConcat(next, id, chunks[1..]);
      forall i | 0 <= i < |msgs| && msgs[i].id == id
        ensures msgs[i].text + chunks[0] + Concat(chunks[1..]) == msgs[i].text + Concat(chunks)
      {
        assert msgs[i].text + chunks[0] + Concat(chunks[1..]) == msgs[i].text + (chunks[0] + Concat(chunks[1..]));
      }
    }
  }

  /** The contents handed to the streaming callback concatenate to the
      answer the stream accumulates. */
  lemma {:induction false} StreamedTokensConcat(es: seq<ChatStream.Event>)
    ensures Concat(ChatStream.TokenList(es)) == ChatStream.Tokens(es)
    decreases |es|
  {
    if es != [] {
      StreamedTokensConcat(es[1..]);
      var head := if es[0].Token? then [ChatStream.TokenText(es[0].content)] else [];
      ConcatAppend(head, ChatStream.TokenList(es[1..]));
    }
  }

  lemma {:induction false} ConcatAppend(xs: seq<string>, ys: seq<string>)
    ensures Concat(xs + ys) == Concat(xs) + Concat(ys)
    decreases |xs|
  {
    if xs == [] {
      assert xs + ys == ys;
    } else {
      assert (xs + ys)[1..] == xs[1..] + ys;
      ConcatAppend(xs[1..], ys);
    }
  }

  // ---------------------------------------------------------------------
  // The component

  class ChatWindow {
    var messages: seq<Message>
    var isLoading: bool
    /** `streamingMessageId.current` */
    var streamingId: Option<string>
    /** The queries sent to the chatbot service, in order. */
    var sent: seq<ChatQuery>

    constructor ()
      ensures messages == [] && !isLoading && streamingId == None && sent == []
    {
      messages := [];
      isLoading := false;
      streamingId := None;
      sent := [];
    }

    /** `onSubmit` up to the query (Chatbot.tsx:44-78): a submission while
        loading does nothing. */
    method Submit(question: string, userId: string, botId: string) returns (started: bool)
      modifies this
      ensures started == !old(isLoading)
      ensures !started ==> messages == old(messages) && isLoading && streamingId == old(streamingId) && sent == old(sent)
      ensures started ==>
        && messages == old(messages) + [Message(userId, question, User, false), Message(botId, "", Bot, true)]
        && isLoading && streamingId == Some(botId)
        && sent == old(sent) + [ChatQuery(question, false)]
    {
      if isLoading {
        return false;
      }
      messages := messages + [Message(userId, question, User, false)];
      streamingId := Some(botId);
      messages := messages + [Message(botId, "", Bot, true)];
      isLoading := true;
      sent := sent + [ChatQuery(question, false)];
      started := true;
    }

    /** The `onStream` callback. */
    method OnChunk(botId: string, chunk: string)
      modifies this`messages
      ensures messages == AppendChunk(old(messages), botId, chunk)
    {
      messages := AppendChunk(messages, botId, chunk);
    }

    /** The rest of `onSubmit` once the query settles: success or failure,
        then the `finally` block. */
    method Settle(botId: string, outcome: ChatStream.Outcome, fallbackId: string)
      requires !outcome.Pending?
      modifies this`messages, this`isLoading, this`streamingId
      ensures outcome.Resolved? ==> messages == Complete(old(messages), botId, outcome.response.answer)
      ensures outcome.Rejected? ==> messages == FailWith(old(messages), botId, fallbackId)
      ensures !isLoading && streamingId == None
    {
      match outcome {
        case Resolved(response) =>
          messages := Complete(messages, botId, response.answer);
        case Rejected(_) =>
          messages := FailWith(messages, botId, fallbackId);
      }
      isLoading := false;
      streamingId := None;
    }
  }

  predicate FreshId(msgs: seq<Message>, id: string) {
    forall m | m in msgs :: m.id != id
  }

  /** A whole exchange with two streamed tokens: the question is sent with
      `useModelVps` false, the bot message collects the tokens, and on
      success ends up holding the answer, no longer streaming, after the
      earlier messages and the question. */
  method Exchange(history: seq<Message>, question: string, userId: string, botId: string, a: string, b: string)
    returns (streamed: seq<Message>, messages: seq<Message>, sent: seq<ChatQuery>)
    requires FreshId(history, botId) && userId != botId
    ensures sent == [ChatQuery(question, false)]
    ensures streamed == history + [Message(userId, question, User, false), Message(botId, a + b, Bot, true)]
    ensures messages == history + [Message(userId, question, User, false), Message(botId, a + b, Bot, false)]
  {
    var w := new ChatWindow();
    w.messages := history;
    var started := w.Submit(question, userId, botId);
    var before := w.messages;
    w.OnChunk(botId, a);
    w.OnChunk(botId, b);
    streamed := w.messages;
    w.Settle(botId, ChatStream.Resolved(ChatStream.QueryResponse(a + b, [], Some(0.0))), "");
    messages := w.messages;
    sent := w.sent;
    var n := |history|;
    assert |streamed| == n + 2 && |messages| == n + 2;
    forall k | 0 <= k < n ensures streamed[k] == history[k] && messages[k] == history[k] {
      assert history[k] in history;
    }
    assert streamed[n + 1] == Message(botId, "" + a + b, Bot, true);
    assert "" + a + b == a + b;
    assert streamed == history + [Message(userId, question, User, false), Message(botId, a + b, Bot, true)];
    assert messages == history + [Message(userId, question, User, false), Message(botId, a + b, Bot, false)];
  }

  /** A failed exchange leaves the earlier messages and the question, then
      exactly one fallback message, whatever had been streamed. */
  method FailedExchange(history: seq<Message>, question: string, userId: string, botId: string, a: string, fallbackId: string)
    returns (messages: seq<Message>)
    requires FreshId(history, botId) && userId != botId
    ensures messages == history + [Message(userId, question, User, false), Message(fallbackId, FallbackText, Bot, false)]
  {
    var w := new ChatWindow();
    w.messages := history;
    var started := w.Submit(question, userId, botId);
    w.OnChunk(botId, a);
    var streamed := w.messages;
    w.Settle(botId, ChatStream.Rejected("Error del servidor"), fallbackId);
    messages := w.messages;
    var kept := history + [Message(userId, question, User, false)];
    var n := |history|;
    assert streamed == kept + [Message(botId, a, Bot, true)] by {
      forall k | 0 <= k < n ensures streamed[k] == history[k] {
        assert history[k] in history;
      }
      assert streamed[n + 1] == Message(botId, "" + a, Bot, true);
      assert "" + a == a;
    }
    FilterDrops(kept, Message(botId, a, Bot, true), botId);
  }

  /** A stream whose error event carries `null` data: the promise
      `onSubmit` awaits never settles, so the `finally` block never runs.
      The bot message stays flagged as streaming, the window stays loading,
      and the next submission is ignored. */
  method NullErrorBlocksChat(history: seq<Message>, question: string, userId: string, botId: string,
                             error: string, next: string, nextUserId: string, nextBotId: string)
    returns (settled: bool, messages: seq<Message>, loading: bool, nextStarted: bool)
    ensures !settled && loading && !nextStarted
    ensures messages == history + [Message(userId, question, User, false), Message(botId, "", Bot, true)]
  {
    var w := new ChatWindow();
    w.messages := history;
    var started := w.Submit(question, userId, botId);
    var q := new ChatStream.Query(question, 5, false);
    var session := new ChatStream.StreamSession(q, true);
    session.OnMessage(ChatStream.NullServerError);
    session.OnClose();
    var rethrown := session.OnError(error);
    // `Settle` (the code after the await and the `finally` block) needs a
    // settled outcome, and this one is still pending
    settled := !session.outcome.Pending?;
    messages := w.messages;
    loading := w.isLoading;
    nextStarted := w.Submit(next, nextUserId, nextBotId);
  }

  /** Dropping the bot message from the end keeps everything before it. */
  lemma {:induction false} FilterDrops(kept: seq<Message>, last: Message, id: string)
    requires forall m | m in kept :: m.id != id
    requires last.id == id
    ensures Filter(kept + [last], (m: Message) => m.id != id) == kept
    decreases |kept|
  {
    if kept == [] {
      assert [last][1..] == [];
    } else {
      assert (kept + [last])[1..] == kept[1..] + [last];
      FilterDrops(kept[1..], last, id);
    }
  }
}
