/**
 * The session memory of the LangChain-based client (llm.py): a process-wide
 * table from session id to a chat history, and the compaction policy that
 * replaces a long, token-heavy history with a single summary message.
 *
 * The tokenizer (tiktoken's cl100k_base encoding) and the summarizing model
 * call are outside this model: the first is the function `encode` fixed when
 * the store is built, the second the function `summarize` passed to each
 * lookup.
 */
module SessionMemory {

  /** The three LangChain message kinds a history holds. */
  datatype Role = System | Human | Ai

  datatype Message = Message(role: Role, content: string)

  /** A history is checked against the token budget only above this many messages. */
  const MessageWatermark := 6

  /** A history whose token total is strictly above this is summarized. */
  const TokenLimit := 500

  /** The text of each message, in order: all the budget check looks at. */
  function Contents(messages: seq<Message>): seq<string> {
    seq(|messages|, i requires 0 <= i < |messages| => messages[i].content)
  }

  /** The `count` list: the token count of each text, in order. */
  function TokenCounts(texts: seq<string>, encode: string -> nat): seq<nat> {
    seq(|texts|, i requires 0 <= i < |texts| => encode(texts[i]))
  }

  /** Python's `sum` over a list of counts. */
  function Sum(xs: seq<nat>): nat {
    if xs == [] then 0 else Sum(xs[..|xs| - 1]) + xs[|xs| - 1]
  }

  /** The number of tokens a sequence of texts costs. */
  function TotalTokens(texts: seq<string>, encode: string -> nat): nat {
    Sum(TokenCounts(texts, encode))
  }

  /** The budget decision of `check_memory_token_size`. */
  predicate ExceedsBudget(messages: seq<Message>, encode: string -> nat) {
    TotalTokens(Contents(messages), encode) > TokenLimit
  }

  lemma {:induction false} SumAppend(a: seq<nat>, b: seq<nat>)
    ensures Sum(a + b) == Sum(a) + Sum(b)
    decreases |b|
  {
    if b != [] {
      var b' := b[..|b| - 1];
      assert (a + b)[..|a + b| - 1] == a + b';
      SumAppend(a, b');
    } else {
      assert a + b == a;
    }
  }

  /** The token total of two runs of messages is the sum of their totals. */
  lemma TotalTokensAppend(a: seq<Message>, b: seq<Message>, encode: string -> nat)
    ensures TotalTokens(Contents(a + b), encode)
         == TotalTokens(Contents(a), encode) + TotalTokens(Contents(b), encode)
  {
    assert TokenCounts(Contents(a + b), encode)
        == TokenCounts(Contents(a), encode) + TokenCounts(Contents(b), encode);
    SumAppend(TokenCounts(Contents(a), encode), TokenCounts(Contents(b), encode));
  }

  /** A history that is over budget stays over budget as messages are appended to it. */
  lemma BudgetMonotone(history: seq<Message>, more: seq<Message>, encode: string -> nat)
    requires ExceedsBudget(history, encode)
    ensures ExceedsBudget(history + more, encode)
  {
    TotalTokensAppend(history, more, encode);
  }

  /**
   * check_memory_token_size: counts the tokens of every message into a list,
   * sums the list and compares the sum with the limit. The messages are a
   * value here, so they are not changed; the answer depends only on their
   * texts.
   */
  method CheckMemoryTokenSize(messages: seq<Message>, encode: string -> nat) returns (exceeded: bool)
    ensures exceeded <==> TotalTokens(Contents(messages), encode) > TokenLimit
  {
    var count: seq<nat> := [];
    var i := 0;
    while i < |messages|
      invariant 0 <= i <= |messages|
      invariant count == TokenCounts(Contents(messages[..i]), encode)
    {
      count := count + [encode(messages[i].content)];
      i := i + 1;
      assert Contents(messages[..i]) == Contents(messages[..i - 1]) + [messages[i - 1].content];
    }
    assert messages[..i] == messages;
    var totalTokens := Sum(count);
    exceeded := totalTokens > TokenLimit;
  }

  /** A LangChain in-memory chat history: a mutable list of messages. */
  class ChatHistory {
    var messages: seq<Message>

    constructor ()
      ensures messages == []
    {
      messages := [];
    }

    method Clear()
      modifies this
      ensures messages == []
    {
      messages := [];
    }

    method AddMessage(m: Message)
      modifies this
      ensures messages == old(messages) + [m]
    {
      messages := messages + [m];
    }
  }

  /**
   * summarize_memory: asks the summarizer about the whole stored history,
   * then clears the history and leaves the summary as its only message. The
   * same history object is returned.
   */
  method SummarizeMemory(storedSession: ChatHistory, summarize: seq<Message> -> string)
    returns (r: ChatHistory)
    modifies storedSession
    ensures r == storedSession
    ensures storedSession.messages == [Message(Ai, summarize(old(storedSession.messages)))]
  {
    var summaryMessage := Message(Ai, summarize(storedSession.messages));
    storedSession.Clear();
    storedSession.AddMessage(summaryMessage);
    r := storedSession;
  }

  /** The process-wide `memory_store` together with get_session_history. */
  class MemoryStore {
    var sessions: map<string, ChatHistory>
    const encode: string -> nat
    /** Every history handed to the token budget check, oldest first. */
    ghost var tokenChecks: seq<seq<Message>>

    /** Distinct sessions never share a history object. */
    ghost predicate Valid()
      reads this
    {
      forall a, b :: a in sessions && b in sessions && a != b ==> sessions[a] != sessions[b]
    }

    constructor (encode: string -> nat)
      ensures Valid() && sessions == map[] && this.encode == encode && tokenChecks == []
    {
      sessions := map[];
      this.encode := encode;
      tokenChecks := [];
    }

    /**
     * The store's use of check_memory_token_size with its tokenizer; every
     * history checked is recorded in `tokenChecks`.
     */
    method CheckBudget(messages: seq<Message>) returns (exceeded: bool)
      modifies this`tokenChecks
      ensures tokenChecks == old(tokenChecks) + [messages]
      ensures exceeded <==> ExceedsBudget(messages, encode)
    {
      tokenChecks := tokenChecks + [messages];
      exceeded := CheckMemoryTokenSize(messages, encode);
    }

    /**
     * get_session_history: creates an empty history for an unseen id;
     * otherwise, when the stored history has more than six messages and its
     * token total is over the limit, replaces it in place by a summary.
     */
    method GetSessionHistory(sessionId: string, summarize: seq<Message> -> string)
      returns (history: ChatHistory)
      requires Valid()
      modifies this, if sessionId in sessions then {sessions[sessionId]} else {}
      ensures Valid()
      ensures sessionId in sessions && history == sessions[sessionId]
      ensures sessions.Keys == old(sessions.Keys) + {sessionId}
      ensures forall id :: id in old(sessions) ==> sessions[id] == old(sessions[id])
      ensures forall id :: id in old(sessions) && id != sessionId ==> sessions[id].messages == old(sessions[id].messages)
      // an unseen id: a fresh, empty history and no token check
      ensures sessionId !in old(sessions) ==>
        fresh(history) && history.messages == [] && tokenChecks == old(tokenChecks)
      // a short history: returned as it is, and the tokenizer is not consulted
      ensures sessionId in old(sessions) && |old(sessions[sessionId].messages)| <= MessageWatermark ==>
        history.messages == old(sessions[sessionId].messages) && tokenChecks == old(tokenChecks)
      // a long history: checked once against the budget ...
      ensures sessionId in old(sessions) && |old(sessions[sessionId].messages)| > MessageWatermark ==>
        tokenChecks == old(tokenChecks) + [old(sessions[sessionId].messages)]
      // ... and replaced by the summary of all of it when over budget
      ensures sessionId in old(sessions) && |old(sessions[sessionId].messages)| > MessageWatermark ==>
        history.messages ==
          if ExceedsBudget(old(sessions[sessionId].messages), encode)
          then [Message(Ai, summarize(old(sessions[sessionId].messages)))]
          else old(sessions[sessionId].messages)
    {
      if sessionId !in sessions {
        var created := new ChatHistory();
        sessions := sessions[sessionId := created];
        history := created;
        return;
      }
      var storedSession := sessions[sessionId];
      if |storedSession.messages| > MessageWatermark {
        var exceeded := CheckBudget(storedSession.messages);
        if exceeded {
          history := SummarizeMemory(storedSession, summarize);
          return;
        }
      }
      history := storedSession;
    }
  }

  /**
   * Looking a session up twice in a row gives the same history object with
   * the same messages: the first lookup leaves nothing for the second to do.
   */
  method LookupTwice(store: MemoryStore, sessionId: string, summarize: seq<Message> -> string)
    returns (first: ChatHistory, second: ChatHistory, ghost firstMessages: seq<Message>)
    requires store.Valid()
    modifies store, store.sessions.Values
    ensures store.Valid()
    ensures first == second
    ensures second.messages == firstMessages
  {
    first := store.GetSessionHistory(sessionId, summarize);
    firstMessages := first.messages;
    second := store.GetSessionHistory(sessionId, summarize);
  }
}
