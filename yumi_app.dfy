/**
 * The message handler of the newer client (yumi/app.py): ignore the bot's
 * own messages, hand attachments to the upload, otherwise pick the language
 * model action from the message text and relay its reply to the channel.
 * The chunking loop is meant to send the reply in pieces no longer than
 * Discord's 2000-character limit; as written it sends only the first piece.
 */
module YumiApp {
  import opened Wrappers
  import opened PyStr
  import opened Discord

  /** Discord's limit on the length of one message. */
  const MaxMessageLength := 2000

  const WeatherPrefix := "!weather "

  /** The value of `llm_action` after the `match` on the message text. */
  datatype LlmAction = BasicConversation

  /** The handler's crash: `response` read before it was ever assigned. */
  datatype HandlerError = UnboundLocalResponse

  /** `match message.content`: the weather command is switched off, anything else converses. */
  function SelectAction(content: string): Option<LlmAction> {
    if StartsWith(content, WeatherPrefix) then None else Some(BasicConversation)
  }

  /**
   * The pieces `response[i:i+2000]` for `i = 0, 2000, 4000, ...` below the
   * length: what the chunking loop is meant to send, in order.
   */
  function Chunks(response: string): seq<string>
    decreases |response|
  {
    if response == [] then []
    else [response[..Min(MaxMessageLength, |response|)]] + Chunks(response[Min(MaxMessageLength, |response|)..])
  }

  /** Concatenation of the pieces, in order. */
  function Concat(pieces: seq<string>): string {
    if pieces == [] then [] else pieces[0] + Concat(pieces[1..])
  }

  /** The pieces put back together give the response exactly. */
  lemma {:induction false} ChunksConcat(response: string)
    ensures Concat(Chunks(response)) == response
    decreases |response|
  {
    if response != [] {
      var n := Min(MaxMessageLength, |response|);
      ChunksConcat(response[n..]);
      assert response == response[..n] + response[n..];
    }
  }

  /**
   * There are ceil(len / 2000) pieces; piece k is the slice starting at
   * k * 2000, it is never empty, it has exactly 2000 characters unless it is
   * the last one, and the last one has at most 2000.
   */
  lemma {:induction false} ChunksShape(response: string)
    ensures |Chunks(response)| == (|response| + MaxMessageLength - 1) / MaxMessageLength
    ensures forall k :: 0 <= k < |Chunks(response)| ==>
      Chunks(response)[k] == Slice(response, k * MaxMessageLength, k * MaxMessageLength + MaxMessageLength)
    ensures forall k :: 0 <= k < |Chunks(response)| ==> 0 < |Chunks(response)[k]| <= MaxMessageLength
    ensures forall k :: 0 <= k < |Chunks(response)| - 1 ==> |Chunks(response)[k]| == MaxMessageLength
    decreases |response|
  {
    if response != [] {
      var n := Min(MaxMessageLength, |response|);
      var rest := response[n..];
      ChunksShape(rest);
      var c := Chunks(response);
      assert c == [response[..n]] + Chunks(rest);
      forall k | 1 <= k < |c|
        ensures c[k] == Slice(response, k * MaxMessageLength, k * MaxMessageLength + MaxMessageLength)
      {
        assert c[k] == Chunks(rest)[k - 1];
        assert n == MaxMessageLength;
        assert Slice(rest, (k - 1) * MaxMessageLength, (k - 1) * MaxMessageLength + MaxMessageLength)
            == Slice(response, k * MaxMessageLength, k * MaxMessageLength + MaxMessageLength);
      }
    }
  }

  /** An empty response has no pieces; one of 4000 characters has two full ones. */
  lemma ChunksBoundaries()
    ensures Chunks("") == []
    ensures var c := Chunks(seq(4000, _ => 'a'));
      |c| == 2 && |c[0]| == MaxMessageLength && |c[1]| == MaxMessageLength
  {
    ChunksShape(seq(4000, _ => 'a'));
  }

  /**
   * The chunking loop as it is meant to work: one piece per `i` of
   * `range(0, len(response), 2000)`, all of them sent in order.
   */
  method SendChunks(response: string) returns (sent: seq<string>)
    ensures sent == Chunks(response)
    ensures Concat(sent) == response
    ensures forall k :: 0 <= k < |sent| ==> 0 < |sent[k]| <= MaxMessageLength
  {
    sent := [];
    var i := 0;
    assert SliceFrom(response, i) == response;
    while i < |response|
      invariant i % MaxMessageLength == 0
      invariant sent + Chunks(SliceFrom(response, i)) == Chunks(response)
    {
      var rest := SliceFrom(response, i);
      assert rest == response[i..];
      var n := Min(MaxMessageLength, |rest|);
      assert rest[..n] == Slice(response, i, i + MaxMessageLength);
      assert rest[n..] == SliceFrom(response, i + MaxMessageLength);
      sent := sent + [Slice(response, i, i + MaxMessageLength)];
      i := i + MaxMessageLength;
    }
    assert SliceFrom(response, i) == [];
    ChunksConcat(response);
    ChunksShape(response);
  }

  /**
   * The chunking loop as written: the `return` inside the loop ends the
   * handler after the first piece, so at most the first 2000 characters of
   * the response are ever sent.
   */
  method SendFirstChunk(response: string) returns (sent: seq<string>)
    ensures sent == Chunks(response)[..Min(1, |Chunks(response)|)]
  {
    sent := [];
    for k := 0 to (|response| + MaxMessageLength - 1) / MaxMessageLength
      invariant k == 0 && sent == []
    {
      var i := k * MaxMessageLength;
      sent := [Slice(response, i, i + MaxMessageLength)];
      return;
    }
  }

  /** The loop as written loses everything after the first 2000 characters. */
  lemma FirstChunkDropsTail(response: string)
    requires |response| > MaxMessageLength
    ensures |Concat(Chunks(response)[..1])| == MaxMessageLength < |response|
  {
  }

  /** Where load_pdfs_to_pinecone saves an attachment. */
  function SavedPath(attachment: Attachment): string {
    "received_files/" + attachment.filename
  }

  /**
   * load_pdfs_to_pinecone (yumi/rag_pinecone.py): saves every attachment
   * under `received_files/`, in order. Its indexing into the vector store
   * and its reply are commented out, so it returns None.
   */
  method LoadPdfsToPinecone(attachments: seq<Attachment>) returns (saved: seq<string>, reply: Option<string>)
    ensures |saved| == |attachments|
    ensures forall k :: 0 <= k < |attachments| ==> saved[k] == SavedPath(attachments[k])
    ensures reply == None
  {
    saved := [];
    for k := 0 to |attachments|
      invariant |saved| == k
      invariant forall j :: 0 <= j < k ==> saved[j] == SavedPath(attachments[j])
    {
      saved := saved + [SavedPath(attachments[k])];
    }
    reply := None;
  }

  /**
   * What one call of on_message does: the files it saved, and the contents
   * it passed to `channel.send`, in order (None where it sent Python's None).
   */
  datatype Handled = Handled(saved: seq<string>, sent: seq<Option<string>>)

  /** Each text as the content of one `channel.send`. */
  function AsSent(texts: seq<string>): (r: seq<Option<string>>)
    ensures |r| == |texts| && forall k :: 0 <= k < |texts| ==> r[k] == Some(texts[k])
  {
    seq(|texts|, k requires 0 <= k < |texts| => Some(texts[k]))
  }

  /**
   * on_message as written, with the language model call (`converse`) as a
   * parameter. Of a conversation reply only the first piece is sent,
   * because of the `return` inside the chunking loop.
   */
  method OnMessage(message: IncomingMessage, converse: string -> string)
    returns (outcome: Result<Handled, HandlerError>)
    ensures message.authorIsSelf ==> outcome == Ok(Handled([], []))
    ensures !message.authorIsSelf && |message.attachments| > 0 ==>
      outcome.Ok? && outcome.value.sent == [None] &&
      |outcome.value.saved| == |message.attachments| &&
      forall k :: 0 <= k < |message.attachments| ==> outcome.value.saved[k] == SavedPath(message.attachments[k])
    ensures !message.authorIsSelf && |message.attachments| == 0 && StartsWith(message.content, WeatherPrefix) ==>
      outcome == Err(UnboundLocalResponse)
    ensures !message.authorIsSelf && |message.attachments| == 0 && !StartsWith(message.content, WeatherPrefix) ==>
      var pieces := Chunks(converse(message.content));
      outcome == Ok(Handled([], AsSent(pieces[..Min(1, |pieces|)])))
  {
    if message.authorIsSelf {
      return Ok(Handled([], []));
    }
    if |message.attachments| > 0 {
      var saved, response := LoadPdfsToPinecone(message.attachments);
      return Ok(Handled(saved, [response]));
    }
    var llmAction := SelectAction(message.content);
    if llmAction.None? {
      return Err(UnboundLocalResponse);
    }
    var response := converse(message.content);
    var sent := SendFirstChunk(response);
    return Ok(Handled([], AsSent(sent)));
  }

  /**
   * on_message with the chunking loop corrected: the whole conversation
   * reply is sent, in pieces that fit Discord's limit. Everything else is as
   * in OnMessage.
   */
  method OnMessageCorrected(message: IncomingMessage, converse: string -> string)
    returns (outcome: Result<Handled, HandlerError>)
    ensures message.authorIsSelf ==> outcome == Ok(Handled([], []))
    ensures !message.authorIsSelf && |message.attachments| > 0 ==>
      outcome.Ok? && outcome.value.sent == [None] &&
      |outcome.value.saved| == |message.attachments| &&
      forall k :: 0 <= k < |message.attachments| ==> outcome.value.saved[k] == SavedPath(message.attachments[k])
    ensures !message.authorIsSelf && |message.attachments| == 0 && StartsWith(message.content, WeatherPrefix) ==>
      outcome == Err(UnboundLocalResponse)
    ensures !message.authorIsSelf && |message.attachments| == 0 && !StartsWith(message.content, WeatherPrefix) ==>
      outcome == Ok(Handled([], AsSent(Chunks(converse(message.content)))))
  {
    if message.authorIsSelf {
      return Ok(Handled([], []));
    }
    if |message.attachments| > 0 {
      var saved, response := LoadPdfsToPinecone(message.attachments);
      return Ok(Handled(saved, [response]));
    }
    var llmAction := SelectAction(message.content);
    if llmAction.None? {
      return Err(UnboundLocalResponse);
    }
    var response := converse(message.content);
    var sent := SendChunks(response);
    return Ok(Handled([], AsSent(sent)));
  }
}
