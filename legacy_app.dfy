/**
 * The message handler of the older client (app.py): an `if`/`elif` chain on
 * the message text and attachments that picks one of five routes, taking the
 * city of a weather command and the query of a retrieval command out of the
 * text.
 */
module LegacyApp {
  import opened Wrappers
  import opened PyStr
  import opened Discord

  const WeatherPrefix := "!weather"
  /** The separator handed to `split` to find the city. */
  const WeatherSeparator := "!weather "
  const RagPrefix := "!rag "
  /** The one session id both language model routes use. */
  const SessionId := "abc123"

  datatype Route =
    | Ignore
    | Weather(city: string)
    | UploadAttachments(attachments: seq<Attachment>)
    | RagConversation(query: string, sessionId: string)
    | BasicConversation(query: string, sessionId: string)

  /** `split(...)[1]` on a list of one element. */
  datatype RouteError = IndexError

  /**
   * `city` is the text between the first occurrence of the separator in
   * `content` and the next one (or the end).
   */
  ghost predicate IsSecondSegment(content: string, city: string) {
    exists i: nat :: Find(content, WeatherSeparator) == Some(i) &&
      var after := content[i + |WeatherSeparator|..];
      StartsWith(after, city) && !Contains(city, WeatherSeparator) &&
      (city == after || StartsWith(after[|city|..], WeatherSeparator))
  }

  /** on_message's choice of route, in the order of its `elif` chain. */
  function RouteMessage(message: IncomingMessage): (r: Result<Route, RouteError>)
    ensures r == Ok(Ignore) <==> message.authorIsSelf
    ensures r.Ok? && r.value.Weather? ==>
      !message.authorIsSelf && StartsWith(message.content, WeatherPrefix)
    ensures (!message.authorIsSelf && StartsWith(message.content, WeatherPrefix) &&
             Contains(message.content, WeatherSeparator)) ==> r.Ok? && r.value.Weather?
    ensures r.Ok? && r.value.UploadAttachments? <==>
      !message.authorIsSelf && !StartsWith(message.content, WeatherPrefix) && |message.attachments| > 0
    ensures r.Ok? && r.value.UploadAttachments? ==> r.value.attachments == message.attachments
    ensures (!message.authorIsSelf && !StartsWith(message.content, WeatherPrefix) &&
             |message.attachments| == 0 && StartsWith(message.content, RagPrefix)) ==>
      r == Ok(RagConversation(message.content[|RagPrefix|..], SessionId))
    ensures (!message.authorIsSelf && !StartsWith(message.content, WeatherPrefix) &&
             |message.attachments| == 0 && !StartsWith(message.content, RagPrefix)) ==>
      r == Ok(BasicConversation(message.content, SessionId))
    ensures r.Err? <==>
      !message.authorIsSelf && StartsWith(message.content, WeatherPrefix) &&
      !Contains(message.content, WeatherSeparator)
    ensures r.Ok? && r.value.Weather? ==> IsSecondSegment(message.content, r.value.city)
    ensures r.Ok? && r.value.RagConversation? ==>
      RagPrefix + r.value.query == message.content && r.value.sessionId == SessionId
    ensures r.Ok? && r.value.BasicConversation? ==>
      r.value.query == message.content && r.value.sessionId == SessionId
  {
    if message.authorIsSelf then Ok(Ignore)
    else if StartsWith(message.content, WeatherPrefix) then
      var parts := Split(message.content, WeatherSeparator);
      SplitHasSecond(message.content, WeatherSeparator);
      if |parts| < 2 then Err(IndexError)
      else
        SecondPieceIsSegment(message.content);
        Ok(Weather(parts[1]))
    else if |message.attachments| > 0 then Ok(UploadAttachments(message.attachments))
    else if StartsWith(message.content, RagPrefix) then
      var query := SliceFrom(message.content, |RagPrefix|);
      assert RagPrefix + query == message.content;
      Ok(RagConversation(query, SessionId))
    else Ok(BasicConversation(message.content, SessionId))
  }

  /** The second piece of the split is the segment after the first separator. */
  lemma SecondPieceIsSegment(content: string)
    requires |Split(content, WeatherSeparator)| >= 2
    ensures IsSecondSegment(content, Split(content, WeatherSeparator)[1])
  {
    var sep := WeatherSeparator;
    var i := Find(content, sep).value;
    var after := content[i + |sep|..];
    assert Split(content, sep) == [content[..i]] + Split(after, sep);
    SplitFirstPiece(after, sep);
  }

  /** The weather command wins over attachments and over the retrieval prefix. */
  lemma WeatherTakesPrecedence(message: IncomingMessage)
    requires !message.authorIsSelf && StartsWith(message.content, WeatherPrefix)
    ensures RouteMessage(message).Err? || RouteMessage(message).value.Weather?
    ensures RouteMessage(message) == RouteMessage(message.(attachments := []))
  {
  }

  /** Attachments are handled before the retrieval prefix is looked at. */
  lemma AttachmentsBeforeRag(message: IncomingMessage)
    requires !message.authorIsSelf && !StartsWith(message.content, WeatherPrefix)
    requires |message.attachments| > 0
    ensures RouteMessage(message) == Ok(UploadAttachments(message.attachments))
  {
  }

  /** The bare command `!weather` has no city and crashes the handler. */
  lemma BareWeatherCrashes(attachments: seq<Attachment>)
    ensures RouteMessage(IncomingMessage(false, "!weather", attachments)) == Err(IndexError)
  {
  }

  /** `!weather Paris` asks for the weather in Paris. */
  lemma WeatherCityExample()
    ensures RouteMessage(IncomingMessage(false, "!weather Paris", [])) == Ok(Weather("Paris"))
  {
  }
}
