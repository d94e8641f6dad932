/** What both handlers share: the inbound request as the handlers see it, the
    response they return, the adaptive-card envelope they post and the
    delivery step. */
module Lambda {
  import opened Py
  import opened Json
  import opened PyText

  /** An inbound invocation. `eventHeader` is the `X-GitHub-Event` header
      (absent when the request has none); `body` is the result of base64
      decoding (when flagged) and `json.loads`, `None` when either raised. */
  datatype Request = Request(eventHeader: Option<string>, body: Option<Json>)

  /** `headers.get("X-GitHub-Event", "")`. */
  function EventTag(req: Request): (tag: string)
    ensures req.eventHeader.None? ==> tag == ""
    ensures req.eventHeader.Some? ==> tag == req.eventHeader.value
  {
    req.eventHeader.OrElse("")
  }

  /** The `body` string of a response: plain text, or `json.dumps` of
      `{"message": message}`. */
  datatype Body = Plain(text: Text) | MessageJson(message: Text)

  datatype TextBlock = TextBlock(blockType: string, text: Text, wrap: bool, markdown: bool)

  /** The single attachment of the posted request body. */
  datatype Card = Card(contentType: string, schema: string, cardType: string, version: string, body: seq<TextBlock>)

  /** The outcome of one invocation: an uncaught exception, or a response
      `{statusCode, body}`. `card` is the envelope built for the POST,
      present exactly when validation passed. */
  datatype Outcome = Crash | Reply(status: int, body: Body, card: Option<Card>)

  /** The issue fields both handlers read from an issue or comment event. */
  const IssueTitlePath: seq<string> := ["issue", "title"]
  const CommentBodyPath: seq<string> := ["comment", "body"]

  const InvalidJson: Body := Plain([Lit("Invalid JSON")])
  const EmptyBody: Body := Plain([Lit("Empty body")])
  /** `f"invalid body: {e}"` with `e` a message-less `AssertionError`, whose
      `str()` is empty. */
  const InvalidBody: Body := Plain([Lit("invalid body: ")])
  const UnexceptError: Body := Plain([Lit("Unexcept Error")])

  /** The adaptive-card envelope wrapping one markdown text block. */
  function AdaptiveCard(message: Text): Card {
    Card(
      "application/vnd.microsoft.card.adaptive",
      "http://adaptivecards.io/schemas/adaptive-card.json",
      "AdaptiveCard",
      "1.2",
      [TextBlock("TextBlock", message, true, true)])
  }

  /** The text the card displays, when it has exactly one text block. */
  function CardText(c: Card): Option<Text> {
    if |c.body| == 1 then Some(c.body[0].text) else None
  }

  /** The card displays exactly the message it was built from, so two
      different messages never yield the same card. */
  lemma CardShowsMessage(message: Text)
    ensures CardText(AdaptiveCard(message)) == Some(message)
    ensures forall other: Text :: AdaptiveCard(other) == AdaptiveCard(message) ==> other == message
  {
  }

  /** Posting the card: success answers 200 with `success`; any failure is
      caught and answered 500 with a fixed body that carries no detail of
      the failure. Either way the card is the one built from `message`. */
  function Deliver(message: Text, delivered: bool, success: Body): (out: Outcome)
    ensures out.Reply? && out.card.Some? && CardText(out.card.value) == Some(message)
    ensures out.status == 200 <==> delivered
    ensures out.status == 500 <==> !delivered
    ensures delivered ==> out.body == success
    ensures !delivered ==> out.body == UnexceptError
  {
    var card := AdaptiveCard(message);
    if delivered then Reply(200, success, Some(card))
    else Reply(500, UnexceptError, Some(card))
  }
}
