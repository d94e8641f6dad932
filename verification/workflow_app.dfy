/** The workflow variant of the relay handler
    (teams_workflow_webhook_proxy_for_github/app.py): issue and comment
    events only, no action filter, `!= None` checks on three fields and a
    "New issue event" card; the response never echoes the message. */
module WorkflowApp {
  import opened Py
  import opened Json
  import opened PyText
  import opened Lambda

  /** `TARGET_EVENT`. */
  const TargetEvent: seq<string> := ["issues", "issue_comment"]

  const IllegalEvent: Body := Plain([Lit("Illegal event")])
  /** `json.dumps({"message": "OK"})`. */
  const Relayed: Body := MessageJson([Lit("OK")])

  const FullNamePath: seq<string> := ["repository", "full_name"]
  const CommentUrlPath: seq<string> := ["comment", "html_url"]

  function CardMessage(name: Json, title: Json, url: Json, comment: Json): Text {
    [Lit("[["), Interp(name), Lit("] New issue event: "), Interp(title), Lit("]("), Interp(url), Lit(")<br />"), Interp(comment)]
  }

  /** `lambda_handler` with the outcome of the POST given as `delivered`. */
  function Handle(req: Request, delivered: bool): (out: Outcome)
    ensures out.Reply? ==> out.status in {200, 400, 500}
    ensures out.Crash? ==> EventTag(req) in TargetEvent && req.body.Some? && Truthy(req.body.value)
    ensures out.Reply? && out.status == 400 ==>
              out.card.None? && out.body in {IllegalEvent, InvalidJson, EmptyBody, InvalidBody}
    ensures out.Reply? && out.status == 500 ==> !delivered && out.body == UnexceptError && out.card.Some?
    ensures out.Reply? && out.status == 200 ==> delivered && out.body == Relayed && out.card.Some?
    ensures out.Reply? && out.card.Some? ==> EventTag(req) in TargetEvent && req.body.Some? && req.body.value.JObject?
  {
    if EventTag(req) !in TargetEvent then Reply(400, IllegalEvent, None)
    else
      match req.body
      case None => Reply(400, InvalidJson, None)
      case Some(body) =>
        if !Truthy(body) then Reply(400, EmptyBody, None)
        else
          var name := Dig(body, FullNamePath);
          var url := Dig(body, CommentUrlPath);
          var comment := Dig(body, CommentBodyPath);
          var title := Dig(body, IssueTitlePath);
          if name.Raised? || url.Raised? || comment.Raised? || title.Raised? then Crash
          else if name.value != JNull && comment.value != JNull && url.value != JNull then
            Deliver(CardMessage(name.value, title.value, url.value, comment.value), delivered, Relayed)
          else Reply(400, InvalidBody, None)
  }

  /** The event kind is checked before the body is parsed: any other kind,
      a missing header included, is refused whatever the body. */
  lemma IllegalEventBeforeParse(req: Request, delivered: bool)
    requires EventTag(req) !in {"issues", "issue_comment"}
    ensures Handle(req, delivered) == Reply(400, IllegalEvent, None)
  {
  }

  lemma MissingHeaderIsIllegal(req: Request, delivered: bool)
    requires req.eventHeader.None?
    ensures Handle(req, delivered) == Reply(400, IllegalEvent, None)
  {
  }

  lemma ParseFailureIsInvalidJson(req: Request, delivered: bool)
    requires EventTag(req) in {"issues", "issue_comment"} && req.body.None?
    ensures Handle(req, delivered) == Reply(400, InvalidJson, None)
  {
  }

  lemma FalsyBodyIsEmpty(req: Request, delivered: bool)
    requires EventTag(req) in {"issues", "issue_comment"} && req.body.Some?
    requires req.body.value in {JNull, JBool(false), JInt(0), JString(""), JArray([]), EmptyObject}
    ensures Handle(req, delivered) == Reply(400, EmptyBody, None)
  {
  }

  /** A truthy body that is not a dict makes the first `.get` raise. */
  lemma NonObjectBodyCrashes(req: Request, delivered: bool)
    requires EventTag(req) in {"issues", "issue_comment"} && req.body.Some?
    requires Truthy(req.body.value) && !req.body.value.JObject?
    ensures Handle(req, delivered) == Crash
  {
  }

  /** There is no action filter: the `action` value, or its absence, never
      changes the outcome of a non-empty body. */
  lemma IgnoresAction(tag: Option<string>, fields: map<string, Json>, action: Json, delivered: bool)
    requires |fields| > 0
    ensures Handle(Request(tag, Some(JObject(fields["action" := action]))), delivered)
         == Handle(Request(tag, Some(JObject(fields))), delivered)
  {
  }

  /** The field check is `!= None` only: whatever non-null values are stored
      for the repository's full name and the comment's URL and body, empty
      strings included, and whatever `issue.title` holds or lacks, the card
      is built and posted. */
  lemma NonNullFieldsAreRelayed(req: Request, delivered: bool, body: Json, name: Json, url: Json, comment: Json)
    requires EventTag(req) in {"issues", "issue_comment"} && req.body == Some(body)
    requires At(body, FullNamePath, name) && name != JNull
    requires At(body, CommentUrlPath, url) && url != JNull
    requires At(body, CommentBodyPath, comment) && comment != JNull
    requires Dig(body, IssueTitlePath).Ok?
    ensures Handle(req, delivered) == Deliver(CardMessage(name, Dig(body, IssueTitlePath).value, url, comment), delivered, Relayed)
  {
    DigFinds(body, FullNamePath, name);
    DigFinds(body, CommentUrlPath, url);
    DigFinds(body, CommentBodyPath, comment);
  }

  /** A missing or `null` repository full name, comment URL or comment body
      (with no chain raising) is answered 400 "invalid body: ". */
  lemma NullFieldIsInvalid(req: Request, delivered: bool, body: Json)
    requires EventTag(req) in {"issues", "issue_comment"} && req.body == Some(body) && Truthy(body)
    requires Dig(body, FullNamePath).Ok? && Dig(body, CommentUrlPath).Ok?
    requires Dig(body, CommentBodyPath).Ok? && Dig(body, IssueTitlePath).Ok?
    requires Dig(body, FullNamePath).value == JNull
             || Dig(body, CommentUrlPath).value == JNull
             || Dig(body, CommentBodyPath).value == JNull
    ensures Handle(req, delivered) == Reply(400, InvalidBody, None)
  {
  }

  /** `title` is never checked, yet it is still looked up: an `issue` key
      holding a non-dict (`null`, a list) makes the lookup raise even when
      every checked field is present. */
  lemma NonObjectIssueCrashes(req: Request, delivered: bool, fields: map<string, Json>)
    requires EventTag(req) in {"issues", "issue_comment"} && req.body == Some(JObject(fields))
    requires Dig(JObject(fields), FullNamePath).Ok? && Dig(JObject(fields), CommentUrlPath).Ok?
    requires Dig(JObject(fields), CommentBodyPath).Ok?
    requires "issue" in fields && !fields["issue"].JObject?
    ensures Handle(req, delivered) == Crash
  {
  }

  /** The card line as Python renders it from string fields. */
  lemma CardMessageText(name: string, title: string, url: string, comment: string)
    ensures Render(CardMessage(JString(name), JString(title), JString(url), JString(comment)))
            == Some("[[" + name + "] New issue event: " + title + "](" + url + ")<br />" + comment)
  {
    var t := CardMessage(JString(name), JString(title), JString(url), JString(comment));
    assert t[..0] == [];
    RenderPrefix(t, 0); assert "" + t[0].s == t[0].s;
    RenderPrefix(t, 1);
    RenderPrefix(t, 2);
    RenderPrefix(t, 3);
    RenderPrefix(t, 4);
    RenderPrefix(t, 5);
    RenderPrefix(t, 6);
    RenderPrefix(t, 7);
    assert t[..8] == t;
  }

  /** An absent title renders as Python's `None`. */
  lemma AbsentTitleText(name: string, url: string, comment: string)
    ensures Render(CardMessage(JString(name), JNull, JString(url), JString(comment)))
            == Some("[[" + name + "] New issue event: None](" + url + ")<br />" + comment)
  {
    var t := CardMessage(JString(name), JNull, JString(url), JString(comment));
    assert t[..0] == [];
    RenderPrefix(t, 0); assert "" + t[0].s == t[0].s;
    RenderPrefix(t, 1);
    RenderPrefix(t, 2);
    RenderPrefix(t, 3);
    RenderPrefix(t, 4);
    var head := "[[" + name;
    assert "] New issue event: " + "None" == "] New issue event: None";
    assert "] New issue event: None" + "](" == "] New issue event: None](";
    assert head + "] New issue event: " + "None" + "](" == head + "] New issue event: None](";
    RenderPrefix(t, 5);
    RenderPrefix(t, 6);
    RenderPrefix(t, 7);
    assert t[..8] == t;
  }

  /** A comment on a body without any `issue` is still relayed, its title
      shown as `None`; the response is `{"message": "OK"}` on success. */
  lemma MissingIssueIsRelayed(req: Request, body: Json, name: string, url: string, comment: string)
    requires EventTag(req) in {"issues", "issue_comment"} && req.body == Some(body)
    requires At(body, FullNamePath, JString(name))
    requires At(body, CommentUrlPath, JString(url))
    requires At(body, CommentBodyPath, JString(comment))
    requires "issue" !in body.fields
    ensures var message := CardMessage(JString(name), JNull, JString(url), JString(comment));
            && Render(message) == Some("[[" + name + "] New issue event: None](" + url + ")<br />" + comment)
            && Handle(req, true) == Reply(200, Relayed, Some(AdaptiveCard(message)))
  {
    var message := CardMessage(JString(name), JNull, JString(url), JString(comment));
    DigAbsentKey(body.fields, IssueTitlePath);
    NonNullFieldsAreRelayed(req, true, body, JString(name), JString(url), JString(comment));
    assert Handle(req, true) == Deliver(message, true, Relayed);
    AbsentTitleText(name, url, comment);
  }

  /** The response never depends on the message: every relayed request is
      answered with the same body, and a failed POST with the same 500. */
  lemma ResponseIgnoresMessage(req1: Request, req2: Request, delivered: bool)
    requires Handle(req1, delivered).Reply? && Handle(req1, delivered).card.Some?
    requires Handle(req2, delivered).Reply? && Handle(req2, delivered).card.Some?
    ensures Handle(req1, delivered).status == Handle(req2, delivered).status
    ensures Handle(req1, delivered).body == Handle(req2, delivered).body
  {
  }
}
