/** The SAM variant of the relay handler
    (sam-app/teams_workflow_webhook_proxy_for_github/app.py): three event
    kinds, an action filter, truthiness checks on the extracted fields and a
    "New Pull Request" message. */
module SamApp {
  import opened Py
  import opened Json
  import opened PyText
  import opened Lambda

  /** The `Event` enum and its string values. */
  datatype Event = PullRequest | Issues | IssueComment

  function Value(e: Event): string {
    match e
    case PullRequest => "pull_request"
    case Issues => "issues"
    case IssueComment => "issue_comment"
  }

  /** Membership of the header among the enum's values. */
  function Classify(tag: string): (r: Option<Event>)
    ensures r.Some? <==> tag in {"pull_request", "issues", "issue_comment"}
    ensures r.Some? ==> Value(r.value) == tag
  {
    if tag == "pull_request" then Some(PullRequest)
    else if tag == "issues" then Some(Issues)
    else if tag == "issue_comment" then Some(IssueComment)
    else None
  }

  /** Every enum member is recognised by its own value and by no other. */
  lemma ClassifyValue(e: Event)
    ensures Classify(Value(e)) == Some(e)
    ensures forall e' :: Value(e') == Value(e) ==> e' == e
  {
  }

  /** The only action each event kind is relayed for. */
  function AcceptedAction(e: Event): string {
    match e
    case PullRequest => "opened"
    case Issues => "created"
    case IssueComment => "created"
  }

  const PullRequestTitlePath: seq<string> := ["pull_request", "title"]
  const PullRequestUrlPath: seq<string> := ["pull_request", "html_url"]
  const PullRequestRepoNamePath: seq<string> := ["pull_request", "base", "repo", "name"]
  const IssueUrlPath: seq<string> := ["issue", "html_url"]
  const RepositoryNamePath: seq<string> := ["repository", "name"]

  function UnexceptedEvent(tag: string): Body {
    Plain([Lit("Unexcepted event: "), Interp(JString(tag))])
  }

  function UnexceptedAction(tag: string, action: Json): Body {
    Plain([Lit("Unexcepted event action: "), Interp(JString(tag)), Lit(": "), Interp(action)])
  }

  function PullRequestMessage(name: Json, title: Json, url: Json): Text {
    [Lit("[["), Interp(name), Lit("] New Pull Request: "), Interp(title), Lit("]("), Interp(url), Lit(")")]
  }

  function IssueMessage(name: Json, title: Json, url: Json, comment: Json): Text {
    [Lit("[["), Interp(name), Lit("] New Pull Request: "), Interp(title), Lit("]("), Interp(url), Lit(")<br />"), Interp(comment)]
  }

  /** Outcome of the field extraction and the `assert` over the fields. */
  datatype Extracted = Invalid | Valid(message: Text)

  /** Raises exactly when one of the three chains raises. Otherwise it
      accepts exactly when truthy values are stored under the three paths,
      and then builds the line from those stored values. */
  function ExtractPullRequest(body: Json): (r: Eval<Extracted>)
    ensures r.Raised? <==> Dig(body, PullRequestTitlePath).Raised? || Dig(body, PullRequestUrlPath).Raised?
                           || Dig(body, PullRequestRepoNamePath).Raised?
    ensures r.Ok? ==> (r.value.Valid? <==> && TruthyAt(body, PullRequestTitlePath) && TruthyAt(body, PullRequestUrlPath)
                                           && TruthyAt(body, PullRequestRepoNamePath))
    ensures r.Ok? && r.value.Valid? ==>
              forall title, url, name ::
                At(body, PullRequestTitlePath, title) && At(body, PullRequestUrlPath, url) && At(body, PullRequestRepoNamePath, name)
                ==> r.value.message == PullRequestMessage(name, title, url)
  {
    DigAgreesWithAt(body, PullRequestTitlePath);
    DigAgreesWithAt(body, PullRequestUrlPath);
    DigAgreesWithAt(body, PullRequestRepoNamePath);
    var title := Dig(body, PullRequestTitlePath);
    var url := Dig(body, PullRequestUrlPath);
    var name := Dig(body, PullRequestRepoNamePath);
    if title.Raised? || url.Raised? || name.Raised? then Raised
    else if Truthy(title.value) && Truthy(url.value) && Truthy(name.value) then
      Ok(Valid(PullRequestMessage(name.value, title.value, url.value)))
    else Ok(Invalid)
  }

  /** Raises exactly when one of the four chains raises. Otherwise it
      accepts exactly when truthy values are stored under the four paths,
      and then builds the line from those stored values. */
  function ExtractIssue(body: Json): (r: Eval<Extracted>)
    ensures r.Raised? <==> Dig(body, IssueTitlePath).Raised? || Dig(body, IssueUrlPath).Raised?
                           || Dig(body, RepositoryNamePath).Raised? || Dig(body, CommentBodyPath).Raised?
    ensures r.Ok? ==> (r.value.Valid? <==> && TruthyAt(body, IssueTitlePath) && TruthyAt(body, IssueUrlPath)
                                           && TruthyAt(body, RepositoryNamePath) && TruthyAt(body, CommentBodyPath))
    ensures r.Ok? && r.value.Valid? ==>
              forall title, url, name, comment ::
                && At(body, IssueTitlePath, title) && At(body, IssueUrlPath, url)
                && At(body, RepositoryNamePath, name) && At(body, CommentBodyPath, comment)
                ==> r.value.message == IssueMessage(name, title, url, comment)
  {
    DigAgreesWithAt(body, IssueTitlePath);
    DigAgreesWithAt(body, IssueUrlPath);
    DigAgreesWithAt(body, RepositoryNamePath);
    DigAgreesWithAt(body, CommentBodyPath);
    var title := Dig(body, IssueTitlePath);
    var url := Dig(body, IssueUrlPath);
    var name := Dig(body, RepositoryNamePath);
    var comment := Dig(body, CommentBodyPath);
    if title.Raised? || url.Raised? || name.Raised? || comment.Raised? then Raised
    else if Truthy(title.value) && Truthy(url.value) && Truthy(name.value) && Truthy(comment.value) then
      Ok(Valid(IssueMessage(name.value, title.value, url.value, comment.value)))
    else Ok(Invalid)
  }

  function Extract(e: Event, body: Json): Eval<Extracted> {
    match e
    case PullRequest => ExtractPullRequest(body)
    case _ => ExtractIssue(body)
  }

  /** `lambda_handler` after the webhook URL lookup, with the outcome of the
      POST given as `delivered`. */
  function Handle(req: Request, delivered: bool): (out: Outcome)
    ensures out.Reply? ==> out.status in {200, 400, 500}
    ensures out.Crash? ==> Classify(EventTag(req)).Some? && req.body.Some? && Truthy(req.body.value)
    ensures out.Reply? && out.status == 400 ==> out.card.None? && out.body in {InvalidJson, EmptyBody, InvalidBody}
    ensures out.Reply? && out.status == 500 ==> !delivered && out.body == UnexceptError && out.card.Some?
    ensures out.Reply? && out.body.MessageJson? ==>
              delivered && out.status == 200 && out.card == Some(AdaptiveCard(out.body.message))
    ensures out.Reply? && out.card.Some? ==> Classify(EventTag(req)).Some? && req.body.Some? && req.body.value.JObject?
  {
    var tag := EventTag(req);
    match Classify(tag)
    case None => Reply(200, UnexceptedEvent(tag), None)
    case Some(event) =>
      match req.body
      case None => Reply(400, InvalidJson, None)
      case Some(body) =>
        if !Truthy(body) then Reply(400, EmptyBody, None)
        else
          match Get(body, "action", JString(""))
          case Raised => Crash
          case Ok(action) =>
            if action != JString(AcceptedAction(event)) then Reply(200, UnexceptedAction(tag, action), None)
            else
              match Extract(event, body)
              case Raised => Crash
              case Ok(Invalid) => Reply(400, InvalidBody, None)
              case Ok(Valid(message)) => Deliver(message, delivered, MessageJson(message))
  }

  // ---------------------------------------------------------------------
  // Classification and parsing

  /** An event kind outside the enum is answered 200, whatever the body and
      the delivery would have been. */
  lemma UnknownEventIgnoresBody(req: Request, delivered: bool)
    requires EventTag(req) !in {"pull_request", "issues", "issue_comment"}
    ensures Handle(req, delivered) == Reply(200, UnexceptedEvent(EventTag(req)), None)
    ensures Render(UnexceptedEvent(EventTag(req)).text) == Some("Unexcepted event: " + EventTag(req))
  {
    var tag := EventTag(req);
    var t := UnexceptedEvent(tag).text;
    assert t[..0] == [];
    RenderPrefix(t, 0); assert "" + t[0].s == t[0].s;
    RenderPrefix(t, 1);
    assert t[..2] == t;
  }

  /** A request without the header is an unknown event with the empty tag. */
  lemma MissingHeaderIsUnknown(req: Request, delivered: bool)
    requires req.eventHeader.None?
    ensures Handle(req, delivered) == Reply(200, UnexceptedEvent(""), None)
  {
  }

  /** The trailing `else` of the dispatch is unreachable: a recognised event
      is never answered as an unknown one. */
  lemma KnownEventIsDispatched(req: Request, delivered: bool)
    requires Classify(EventTag(req)).Some?
    ensures Handle(req, delivered) != Reply(200, UnexceptedEvent(EventTag(req)), None)
  {
  }

  lemma ParseFailureIsInvalidJson(req: Request, delivered: bool)
    requires Classify(EventTag(req)).Some? && req.body.None?
    ensures Handle(req, delivered) == Reply(400, InvalidJson, None)
  {
  }

  /** `{}`, `[]`, `null`, `""`, `0` and `false` are all an empty body. */
  lemma FalsyBodyIsEmpty(req: Request, delivered: bool)
    requires Classify(EventTag(req)).Some? && req.body.Some?
    requires req.body.value in {JNull, JBool(false), JInt(0), JString(""), JArray([]), EmptyObject}
    ensures Handle(req, delivered) == Reply(400, EmptyBody, None)
  {
  }

  /** A truthy body that is not a dict makes `body.get("action", "")` raise. */
  lemma NonObjectBodyCrashes(req: Request, delivered: bool)
    requires Classify(EventTag(req)).Some? && req.body.Some?
    requires Truthy(req.body.value) && !req.body.value.JObject?
    ensures Handle(req, delivered) == Crash
  {
  }

  // ---------------------------------------------------------------------
  // Action filter

  /** The action the handler compares, `""` when the key is missing. */
  function ActionOf(fields: map<string, Json>): Json {
    if "action" in fields then fields["action"] else JString("")
  }

  /** An action other than the accepted one is answered 200 naming the event
      and the action, before any field is looked at (so even a body whose
      field chains would raise is answered). */
  lemma OtherActionIsSkipped(req: Request, delivered: bool, e: Event, fields: map<string, Json>)
    requires Classify(EventTag(req)) == Some(e)
    requires req.body == Some(JObject(fields)) && |fields| > 0
    requires ActionOf(fields) != JString(AcceptedAction(e))
    ensures Handle(req, delivered) == Reply(200, UnexceptedAction(Value(e), ActionOf(fields)), None)
  {
  }

  /** The skip message for a string action, as Python renders it. */
  lemma SkipMessageText(tag: string, action: string)
    ensures Render(UnexceptedAction(tag, JString(action)).text)
            == Some("Unexcepted event action: " + tag + ": " + action)
  {
    var t := UnexceptedAction(tag, JString(action)).text;
    assert t[..0] == [];
    RenderPrefix(t, 0); assert "" + t[0].s == t[0].s;
    RenderPrefix(t, 1);
    RenderPrefix(t, 2);
    RenderPrefix(t, 3);
    assert t[..4] == t;
  }

  /** A pull request whose body has no `action` key is skipped with an empty
      action. */
  lemma MissingActionIsEmpty(req: Request, delivered: bool, fields: map<string, Json>)
    requires EventTag(req) == "pull_request"
    requires req.body == Some(JObject(fields)) && |fields| > 0 && "action" !in fields
    ensures Handle(req, delivered) == Reply(200, UnexceptedAction("pull_request", JString("")), None)
  {
  }

  // ---------------------------------------------------------------------
  // Pull requests

  /** The pull-request message as Python renders it from string fields. */
  lemma PullRequestMessageText(name: string, title: string, url: string)
    ensures Render(PullRequestMessage(JString(name), JString(title), JString(url)))
            == Some("[[" + name + "] New Pull Request: " + title + "](" + url + ")")
  {
    var t := PullRequestMessage(JString(name), JString(title), JString(url));
    assert t[..0] == [];
    RenderPrefix(t, 0); assert "" + t[0].s == t[0].s;
    RenderPrefix(t, 1);
    RenderPrefix(t, 2);
    RenderPrefix(t, 3);
    RenderPrefix(t, 4);
    RenderPrefix(t, 5);
    RenderPrefix(t, 6);
    assert t[..7] == t;
  }

  /** With the three fields stored as non-empty strings, extraction yields
      the message built from them. */
  lemma ExtractPullRequestFinds(body: Json, name: string, title: string, url: string)
    requires At(body, PullRequestTitlePath, JString(title)) && title != ""
    requires At(body, PullRequestUrlPath, JString(url)) && url != ""
    requires At(body, PullRequestRepoNamePath, JString(name)) && name != ""
    ensures ExtractPullRequest(body) == Ok(Valid(PullRequestMessage(JString(name), JString(title), JString(url))))
  {
  }

  /** An opened pull request carrying non-empty title, URL and base
      repository name is relayed with the "New Pull Request" line. */
  lemma PullRequestRelayed(req: Request, delivered: bool, body: Json, name: string, title: string, url: string)
    requires EventTag(req) == "pull_request" && req.body == Some(body)
    requires At(body, ["action"], JString("opened"))
    requires At(body, PullRequestTitlePath, JString(title)) && title != ""
    requires At(body, PullRequestUrlPath, JString(url)) && url != ""
    requires At(body, PullRequestRepoNamePath, JString(name)) && name != ""
    ensures var message := PullRequestMessage(JString(name), JString(title), JString(url));
            && Render(message) == Some("[[" + name + "] New Pull Request: " + title + "](" + url + ")")
            && Handle(req, delivered) == Deliver(message, delivered, MessageJson(message))
  {
    ExtractPullRequestFinds(body, name, title, url);
    PullRequestMessageText(name, title, url);
    assert body.JObject? && "action" in body.fields && Truthy(body);
    assert Get(body, "action", JString("")) == Ok(JString("opened"));
  }

  /** When no field chain raises but one of title, URL and repository name is
      missing or falsy, the answer is 400 "invalid body: ". */
  lemma PullRequestFalsyField(req: Request, delivered: bool, fields: map<string, Json>)
    requires EventTag(req) == "pull_request" && req.body == Some(JObject(fields))
    requires ActionOf(fields) == JString("opened")
    requires Dig(JObject(fields), PullRequestTitlePath).Ok? && Dig(JObject(fields), PullRequestUrlPath).Ok? && Dig(JObject(fields), PullRequestRepoNamePath).Ok?
    requires !Truthy(Dig(JObject(fields), PullRequestTitlePath).value)
             || !Truthy(Dig(JObject(fields), PullRequestUrlPath).value)
             || !Truthy(Dig(JObject(fields), PullRequestRepoNamePath).value)
    ensures Handle(req, delivered) == Reply(400, InvalidBody, None)
  {
  }

  /** An opened pull request without a `pull_request` object is an invalid
      body, not a crash: the `{}` defaults carry every chain to `None`. */
  lemma PullRequestMissingObject(req: Request, delivered: bool, fields: map<string, Json>)
    requires EventTag(req) == "pull_request" && req.body == Some(JObject(fields))
    requires ActionOf(fields) == JString("opened") && "pull_request" !in fields
    ensures Handle(req, delivered) == Reply(400, InvalidBody, None)
  {
  }

  /** A `pull_request` key holding anything but a dict (`null`, a list, a
      string) makes the next `.get` raise. */
  lemma PullRequestNonObjectCrashes(req: Request, delivered: bool, fields: map<string, Json>)
    requires EventTag(req) == "pull_request" && req.body == Some(JObject(fields))
    requires ActionOf(fields) == JString("opened")
    requires "pull_request" in fields && !fields["pull_request"].JObject?
    ensures Handle(req, delivered) == Crash
  {
  }

  // ---------------------------------------------------------------------
  // Issues and issue comments

  /** The issue message as Python renders it from string fields. */
  lemma IssueMessageText(name: string, title: string, url: string, comment: string)
    ensures Render(IssueMessage(JString(name), JString(title), JString(url), JString(comment)))
            == Some("[[" + name + "] New Pull Request: " + title + "](" + url + ")<br />" + comment)
  {
    var t := IssueMessage(JString(name), JString(title), JString(url), JString(comment));
    assert t[..0] == [];
    RenderPrefix(t, 0); assert "" + t[0].s == t[0].s;
    RenderPrefix(t, 1);
    RenderPrefix(t, 2);
    RenderPrefix(t, 3);
    RenderPrefix(t, 4);
    RenderPrefix(t, 5);
    RenderPrefix(t, 6);
    RenderPrefix(t, 7);
    assert t[..8] == t;
  }

  /** With the four fields stored as non-empty strings, extraction yields
      the message built from them. */
  lemma ExtractIssueFinds(body: Json, name: string, title: string, url: string, comment: string)
    requires At(body, IssueTitlePath, JString(title)) && title != ""
    requires At(body, IssueUrlPath, JString(url)) && url != ""
    requires At(body, RepositoryNamePath, JString(name)) && name != ""
    requires At(body, CommentBodyPath, JString(comment)) && comment != ""
    ensures ExtractIssue(body) == Ok(Valid(IssueMessage(JString(name), JString(title), JString(url), JString(comment))))
  {
  }

  /** A created issue or comment carrying non-empty issue title and URL,
      repository name and comment body is relayed; the line still says
      "New Pull Request". */
  lemma IssueRelayed(req: Request, delivered: bool, e: Event, body: Json, name: string, title: string, url: string, comment: string)
    requires Classify(EventTag(req)) == Some(e) && e != PullRequest && req.body == Some(body)
    requires At(body, ["action"], JString("created"))
    requires At(body, IssueTitlePath, JString(title)) && title != ""
    requires At(body, IssueUrlPath, JString(url)) && url != ""
    requires At(body, RepositoryNamePath, JString(name)) && name != ""
    requires At(body, CommentBodyPath, JString(comment)) && comment != ""
    ensures var message := IssueMessage(JString(name), JString(title), JString(url), JString(comment));
            && Render(message) == Some("[[" + name + "] New Pull Request: " + title + "](" + url + ")<br />" + comment)
            && Handle(req, delivered) == Deliver(message, delivered, MessageJson(message))
  {
    var message := IssueMessage(JString(name), JString(title), JString(url), JString(comment));
    ExtractIssueFinds(body, name, title, url, comment);
    IssueMessageText(name, title, url, comment);
    assert body.JObject? && "action" in body.fields && Truthy(body);
    assert Get(body, "action", JString("")) == Ok(JString("created"));
    assert Extract(e, body) == Ok(Valid(message));
  }

  /** When no field chain raises but one of issue title, issue URL,
      repository name and comment body is missing or falsy, a created issue or
      comment is answered 400 "invalid body: ". */
  lemma IssueFalsyField(req: Request, delivered: bool, e: Event, fields: map<string, Json>)
    requires Classify(EventTag(req)) == Some(e) && e != PullRequest && req.body == Some(JObject(fields))
    requires ActionOf(fields) == JString("created")
    requires Dig(JObject(fields), IssueTitlePath).Ok? && Dig(JObject(fields), IssueUrlPath).Ok?
    requires Dig(JObject(fields), RepositoryNamePath).Ok? && Dig(JObject(fields), CommentBodyPath).Ok?
    requires !Truthy(Dig(JObject(fields), IssueTitlePath).value)
             || !Truthy(Dig(JObject(fields), IssueUrlPath).value)
             || !Truthy(Dig(JObject(fields), RepositoryNamePath).value)
             || !Truthy(Dig(JObject(fields), CommentBodyPath).value)
    ensures Handle(req, delivered) == Reply(400, InvalidBody, None)
  {
  }

  /** A card is only ever built for a dict body whose action is the accepted
      one and whose every required field was found truthy. */
  lemma CardOnlyAfterValidation(req: Request, delivered: bool)
    requires Handle(req, delivered).Reply? && Handle(req, delivered).card.Some?
    ensures Classify(EventTag(req)).Some? && req.body.Some? && req.body.value.JObject?
    ensures var e, body := Classify(EventTag(req)).value, req.body.value;
            && ActionOf(body.fields) == JString(AcceptedAction(e))
            && (e == PullRequest ==>
                  TruthyAt(body, PullRequestTitlePath) && TruthyAt(body, PullRequestUrlPath) && TruthyAt(body, PullRequestRepoNamePath))
            && (e != PullRequest ==>
                  && TruthyAt(body, IssueTitlePath) && TruthyAt(body, IssueUrlPath)
                  && TruthyAt(body, RepositoryNamePath) && TruthyAt(body, CommentBodyPath))
  {
  }

  /** A created comment without `comment.body` (and no chain that raises) is
      answered 400 "invalid body: ". */
  lemma IssueMissingComment(req: Request, delivered: bool, fields: map<string, Json>, comment: map<string, Json>)
    requires EventTag(req) in {"issues", "issue_comment"} && req.body == Some(JObject(fields))
    requires ActionOf(fields) == JString("created")
    requires Dig(JObject(fields), IssueTitlePath).Ok? && Dig(JObject(fields), IssueUrlPath).Ok?
    requires Dig(JObject(fields), RepositoryNamePath).Ok?
    requires "comment" in fields && fields["comment"] == JObject(comment) && "body" !in comment
    ensures Handle(req, delivered) == Reply(400, InvalidBody, None)
  {
  }

  /** `"comment": null` is not treated as missing: `None.get` raises. */
  lemma IssueNullCommentCrashes(req: Request, delivered: bool, fields: map<string, Json>)
    requires EventTag(req) in {"issues", "issue_comment"} && req.body == Some(JObject(fields))
    requires ActionOf(fields) == JString("created")
    requires Dig(JObject(fields), IssueTitlePath).Ok? && Dig(JObject(fields), IssueUrlPath).Ok?
    requires Dig(JObject(fields), RepositoryNamePath).Ok?
    requires "comment" in fields && fields["comment"] == JNull
    ensures Handle(req, delivered) == Crash
  {
  }

  // ---------------------------------------------------------------------
  // Delivery

  /** Delivery only decides the last step: with a failed POST the handler
      answers exactly as with a successful one, except that a relayed message
      becomes 500 "Unexcept Error" with the same card. */
  lemma DeliveryDecidesOnlyTheLastStep(req: Request)
    ensures var ok, failed := Handle(req, true), Handle(req, false);
            if ok.Reply? && ok.body.MessageJson?
            then failed == Reply(500, UnexceptError, ok.card)
            else failed == ok
  {
  }

  // ---------------------------------------------------------------------
  // The handler as written: `WEBHOOK_URL` is never bound in this file (the
  // value fetched by `get_webhook_url()` is discarded), so evaluating the
  // POST raises `NameError` and every relay attempt fails.

  /** The handler as it stands: delivery can never succeed. */
  function HandleAsWritten(req: Request): (out: Outcome)
    ensures out.Reply? ==> !out.body.MessageJson?
    ensures out.Reply? && out.card.Some? ==> out.status == 500 && out.body == UnexceptError
  {
    Handle(req, false)
  }

  /** A typical opened pull request. */
  const ExampleBody: Json := JObject(map[
    "action" := JString("opened"),
    "pull_request" := JObject(map[
      "title" := JString("Fix bug"),
      "html_url" := JString("http://x/1"),
      "base" := JObject(map["repo" := JObject(map["name" := JString("repo1")])])])])

  const ExampleRequest: Request := Request(Some("pull_request"), Some(ExampleBody))

  lemma ExampleFields()
    ensures At(ExampleBody, ["action"], JString("opened"))
    ensures At(ExampleBody, PullRequestTitlePath, JString("Fix bug"))
    ensures At(ExampleBody, PullRequestUrlPath, JString("http://x/1"))
    ensures At(ExampleBody, PullRequestRepoNamePath, JString("repo1"))
  {
  }

  /** As written, the well-formed example is answered 500 instead of being
      relayed. */
  lemma ExampleFailsAsWritten()
    ensures HandleAsWritten(ExampleRequest).Reply?
    ensures HandleAsWritten(ExampleRequest).status == 500
    ensures HandleAsWritten(ExampleRequest).body == UnexceptError
  {
  }

  /** With the fetched URL used for the POST (`delivered` standing for its
      success), the example is relayed with the expected line. */
  lemma ExampleRelayed()
    ensures var message := PullRequestMessage(JString("repo1"), JString("Fix bug"), JString("http://x/1"));
            && Handle(ExampleRequest, true) == Reply(200, MessageJson(message), Some(AdaptiveCard(message)))
            && Render(message) == Some("[[repo1] New Pull Request: Fix bug](http://x/1)")
  {
    ExampleFields();
    PullRequestRelayed(ExampleRequest, true, ExampleBody, "repo1", "Fix bug", "http://x/1");
    ExampleText();
  }

  lemma ExampleText()
    ensures Render(PullRequestMessage(JString("repo1"), JString("Fix bug"), JString("http://x/1")))
            == Some("[[repo1] New Pull Request: Fix bug](http://x/1)")
  {
    PullRequestMessageText("repo1", "Fix bug", "http://x/1");
    ExampleLine();
  }

  /** The example's line, joined piece by piece. */
  lemma ExampleLine()
    ensures "[[" + "repo1" + "] New Pull Request: " + "Fix bug" + "](" + "http://x/1" + ")"
            == "[[repo1] New Pull Request: Fix bug](http://x/1)"
  {
    assert "[[" + "repo1" == "[[repo1";
    assert "[[repo1" + "] New Pull Request: " == "[[repo1] New Pull Request: ";
    assert "[[repo1] New Pull Request: " + "Fix bug" == "[[repo1] New Pull Request: Fix bug";
    assert "[[repo1] New Pull Request: Fix bug" + "](" == "[[repo1] New Pull Request: Fix bug](";
    assert "[[repo1] New Pull Request: Fix bug](" + "http://x/1" == "[[repo1] New Pull Request: Fix bug](http://x/1";
    assert "[[repo1] New Pull Request: Fix bug](http://x/1" + ")" == "[[repo1] New Pull Request: Fix bug](http://x/1)";
  }
}
