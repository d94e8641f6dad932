/** How the two handler variants differ, and where they agree. */
module Variants {
  import opened Py
  import opened Json
  import opened Lambda
  import SamApp
  import WorkflowApp

  /** The workflow variant's target events are among the SAM variant's enum
      values, and neither of them is a pull request. */
  lemma TargetsAreIssueEvents()
    ensures forall t :: t in WorkflowApp.TargetEvent ==>
              SamApp.Classify(t).Some? && SamApp.Classify(t).value != SamApp.PullRequest
  {
  }

  /** An event kind the SAM variant does not know is a benign 200 there and a
      400 "Illegal event" in the workflow variant. */
  lemma UnknownEventStatuses(req: Request, delivered: bool)
    requires SamApp.Classify(EventTag(req)).None?
    ensures SamApp.Handle(req, delivered).Reply? && SamApp.Handle(req, delivered).status == 200
    ensures WorkflowApp.Handle(req, delivered) == Reply(400, WorkflowApp.IllegalEvent, None)
  {
  }

  /** A pull request is an event the SAM variant dispatches (never answered
      as unknown) but one the workflow variant always refuses. */
  lemma PullRequestOnlyInSam(req: Request, delivered: bool)
    requires EventTag(req) == "pull_request"
    ensures WorkflowApp.Handle(req, delivered) == Reply(400, WorkflowApp.IllegalEvent, None)
    ensures SamApp.Handle(req, delivered) != Reply(200, SamApp.UnexceptedEvent("pull_request"), None)
  {
  }

  /** For the event kinds both handle, the two agree on an unparsable body
      and on a falsy one. */
  lemma SameParseAndEmptyHandling(req: Request, delivered: bool)
    requires EventTag(req) in {"issues", "issue_comment"}
    requires req.body.None? || !Truthy(req.body.value)
    ensures SamApp.Handle(req, delivered) == WorkflowApp.Handle(req, delivered)
    ensures SamApp.Handle(req, delivered).Reply? && SamApp.Handle(req, delivered).status == 400
  {
  }

  /** Truthiness against `!= None`: a created comment whose body is the empty
      string is refused by the SAM variant and relayed by the workflow one. */
  lemma EmptyCommentSplitsVariants(req: Request, body: Json, name: Json, url: Json)
    requires EventTag(req) in {"issues", "issue_comment"} && req.body == Some(body)
    requires At(body, ["action"], JString("created"))
    requires At(body, CommentBodyPath, JString(""))
    requires Dig(body, IssueTitlePath).Ok? && Dig(body, SamApp.IssueUrlPath).Ok?
    requires Dig(body, SamApp.RepositoryNamePath).Ok?
    requires At(body, WorkflowApp.FullNamePath, name) && name != JNull
    requires At(body, WorkflowApp.CommentUrlPath, url) && url != JNull
    ensures SamApp.Handle(req, true) == Reply(400, InvalidBody, None)
    ensures WorkflowApp.Handle(req, true).Reply? && WorkflowApp.Handle(req, true).status == 200
  {
  }

  /** No action filter in the workflow variant: an edited comment is skipped
      by the SAM variant and relayed by the workflow one. */
  lemma EditedCommentSplitsVariants(req: Request, body: Json, name: Json, url: Json, comment: Json)
    requires EventTag(req) == "issue_comment" && req.body == Some(body)
    requires At(body, ["action"], JString("edited"))
    requires At(body, WorkflowApp.FullNamePath, name) && name != JNull
    requires At(body, WorkflowApp.CommentUrlPath, url) && url != JNull
    requires At(body, CommentBodyPath, comment) && comment != JNull
    requires Dig(body, IssueTitlePath).Ok?
    ensures SamApp.Handle(req, true) == Reply(200, SamApp.UnexceptedAction("issue_comment", JString("edited")), None)
    ensures WorkflowApp.Handle(req, true).Reply? && WorkflowApp.Handle(req, true).status == 200
  {
  }
}
