# GitHub-to-Teams webhook relay: a Dafny model of the request handlers

The relay receives a GitHub webhook delivery (the event kind in the
`X-GitHub-Event` header, the payload as a JSON body), checks it, builds one
markdown line and posts it, wrapped in an adaptive card, to a Microsoft Teams
incoming webhook. Two variants of the AWS Lambda handler exist:

- `sam-app/teams_workflow_webhook_proxy_for_github/app.py`: the SAM variant.
  It knows three events (`pull_request`, `issues`, `issue_comment`) and skips
  unknown ones with 200. It filters on `action` (`opened` for pull requests,
  `created` otherwise) and checks the extracted fields with Python
  truthiness. It answers a relayed message with `{"message": <line>}`.
- `teams_workflow_webhook_proxy_for_github/app.py`: the workflow variant.
  It knows two events and refuses any other with 400, before parsing. It has
  no action filter, and it checks three fields with `!= None` only (never the
  title). It answers a relayed message with `{"message": "OK"}`.

Each handler is modelled as a pure function from a `Request` and a delivery
flag to an `Outcome`. The `Request` holds the event header (possibly absent)
and the parsed body, or its absence when base64 decoding or `json.loads`
raised. An `Outcome` is either `Crash`, an exception nothing catches, or a
`Reply(status, body, card)`. `card` is the adaptive-card envelope built for
the POST; it is present exactly when validation passed.

Modules:

- `Py` (py.dfy): `Option` and `Eval` (a value, or an exception raised).
- `Json` (json.dfy): the decoded JSON value and Python truthiness. `Dig`
  models a `dict.get(k, {})` chain ending in `.get(k)`. `At` is a reference
  reading of "this value is stored under this key path".
- `PyText` (pytext.dfy): Python `str()` of JSON scalars, including decimal
  rendering of ints. An f-string is kept as a template of literal pieces and
  interpolated values, and `Render` flattens it.
- `Lambda` (lambda.dfy): the request, the response bodies, the card envelope
  and the delivery step shared by both files.
- `SamApp` (sam_app.dfy), `WorkflowApp` (workflow_app.dfy): the two handlers
  and the lemmas about each.
- `Variants` (variants.dfy): how the two handlers differ and where they agree.

Where the relay's intended contract and the code disagree, the model
follows the code:

- The intended contract is that no path crashes. In the code, a truthy body that is
  not a dict raises at `body.get`. So does a key that is present with a
  non-dict value part-way along a `.get(k, {})` chain, e.g. `"comment": null`.
  The model gives these the `Crash` outcome.
- A missing field is meant to be reported by name. The code's
  `assert` has no message, so the body is exactly `"invalid body: "`.
- Unknown events are meant to be a benign 200. The workflow variant answers
  400 `"Illegal event"` instead.
- Issue messages in the SAM variant say "New Pull Request"; the model keeps
  that literally.
- Lines 36-41 of the workflow file test `repository_name != None` twice and
  never test `title`. The model keeps this.

## Model

| member | source | states |
|---|---|---|
| Json.FalsyValues | sam-app/teams_workflow_webhook_proxy_for_github/app.py:55-56 | a body is falsy exactly when it is `null`, `false`, `0`, `""`, `[]` or `{}` |
| Json.TruthyIsNotNone | teams_workflow_webhook_proxy_for_github/app.py:36-41 | a truthy value is never `None`, so the SAM variant's truthiness check is at least as strict as the workflow variant's `!= None` check |
| Json.Truthy | sam-app/teams_workflow_webhook_proxy_for_github/app.py:55 | Python's `bool()` of a decoded JSON value; no contract of its own, characterised exactly by `Json.FalsyValues` |
| Json.Get | sam-app/teams_workflow_webhook_proxy_for_github/app.py:62 | `dict.get` raises exactly when the receiver is not a dict; otherwise it returns the stored value, or the default when the key is missing |
| Json.Dig | sam-app/teams_workflow_webhook_proxy_for_github/app.py:69-73 | a `.get(k, {})` chain raises when applied to a non-dict and never raises on `{}`, where it ends in `None` |
| Json.DigFinds | sam-app/teams_workflow_webhook_proxy_for_github/app.py:69-73 | a value stored under a key path is exactly what the `.get` chain returns |
| Json.DigLocates | sam-app/teams_workflow_webhook_proxy_for_github/app.py:69-73 | conversely, any value other than `None` that the chain returns is stored under the path, since the `{}` defaults can only end in `None` |
| Json.DigAgreesWithAt | sam-app/teams_workflow_webhook_proxy_for_github/app.py:69-73 | the `.get` chain and the reference reading agree in both directions, up to `None` for a missing key |
| Json.DigRaisesPastNonObject | sam-app/teams_workflow_webhook_proxy_for_github/app.py:72 | a key present with a non-dict value part-way along the chain makes the chain raise |
| Json.DigMissingKey | sam-app/teams_workflow_webhook_proxy_for_github/app.py:72 | a key missing part-way along the chain gives `None`, not an exception, because of the `{}` defaults |
| Json.DigAbsentKey | teams_workflow_webhook_proxy_for_github/app.py:33 | a chain whose first key is missing ends in `None` |
| Json.DigIgnoresOtherKey | teams_workflow_webhook_proxy_for_github/app.py:30-33 | changing one top-level key leaves every chain that starts with another key unchanged |
| PyText.Digits | sam-app/teams_workflow_webhook_proxy_for_github/app.py:66 | the decimal digits of a natural number form a non-empty run of digits, with a leading zero only for 0 |
| PyText.DigitsRoundTrip | sam-app/teams_workflow_webhook_proxy_for_github/app.py:66 | reading the digits back gives the number |
| PyText.Decimal | sam-app/teams_workflow_webhook_proxy_for_github/app.py:66 | `str()` of an int starts with a minus sign exactly when the int is negative; the rest is digits |
| PyText.DecimalRoundTrip | sam-app/teams_workflow_webhook_proxy_for_github/app.py:66 | parsing `str(n)` gives back `n` |
| PyText.PyStr | sam-app/teams_workflow_webhook_proxy_for_github/app.py:66 | `str()` is defined here for every scalar and for no container; a string renders as itself |
| PyText.PyStrIntRoundTrip | sam-app/teams_workflow_webhook_proxy_for_github/app.py:66 | `str()` of any int, as interpolated into an f-string such as the skip message, is non-empty and parses back to that int |
| PyText.Render | sam-app/teams_workflow_webhook_proxy_for_github/app.py:80 | an f-string renders exactly when every interpolated value is a scalar |
| PyText.RenderAppend | sam-app/teams_workflow_webhook_proxy_for_github/app.py:104-106 | rendering the concatenation of two templates concatenates their renderings |
| PyText.RenderPrefix | teams_workflow_webhook_proxy_for_github/app.py:57 | a template renders left to right, one piece after another |
| Lambda.CardShowsMessage | sam-app/teams_workflow_webhook_proxy_for_github/app.py:111-130 | the card's only text block holds exactly the message, so distinct messages give distinct cards |
| Lambda.AdaptiveCard | sam-app/teams_workflow_webhook_proxy_for_github/app.py:111-130 | the fixed adaptive-card envelope around one markdown text block; its contract is stated by `Lambda.CardShowsMessage` |
| Lambda.EventTag | sam-app/teams_workflow_webhook_proxy_for_github/app.py:43 | a missing `X-GitHub-Event` header reads as `""`; a present one as its value |
| Lambda.Deliver | sam-app/teams_workflow_webhook_proxy_for_github/app.py:132-147 | a successful POST answers 200 with the success body. A failed one answers 500 "Unexcept Error", which carries no failure detail. The card always holds the message |
| SamApp.Classify | sam-app/teams_workflow_webhook_proxy_for_github/app.py:10-13 | an event is recognised exactly when the header is one of the three enum values, and it is recognised as the member with that value |
| SamApp.ClassifyValue | sam-app/teams_workflow_webhook_proxy_for_github/app.py:45 | each enum value is recognised as its own member; values are distinct |
| SamApp.Handle | sam-app/teams_workflow_webhook_proxy_for_github/app.py:43-147 | the status is 200, 400 or 500 and each 400 body is one of three fixed bodies. A 500 only follows a failed POST. A relayed message comes with a card holding it. A crash needs a known event and a truthy parsed body |
| SamApp.UnknownEventIgnoresBody | sam-app/teams_workflow_webhook_proxy_for_github/app.py:43-46 | an unknown event is answered 200 "Unexcepted event: <tag>" whatever the body |
| SamApp.UnexceptedEvent | sam-app/teams_workflow_webhook_proxy_for_github/app.py:45-46 | the unknown-event body template naming the tag; `SamApp.UnknownEventIgnoresBody` states when it is returned and that it renders as "Unexcepted event: <tag>" |
| SamApp.MissingHeaderIsUnknown | sam-app/teams_workflow_webhook_proxy_for_github/app.py:43 | a missing header counts as the empty tag |
| SamApp.KnownEventIsDispatched | sam-app/teams_workflow_webhook_proxy_for_github/app.py:107-108 | the trailing `else` is unreachable: a known event is never answered as unknown |
| SamApp.ParseFailureIsInvalidJson | sam-app/teams_workflow_webhook_proxy_for_github/app.py:50-59 | a base64 or JSON failure answers 400 "Invalid JSON" |
| SamApp.FalsyBodyIsEmpty | sam-app/teams_workflow_webhook_proxy_for_github/app.py:55-56 | each falsy JSON body answers 400 "Empty body" |
| SamApp.NonObjectBodyCrashes | sam-app/teams_workflow_webhook_proxy_for_github/app.py:62 | a truthy non-dict body raises at `body.get("action", "")` |
| SamApp.AcceptedAction | sam-app/teams_workflow_webhook_proxy_for_github/app.py:61-83 | the one action relayed per event kind, `opened` for pull requests (line 63) and `created` for issues and comments (line 83); `SamApp.OtherActionIsSkipped` states that every other action is skipped and `SamApp.CardOnlyAfterValidation` that a card needs this one |
| SamApp.OtherActionIsSkipped | sam-app/teams_workflow_webhook_proxy_for_github/app.py:61-67 | any action except the accepted one answers 200 naming the event and the action, before any field is read |
| SamApp.SkipMessageText | sam-app/teams_workflow_webhook_proxy_for_github/app.py:83-87 | the skip body reads "Unexcepted event action: <tag>: <action>" |
| SamApp.UnexceptedAction | sam-app/teams_workflow_webhook_proxy_for_github/app.py:63-67 | the skip body template, naming the tag and interpolating the action; rendered by `SamApp.SkipMessageText` |
| SamApp.MissingActionIsEmpty | sam-app/teams_workflow_webhook_proxy_for_github/app.py:62 | a missing `action` is compared and shown as `""` |
| SamApp.PullRequestMessageText | sam-app/teams_workflow_webhook_proxy_for_github/app.py:80 | the pull-request line is `[[name] New Pull Request: title](url)` |
| SamApp.PullRequestMessage | sam-app/teams_workflow_webhook_proxy_for_github/app.py:80 | the pull-request f-string template; rendered by `SamApp.PullRequestMessageText` |
| SamApp.ExtractPullRequest | sam-app/teams_workflow_webhook_proxy_for_github/app.py:69-80 | raises exactly when one of the three lookup chains raises; otherwise passes the `assert` exactly when truthy values are stored (in the `Json.At` sense) under the title, URL and base repo name paths, and then the line is built from those stored values |
| SamApp.ExtractPullRequestFinds | sam-app/teams_workflow_webhook_proxy_for_github/app.py:69-80 | non-empty stored title, URL and base repo name pass the check and fill the line |
| SamApp.PullRequestRelayed | sam-app/teams_workflow_webhook_proxy_for_github/app.py:61-147 | an opened pull request with those three fields is delivered with exactly that line |
| SamApp.PullRequestFalsyField | sam-app/teams_workflow_webhook_proxy_for_github/app.py:75-78 | any missing or falsy one of the three fields answers 400 "invalid body: " |
| SamApp.PullRequestMissingObject | sam-app/teams_workflow_webhook_proxy_for_github/app.py:69-78 | an opened pull request without a `pull_request` dict is an invalid body, not a crash |
| SamApp.PullRequestNonObjectCrashes | sam-app/teams_workflow_webhook_proxy_for_github/app.py:69 | a `pull_request` key holding a non-dict raises |
| SamApp.IssueMessageText | sam-app/teams_workflow_webhook_proxy_for_github/app.py:104-106 | the issue line is `[[name] New Pull Request: title](url)<br />comment` |
| SamApp.IssueMessage | sam-app/teams_workflow_webhook_proxy_for_github/app.py:104-106 | the issue f-string template, labelled "New Pull Request"; rendered by `SamApp.IssueMessageText` |
| SamApp.ExtractIssue | sam-app/teams_workflow_webhook_proxy_for_github/app.py:94-106 | raises exactly when one of the four lookup chains raises; otherwise passes the `assert` exactly when truthy values are stored (in the `Json.At` sense) under the issue title, issue URL, repository name and comment body paths, and then the line is built from those stored values |
| SamApp.ExtractIssueFinds | sam-app/teams_workflow_webhook_proxy_for_github/app.py:94-106 | non-empty issue title, issue URL, repository name and comment body pass the check and fill the line |
| SamApp.IssueRelayed | sam-app/teams_workflow_webhook_proxy_for_github/app.py:81-147 | a created issue or comment with those four fields is delivered with exactly that line |
| SamApp.IssueMissingComment | sam-app/teams_workflow_webhook_proxy_for_github/app.py:97-102 | a comment dict without `body` answers 400 "invalid body: " |
| SamApp.IssueFalsyField | sam-app/teams_workflow_webhook_proxy_for_github/app.py:94-102 | with no chain raising, a missing or falsy issue title, issue URL, repository name or comment body answers 400 "invalid body: " |
| SamApp.CardOnlyAfterValidation | sam-app/teams_workflow_webhook_proxy_for_github/app.py:61-106 | a card is built only for a dict body whose action is the accepted one and which stores (in the `Json.At` sense) a truthy value under every path that event kind requires |
| SamApp.Extract | sam-app/teams_workflow_webhook_proxy_for_github/app.py:61-106 | the `if`/`elif` dispatch of a known event to its field extraction; `SamApp.PullRequestRelayed`, `SamApp.IssueRelayed` and `SamApp.CardOnlyAfterValidation` state which fields each event kind is checked and relayed on |
| SamApp.IssueNullCommentCrashes | sam-app/teams_workflow_webhook_proxy_for_github/app.py:97 | `"comment": null` raises instead of counting as missing |
| SamApp.DeliveryDecidesOnlyTheLastStep | sam-app/teams_workflow_webhook_proxy_for_github/app.py:110-147 | a failed POST changes only a relayed answer, into 500 "Unexcept Error" with the same card |
| SamApp.HandleAsWritten | sam-app/teams_workflow_webhook_proxy_for_github/app.py:132-138 | as written, no request is ever answered with the relayed message |
| SamApp.ExampleFailsAsWritten | sam-app/teams_workflow_webhook_proxy_for_github/app.py:132-138 | as written, the well-formed example pull request is answered 500 |
| SamApp.ExampleRelayed | sam-app/teams_workflow_webhook_proxy_for_github/app.py:80 | with delivery working, the example is answered 200 with `[[repo1] New Pull Request: Fix bug](http://x/1)` |
| WorkflowApp.Handle | teams_workflow_webhook_proxy_for_github/app.py:12-81 | the status is 200, 400 or 500 and each 400 body is one of four fixed bodies. 200 always carries `{"message": "OK"}` after a successful POST. 500 only follows a failed POST. A crash needs a target event and a truthy parsed body |
| WorkflowApp.IllegalEventBeforeParse | teams_workflow_webhook_proxy_for_github/app.py:7-15 | any other event kind answers 400 "Illegal event" whatever the body, even an unparsable one |
| WorkflowApp.MissingHeaderIsIllegal | teams_workflow_webhook_proxy_for_github/app.py:14 | a missing header is an illegal event |
| WorkflowApp.ParseFailureIsInvalidJson | teams_workflow_webhook_proxy_for_github/app.py:19-25 | a base64 or JSON failure answers 400 "Invalid JSON" |
| WorkflowApp.FalsyBodyIsEmpty | teams_workflow_webhook_proxy_for_github/app.py:27-28 | each falsy JSON body answers 400 "Empty body" |
| WorkflowApp.NonObjectBodyCrashes | teams_workflow_webhook_proxy_for_github/app.py:30 | a truthy non-dict body raises at the first `.get` |
| WorkflowApp.IgnoresAction | teams_workflow_webhook_proxy_for_github/app.py:30-43 | for a non-empty dict body, setting or changing `action` never changes the outcome |
| WorkflowApp.NonNullFieldsAreRelayed | teams_workflow_webhook_proxy_for_github/app.py:30-70 | any non-null full name, comment URL and comment body, empty strings included, are posted whatever the title |
| WorkflowApp.NullFieldIsInvalid | teams_workflow_webhook_proxy_for_github/app.py:35-43 | a missing or null checked field answers 400 "invalid body: " |
| WorkflowApp.NonObjectIssueCrashes | teams_workflow_webhook_proxy_for_github/app.py:33 | the unchecked title is still looked up, so a non-dict `issue` raises |
| WorkflowApp.CardMessageText | teams_workflow_webhook_proxy_for_github/app.py:57 | the card line is `[[full_name] New issue event: title](comment url)<br />comment` |
| WorkflowApp.CardMessage | teams_workflow_webhook_proxy_for_github/app.py:57 | the card f-string template; rendered by `WorkflowApp.CardMessageText` and `WorkflowApp.AbsentTitleText` |
| WorkflowApp.AbsentTitleText | teams_workflow_webhook_proxy_for_github/app.py:57 | an absent title is shown as `None` |
| WorkflowApp.MissingIssueIsRelayed | teams_workflow_webhook_proxy_for_github/app.py:33-81 | a body with no `issue` at all is still relayed with title `None` and answered `{"message": "OK"}` |
| WorkflowApp.ResponseIgnoresMessage | teams_workflow_webhook_proxy_for_github/app.py:71-81 | two posted requests get the same status and body, whatever their messages |
| Variants.TargetsAreIssueEvents | teams_workflow_webhook_proxy_for_github/app.py:7 | the workflow variant's targets are SAM enum values other than the pull request |
| Variants.UnknownEventStatuses | teams_workflow_webhook_proxy_for_github/app.py:14-15 | an unknown event is 200 in the SAM variant and 400 "Illegal event" in the workflow one |
| Variants.PullRequestOnlyInSam | teams_workflow_webhook_proxy_for_github/app.py:7 | a pull request is refused by the workflow variant with 400 "Illegal event", while the SAM variant dispatches it and never answers it as an unknown event |
| Variants.SameParseAndEmptyHandling | teams_workflow_webhook_proxy_for_github/app.py:19-28 | for issue events, both variants answer an unparsable or falsy body identically, with 400 |
| Variants.EmptyCommentSplitsVariants | sam-app/teams_workflow_webhook_proxy_for_github/app.py:99-102 | an empty comment body is refused by the SAM variant and relayed by the workflow one |
| Variants.EditedCommentSplitsVariants | sam-app/teams_workflow_webhook_proxy_for_github/app.py:81-87 | an edited comment is skipped by the SAM variant and relayed by the workflow one |

## Left out

- `get_webhook_url` (SAM variant, lines 17-37, called at line 41) reads
  environment variables and calls the parameter-store extension over HTTP.
  Its errors happen before any request logic. The model starts after it
  returned.
- `requests.post` and `raise_for_status` are replaced by the `delivered`
  flag. Any exception or non-2xx status counts as a failure. An unset
  `WEBHOOK_URL` in the workflow variant counts as a failure too.
- Base64 decoding and `json.loads` text parsing are abstracted into
  `Request.body`. A missing `body` entry, where `json.loads({})` raises
  `TypeError`, is a parse failure too.
- The Lambda event's own shape is abstracted into `Request.eventHeader`. A
  `headers` entry that is `null` or not a dict would raise before
  classification. Non-string header values are not modelled.
- `print` logging, the `context` argument, timeouts and concurrency.
- `json.dumps` text is not modelled byte for byte. The `{"message": ...}`
  body is kept as a structured value, `Lambda.Body.MessageJson`.
- Json: no floating-point numbers. A JSON `0.0` is falsy in Python, but the
  model has only ints. Object key order is not kept.
- PyText.PyStr: does not render arrays and objects. Python shows them with
  `repr` of their items in dict order. Here `Render` is absent for such a
  template, while the handler outcome still carries the value itself.
- Python `assert` statements vanish under `python -O`. The model assumes
  they run.

## Findings

| source | as written | input that shows it | evidently intended | confidence | as-written member | corrected member |
|---|---|---|---|---|---|---|
| sam-app/teams_workflow_webhook_proxy_for_github/app.py:133 | `WEBHOOK_URL` is never bound in this file, and the URL returned by `get_webhook_url()` at line 41 is discarded. Building the POST raises `NameError`, which is caught and answered 500 "Unexcept Error" | the opened pull request `{"action":"opened","pull_request":{"title":"Fix bug","html_url":"http://x/1","base":{"repo":{"name":"repo1"}}}}` | post to the fetched URL and answer 200 `{"message": "[[repo1] New Pull Request: Fix bug](http://x/1)"}` | high, not executed | SamApp.HandleAsWritten (SamApp.ExampleFailsAsWritten) | SamApp.Handle (SamApp.ExampleRelayed) |
