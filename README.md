# Event pass mailer: batch dispatch, modelled in Dafny

The GameLiminals event pass mailer takes an uploaded JSON document of team
registrations. For every team member with an email address it renders a
personal event pass (a PNG with the event title, the attendee's name, a
role/team line, an ID label and a QR code), mails it as an attachment, and
keeps a success count, a failure count and a progress bar.

This project models the part of `app.py` that decides what is sent, to whom
and with what content. It proves what the counters and the progress bar
report.

- `wrappers.dfy`: `Option`, `Result`, and the exceptions that can end a run
  (`Errors.Error`).
- `pyjson.dfy`: decoded JSON values and the Python operations applied to
  them: truthiness, `dict.get` and `str()`. Integers are printed in
  decimal, and the printed form reads back as the same integer.
- `pytext.dfy`: the `str` methods `upper()`, `split()`, `sep.join` and
  `rstrip(chars)`.
- `normalizer.dfy`: the registration list (app.py:218), the `or` chains for
  event name, registration id and team name (app.py:258-260), and the
  `members` value as the counting loop and the send loop see it.
- `passrender.dfy`: the information on a pass: title, attendee, role line,
  ID label and QR payload (app.py:98-128).
- `mailcompose.dfy`: the message around a pass: the From header, the
  subject, the social-links footer with its `rstrip(" | ")`, the body's
  slots and the attachment file name (app.py:151-185).
- `dispatch.dfy`: the batch run (app.py:223-291).
  - `PreviewFailure` is the preview of the first pass (app.py:223-234).
    The page renders it before it offers the button, so an upload whose
    preview raises never reaches the send loop.
  - `CountMembers` is the counting loop.
  - `Perform`, `SendSteps`, `SendMembers`, `SendRegistration` and
    `SendRegistrations` are the nested send loop, written as methods with
    loops and invariants.
  - `DispatchBatch` is the whole run. Its counters are proved against the
    specification function `RegsPlan`, which gives the mails handed to the
    transport, in order, and the exception that ends the run, if any.
  - The transport is the oracle `deliver: (nat, Mail) -> bool`. It receives
    the number of earlier attempts and the message, and answers whether
    the SMTP session succeeded.
- `scenario.dfy`: worked examples.
  - The "LAN Cup" upload: a captain with an email and a member without one.
  - A member with an email but no name.
  - An upload whose first team has no members.

Four behaviours of the code are easy to misread; the model follows the code:

- A member without a truthy email is passed over entirely. `current_idx += 1`
  (app.py:286) sits inside `if email:`, so a skip does not advance the
  progress counter. At the end of a run that no exception cut short,
  `current_idx` is the number of members with an email, which can be less
  than `total` (`Dispatch.DispatchBatch`, `Dispatch.SkippedMemberStillCounted`).
  Every reported fraction therefore lies in (0, 1].
- A member with an email but no `name` key is not skipped.
  `member_data['name']` (app.py:108) raises `KeyError`. No `try` inside the
  loop catches it, so the whole run stops, and the members after it get no
  mail (`Scenario.NamelessMemberEndsBatch`).
- The same holds for a name that is not a string, or that is blank:
  `name.split()[0]` (app.py:184) raises before the `try` around the SMTP
  session.
- The preview indexes `members[0]` of the first registration without a
  guard. An upload whose first team lists no members therefore never shows
  the send button, even when later teams have members
  (`Scenario.MemberlessFirstTeamBlocksBatch`).

## Model

| member | source | states |
|---|---|---|
| PyJson.GetOr | app.py:111 | `d.get(k, default)` is the stored value when the key is present and the default otherwise |
| PyJson.Get | app.py:263-264 | `d.get(k)` is the stored value when the key is present; an absent key reads as None, which is falsy |
| PyJson.Text | app.py:98 | `str(v)` of a string is the string itself; of an integer, its canonical decimal text, which parses back to the integer |
| PyJson.Decimal | app.py:128 | `str(i)` of an integer is non-empty, starts with '-' exactly when i is negative, is digits after the sign, has no leading zero, and is "0" exactly for zero |
| PyJson.DecimalRoundTrip | app.py:128 | the decimal text of every integer parses back to that integer |
| PyJson.DecimalOfParse | app.py:128 | every canonical decimal text is the text of the integer it denotes, so integers and their texts correspond one to one |
| PyText.Upper | app.py:98 | upper-casing keeps the length, leaves no lower-case letter, and changes only lower-case letters into their capitals |
| PyText.Split | app.py:184 | `split()` yields non-empty, whitespace-free words, and yields none exactly when the text is blank |
| PyText.SplitAfterBlank | app.py:184 | leading whitespace does not change what `split()` yields |
| PyText.SplitFirstWord | app.py:184 | the first word `split()` yields is the text from the first non-space character up to the next whitespace or the end |
| PyText.SplitOfJoin | app.py:184 | splitting whitespace-free words joined by single spaces gives back the words |
| PyText.RStrip | app.py:157 | `rstrip(chars)` gives a prefix of the text that does not end in a stripped character, and everything removed is a stripped character |
| PyText.RStripUnique | app.py:157 | those three properties determine the result: stripping `x + y`, where y is all stripped characters and x does not end in one, gives x |
| Normalizer.Registrations | app.py:218 | a list is the registration list as it is. For an object, the `registrations` list, or an empty list when the key is absent. A value without `len` or iteration is an error |
| Normalizer.Resolve | app.py:258-260 | `a or b or default`: the primary value if truthy, else the fallback value if truthy, else the default, and the result is truthy when the default is non-empty |
| Normalizer.EventName | app.py:258 | truthy, and one of `eventName`, `event_name` or 'Event' |
| Normalizer.RegistrationId | app.py:259 | truthy, and one of `registrationID`, `id` or 'N/A' |
| Normalizer.TeamName | app.py:260 | truthy, and one of `teamName`, `team_name` or 'Individual' |
| Normalizer.EmptyPrimaryNeverShadows | app.py:258-260 | an absent, empty or null primary key never hides a non-empty fallback, and a non-empty primary always wins over it |
| Normalizer.MemberCount | app.py:251-252 | `len(reg.get('members', []))` succeeds exactly for an object whose `members` is not null, a boolean or a number. An absent key counts 0; a list counts its elements |
| Normalizer.MemberItems | app.py:262 | the send loop iterates a `members` list as it is. It visits as many members as the counting loop counted, and fails for every registration the counting loop refused; where it fails on a counted one, that one had members |
| PassRender.UpperText | app.py:98-108 | the title and the attendee line are the text of the event name and of the member's name with each lower-case letter replaced by its capital: same length, no lower-case letter |
| PassRender.RoleLine | app.py:111 | the role line is the role's text (or 'PARTICIPANT'), then space, bar, space, then the team's text |
| PassRender.RoleDefaultOnlyWhenAbsent | app.py:111 | 'PARTICIPANT' appears only when the `role` key is absent; an empty or null role is written as it is |
| PassRender.IdLabel | app.py:117 | the ID label is "ID: " followed by exactly the QR payload |
| PassRender.QrPayload | app.py:128 | the QR payload of a string id is the id itself; that of an integer id is its canonical decimal text, which reads back as the id |
| PassRender.RenderPass | app.py:76-128 | rendering fails exactly when the member has no `name` key. Otherwise the title is the upper-cased event name, the attendee line the upper-cased name, the role line the member's role and the team, and the ID label and QR payload come from the registration id |
| PassRender.PassOfStrings | app.py:111-128 | for a string role, id and team, the pass reads "role, bar, team", "ID: id" and carries the id as its QR payload |
| PassRender.SharedRegionsIgnoreMember | app.py:98-128 | two members of one registration get the same title, ID label and QR payload, and the same role line when their roles read alike |
| MailCompose.SocialHtml | app.py:157 | the social-links footer never ends in a space or a bar |
| MailCompose.SocialHtmlIsJoin | app.py:157 | the character strip removes exactly the one trailing separator (space, bar, space): the footer is the anchors joined with that separator |
| MailCompose.Subject | app.py:155 | the subject is the ticket prefix followed by exactly the event name's text |
| MailCompose.FromHeader | app.py:153 | the From header is the club's display name, then the sender address in angle brackets |
| MailCompose.AttachmentName | app.py:184 | the file name exists exactly when the name is a non-blank string, and is then "EventPass-" + the first word `split()` yields + ".png"; otherwise the error is NameWithoutToken |
| MailCompose.AttachmentNameFirstWord | app.py:184 | for any name whose first word spans positions i to j after leading blanks, the file name carries exactly that word |
| MailCompose.AttachmentNameOfWords | app.py:184 | for a name made of words joined by single spaces, the file name carries the first word |
| MailCompose.ComposeMail | app.py:151-185 | composing fails exactly when the attachment name does. Otherwise the mail carries the recipient, the pass, the subject of the event name, the From header, the body slots and that file name |
| Dispatch.SharedOf | app.py:258-260 | every registration-level field a pass receives is truthy |
| Dispatch.MemberStep | app.py:263-277 | a non-object member raises; an object member is skipped exactly when its email is not truthy. A mail goes to that email and carries the rendered pass and the attachment name of the member's name, with the registration's QR payload, ID label and subject. A member with an email and no `name` raises MissingName; one whose name gives no file name raises NameWithoutToken |
| Dispatch.MembersPlan | app.py:262-288 | a registration's member loop hands the transport at most one mail per member |
| Dispatch.RegPlan | app.py:256-288 | one pass of the outer loop: a non-object registration raises before any mail; one the counting loop refuses sends nothing and raises; otherwise at most one mail per counted member |
| Dispatch.RegsPlan | app.py:256-288 | the send loop never makes more transport calls than the counting loop counted members, exception or not |
| Dispatch.TotalMembers | app.py:249-252 | the counting loop succeeds exactly when every registration's `len(members)` does |
| Dispatch.CountEmailed | app.py:263-266 | the members with a truthy email are at most all members; none exactly when no member has one, all exactly when every member has one |
| Dispatch.Emailed | app.py:249-266 | the members with a truthy email, over all registrations, are at most the counted members |
| Dispatch.Fraction | app.py:287 | `current_idx / total` lies in (0, 1] |
| Dispatch.Progress | app.py:286-287 | one progress value per attempt, each in (0, 1] |
| Dispatch.PreviewFailure | app.py:223-234 | an empty upload has no preview. Otherwise the preview passes exactly when the first registration is an object whose `members` list has a first member that is an object with a `name`; a non-object first registration raises |
| Dispatch.EmptyFirstTeamBlocks | app.py:226 | a first registration that the counting loop counts as having no members makes the preview raise |
| Dispatch.PreviewRendersFirstPass | app.py:225-233 | once the preview passed, the first member's pass renders whatever the shared fields, and the counting loop counts at least one member |
| Dispatch.CountMembers | app.py:249-252 | the counting loop computes the sum of `len(members)` over the registrations, or the error of the first registration it cannot count |
| Dispatch.Perform | app.py:278-287 | handing one mail to the transport keeps the counters in step: one more attempt, exactly one of success or failure, one more progress value. A skip changes nothing |
| Dispatch.SendSteps | app.py:262-288 | the member loop's counters agree with the mails of its steps; it stops at the first exception, with that exception |
| Dispatch.SendMembers | app.py:262-288 | a registration's member loop leaves the counters in step with the mails `MembersPlan` gives and reports its exception |
| Dispatch.SendRegistration | app.py:256-288 | one pass of the outer loop leaves the counters in step with the mails `RegPlan` gives and reports its exception |
| Dispatch.SendRegistrations | app.py:256-288 | the outer loop leaves the counters in step with the mails `RegsPlan` gives and reports the exception that ended it |
| Dispatch.DispatchBatch | app.py:223-291 | a preview that raises refuses the batch, and so does a counting error, before any send. Otherwise the transport is called once per mail of `RegsPlan`, in order, whatever its earlier verdicts. Successes are the true verdicts; successes + failures = current_idx <= total; the progress values are current/total. A run without an exception ends with current_idx = the number of members with a truthy email |
| Dispatch.TracksOneMore | app.py:279-287 | one more transport call adds exactly one attempt, one success or one failure, and one progress step |
| Dispatch.CompletedPlanCountsEmailed | app.py:266-286 | a run that no exception cut short hands one mail to the transport for each member with a truthy email |
| Dispatch.SkippedMemberInvisible | app.py:263-266 | inserting a member object without a truthy email anywhere changes nothing the loop does |
| Dispatch.SkippedMemberStillCounted | app.py:251-266 | such a member adds one to the registration's count and nothing to its mails |
| Dispatch.MembersSplit | app.py:262 | the member loop over `a + b` is the loop over `a` followed by the loop over `b`, unless `a` raised |
| Dispatch.TwoMembers | app.py:262 | the member loop over two members takes the first member's step, then the second's |
| Dispatch.MailsShareRegistration | app.py:258-270 | every mail of one registration carries that registration's QR payload, ID label and subject |
| Dispatch.RegistrationSharesCode | app.py:128 | all mails of a registration carry the same QR payload, the text of its resolved registration id |
| Dispatch.SingleFailureIsolated | app.py:279-283 | when exactly one attempt fails, all others succeed: successes are one fewer than attempts |
| Dispatch.AllSent | app.py:279-280 | when every attempt succeeds, the success count is the number of attempts |
| Scenario.LanCupPreviewPasses | app.py:223-234 | the preview of the LAN Cup upload passes, so its batch reaches the send loop |
| Scenario.LanCupCounts | app.py:218-252 | the LAN Cup upload holds one registration with two counted members, one of them with an email |
| Scenario.CaptainIsMailed | app.py:263-277 | the captain is mailed at their address, with the file name from the first word of their name, role line "Captain", separator, "Alpha", ID label "ID: R1" and QR payload "R1" |
| Scenario.LanCupBatch | app.py:256-288 | the LAN Cup run ends without an exception after one mail, the captain's |
| Scenario.NamelessMemberEndsBatch | app.py:108 | a member with an email and no name ends the run with MissingName before the next member, who has an email, is mailed |
| Scenario.NamelessRegistrationCounts | app.py:263-266 | both members of that registration have an email, so the shortfall is not a skip |
| Scenario.MemberlessFirstTeamBlocksBatch | app.py:223-252 | an upload whose first team has no members and whose second has one: the counting loop counts one member, yet the preview raises and the batch is refused |

## Left out

- PyText.Upper: only ASCII letters are upper-cased. Python's `str.upper()`
  also maps other scripts and can lengthen a text (e.g. 'ß' becomes "SS").
  The Unicode case tables are not part of this model.
- PassRender.UpperText: inherits the ASCII-only upper-casing of
  `PyText.Upper`, so its length equality does not hold for every Unicode
  event name or member name in Python.
- PassRender.RenderPass: does not model the capacity of a QR symbol.
  `qr.make(fit=True)` (app.py:129) raises `DataOverflowError` when the
  payload does not fit the largest symbol, and that exception, like a
  missing name, would end the run. The model treats every payload as
  encodable.
- Dispatch.Fraction: the progress value is an exact rational. Python
  computes a float, whose rounding is not modelled.
- `str()` of a list or a dict (Python's `repr`) is the parameter `reprOf`.
  JSON numbers with a fraction or an exponent (floats) are not modelled.
- Reading the upload (`json.load`, app.py:217) and its parse errors are not
  modelled. The model starts from a decoded JSON value; an object holds the
  last value of a repeated key.
- Dispatch.PreviewFailure: models only whether the preview raises. The
  preview's own fallbacks ('000' for the id, 'N/A' for the team) feed only
  the preview image, which cannot raise on them, so they are not modelled.
  A `members` value of another kind (an object, a number, null) raises
  KeyError or TypeError in Python; the model reports each as
  NoPreviewMember.
- The Streamlit page is not modelled: sidebar credentials, the check for an
  empty password (app.py:241-242), status text, error and success messages,
  balloons, and the widget that draws the progress values. Progress is
  modelled as the sequence of fractions handed to it.
- The failure text of a failed send (`str(e)`) is not modelled; only its
  count is.
- Drawing is not modelled: canvas, gradient, shapes, colours, fonts, logos
  and their fallbacks (app.py:32-149). Neither is the QR symbol encoding by
  the `qrcode` library; only the payload is.
- The HTML template text of the mail body is not modelled, apart from its
  two slots (event name, recipient name) and the social-links footer.
- MIME assembly, PNG serialisation and base64 encoding (app.py:152-185) run
  outside the `try` of `send_single_email` and are taken never to raise.
  Only the SMTP session (app.py:187-194) is the `deliver` oracle: its
  exceptions are caught and count as a failed send.
- `time.sleep(1)` (app.py:288) is not modelled.
- Dispatch.SendMembers: decides every member's step (render and compose)
  before the transport loop over those steps. The source interleaves
  rendering and sending member by member. Deciding is pure, so the mails,
  verdicts and counters are the same; only the timing differs.
