/** The batch run behind "Start Sending Emails" (app.py:240-292): the
    counting loop that fixes the progress denominator, then the nested loop
    over registrations and members that renders a pass, composes a mail,
    hands it to the mail transport and keeps the counters. The transport is
    the oracle `deliver`, given the attempt number and the message. */
module Dispatch {
  import opened Wrappers
  import opened Errors
  import opened PyJson
  import opened Normalizer
  import opened PassRender
  import opened MailCompose

  /** The registration-level fields every pass of one registration shares
      (app.py:258-260). */
  datatype Shared = Shared(eventName: Json, regId: Json, teamName: Json)

  function SharedOf(fields: map<string, Json>): (r: Shared)
    ensures Truthy(r.eventName) && Truthy(r.regId) && Truthy(r.teamName)
  {
    Shared(EventName(fields), RegistrationId(fields), TeamName(fields))
  }

  /** A member the send loop mails: an object with a truthy email. */
  predicate HasEmail(member: Json) {
    member.JObject? && Truthy(Get(member.fields, "email"))
  }

  /** What the loop body decides for one member before the transport is
      called: skip it, send a mail, or raise. */
  datatype Step = Skip | Send(mail: Mail) | Abort(error: Error)

  /** The body of the member loop up to `send_single_email`'s `try`
      (app.py:263-277): `member.get` needs an object; a member without a
      truthy email is passed over; otherwise the pass is rendered and the
      mail composed, either of which can raise. */
  function MemberStep(shared: Shared, member: Json, sender: string, reprOf: Json -> string): (r: Step)
    ensures !member.JObject? ==> r == Abort(NotAMemberRecord)
    ensures member.JObject? ==> (r.Skip? <==> !Truthy(Get(member.fields, "email")))
    ensures r.Send? ==> r.mail.to == member.fields["email"] && Truthy(r.mail.to)
    ensures r.Send? ==> r.mail.pass.qrPayload == QrPayload(shared.regId, reprOf)
                        && r.mail.pass.idLabel == IdLabel(shared.regId, reprOf)
                        && r.mail.subject == Subject(shared.eventName, reprOf)
    ensures r.Send? ==> && HasEmail(member) && "name" in member.fields
                        && AttachmentName(member.fields["name"]).Success?
                        && r.mail.filename == AttachmentName(member.fields["name"]).value
                        && RenderPass(member.fields, shared.eventName, shared.regId, shared.teamName, reprOf).Success?
                        && r.mail.pass == RenderPass(member.fields, shared.eventName, shared.regId, shared.teamName, reprOf).value
    ensures r.Abort? && member.JObject? ==> "name" !in member.fields || AttachmentName(member.fields["name"]).Failure?
    ensures HasEmail(member) && "name" !in member.fields ==> r == Abort(MissingName)
    ensures HasEmail(member) && "name" in member.fields && AttachmentName(member.fields["name"]).Failure?
            ==> r == Abort(NameWithoutToken)
  {
    if !member.JObject? then Abort(NotAMemberRecord)
    else
      var email := Get(member.fields, "email");
      if !Truthy(email) then Skip
      else
        match RenderPass(member.fields, shared.eventName, shared.regId, shared.teamName, reprOf)
        case Failure(e) => Abort(e)
        case Success(pass) =>
          match ComposeMail(sender, email, member.fields["name"], shared.eventName, pass, reprOf)
          case Failure(e) => Abort(e)
          case Success(mail) => Send(mail)
  }

  /** The messages a stretch of the loop hands to the transport, in order,
      and the exception that ends it early, if one does. */
  datatype Plan = Plan(mails: seq<Mail>, stop: Option<Error>)

  const Empty: Plan := Plan([], None)

  /** One more member, unless an exception already ended the run. */
  function Then(p: Plan, s: Step): Plan {
    if p.stop.Some? then p
    else
      match s
      case Skip => p
      case Send(m) => Plan(p.mails + [m], None)
      case Abort(e) => Plan(p.mails, Some(e))
  }

  /** One stretch after another, unless the first ended the run. */
  function Append(p: Plan, q: Plan): Plan {
    if p.stop.Some? then p else Plan(p.mails + q.mails, q.stop)
  }

  /** The steps of a stretch of the loop, in order. */
  function Run(steps: seq<Step>): Plan
    decreases |steps|
  {
    if steps == [] then Empty else Then(Run(steps[..|steps| - 1]), steps[|steps| - 1])
  }

  /** What the loop body decides for each member, independently of the
      members before it. */
  function Steps(shared: Shared, members: seq<Json>, sender: string, reprOf: Json -> string): (r: seq<Step>)
    ensures |r| == |members|
  {
    seq(|members|, k requires 0 <= k < |members| => MemberStep(shared, members[k], sender, reprOf))
  }

  /** The inner loop over one registration's members (app.py:262-288). */
  function MembersPlan(shared: Shared, members: seq<Json>, sender: string, reprOf: Json -> string): (r: Plan)
    ensures |r.mails| <= |members|
  {
    RunFits(Steps(shared, members, sender, reprOf));
    Run(Steps(shared, members, sender, reprOf))
  }

  lemma {:induction false} RunFits(steps: seq<Step>)
    ensures |Run(steps).mails| <= |steps|
    decreases |steps|
  {
    if steps != [] {
      RunFits(steps[..|steps| - 1]);
    }
  }

  /** One pass of the outer loop (app.py:256-288). */
  function RegPlan(reg: Json, sender: string, reprOf: Json -> string): (r: Plan)
    ensures !reg.JObject? ==> r == Plan([], Some(NotARecord))
    ensures MemberCount(reg).Failure? ==> r.mails == [] && r.stop.Some?
    ensures MemberCount(reg).Success? ==> |r.mails| <= MemberCount(reg).value
  {
    if !reg.JObject? then Plan([], Some(NotARecord))
    else
      match MemberItems(reg)
      case Failure(e) => Plan([], Some(e))
      case Success(members) => MembersPlan(SharedOf(reg.fields), members, sender, reprOf)
  }

  /** The whole send loop: the specification of DispatchBatch. */
  function RegsPlan(regs: seq<Json>, sender: string, reprOf: Json -> string): (r: Plan)
    ensures TotalMembers(regs).Success? ==> |r.mails| <= TotalMembers(regs).value
    decreases |regs|
  {
    if regs == [] then Empty
    else Append(RegsPlan(regs[..|regs| - 1], sender, reprOf), RegPlan(regs[|regs| - 1], sender, reprOf))
  }

  /** The counting loop (app.py:249-252): the sum of `len(members)` over all
      registrations, or the exception it raises first. */
  function TotalMembers(regs: seq<Json>): (r: Result<nat, Error>)
    ensures r.Success? <==> forall k :: 0 <= k < |regs| ==> MemberCount(regs[k]).Success?
    decreases |regs|
  {
    if regs == [] then Success(0)
    else
      match TotalMembers(regs[..|regs| - 1])
      case Failure(e) => Failure(e)
      case Success(t) =>
        match MemberCount(regs[|regs| - 1])
        case Failure(e) => Failure(e)
        case Success(c) => Success(t + c)
  }

  function CountEmailed(members: seq<Json>): (n: nat)
    ensures n <= |members|
    ensures n == 0 <==> forall k :: 0 <= k < |members| ==> !HasEmail(members[k])
    ensures n == |members| <==> forall k :: 0 <= k < |members| ==> HasEmail(members[k])
    decreases |members|
  {
    if members == [] then 0
    else CountEmailed(members[..|members| - 1]) + (if HasEmail(members[|members| - 1]) then 1 else 0)
  }

  /** Members with a truthy email over all registrations, counted
      independently of the send loop. */
  function Emailed(regs: seq<Json>): (n: nat)
    ensures TotalMembers(regs).Success? ==> n <= TotalMembers(regs).value
    decreases |regs|
  {
    if regs == [] then 0
    else
      var reg := regs[|regs| - 1];
      Emailed(regs[..|regs| - 1])
        + (if reg.JObject? && MemberItems(reg).Success? then CountEmailed(MemberItems(reg).value) else 0)
  }

  /** One call of the transport and its verdict. */
  datatype Attempt = Attempt(mail: Mail, sent: bool)

  /** Attempt k hands mail k to the transport as its k-th call. */
  function Attempts(mails: seq<Mail>, deliver: (nat, Mail) -> bool): (r: seq<Attempt>)
    ensures |r| == |mails|
  {
    seq(|mails|, k requires 0 <= k < |mails| => Attempt(mails[k], deliver(k, mails[k])))
  }

  function CountSent(attempts: seq<Attempt>): (n: nat)
    ensures n <= |attempts|
    decreases |attempts|
  {
    if attempts == [] then 0
    else CountSent(attempts[..|attempts| - 1]) + (if attempts[|attempts| - 1].sent then 1 else 0)
  }

  /** `current_idx / total` as the progress bar receives it. */
  function Fraction(current: nat, total: nat): (r: real)
    requires 0 < current <= total
    ensures 0.0 < r <= 1.0
  {
    FractionWithin(current, total);
    current as real / total as real
  }

  lemma FractionWithin(a: nat, b: nat)
    requires 0 < a <= b
    ensures 0.0 < a as real / b as real <= 1.0
  {
  }

  /** The values given to the progress bar, one after each attempt. */
  function Progress(n: nat, total: nat): (r: seq<real>)
    requires n <= total
    ensures |r| == n
    ensures forall k :: 0 <= k < n ==> 0.0 < r[k] <= 1.0
  {
    seq(n, k requires 0 <= k < n => Fraction(k + 1, total))
  }

  /** The local variables the loop updates after each attempt. */
  datatype Counters = Counters(current: nat, successes: nat, failures: nat, progress: seq<real>, attempts: seq<Attempt>)

  /** The counters agree with the mails handed to the transport so far. */
  ghost predicate Tracks(c: Counters, mails: seq<Mail>, total: nat, deliver: (nat, Mail) -> bool) {
    && c.attempts == Attempts(mails, deliver)
    && c.current == |mails|
    && c.successes == CountSent(c.attempts)
    && c.successes + c.failures == c.current
    && c.current <= total
    && c.progress == Progress(c.current, total)
  }

  /** The outcome of one press of the button. `Refused`: the preview of the
      first pass or the counting loop raised, nothing was sent. `Ran`: the send loop ran; `stop` is the
      exception that cut it short, if any (the page then shows the error
      instead of the tally). */
  datatype Batch =
    | Refused(error: Error)
    | Ran(total: nat, current: nat, successes: nat, failures: nat,
          progress: seq<real>, attempts: seq<Attempt>, stop: Option<Error>)

  /** The preview of the first pass (app.py:223-234), which the page
      renders on every run before it offers the button: the first
      registration must be an object whose `members` list has a first
      member, and that member must be an object with a `name`. The error is
      the exception the preview raises; the page then shows it and the
      button never appears. */
  function PreviewFailure(regs: seq<Json>): (r: Option<Error>)
    ensures regs == [] ==> r == None
    ensures regs != [] && !regs[0].JObject? ==> r == Some(NotARecord)
    ensures r.None? && regs != [] ==>
              && regs[0].JObject? && MembersValue(regs[0].fields).JArray?
              && MembersValue(regs[0].fields).items != []
              && MembersValue(regs[0].fields).items[0].JObject?
              && "name" in MembersValue(regs[0].fields).items[0].fields
    ensures regs != [] && regs[0].JObject? && MembersValue(regs[0].fields).JArray?
            && MembersValue(regs[0].fields).items != []
            && MembersValue(regs[0].fields).items[0].JObject?
            && "name" in MembersValue(regs[0].fields).items[0].fields
            ==> r.None?
  {
    if regs == [] then None
    else if !regs[0].JObject? then Some(NotARecord)
    else if "members" !in regs[0].fields then Some(NoPreviewMember)
    else
      match regs[0].fields["members"]
      case JArray(items) =>
        if items == [] then Some(NoPreviewMember)
        else if !items[0].JObject? then Some(NotAMemberRecord)
        else if "name" !in items[0].fields then Some(MissingName)
        else None
      case JStr(s) => if s == "" then Some(NoPreviewMember) else Some(NotAMemberRecord)
      case _ => Some(NoPreviewMember)
  }

  /** A first registration with no members passes the counting loop, which
      adds nothing for it, but the preview refuses it. */
  lemma EmptyFirstTeamBlocks(regs: seq<Json>)
    requires regs != [] && regs[0].JObject? && MemberCount(regs[0]) == Success(0)
    ensures PreviewFailure(regs) == Some(NoPreviewMember)
  {
  }

  /** Once the preview passed, the first member of the first registration
      has a pass, whatever the registration's fields; and a batch with
      registrations has at least one counted member. */
  lemma PreviewRendersFirstPass(regs: seq<Json>, eventName: Json, regId: Json, teamName: Json, reprOf: Json -> string)
    requires regs != [] && PreviewFailure(regs).None?
    ensures RenderPass(MembersValue(regs[0].fields).items[0].fields, eventName, regId, teamName, reprOf).Success?
    ensures TotalMembers(regs).Success? ==> TotalMembers(regs).value > 0
  {
    if TotalMembers(regs).Success? {
      TotalPrefix(regs, 0);
      assert regs[..0] == [] && regs[..1] == [regs[0]];
      assert MemberCount(regs[0]).value > 0;
    }
  }

  /** The counting loop (app.py:249-252). */
  method CountMembers(regs: seq<Json>) returns (r: Result<nat, Error>)
    ensures r == TotalMembers(regs)
  {
    var total: nat := 0;
    for i := 0 to |regs|
      invariant TotalMembers(regs[..i]) == Success(total)
    {
      assert regs[..i + 1][..i] == regs[..i];
      var count := MemberCount(regs[i]);
      if count.Failure? {
        TotalFailureSticks(regs, i + 1);
        return Failure(count.error);
      }
      total := total + count.value;
    }
    assert regs[..|regs|] == regs;
    return Success(total);
  }

  /** The end of the member loop's body (app.py:278-288): a mail is handed
      to the transport and its verdict counted; a skip changes nothing. */
  method Perform(step: Step, deliver: (nat, Mail) -> bool, total: nat, c: Counters, ghost sent: seq<Mail>)
    returns (c': Counters)
    requires Tracks(c, sent, total, deliver) && |sent| < total
    ensures Tracks(c', Then(Plan(sent, None), step).mails, total, deliver)
  {
    c' := c;
    if step.Send? {
      var mail := step.mail;
      var ok := deliver(c.current, mail);
      var successes, failures := c.successes, c.failures;
      if ok {
        successes := successes + 1;
      } else {
        failures := failures + 1;
      }
      var current := c.current + 1;
      TracksOneMore(c, sent, mail, total, deliver);
      c' := Counters(current, successes, failures, c.progress + [Fraction(current, total)],
                     c.attempts + [Attempt(mail, ok)]);
    }
  }

  /** The member loop (app.py:262-288) over the steps its body decides:
      skips touch no counter; every mail is one transport call, counted as
      a success or a failure, and then one step of progress; an exception
      ends the loop. */
  method SendSteps(steps: seq<Step>, deliver: (nat, Mail) -> bool, total: nat, c: Counters, ghost mails: seq<Mail>)
    returns (c': Counters, stop: Option<Error>)
    requires Tracks(c, mails, total, deliver) && |mails| + |steps| <= total
    ensures Tracks(c', mails + Run(steps).mails, total, deliver)
    ensures stop == Run(steps).stop
  {
    c' := c;
    ghost var sent: seq<Mail> := mails;
    for j := 0 to |steps|
      invariant Run(steps[..j]).stop == None
      invariant sent == mails + Run(steps[..j]).mails
      invariant Tracks(c', sent, total, deliver)
    {
      assert |sent| < total by { RunFits(steps[..j]); }
      var step := steps[j];
      c' := Perform(step, deliver, total, c', sent);
      RunPrefixStep(steps, j, mails);
      if step.Abort? {
        RunStopSticks(steps, j + 1);
        return c', Some(step.error);
      }
      sent := Then(Plan(sent, None), step).mails;
    }
    assert steps[..|steps|] == steps;
    stop := None;
  }

  /** The member loop of one registration (app.py:262-288). What the body
      decides for a member depends on that member and the registration's
      shared fields only, so the decisions are taken member by member and
      handed to the loop over the transport. */
  method SendMembers(shared: Shared, members: seq<Json>, sender: string, reprOf: Json -> string,
                     deliver: (nat, Mail) -> bool, total: nat, c: Counters, ghost mails: seq<Mail>)
    returns (c': Counters, stop: Option<Error>)
    requires Tracks(c, mails, total, deliver) && |mails| + |members| <= total
    ensures Tracks(c', mails + MembersPlan(shared, members, sender, reprOf).mails, total, deliver)
    ensures stop == MembersPlan(shared, members, sender, reprOf).stop
  {
    var steps := Steps(shared, members, sender, reprOf);
    c', stop := SendSteps(steps, deliver, total, c, mails);
  }

  /** One pass of the outer loop (app.py:256-288): the registration's
      `members` are iterated, and a value that yields no member records
      raises before anything is sent for it; otherwise its member loop runs
      with the registration's shared fields. */
  method SendRegistration(reg: Json, sender: string, reprOf: Json -> string, deliver: (nat, Mail) -> bool, total: nat,
                          c: Counters, ghost mails: seq<Mail>)
    returns (c': Counters, stop: Option<Error>)
    requires reg.JObject? && MemberCount(reg).Success?
    requires Tracks(c, mails, total, deliver) && |mails| + MemberCount(reg).value <= total
    ensures Tracks(c', mails + RegPlan(reg, sender, reprOf).mails, total, deliver)
    ensures stop == RegPlan(reg, sender, reprOf).stop
  {
    var items := MemberItems(reg);
    if items.Failure? {
      assert mails + [] == mails;
      return c, Some(items.error);
    }
    c', stop := SendMembers(SharedOf(reg.fields), items.value, sender, reprOf, deliver, total, c, mails);
  }

  /** The outer loop of the batch run (app.py:256-288), after the counting
      loop found `total` members: every registration's member loop in turn,
      until one of them raises. */
  method SendRegistrations(regs: seq<Json>, sender: string, reprOf: Json -> string, deliver: (nat, Mail) -> bool, total: nat)
    returns (c: Counters, stop: Option<Error>)
    requires TotalMembers(regs) == Success(total)
    ensures Tracks(c, RegsPlan(regs, sender, reprOf).mails, total, deliver)
    ensures stop == RegsPlan(regs, sender, reprOf).stop
  {
    c := Counters(0, 0, 0, [], []);
    ghost var mails: seq<Mail> := [];
    for i := 0 to |regs|
      invariant RegsPlan(regs[..i], sender, reprOf) == Plan(mails, None)
      invariant TotalMembers(regs[..i]).Success? && |mails| <= TotalMembers(regs[..i]).value
      invariant Tracks(c, mails, total, deliver)
    {
      TotalPrefix(regs, i);
      RegsPlanPrefixStep(regs, i, sender, reprOf, mails);
      ghost var next := RegPlan(regs[i], sender, reprOf);
      c, stop := SendRegistration(regs[i], sender, reprOf, deliver, total, c, mails);
      mails := mails + next.mails;
      if stop.Some? {
        RegsStopSticks(regs, i + 1, sender, reprOf);
        return;
      }
    }
    assert regs[..|regs|] == regs;
    stop := None;
  }

  /** The batch run of app.py:223-291 over the registration list: the
      preview that gates the button, the counting loop, then the send loop
      with its counters. */
  method DispatchBatch(regs: seq<Json>, sender: string, reprOf: Json -> string, deliver: (nat, Mail) -> bool)
    returns (b: Batch)
    ensures PreviewFailure(regs).Some? ==> b == Refused(PreviewFailure(regs).value)
    ensures PreviewFailure(regs).None? && TotalMembers(regs).Failure? ==> b == Refused(TotalMembers(regs).error)
    ensures PreviewFailure(regs).None? && TotalMembers(regs).Success? ==> b.Ran? && b.total == TotalMembers(regs).value
    ensures b.Ran? ==> b.attempts == Attempts(RegsPlan(regs, sender, reprOf).mails, deliver)
                       && b.stop == RegsPlan(regs, sender, reprOf).stop
    ensures b.Ran? ==> b.current == |b.attempts| && b.successes == CountSent(b.attempts)
                       && b.successes + b.failures == b.current
    ensures b.Ran? ==> b.current <= b.total && b.progress == Progress(b.current, b.total)
    ensures b.Ran? && b.stop.None? ==> b.current == Emailed(regs)
  {
    var preview := PreviewFailure(regs);
    if preview.Some? {
      return Refused(preview.value);
    }
    var counted := CountMembers(regs);
    if counted.Failure? {
      return Refused(counted.error);
    }
    var c, stop := SendRegistrations(regs, sender, reprOf, deliver, counted.value);
    if stop.None? {
      CompletedPlanCountsEmailed(regs, sender, reprOf);
    }
    return Ran(counted.value, c.current, c.successes, c.failures, c.progress, c.attempts, stop);
  }

  /** One more transport call keeps the counters in step. */
  lemma TracksOneMore(c: Counters, mails: seq<Mail>, mail: Mail, total: nat, deliver: (nat, Mail) -> bool)
    requires Tracks(c, mails, total, deliver) && |mails| < total
    ensures var ok := deliver(|mails|, mail);
            Tracks(Counters(c.current + 1,
                            c.successes + (if ok then 1 else 0),
                            c.failures + (if ok then 0 else 1),
                            c.progress + [Fraction(c.current + 1, total)],
                            c.attempts + [Attempt(mail, ok)]),
                   mails + [mail], total, deliver)
  {
    var ok := deliver(|mails|, mail);
    var attempts := c.attempts + [Attempt(mail, ok)];
    AttemptsGrow(mails, mail, deliver);
    ProgressGrows(c.current, total);
    assert attempts[..|attempts| - 1] == c.attempts;
  }

  lemma AttemptsGrow(mails: seq<Mail>, m: Mail, deliver: (nat, Mail) -> bool)
    ensures Attempts(mails + [m], deliver) == Attempts(mails, deliver) + [Attempt(m, deliver(|mails|, m))]
  {
    var l, r := Attempts(mails + [m], deliver), Attempts(mails, deliver) + [Attempt(m, deliver(|mails|, m))];
    assert forall k :: 0 <= k < |l| ==> l[k] == r[k];
  }

  lemma ProgressGrows(n: nat, total: nat)
    requires n < total
    ensures Progress(n + 1, total) == Progress(n, total) + [Fraction(n + 1, total)]
  {
    var l, r := Progress(n + 1, total), Progress(n, total) + [Fraction(n + 1, total)];
    assert forall k :: 0 <= k < |l| ==> l[k] == r[k];
  }

  lemma {:induction false} TotalFailureSticks(regs: seq<Json>, i: nat)
    requires i <= |regs| && TotalMembers(regs[..i]).Failure?
    ensures TotalMembers(regs) == TotalMembers(regs[..i])
    decreases |regs|
  {
    if i < |regs| {
      var init := regs[..|regs| - 1];
      assert init[..i] == regs[..i];
      TotalFailureSticks(init, i);
    } else {
      assert regs[..i] == regs;
    }
  }

  /** The counting loop's partial sums grow registration by registration up
      to the total. */
  lemma {:induction false} TotalPrefix(regs: seq<Json>, i: nat)
    requires i < |regs| && TotalMembers(regs).Success?
    ensures TotalMembers(regs[..i]).Success? && MemberCount(regs[i]).Success?
    ensures TotalMembers(regs[..i + 1]) == Success(TotalMembers(regs[..i]).value + MemberCount(regs[i]).value)
    ensures TotalMembers(regs[..i + 1]).value <= TotalMembers(regs).value
    decreases |regs|
  {
    var init := regs[..|regs| - 1];
    assert regs[..i + 1][..i] == regs[..i];
    if i + 1 < |regs| {
      assert init[..i] == regs[..i] && init[..i + 1] == regs[..i + 1] && init[i] == regs[i];
      TotalPrefix(init, i);
    } else {
      assert init == regs[..i] && regs[..i + 1] == regs;
    }
  }

  lemma RunLast(steps: seq<Step>, step: Step)
    ensures Run(steps + [step]) == Then(Run(steps), step)
  {
    assert (steps + [step])[..|steps|] == steps;
  }

  lemma StepsPrefix(shared: Shared, members: seq<Json>, j: nat, sender: string, reprOf: Json -> string)
    requires j <= |members|
    ensures Steps(shared, members[..j], sender, reprOf) == Steps(shared, members, sender, reprOf)[..j]
  {
  }

  /** The loop over the members is its last member's step after the loop
      over the others. */
  lemma MembersPlanLast(shared: Shared, members: seq<Json>, sender: string, reprOf: Json -> string)
    requires members != []
    ensures MembersPlan(shared, members, sender, reprOf)
         == Then(MembersPlan(shared, members[..|members| - 1], sender, reprOf), MemberStep(shared, members[|members| - 1], sender, reprOf))
  {
    var steps := Steps(shared, members, sender, reprOf);
    StepsPrefix(shared, members, |members| - 1, sender, reprOf);
    assert steps == steps[..|members| - 1] + [steps[|members| - 1]];
    RunLast(steps[..|members| - 1], steps[|members| - 1]);
  }

  /** The member loop over two members is the first one's step, then the
      second one's. */
  lemma TwoMembers(shared: Shared, a: Json, b: Json, sender: string, reprOf: Json -> string)
    ensures MembersPlan(shared, [a, b], sender, reprOf)
         == Then(Then(Empty, MemberStep(shared, a, sender, reprOf)), MemberStep(shared, b, sender, reprOf))
  {
    var steps := Steps(shared, [a, b], sender, reprOf);
    var first := steps[..1];
    assert first[..0] == [] && first[0] == steps[0];
    assert Run(first) == Then(Empty, steps[0]);
    assert steps[..|steps| - 1] == first;
    assert Run(steps) == Then(Run(first), steps[1]);
  }

  /** One more step of the loop, seen from the mails handed over before
      the stretch began. */
  lemma RunPrefixStep(steps: seq<Step>, j: nat, mails: seq<Mail>)
    requires j < |steps| && Run(steps[..j]).stop == None
    ensures Run(steps[..j + 1]) == Then(Run(steps[..j]), steps[j])
    ensures Then(Plan(mails + Run(steps[..j]).mails, None), steps[j]).mails == mails + Run(steps[..j + 1]).mails
  {
    assert steps[..j + 1] == steps[..j] + [steps[j]];
    RunLast(steps[..j], steps[j]);
  }

  lemma {:induction false} RunStopSticks(steps: seq<Step>, j: nat)
    requires j <= |steps| && Run(steps[..j]).stop.Some?
    ensures Run(steps) == Run(steps[..j])
    decreases |steps|
  {
    if j < |steps| {
      var init := steps[..|steps| - 1];
      assert init[..j] == steps[..j];
      RunStopSticks(init, j);
    } else {
      assert steps[..j] == steps;
    }
  }

  /** One more registration of the outer loop. */
  lemma RegsPlanPrefixStep(regs: seq<Json>, i: nat, sender: string, reprOf: Json -> string, mails: seq<Mail>)
    requires i < |regs| && RegsPlan(regs[..i], sender, reprOf) == Plan(mails, None)
    ensures var next := RegPlan(regs[i], sender, reprOf);
            RegsPlan(regs[..i + 1], sender, reprOf) == Plan(mails + next.mails, next.stop)
  {
    assert regs[..i + 1][..i] == regs[..i];
  }

  lemma {:induction false} RegsStopSticks(regs: seq<Json>, i: nat, sender: string, reprOf: Json -> string)
    requires i <= |regs| && RegsPlan(regs[..i], sender, reprOf).stop.Some?
    ensures RegsPlan(regs, sender, reprOf) == RegsPlan(regs[..i], sender, reprOf)
    decreases |regs|
  {
    if i < |regs| {
      var init := regs[..|regs| - 1];
      assert init[..i] == regs[..i];
      RegsStopSticks(init, i, sender, reprOf);
    } else {
      assert regs[..i] == regs;
    }
  }

  /** A run that no exception cut short mails exactly the members that have
      a truthy email: the final `current_idx` is that number. */
  lemma {:induction false} CompletedMembersCountEmailed(shared: Shared, members: seq<Json>, sender: string, reprOf: Json -> string)
    requires MembersPlan(shared, members, sender, reprOf).stop.None?
    ensures |MembersPlan(shared, members, sender, reprOf).mails| == CountEmailed(members)
    decreases |members|
  {
    if members != [] {
      var init := members[..|members| - 1];
      var last := members[|members| - 1];
      MembersPlanLast(shared, members, sender, reprOf);
      var p := MembersPlan(shared, init, sender, reprOf);
      var step := MemberStep(shared, last, sender, reprOf);
      assert MembersPlan(shared, members, sender, reprOf) == Then(p, step);
      assert p.stop.None? && !step.Abort?;
      CompletedMembersCountEmailed(shared, init, sender, reprOf);
      assert step.Send? <==> HasEmail(last);
    }
  }

  lemma {:induction false} CompletedPlanCountsEmailed(regs: seq<Json>, sender: string, reprOf: Json -> string)
    requires RegsPlan(regs, sender, reprOf).stop.None?
    ensures |RegsPlan(regs, sender, reprOf).mails| == Emailed(regs)
    decreases |regs|
  {
    if regs != [] {
      var init := regs[..|regs| - 1];
      var reg := regs[|regs| - 1];
      CompletedPlanCountsEmailed(init, sender, reprOf);
      if reg.JObject? && MemberItems(reg).Success? {
        CompletedMembersCountEmailed(SharedOf(reg.fields), MemberItems(reg).value, sender, reprOf);
      }
    }
  }

  lemma AppendThen(p: Plan, q: Plan, s: Step)
    ensures Append(p, Then(q, s)) == Then(Append(p, q), s)
  {
  }

  /** The loop over `a + b` is the loop over `a` followed by the loop over
      `b`. */
  lemma {:induction false} RunSplit(a: seq<Step>, b: seq<Step>)
    ensures Run(a + b) == Append(Run(a), Run(b))
    decreases |b|
  {
    if b == [] {
      assert a + b == a;
    } else {
      var init := b[..|b| - 1];
      assert a + b == (a + init) + [b[|b| - 1]];
      assert b == init + [b[|b| - 1]];
      RunLast(a + init, b[|b| - 1]);
      RunLast(init, b[|b| - 1]);
      RunSplit(a, init);
      AppendThen(Run(a), Run(init), b[|b| - 1]);
    }
  }

  /** Each member's step depends on that member alone. */
  lemma StepsSplit(shared: Shared, a: seq<Json>, b: seq<Json>, sender: string, reprOf: Json -> string)
    ensures Steps(shared, a + b, sender, reprOf) == Steps(shared, a, sender, reprOf) + Steps(shared, b, sender, reprOf)
  {
    var whole, parts := Steps(shared, a + b, sender, reprOf), Steps(shared, a, sender, reprOf) + Steps(shared, b, sender, reprOf);
    forall k | 0 <= k < |whole|
      ensures whole[k] == parts[k]
    {
      if k < |a| {
        assert (a + b)[k] == a[k];
      } else {
        assert (a + b)[k] == b[k - |a|];
      }
    }
  }

  lemma MembersSplit(shared: Shared, a: seq<Json>, b: seq<Json>, sender: string, reprOf: Json -> string)
    ensures MembersPlan(shared, a + b, sender, reprOf)
         == Append(MembersPlan(shared, a, sender, reprOf), MembersPlan(shared, b, sender, reprOf))
  {
    StepsSplit(shared, a, b, sender, reprOf);
    RunSplit(Steps(shared, a, sender, reprOf), Steps(shared, b, sender, reprOf));
  }

  /** A member object without a truthy email, wherever it stands, changes
      nothing the loop does: no transport call, no counter, no progress
      step, and every later member is handled as if it were not there. */
  lemma SkippedMemberInvisible(shared: Shared, before: seq<Json>, m: Json, after: seq<Json>, sender: string, reprOf: Json -> string)
    requires m.JObject? && !Truthy(Get(m.fields, "email"))
    ensures MembersPlan(shared, before + [m] + after, sender, reprOf) == MembersPlan(shared, before + after, sender, reprOf)
  {
    MembersSplit(shared, before + [m], after, sender, reprOf);
    MembersSplit(shared, before, after, sender, reprOf);
    MembersPlanLast(shared, before + [m], sender, reprOf);
    assert (before + [m])[..|before|] == before;
  }

  /** ... and yet it is counted in the progress denominator. */
  lemma SkippedMemberStillCounted(fields: map<string, Json>, before: seq<Json>, m: Json, after: seq<Json>, sender: string, reprOf: Json -> string)
    requires m.JObject? && !Truthy(Get(m.fields, "email"))
    ensures var without := JObject(fields["members" := JArray(before + after)]);
            var with := JObject(fields["members" := JArray(before + [m] + after)]);
            && MemberCount(with) == Success(MemberCount(without).value + 1)
            && RegPlan(with, sender, reprOf) == RegPlan(without, sender, reprOf)
  {
    var without := fields["members" := JArray(before + after)];
    var with := fields["members" := JArray(before + [m] + after)];
    assert SharedOf(with) == SharedOf(without);
    SkippedMemberInvisible(SharedOf(with), before, m, after, sender, reprOf);
  }

  /** A mail carries the QR payload, ID label and subject of the
      registration's shared fields. */
  predicate FromRegistration(mail: Mail, shared: Shared, reprOf: Json -> string) {
    && mail.pass.qrPayload == QrPayload(shared.regId, reprOf)
    && mail.pass.idLabel == IdLabel(shared.regId, reprOf)
    && mail.subject == Subject(shared.eventName, reprOf)
  }

  /** Every mail of one registration carries the same QR payload, ID label
      and subject, taken from the registration and not from the member. */
  lemma {:induction false} MailsShareRegistration(shared: Shared, members: seq<Json>, sender: string, reprOf: Json -> string)
    ensures forall mail <- MembersPlan(shared, members, sender, reprOf).mails :: FromRegistration(mail, shared, reprOf)
    decreases |members|
  {
    if members != [] {
      var init := members[..|members| - 1];
      var step := MemberStep(shared, members[|members| - 1], sender, reprOf);
      MailsShareRegistration(shared, init, sender, reprOf);
      var p := MembersPlan(shared, init, sender, reprOf);
      MembersPlanLast(shared, members, sender, reprOf);
      if p.stop.None? && step.Send? {
        assert FromRegistration(step.mail, shared, reprOf);
      }
    }
  }

  lemma RegistrationSharesCode(reg: Json, sender: string, reprOf: Json -> string)
    requires reg.JObject?
    ensures forall mail <- RegPlan(reg, sender, reprOf).mails :: mail.pass.qrPayload == QrPayload(RegistrationId(reg.fields), reprOf)
  {
    if MemberItems(reg).Success? {
      var shared := SharedOf(reg.fields);
      assert shared.regId == RegistrationId(reg.fields);
      MailsShareRegistration(shared, MemberItems(reg).value, sender, reprOf);
      assert RegPlan(reg, sender, reprOf) == MembersPlan(shared, MemberItems(reg).value, sender, reprOf);
    }
  }

  /** When the transport fails for exactly one attempt, every other attempt
      still happens and succeeds: one failure, all the rest successes. */
  lemma {:induction false} SingleFailureIsolated(mails: seq<Mail>, deliver: (nat, Mail) -> bool, n: nat)
    requires n < |mails| && !deliver(n, mails[n])
    requires forall k :: 0 <= k < |mails| && k != n ==> deliver(k, mails[k])
    ensures CountSent(Attempts(mails, deliver)) == |mails| - 1
    decreases |mails|
  {
    var attempts := Attempts(mails, deliver);
    var init := mails[..|mails| - 1];
    assert attempts[..|attempts| - 1] == Attempts(init, deliver);
    if n < |mails| - 1 {
      SingleFailureIsolated(init, deliver, n);
    } else {
      AllSent(init, deliver);
    }
  }

  lemma {:induction false} AllSent(mails: seq<Mail>, deliver: (nat, Mail) -> bool)
    requires forall k :: 0 <= k < |mails| ==> deliver(k, mails[k])
    ensures CountSent(Attempts(mails, deliver)) == |mails|
    decreases |mails|
  {
    if mails != [] {
      var init := mails[..|mails| - 1];
      assert Attempts(mails, deliver)[..|mails| - 1] == Attempts(init, deliver);
      AllSent(init, deliver);
    }
  }
}
