/** Worked examples of the batch over concrete uploads. */
module Scenario {
  import opened Wrappers
  import opened Errors
  import opened PyJson
  import opened PyText
  import opened Normalizer
  import opened PassRender
  import opened MailCompose
  import opened Dispatch

  /** A captain with an email whose name is the given words joined by
      spaces; the name is a parameter so that the examples hold for every
      such name. */
  function Captain(words: seq<string>): Json {
    JObject(map["name" := JStr(Join(words, " ")), "email" := JStr("a@x.com"), "role" := JStr("Captain")])
  }

  const Ben: Json := JObject(map["name" := JStr("Ben Lee")])

  function LanCup(words: seq<string>): (r: Json)
    ensures r.JObject?
  {
    JObject(map[
      "eventName" := JStr("LAN Cup"),
      "registrationID" := JStr("R1"),
      "teamName" := JStr("Alpha"),
      "members" := JArray([Captain(words), Ben])])
  }

  function Upload(words: seq<string>): Json {
    JObject(map["registrations" := JArray([LanCup(words)])])
  }

  const LanCupShared: Shared := Shared(JStr("LAN Cup"), JStr("R1"), JStr("Alpha"))

  predicate Words(words: seq<string>) {
    words != [] && forall k :: 0 <= k < |words| ==> words[k] != [] && NoSpace(words[k])
  }

  lemma LanCupFields(words: seq<string>)
    ensures SharedOf(LanCup(words).fields) == LanCupShared
    ensures MemberItems(LanCup(words)) == Success([Captain(words), Ben])
  {
  }

  /** The concatenations `CaptainPass` needs, kept apart so that their
      string literals stay out of the larger proof. */
  lemma CaptainLiterals()
    ensures "Captain" + " | " + "Alpha" == "Captain | Alpha"
    ensures "ID: " + "R1" == "ID: R1"
  {
  }

  lemma CaptainPass(words: seq<string>, reprOf: Json -> string)
    ensures var pass := RenderPass(Captain(words).fields, JStr("LAN Cup"), JStr("R1"), JStr("Alpha"), reprOf);
            && pass.Success?
            && pass.value.roleLine == "Captain | Alpha"
            && pass.value.idLabel == "ID: R1"
            && pass.value.qrPayload == "R1"
  {
    PassOfStrings(Captain(words).fields, "Captain", JStr("LAN Cup"), "R1", "Alpha", reprOf);
    CaptainLiterals();
  }

  lemma CaptainIsMailed(words: seq<string>, sender: string, reprOf: Json -> string)
    requires Words(words)
    ensures var step := MemberStep(LanCupShared, Captain(words), sender, reprOf);
            && step.Send?
            && step.mail.to == JStr("a@x.com")
            && step.mail.filename == "EventPass-" + words[0] + ".png"
            && step.mail.pass.roleLine == "Captain | Alpha"
            && step.mail.pass.idLabel == "ID: R1"
            && step.mail.pass.qrPayload == "R1"
  {
    var captain := Captain(words);
    assert captain.fields["name"] == JStr(Join(words, " ")) && captain.fields["email"] == JStr("a@x.com");
    assert HasEmail(captain);
    CaptainPass(words, reprOf);
    AttachmentNameOfWords(words);
  }

  lemma BenIsSkipped(sender: string, reprOf: Json -> string)
    ensures MemberStep(LanCupShared, Ben, sender, reprOf) == Skip
  {
  }

  /** Both members of the team count toward the denominator; only the
      captain has an email. */
  lemma LanCupCounts(words: seq<string>)
    ensures Registrations(Upload(words)) == Success([LanCup(words)])
    ensures TotalMembers([LanCup(words)]) == Success(2)
    ensures Emailed([LanCup(words)]) == 1
  {
    var captain := Captain(words);
    var reg := LanCup(words);
    LanCupFields(words);
    assert [reg][..0] == [];
    assert [captain, Ben][..1] == [captain] && [captain][..0] == [];
    assert CountEmailed([captain]) == 1;
    assert CountEmailed([captain, Ben]) == 1;
  }

  /** The preview of the LAN Cup upload renders the captain's pass, so the
      button appears and the batch reaches the send loop. */
  lemma LanCupPreviewPasses(words: seq<string>)
    ensures PreviewFailure([LanCup(words)]) == None
  {
    LanCupFields(words);
  }

  lemma OneRegistration(reg: Json, sender: string, reprOf: Json -> string)
    ensures RegsPlan([reg], sender, reprOf) == RegPlan(reg, sender, reprOf)
  {
    assert [reg][..0] == [];
  }

  /** A team of two where only the captain gave an email: one mail goes out,
      and its attachment is named after the first word of the captain's
      name. */
  lemma LanCupBatch(words: seq<string>, sender: string, reprOf: Json -> string)
    requires Words(words)
    ensures var plan := RegsPlan([LanCup(words)], sender, reprOf);
            && plan.stop == None && |plan.mails| == 1
            && plan.mails[0].filename == "EventPass-" + words[0] + ".png"
            && plan.mails[0].pass.roleLine == "Captain | Alpha"
  {
    LanCupFields(words);
    CaptainIsMailed(words, sender, reprOf);
    BenIsSkipped(sender, reprOf);
    TwoMembers(LanCupShared, Captain(words), Ben, sender, reprOf);
    OneRegistration(LanCup(words), sender, reprOf);
  }

  /** A member with an email but without a `name` key ends the whole batch:
      `member_data['name']` raises outside any `try`, and the members after
      it get no mail, although they have an email. */
  lemma NamelessMemberEndsBatch(words: seq<string>, sender: string, reprOf: Json -> string)
    ensures var nameless := JObject(map["email" := JStr("x@x.com")]);
            var reg := JObject(map["members" := JArray([nameless, Captain(words)])]);
            RegsPlan([reg], sender, reprOf) == Plan([], Some(MissingName))
  {
    var nameless := JObject(map["email" := JStr("x@x.com")]);
    var captain := Captain(words);
    var reg := JObject(map["members" := JArray([nameless, captain])]);
    var shared := SharedOf(reg.fields);
    assert MemberItems(reg) == Success([nameless, captain]);
    assert HasEmail(nameless) && "name" !in nameless.fields;
    TwoMembers(shared, nameless, captain, sender, reprOf);
    OneRegistration(reg, sender, reprOf);
  }

  /** Both members of that registration have an email and so count as
      emailed, although neither receives a mail. */
  lemma NamelessRegistrationCounts(words: seq<string>)
    ensures var nameless := JObject(map["email" := JStr("x@x.com")]);
            var reg := JObject(map["members" := JArray([nameless, Captain(words)])]);
            Emailed([reg]) == 2
  {
    var nameless := JObject(map["email" := JStr("x@x.com")]);
    var captain := Captain(words);
    var reg := JObject(map["members" := JArray([nameless, captain])]);
    assert MemberItems(reg) == Success([nameless, captain]);
    assert [reg][..0] == [];
    assert [nameless, captain][..1] == [nameless] && [nameless][..0] == [];
    assert CountEmailed([nameless, captain]) == 2;
  }

  /** An upload whose first team lists no members: the counting loop finds
      one member in all, yet the preview raises, so the button that starts
      the batch never appears. */
  lemma MemberlessFirstTeamBlocksBatch()
    ensures var m := JObject(map["name" := JStr("X"), "email" := JStr("x@y")]);
            var regs := [JObject(map["eventName" := JStr("A")]), JObject(map["members" := JArray([m])])];
            && PreviewFailure(regs) == Some(NoPreviewMember)
            && TotalMembers(regs) == Success(1)
  {
    var m := JObject(map["name" := JStr("X"), "email" := JStr("x@y")]);
    var first := JObject(map["eventName" := JStr("A")]);
    var regs := [first, JObject(map["members" := JArray([m])])];
    assert MemberCount(first) == Success(0);
    EmptyFirstTeamBlocks(regs);
    assert regs[..1] == [first] && regs[..1][..0] == [];
  }
}
