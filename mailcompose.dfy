/** The message `send_single_email` assembles around a pass (app.py:151-185):
    sender header, subject, the social-links footer of the HTML body and the
    attachment's file name. Handing the message to SMTP is the delivery
    oracle of the dispatch loop. */
module MailCompose {
  import opened Wrappers
  import opened Errors
  import opened PyJson
  import opened PyText
  import opened PassRender

  /** `SOCIAL_LINKS`, in the dict's insertion order (app.py:22-29). */
  const SocialLinks: seq<(string, string)> := [
    ("GitHub", "https://github.com/gameliminals"),
    ("Discord", "https://discord.gg/7szdDMp4Hv"),
    ("Instagram", "https://www.instagram.com/gameliminals?igsh=b2V3NzRidDd3OHF6"),
    ("LinkedIn", "https://www.linkedin.com/company/gameliminals/"),
    ("Youtube", "https://www.youtube.com/@GameLiminals"),
    ("Facebook", "https://www.facebook.com/gameliminals")
  ]

  /** The inline style of every footer link. */
  const AnchorStyle: string := "margin:0 10px;color:#6366f1;text-decoration:none;font-weight:bold;"

  /** The opening tag of a footer link. */
  function AnchorOpen(link: string): string {
    "<a href=\"" + link + "\" style=\"" + AnchorStyle + "\">"
  }

  /** One link of the footer. */
  function Anchor(platform: string, link: string): (r: string)
    ensures r != [] && r[|r| - 1] == '>'
  {
    var close := "</a>";
    assert close[|close| - 1] == '>';
    AnchorOpen(link) + platform + close
  }

  function Anchors(links: seq<(string, string)>): (r: seq<string>)
    ensures |r| == |links|
  {
    seq(|links|, k requires 0 <= k < |links| => Anchor(links[k].0, links[k].1))
  }

  /** `"".join([f'<a ...>{p}</a> | ' for p, link in SOCIAL_LINKS.items()])`. */
  function AnchorItems(links: seq<(string, string)>): string {
    if links == [] then "" else Anchor(links[0].0, links[0].1) + " | " + AnchorItems(links[1..])
  }

  const FooterStrip: set<char> := {' ', '|'}

  /** `... .rstrip(" | ")` (app.py:157): the argument is the character set
      {' ', '|'}, so trailing spaces and bars are removed one by one. */
  function SocialHtml(links: seq<(string, string)>): (r: string)
    ensures r == [] || (r[|r| - 1] != ' ' && r[|r| - 1] != '|')
  {
    assert ' ' in FooterStrip && '|' in FooterStrip;
    RStrip(AnchorItems(links), FooterStrip)
  }

  lemma {:induction false} JoinEndsWithLast(parts: seq<string>, sep: string)
    requires parts != [] && parts[|parts| - 1] != []
    ensures var j := Join(parts, sep); j != [] && j[|j| - 1] == parts[|parts| - 1][|parts[|parts| - 1]| - 1]
    decreases |parts|
  {
    if |parts| > 1 {
      JoinEndsWithLast(parts[1..], sep);
    }
  }

  lemma {:induction false} AnchorItemsIsJoinThenBar(links: seq<(string, string)>)
    requires links != []
    ensures AnchorItems(links) == Join(Anchors(links), " | ") + " | "
    decreases |links|
  {
    if |links| > 1 {
      AnchorItemsIsJoinThenBar(links[1..]);
      assert Anchors(links)[1..] == Anchors(links[1..]);
    }
  }

  /** Stripping the footer removes exactly the one trailing " | ": the
      footer is the anchors joined with " | ", because every anchor ends in
      '>', which the strip set does not hold. */
  lemma SocialHtmlIsJoin(links: seq<(string, string)>)
    ensures SocialHtml(links) == Join(Anchors(links), " | ")
  {
    if links != [] {
      var anchors := Anchors(links);
      AnchorItemsIsJoinThenBar(links);
      JoinEndsWithLast(anchors, " | ");
      RStripUnique(Join(anchors, " | "), " | ", FooterStrip);
    }
  }

  const SubjectPrefix: string := "\U{1F39F}\U{FE0F} Your Digital Pass: "

  /** `f"🎟️ Your Digital Pass: {event_name}"` (app.py:155). */
  function Subject(eventName: Json, reprOf: Json -> string): (r: string)
    ensures |r| == |SubjectPrefix| + |Text(eventName, reprOf)|
    ensures r[..|SubjectPrefix|] == SubjectPrefix && r[|SubjectPrefix|..] == Text(eventName, reprOf)
  {
    SubjectPrefix + Text(eventName, reprOf)
  }

  /** `f"GameLiminals Club <{sender_email}>"` (app.py:153). */
  function FromHeader(sender: string): (r: string)
    ensures |r| == |sender| + 20
    ensures r[..19] == "GameLiminals Club <" && r[|r| - 1] == '>'
    ensures r[19..|r| - 1] == sender
  {
    "GameLiminals Club <" + sender + ">"
  }

  /** `f'EventPass-{name.split()[0]}.png'` (app.py:184). A name that is not
      a string has no `split`; a blank one splits into no words, and `[0]`
      raises. */
  function AttachmentName(name: Json): (r: Result<string, Error>)
    ensures r.Success? <==> name.JStr? && !Blank(name.s)
    ensures r.Failure? ==> r.error == NameWithoutToken
    ensures r.Success? ==> |r.value| > 14 && r.value[..10] == "EventPass-" && r.value[|r.value| - 4..] == ".png"
    ensures r.Success? ==> NoSpace(r.value[10..|r.value| - 4])
    ensures r.Success? ==> r.value == "EventPass-" + Split(name.s)[0] + ".png"
  {
    if name.JStr? && Split(name.s) != [] then
      var first := Split(name.s)[0];
      var r := "EventPass-" + first + ".png";
      assert r[10..|r| - 4] == first;
      Success(r)
    else Failure(NameWithoutToken)
  }

  /** The file name carries the first maximal run of non-whitespace of the
      name, whatever whitespace surrounds it. */
  lemma AttachmentNameFirstWord(name: string, i: nat, j: nat)
    requires i < j <= |name|
    requires Blank(name[..i]) && NoSpace(name[i..j])
    requires j == |name| || IsSpace(name[j])
    ensures AttachmentName(JStr(name)) == Success("EventPass-" + name[i..j] + ".png")
  {
    SplitFirstWord(name, i, j);
  }

  /** For a name made of words separated by single spaces, the file name
      carries the first word. */
  lemma AttachmentNameOfWords(words: seq<string>)
    requires words != []
    requires forall k :: 0 <= k < |words| ==> words[k] != [] && NoSpace(words[k])
    ensures AttachmentName(JStr(Join(words, " "))) == Success("EventPass-" + words[0] + ".png")
  {
    SplitOfJoin(words);
  }

  /** The parts of the HTML body that vary from one message to the next:
      the welcome line's event name and the greeting's name
      (app.py:159-173). */
  datatype Body = Body(eventName: string, recipientName: string) {
    /** The footer, the same in every message (app.py:168). */
    function Footer(): string {
      SocialHtml(SocialLinks)
    }
  }

  /** One message as `send_single_email` hands it to SMTP. */
  datatype Mail = Mail(from: string, to: Json, subject: string, body: Body, filename: string, pass: Pass)

  /** Everything `send_single_email` does before its `try`: composing the
      headers, the body and the attachment name. Only the attachment name
      can raise. */
  function ComposeMail(sender: string, to: Json, name: Json, eventName: Json, pass: Pass, reprOf: Json -> string): (r: Result<Mail, Error>)
    ensures r.Success? <==> AttachmentName(name).Success?
    ensures r.Failure? ==> r.error == NameWithoutToken
    ensures r.Success? ==> r.value.to == to && r.value.pass == pass && r.value.filename == AttachmentName(name).value
    ensures r.Success? ==> r.value.subject == Subject(eventName, reprOf) && r.value.from == FromHeader(sender)
    ensures r.Success? ==> r.value.body == Body(Text(eventName, reprOf), name.s)
  {
    match AttachmentName(name)
    case Failure(e) => Failure(e)
    case Success(filename) =>
      Success(Mail(
        FromHeader(sender),
        to,
        Subject(eventName, reprOf),
        Body(Text(eventName, reprOf), Text(name, reprOf)),
        filename,
        pass))
  }
}
