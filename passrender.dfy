/** The information `generate_pass_image` places on a pass (app.py:76-149).
    The canvas, gradient, shapes, fonts, logos and the QR symbol itself are
    drawing work; what remains is the text of each region and the QR payload. */
module PassRender {
  import opened Wrappers
  import opened Errors
  import opened PyJson
  import opened PyText

  /** The information-bearing regions of one rendered pass. */
  datatype Pass = Pass(
    title: string,      // event name, upper-cased (app.py:98)
    attendee: string,   // member name, upper-cased (app.py:108)
    roleLine: string,   // "<role> | <team>" (app.py:111)
    idLabel: string,    // "ID: <registration id>" (app.py:117)
    qrPayload: string   // the data the QR code encodes (app.py:128)
  )

  /** `str(x).upper()`: how the title writes the event name (app.py:98) and
      the attendee line writes the member's name (app.py:108). */
  function UpperText(v: Json, reprOf: Json -> string): (r: string)
    ensures |r| == |Text(v, reprOf)|
    ensures forall k :: 0 <= k < |r| ==> !IsLower(r[k])
    ensures forall k :: 0 <= k < |r| ==>
              var c := Text(v, reprOf)[k];
              r[k] == c || (IsLower(c) && r[k] as int == c as int - 32)
  {
    Upper(Text(v, reprOf))
  }

  /** `f"{member_data.get('role', 'PARTICIPANT')} | {team_name}"` (app.py:111). */
  function RoleLine(member: map<string, Json>, teamName: Json, reprOf: Json -> string): (r: string)
    ensures var role := Text(GetOr(member, "role", JStr("PARTICIPANT")), reprOf);
            var team := Text(teamName, reprOf);
            && |r| == |role| + 3 + |team|
            && r[..|role|] == role
            && r[|role|..|role| + 3] == " | "
            && r[|role| + 3..] == team
  {
    Text(GetOr(member, "role", JStr("PARTICIPANT")), reprOf) + " | " + Text(teamName, reprOf)
  }

  /** The role default is taken only when the `role` key is absent: a role
      that is present but empty or null is written as it is, because the
      line uses `.get` with a default and not `or`. */
  lemma RoleDefaultOnlyWhenAbsent(member: map<string, Json>, teamName: Json, reprOf: Json -> string)
    ensures "role" !in member ==> RoleLine(member, teamName, reprOf) == "PARTICIPANT | " + Text(teamName, reprOf)
    ensures "role" in member && member["role"] == JStr("") ==> RoleLine(member, teamName, reprOf) == " | " + Text(teamName, reprOf)
    ensures "role" in member && member["role"] == JNull ==> RoleLine(member, teamName, reprOf) == "None | " + Text(teamName, reprOf)
  {
    var team := Text(teamName, reprOf);
    var role := GetOr(member, "role", JStr("PARTICIPANT"));
    assert RoleLine(member, teamName, reprOf) == Text(role, reprOf) + " | " + team;
    if "role" !in member {
      assert Text(role, reprOf) == "PARTICIPANT";
    } else if member["role"] == JStr("") {
      assert Text(role, reprOf) == "";
    } else if member["role"] == JNull {
      assert Text(role, reprOf) == "None";
    }
  }

  /** `f"ID: {reg_id}"` (app.py:117): the label shows the QR payload
      verbatim, without upper-casing. */
  function IdLabel(regId: Json, reprOf: Json -> string): (r: string)
    ensures |r| >= 4 && r[..4] == "ID: "
    ensures r[4..] == QrPayload(regId, reprOf)
  {
    "ID: " + Text(regId, reprOf)
  }

  /** `str(reg_id)`, the only data given to the QR code (app.py:128). A
      string id is encoded unchanged; a numeric id is encoded as its decimal
      form without leading zeros, which reads back as the same number. */
  function QrPayload(regId: Json, reprOf: Json -> string): (r: string)
    ensures regId.JStr? ==> r == regId.s
    ensures regId.JInt? ==> r == Decimal(regId.i) && Canonical(r) && ParseDecimal(r) == regId.i
  {
    Text(regId, reprOf)
  }

  /** `generate_pass_image(member_data, event_name, reg_id, team_name)`:
      `member_data['name']` raises when the key is absent. Missing fonts and
      logos fall back silently. The QR library also raises when the payload
      exceeds the largest QR symbol; that limit is not part of this model. */
  function RenderPass(member: map<string, Json>, eventName: Json, regId: Json, teamName: Json, reprOf: Json -> string): (r: Result<Pass, Error>)
    ensures r.Failure? <==> "name" !in member
    ensures r.Failure? ==> r.error == MissingName
    ensures r.Success? ==> r.value.qrPayload == QrPayload(regId, reprOf) && r.value.idLabel == IdLabel(regId, reprOf)
    ensures r.Success? ==> r.value.title == UpperText(eventName, reprOf)
                           && r.value.attendee == UpperText(member["name"], reprOf)
                           && r.value.roleLine == RoleLine(member, teamName, reprOf)
  {
    if "name" !in member then Failure(MissingName)
    else
      Success(Pass(
        UpperText(eventName, reprOf),
        UpperText(member["name"], reprOf),
        RoleLine(member, teamName, reprOf),
        IdLabel(regId, reprOf),
        QrPayload(regId, reprOf)))
  }

  /** For a string role, registration id and team: the role line is the
      role, the separator and the team; the ID label and the QR payload
      carry the id. */
  lemma PassOfStrings(member: map<string, Json>, role: string, eventName: Json, regId: string, team: string, reprOf: Json -> string)
    requires "name" in member && "role" in member && member["role"] == JStr(role)
    ensures var pass := RenderPass(member, eventName, JStr(regId), JStr(team), reprOf);
            && pass.Success?
            && pass.value.roleLine == role + " | " + team
            && pass.value.idLabel == "ID: " + regId
            && pass.value.qrPayload == regId
  {
  }

  /** Two members rendered with the same registration fields get the same
      title, ID label and QR payload: the code identifies the registration,
      not the member. Only the name and role regions depend on the member. */
  lemma SharedRegionsIgnoreMember(m1: map<string, Json>, m2: map<string, Json>, eventName: Json, regId: Json, teamName: Json, reprOf: Json -> string)
    requires "name" in m1 && "name" in m2
    ensures var p1 := RenderPass(m1, eventName, regId, teamName, reprOf).value;
            var p2 := RenderPass(m2, eventName, regId, teamName, reprOf).value;
            p1.title == p2.title && p1.idLabel == p2.idLabel && p1.qrPayload == p2.qrPayload
    ensures GetOr(m1, "role", JStr("PARTICIPANT")) == GetOr(m2, "role", JStr("PARTICIPANT")) ==>
              RenderPass(m1, eventName, regId, teamName, reprOf).value.roleLine
              == RenderPass(m2, eventName, regId, teamName, reprOf).value.roleLine
  {
  }
}
