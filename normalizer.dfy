/** Reading the uploaded document: the registration list (app.py:218), the
    three registration-level fields with their `or` fallbacks (app.py:258-260)
    and a registration's `members` value, as the counting loop (app.py:251-252)
    and the send loop (app.py:262) use it. */
module Normalizer {
  import opened Wrappers
  import opened Errors
  import opened PyJson

  /** `data if isinstance(data, list) else data.get('registrations', [])`,
      followed by the `len()` the page takes of it (app.py:220) and the
      iteration and indexing over it. A top-level value that is neither a
      list nor an object has no `.get`; a `registrations` value that is not
      a list is usable only when it is empty ("" or {}). */
  function Registrations(doc: Json): (r: Result<seq<Json>, Error>)
    ensures doc.JArray? ==> r == Success(doc.items)
    ensures r.Success? && doc.JObject? && "registrations" in doc.fields && doc.fields["registrations"].JArray?
            ==> r.value == doc.fields["registrations"].items
    ensures r.Success? && doc.JObject? && !("registrations" in doc.fields && doc.fields["registrations"].JArray?)
            ==> r.value == []
    ensures doc.JObject? ==> (r.Success? <==> UsableList(GetOr(doc.fields, "registrations", JArray([]))))
    ensures !doc.JArray? && !doc.JObject? ==> r.Failure?
  {
    match doc
    case JArray(items) => Success(items)
    case JObject(fields) =>
      var regs := GetOr(fields, "registrations", JArray([]));
      if regs.JArray? then Success(regs.items)
      else if UsableList(regs) then Success([])
      else Failure(MalformedDocument)
    case _ => Failure(MalformedDocument)
  }

  /** A value that `len()` and a `for` loop over records accept: a list, or
      an empty string or empty object, over which the loop runs zero times. */
  predicate UsableList(v: Json) {
    v.JArray? || v == JStr("") || v == JObject(map[])
  }

  /** `reg.get(primary) or reg.get(fallback) or default`. */
  function Resolve(fields: map<string, Json>, primary: string, fallback: string, default: string): (r: Json)
    ensures Truthy(Get(fields, primary)) ==> r == fields[primary]
    ensures !Truthy(Get(fields, primary)) && Truthy(Get(fields, fallback)) ==> r == fields[fallback]
    ensures !Truthy(Get(fields, primary)) && !Truthy(Get(fields, fallback)) ==> r == JStr(default)
    ensures default != "" ==> Truthy(r)
  {
    var p := Get(fields, primary);
    if Truthy(p) then p
    else
      var f := Get(fields, fallback);
      if Truthy(f) then f else JStr(default)
  }

  /** `reg.get('eventName') or reg.get('event_name') or 'Event'` (app.py:258). */
  function EventName(fields: map<string, Json>): (r: Json)
    ensures Truthy(r)
    ensures r == Get(fields, "eventName") || r == Get(fields, "event_name") || r == JStr("Event")
  {
    Resolve(fields, "eventName", "event_name", "Event")
  }

  /** `reg.get('registrationID') or reg.get('id') or 'N/A'` (app.py:259). */
  function RegistrationId(fields: map<string, Json>): (r: Json)
    ensures Truthy(r)
    ensures r == Get(fields, "registrationID") || r == Get(fields, "id") || r == JStr("N/A")
  {
    Resolve(fields, "registrationID", "id", "N/A")
  }

  /** `reg.get('teamName') or reg.get('team_name') or 'Individual'` (app.py:260). */
  function TeamName(fields: map<string, Json>): (r: Json)
    ensures Truthy(r)
    ensures r == Get(fields, "teamName") || r == Get(fields, "team_name") || r == JStr("Individual")
  {
    Resolve(fields, "teamName", "team_name", "Individual")
  }

  /** An empty or absent primary key never hides a usable fallback, and a
      usable primary always wins over the fallback. */
  lemma EmptyPrimaryNeverShadows(fields: map<string, Json>, primary: string, fallback: string, default: string, x: string)
    requires primary !in fields || fields[primary] == JStr("") || fields[primary] == JNull
    requires fallback in fields && fields[fallback] == JStr(x) && x != ""
    ensures Resolve(fields, primary, fallback, default) == JStr(x)
    ensures Resolve(fields[primary := JStr(x + "!")], primary, fallback, default) == JStr(x + "!")
  {
  }

  /** `reg.get('members', [])`. */
  function MembersValue(fields: map<string, Json>): Json {
    GetOr(fields, "members", JArray([]))
  }

  /** `len(reg.get('members', []))`: what one registration adds to the
      progress denominator. A registration that is not an object has no
      `.get`; a `members` value of null, a boolean or a number has no `len`.
      A string counts its characters and an object its keys. */
  function MemberCount(reg: Json): (r: Result<nat, Error>)
    ensures r.Success? <==> reg.JObject? && !(MembersValue(reg.fields).JNull? || MembersValue(reg.fields).JBool? || MembersValue(reg.fields).JInt?)
    ensures r.Success? && !("members" in reg.fields) ==> r.value == 0
    ensures r.Success? && MembersValue(reg.fields).JArray? ==> r.value == |MembersValue(reg.fields).items|
  {
    if !reg.JObject? then Failure(NotARecord)
    else
      match MembersValue(reg.fields)
      case JArray(items) => Success(|items|)
      case JStr(s) => Success(|s|)
      case JObject(m) => Success(|m|)
      case _ => Failure(MembersWithoutLength)
  }

  /** The members the send loop visits (app.py:262). Iterating a non-empty
      string or object yields strings, and the loop's `member.get` fails on
      the first of them, before anything is sent for that registration. */
  function MemberItems(reg: Json): (r: Result<seq<Json>, Error>)
    requires reg.JObject?
    ensures MembersValue(reg.fields).JArray? ==> r == Success(MembersValue(reg.fields).items)
    ensures r.Success? ==> MemberCount(reg) == Success(|r.value|)
    ensures MemberCount(reg).Failure? ==> r.Failure?
    ensures r.Failure? ==> MemberCount(reg).Failure? || MemberCount(reg).value > 0
  {
    match MembersValue(reg.fields)
    case JArray(items) => Success(items)
    case JStr(s) => if s == "" then Success([]) else Failure(NotAMemberRecord)
    case JObject(m) => if m == map[] then Success([]) else Failure(NotAMemberRecord)
    case _ => Failure(MembersWithoutLength)
  }
}
