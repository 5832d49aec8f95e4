/** JSON values as Python's `json.load` hands them to the mailer, and the
    three Python operations the mailer applies to them: truthiness,
    `dict.get` and `str()`. */
module PyJson {

  /** A decoded JSON value. Objects are maps: `json.load` keeps the last
      value of a repeated key. JSON numbers with a fraction or exponent are
      not modelled. */
  datatype Json =
    | JNull
    | JBool(b: bool)
    | JInt(i: int)
    | JStr(s: string)
    | JArray(items: seq<Json>)
    | JObject(fields: map<string, Json>)

  /** Python truthiness: None, False, 0, "", [] and {} are false. */
  predicate Truthy(v: Json) {
    match v
    case JNull => false
    case JBool(b) => b
    case JInt(i) => i != 0
    case JStr(s) => s != ""
    case JArray(items) => items != []
    case JObject(fields) => fields != map[]
  }

  /** `d.get(key, default)`: the default only when the key is absent. */
  function GetOr(fields: map<string, Json>, key: string, default: Json): (r: Json)
    ensures key in fields ==> r == fields[key]
    ensures key !in fields ==> r == default
  {
    if key in fields then fields[key] else default
  }

  /** `d.get(key)`: Python's None when the key is absent, so an absent key
      and a key holding null read alike, and both are falsy. */
  function Get(fields: map<string, Json>, key: string): (r: Json)
    ensures key in fields ==> r == fields[key]
    ensures key !in fields ==> r == JNull && !Truthy(r)
  {
    GetOr(fields, key, JNull)
  }

  /** `str(v)`. The `repr` of a list or a dict is CPython's own code, so it is
      the parameter `reprOf`; scalars are written out. */
  function Text(v: Json, reprOf: Json -> string): (r: string)
    ensures v.JStr? ==> r == v.s
    ensures v.JInt? ==> r == Decimal(v.i) && Canonical(r) && ParseDecimal(r) == v.i
  {
    match v
    case JNull => "None"
    case JBool(b) => if b then "True" else "False"
    case JInt(i) => DecimalRoundTrip(i); Decimal(i)
    case JStr(s) => s
    case JArray(_) => reprOf(v)
    case JObject(_) => reprOf(v)
  }

  predicate IsDigit(c: char) {
    '0' <= c <= '9'
  }

  predicate AllDigits(s: string) {
    forall k :: 0 <= k < |s| ==> IsDigit(s[k])
  }

  function DigitChar(d: nat): (c: char)
    requires d < 10
    ensures IsDigit(c) && c as int - '0' as int == d
  {
    (48 + d) as char
  }

  /** The decimal digits of `n`, most significant first, without leading zeros. */
  function Digits(n: nat): (r: string)
    ensures r != [] && AllDigits(r)
    ensures r[0] == '0' ==> n == 0
    decreases n
  {
    if n < 10 then [DigitChar(n)] else Digits(n / 10) + [DigitChar(n % 10)]
  }

  /** `str(i)` for a Python int: a minus sign for negatives, then the
      digits, with no leading zero and no "-0". */
  function Decimal(i: int): (r: string)
    ensures r != []
    ensures i < 0 <==> r[0] == '-'
    ensures AllDigits(if i < 0 then r[1..] else r)
    ensures i == 0 <==> r == "0"
    ensures i < 0 ==> |r| > 1 && r[1] != '0'
    ensures i > 0 ==> r[0] != '0'
    ensures Canonical(r)
  {
    if i < 0 then "-" + Digits(-i) else Digits(i)
  }

  /** Reading a string of digits back as a number: the reference inverse of Digits. */
  function DigitsValue(s: string): nat
    requires AllDigits(s)
  {
    if s == [] then 0 else DigitsValue(s[..|s| - 1]) * 10 + (s[|s| - 1] as int - '0' as int)
  }

  predicate IsDecimal(s: string) {
    s != [] && (if s[0] == '-' then |s| > 1 && AllDigits(s[1..]) else AllDigits(s))
  }

  /** The texts `str` gives for an int: a decimal whose digits have no
      leading zero, except "0" itself, which has no sign. */
  predicate Canonical(s: string) {
    IsDecimal(s) && (if s[0] == '-' then s[1] != '0' else s[0] != '0' || s == "0")
  }

  /** `int(s)` restricted to what Decimal produces. */
  function ParseDecimal(s: string): int
    requires IsDecimal(s)
  {
    if s[0] == '-' then -(DigitsValue(s[1..]) as int) else DigitsValue(s)
  }

  lemma {:induction false} DigitsRoundTrip(n: nat)
    ensures DigitsValue(Digits(n)) == n
    decreases n
  {
    if n >= 10 {
      DigitsRoundTrip(n / 10);
      var d := Digits(n);
      assert d[..|d| - 1] == Digits(n / 10);
    }
  }

  /** `str` of an integer reads back as that integer. */
  lemma DecimalRoundTrip(i: int)
    ensures IsDecimal(Decimal(i))
    ensures ParseDecimal(Decimal(i)) == i
  {
    if i < 0 {
      DigitsRoundTrip(-i);
      assert Decimal(i)[1..] == Digits(-i);
    } else {
      DigitsRoundTrip(i);
    }
  }

  /** A digit string without a leading zero is the text of its own value. */
  lemma {:induction false} DigitsOfValue(s: string)
    requires s != [] && AllDigits(s) && (s[0] != '0' || s == "0")
    ensures DigitsValue(s) > 0 <==> s != "0"
    ensures Digits(DigitsValue(s)) == s
    decreases |s|
  {
    var init, last := s[..|s| - 1], s[|s| - 1];
    if init == [] {
      assert s == [last];
      assert DigitsValue(s) == last as int - '0' as int;
      assert DigitChar(DigitsValue(s)) == last;
    } else {
      assert init[0] == s[0] && init != "0";
      DigitsOfValue(init);
      var n := DigitsValue(s);
      assert n == DigitsValue(init) * 10 + (last as int - '0' as int);
      assert n / 10 == DigitsValue(init) && n % 10 == last as int - '0' as int;
      assert Digits(n) == Digits(n / 10) + [DigitChar(n % 10)];
      assert s == init + [last];
    }
  }

  /** The other direction of the round trip: every canonical decimal text
      is `str` of the int it denotes, so `Decimal` is a bijection between
      the ints and the canonical texts. */
  lemma DecimalOfParse(s: string)
    requires Canonical(s)
    ensures Decimal(ParseDecimal(s)) == s
  {
    if s[0] == '-' {
      DigitsOfValue(s[1..]);
      assert s == "-" + s[1..];
    } else {
      DigitsOfValue(s);
    }
  }
}
