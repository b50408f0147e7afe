/** Shared constants and the two small rules every analyzer relies on:
    validation of the request keys (with the `days` clamp) and the choice of
    price names by table class. */
module Config {
  import opened Wrappers
  import opened Numeric
  import opened Ddb

  /** Standard to Standard-IA when storage cost over throughput cost exceeds 0.25 / 0.6. */
  const StandardToIaRatio: real := 0.25 / 0.6
  /** Standard-IA to Standard when the ratio falls below 0.2 / 1.5. */
  const IaToStandardRatio: real := 0.2 / 1.5
  /** Utilisation (percent) below which right-sizing is suggested. */
  const UtilizationThreshold: real := 45.0
  /** Utilisation (percent) below which on-demand is suggested instead. */
  const OnDemandThreshold: real := 30.0
  /** Smallest monthly saving (USD) a table-class change must bring. */
  const MinSavings: real := 1.0
  const AutoscaleTarget: real := 0.7
  const DefaultDays: int := 14
  const MaxDays: int := 90
  const ConcurrentWorkers: int := 10

  /** The two breakeven ratios leave a band where neither class change is made. */
  lemma RatiosLeaveAGap()
    ensures IaToStandardRatio < StandardToIaRatio
  {
  }

  // ---------------------------------------------------------------------------
  // get_price_keys

  /** The four price names an analyzer uses for a table. */
  datatype PriceKeys = PriceKeys(rcu: string, wcu: string, readReq: string, writeReq: string)

  const StandardKeys: PriceKeys := PriceKeys("rcu_hour", "wcu_hour", "read_request", "write_request")
  const IaKeys: PriceKeys := PriceKeys("ia_rcu_hour", "ia_wcu_hour", "ia_read", "ia_write")

  predicate IaNamed(k: PriceKeys) {
    && IsPrefix("ia_", k.rcu) && IsPrefix("ia_", k.wcu)
    && IsPrefix("ia_", k.readReq) && IsPrefix("ia_", k.writeReq)
  }

  /** Standard-IA tables are priced with the `ia_*` names, every other or
      missing class with the standard names; the four names are distinct. */
  function GetPriceKeys(info: TableInfo): (k: PriceKeys)
    ensures IaNamed(k) <==> TableClass(info) == StandardIa
    ensures TableClass(info) != StandardIa ==> k == StandardKeys
    ensures TableClass(info) == StandardIa ==> k == IaKeys
    ensures |{k.rcu, k.wcu, k.readReq, k.writeReq}| == 4
  {
    if TableClass(info) == StandardIa then
      IaKeys
    else
      assert StandardKeys.rcu[0] != 'i';
      StandardKeys
  }

  // ---------------------------------------------------------------------------
  // validate_keys

  /** A JSON value of the request, as far as `int(data['days'])` cares;
      `Other` is null, a list or an object, with its Python type name. */
  datatype Value = Number(x: real) | Text(s: string) | Bool(b: bool) | Other(typeName: string)

  /** `[k for k in required if k not in data]`. */
  function Missing(required: seq<string>, keys: set<string>): (r: seq<string>)
    ensures forall k :: k in r <==> k in required && k !in keys
    ensures |r| <= |required|
    ensures r == [] <==> forall i :: 0 <= i < |required| ==> required[i] in keys
  {
    if required == [] then []
    else (if required[0] in keys then [] else [required[0]]) + Missing(required[1..], keys)
  }

  /** `', '.join(xs)`. */
  function Join(xs: seq<string>, sep: string): string {
    if xs == [] then ""
    else if |xs| == 1 then xs[0]
    else xs[0] + sep + Join(xs[1..], sep)
  }

  /** `max(1, min(d, MAX_DAYS))`. */
  function ClampDays(d: int): (r: int)
    ensures 1 <= r <= MaxDays
    ensures 1 <= d <= MaxDays ==> r == d
    ensures d < 1 ==> r == 1
    ensures d > MaxDays ==> r == MaxDays
  {
    MaxInt(1, MinInt(d, MaxDays))
  }

  // `int()` on text: surrounding whitespace is ignored, a sign is optional,
  // and single underscores may separate digits.

  predicate IsSpace(c: char) {
    c == ' ' || c == '\t' || c == '\n' || c == '\r' || c == '\U{000B}' || c == '\U{000C}'
  }

  predicate AllSpaces(s: string) {
    forall i :: 0 <= i < |s| ==> IsSpace(s[i])
  }

  function TrimStart(s: string): string {
    if s != [] && IsSpace(s[0]) then TrimStart(s[1..]) else s
  }

  function TrimEnd(s: string): string {
    if s != [] && IsSpace(s[|s| - 1]) then TrimEnd(s[..|s| - 1]) else s
  }

  predicate DigitsOrUnderscores(s: string) {
    forall i :: 0 <= i < |s| ==> IsDigit(s[i]) || s[i] == '_'
  }

  /** Digits with single underscores between them, as in `1_000`. */
  predicate DigitGroups(s: string) {
    && s != [] && IsDigit(s[0]) && IsDigit(s[|s| - 1])
    && DigitsOrUnderscores(s)
    && forall i :: 0 < i < |s| && s[i] == '_' ==> IsDigit(s[i - 1])
  }

  function DropUnderscores(s: string): (r: string)
    requires DigitsOrUnderscores(s)
    ensures AllDigits(r)
    ensures AllDigits(s) ==> r == s
  {
    if s == [] then []
    else (if s[0] == '_' then [] else [s[0]]) + DropUnderscores(s[1..])
  }

  /** The integer a decimal literal denotes, or None when `int()` rejects it. */
  function ParseInt(s: string): Option<int> {
    var t := TrimEnd(TrimStart(s));
    var negative := t != [] && t[0] == '-';
    var body := if t != [] && (t[0] == '-' || t[0] == '+') then t[1..] else t;
    if DigitGroups(body) then
      var v: int := DigitsValue(DropUnderscores(body));
      Some(if negative then -v else v)
    else None
  }

  /** `int(v)`: truncation for numbers, 1 or 0 for booleans, the decimal
      literal for text; anything else raises. */
  function IntOf(v: Value): (r: Result<int>)
    ensures r.Err? <==> v.Other? || (v.Text? && ParseInt(v.s).None?)
    ensures v.Bool? ==> r == Ok(if v.b then 1 else 0)
  {
    match v
    case Number(x) => Ok(Trunc(x))
    case Bool(b) => Ok(if b then 1 else 0)
    case Text(s) =>
      (match ParseInt(s)
       case Some(n) => Ok(n)
       case None => Err("invalid literal for int() with base 10: '" + s + "'"))
    case Other(t) => Err("int() argument must be a string, a bytes-like object or a real number, not '" + t + "'")
  }

  lemma {:induction false} TrimStartSpaces(lead: string, x: string)
    requires AllSpaces(lead) && (x == [] || !IsSpace(x[0]))
    ensures TrimStart(lead + x) == x
    decreases |lead|
  {
    if lead != [] {
      assert (lead + x)[1..] == lead[1..] + x;
      TrimStartSpaces(lead[1..], x);
    } else {
      assert lead + x == x;
    }
  }

  lemma {:induction false} TrimEndSpaces(x: string, trail: string)
    requires AllSpaces(trail) && (x == [] || !IsSpace(x[|x| - 1]))
    ensures TrimEnd(x + trail) == x
    decreases |trail|
  {
    if trail != [] {
      var n := |trail| - 1;
      assert (x + trail)[..|x + trail| - 1] == x + trail[..n];
      TrimEndSpaces(x, trail[..n]);
    } else {
      assert x + trail == x;
    }
  }

  /** Whitespace around a literal that starts and ends with a non-space is dropped. */
  lemma TrimAround(lead: string, core: string, trail: string)
    requires AllSpaces(lead) && AllSpaces(trail)
    requires core != [] && !IsSpace(core[0]) && !IsSpace(core[|core| - 1])
    ensures TrimEnd(TrimStart(lead + core + trail)) == core
  {
    assert lead + core + trail == lead + (core + trail);
    TrimStartSpaces(lead, core + trail);
    TrimEndSpaces(core, trail);
  }

  /** A trimmed literal of plain digits parses to its value. */
  lemma ParseUnsigned(s: string, d: string)
    requires TrimEnd(TrimStart(s)) == d && AllDigits(d) && d != []
    ensures ParseInt(s) == Some(DigitsValue(d) as int)
  {
    assert DigitGroups(d);
  }

  /** A trimmed literal of a sign and plain digits parses to the signed value. */
  lemma ParseSigned(s: string, sign: char, d: string)
    requires sign == '+' || sign == '-'
    requires TrimEnd(TrimStart(s)) == [sign] + d && AllDigits(d) && d != []
    ensures ParseInt(s) == Some(if sign == '-' then -(DigitsValue(d) as int) else DigitsValue(d) as int)
  {
    assert ([sign] + d)[1..] == d;
    assert DigitGroups(d);
  }

  /** `int(str(n))` is `n`, with or without surrounding whitespace: the
      numeric text a JSON request may carry for `days` is accepted. */
  lemma UnsignedNumeral(n: nat, lead: string, trail: string)
    requires AllSpaces(lead) && AllSpaces(trail)
    ensures IntOf(Text(lead + NatToString(n) + trail)) == Ok(n)
  {
    var d := NatToString(n);
    TrimAround(lead, d, trail);
    ParseUnsigned(lead + d + trail, d);
  }

  /** `int()` of a signed numeral, with or without surrounding whitespace,
      is the signed number. */
  lemma SignedNumeral(n: nat, sign: char, lead: string, trail: string)
    requires sign == '+' || sign == '-'
    requires AllSpaces(lead) && AllSpaces(trail)
    ensures IntOf(Text(lead + [sign] + NatToString(n) + trail)) == Ok(if sign == '-' then -(n as int) else n)
  {
    var d := NatToString(n);
    var core := [sign] + d;
    assert lead + [sign] + d + trail == lead + core + trail;
    TrimAround(lead, core, trail);
    ParseSigned(lead + core + trail, sign, d);
  }

  /** What `validate_keys` leaves in `data`, or the message it fails with. */
  function Validated(data: map<string, Value>, required: seq<string>): (r: Result<map<string, Value>>)
    ensures r.Ok? ==> r.value.Keys == data.Keys
    ensures r.Ok? && "days" in data ==>
      r.value["days"].Number? && 1.0 <= r.value["days"].x <= MaxDays as real
  {
    var missing := Missing(required, data.Keys);
    if missing != [] then
      Err("Missing required fields: " + Join(missing, ", "))
    else if "days" in data then
      match IntOf(data["days"])
      case Ok(d) => Ok(data["days" := Number(ClampDays(d) as real)])
      case Err(e) => Err(e)
    else
      Ok(data)
  }

  /** Validation fails iff a required key is absent or `days` is present and
      `int()` rejects it: null, a list or an object, or text that is not a
      decimal integer literal. */
  lemma ValidatedFailsIff(data: map<string, Value>, required: seq<string>)
    ensures Validated(data, required).Err? <==>
      (exists i :: 0 <= i < |required| && required[i] !in data) ||
      ("days" in data && (data["days"].Other? || (data["days"].Text? && ParseInt(data["days"].s).None?)))
  {
    var missing := Missing(required, data.Keys);
    if missing != [] {
      var k := missing[0];
      assert k in required;
    }
  }

  /** A successful validation leaves every key but `days` as it was, and
      sets `days`, when present, to `int()` of it clamped to [1, MAX_DAYS]. */
  lemma ValidatedChangesOnlyDays(data: map<string, Value>, required: seq<string>)
    requires Validated(data, required).Ok?
    ensures var out := Validated(data, required).value;
      && (forall k :: k in data && k != "days" ==> out[k] == data[k])
      && ("days" in data ==>
            IntOf(data["days"]).Ok? && out["days"] == Number(ClampDays(IntOf(data["days"]).value) as real))
  {
  }

  /** Validating an already validated request changes nothing. */
  lemma ValidatedIdempotent(data: map<string, Value>, required: seq<string>)
    requires Validated(data, required).Ok?
    ensures Validated(Validated(data, required).value, required) == Validated(data, required)
  {
    var out := Validated(data, required).value;
    assert out.Keys == data.Keys;
    if "days" in data {
      var d := IntOf(data["days"]).value;
      var c := ClampDays(d);
      assert Trunc(c as real) == c;
      assert out["days" := Number(ClampDays(c) as real)] == out;
    }
  }

  /** The request dictionary `validate_keys` mutates in place. */
  class Request {
    var data: map<string, Value>

    constructor (data0: map<string, Value>)
      ensures data == data0
    {
      data := data0;
    }

    /** On failure `data` is untouched; on success only `days` may change. */
    method ValidateKeys(required: seq<string>) returns (r: Result<()>)
      modifies this
      ensures Validated(old(data), required).Err? ==>
        r == Err(Validated(old(data), required).error) && data == old(data)
      ensures Validated(old(data), required).Ok? ==>
        r == Ok(()) && data == Validated(old(data), required).value
    {
      var missing := Missing(required, data.Keys);
      if missing != [] {
        return Err("Missing required fields: " + Join(missing, ", "));
      }
      if "days" in data {
        var d := IntOf(data["days"]);
        if d.Err? {
          return Err(d.error);
        }
        data := data["days" := Number(ClampDays(d.value) as real)];
      }
      return Ok(());
    }
  }
}
