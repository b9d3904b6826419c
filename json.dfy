/** JSON values as the catalogue import reads them
    (app/api/wb/cards/import/route.ts), with the JavaScript operations the
    import applies to them: truthiness, property access, `String(v)`,
    `deepSanitize` and `asBigint`. */
module Json {
  import opened Common
  import opened Text

  /** A JavaScript number: a finite decimal `mantissa / 10^scale` (the value a
      JSON numeral denotes, kept exact rather than rounded to a double), or one
      of the non-finite values. */
  datatype Num = Finite(mantissa: int, scale: nat) | NaN | PosInf | NegInf

  /** A JSON value; `JUndefined` is what reading a missing property yields.
      An object lists its fields in `Object.keys` order. */
  datatype Json =
    | JNull
    | JUndefined
    | JBool(b: bool)
    | JNumber(n: Num)
    | JString(s: string)
    | JArray(items: seq<Json>)
    | JObject(fields: seq<(string, Json)>)

  function Pow10(k: nat): (p: nat)
    ensures p >= 1
  {
    if k == 0 then 1 else 10 * Pow10(k - 1)
  }

  predicate Nullish(v: Json) {
    v.JNull? || v.JUndefined?
  }

  /** `!!v`. */
  predicate Truthy(v: Json) {
    match v
    case JNull => false
    case JUndefined => false
    case JBool(b) => b
    case JNumber(n) => n.PosInf? || n.NegInf? || (n.Finite? && n.mantissa != 0)
    case JString(s) => s != ""
    case JArray(_) => true
    case JObject(_) => true
  }

  /** `v ?? null`. */
  function OrNull(v: Json): (r: Json)
    ensures !r.JUndefined?
    ensures !Nullish(v) ==> r == v
  {
    if Nullish(v) then JNull else v
  }

  /** The value of the last field named `k`, `undefined` when there is none. */
  function FieldValue(fields: seq<(string, Json)>, k: string): (r: Json)
    ensures (forall i :: 0 <= i < |fields| ==> fields[i].0 != k) ==> r == JUndefined
    ensures (exists i :: 0 <= i < |fields| && fields[i].0 == k) ==>
              exists i :: 0 <= i < |fields| && fields[i] == (k, r)
  {
    if fields == [] then JUndefined
    else if fields[|fields| - 1].0 == k then fields[|fields| - 1].1
    else
      var r := FieldValue(fields[..|fields| - 1], k);
      assert forall i :: 0 <= i < |fields| - 1 ==> fields[..|fields| - 1][i] == fields[i];
      r
  }

  /** `v[k]` for a value that is not `null` or `undefined`: an own field of an
      object, the `length` of a string or an array, `undefined` otherwise. */
  function Prop(v: Json, k: string): Json {
    match v
    case JObject(fields) => FieldValue(fields, k)
    case JString(s) => if k == "length" then JNumber(Finite(|s|, 0)) else JUndefined
    case JArray(items) => if k == "length" then JNumber(Finite(|items|, 0)) else JUndefined
    case _ => JUndefined
  }

  /** The TypeError V8 raises when a property of `null` or `undefined` is read. */
  function ReadError(v: Json, k: string): string {
    "Cannot read properties of " + (if v.JNull? then "null" else "undefined") + " (reading '" + k + "')"
  }

  /** `v.k`: reading a property of `null` or `undefined` throws. */
  function Get(v: Json, k: string): (r: Result<Json>)
    ensures r.Fail? <==> Nullish(v)
    ensures r.Fail? ==> r.message == ReadError(v, k)
    ensures r.Ok? ==> r.value == Prop(v, k)
  {
    if Nullish(v) then Fail(ReadError(v, k)) else Ok(Prop(v, k))
  }

  /** `v?.k`. */
  function OptProp(v: Json, k: string): (r: Json)
    ensures Nullish(v) ==> r == JUndefined
    ensures !Nullish(v) ==> r == Prop(v, k)
  {
    if Nullish(v) then JUndefined else Prop(v, k)
  }

  // ---------------------------------------------------------------------
  // `String(v)`

  /** `String(x)` for the finite number `m / 10^scale`: trailing zeros of the
      fraction are dropped, and an integral value has no decimal point. */
  function DecimalString(m: int, scale: nat): string
    decreases scale
  {
    if scale == 0 then IntString(m)
    else if m % 10 == 0 then DecimalString(m / 10, scale - 1)
    else
      // the digits of |m|, padded so that at least one is left before the point
      var digits := PadStart(NatString(if m < 0 then -m else m), scale + 1, '0');
      (if m < 0 then "-" else "") + digits[..|digits| - scale] + "." + digits[|digits| - scale..]
  }

  /** An integral value prints as an integer, however it was written. */
  lemma {:induction false} IntegralDecimalString(n: int, scale: nat)
    ensures DecimalString(n * Pow10(scale), scale) == IntString(n)
  {
    if scale > 0 {
      var m := n * Pow10(scale);
      assert m == (n * Pow10(scale - 1)) * 10;
      assert m % 10 == 0 && m / 10 == n * Pow10(scale - 1);
      IntegralDecimalString(n, scale - 1);
    }
  }

  function NumString(n: Num): string {
    match n
    case NaN => "NaN"
    case PosInf => "Infinity"
    case NegInf => "-Infinity"
    case Finite(m, scale) => DecimalString(m, scale)
  }

  function Join(parts: seq<string>, sep: string): (r: string)
    ensures parts == [] ==> r == ""
    ensures |parts| == 1 ==> r == parts[0]
  {
    if parts == [] then ""
    else if |parts| == 1 then parts[0]
    else Join(parts[..|parts| - 1], sep) + sep + parts[|parts| - 1]
  }

  /** `String(v)`: an array prints its elements joined with commas (with
      `null` and `undefined` elements printed empty), an object prints as
      `[object Object]`. */
  function JsString(v: Json): string
    decreases v
  {
    match v
    case JNull => "null"
    case JUndefined => "undefined"
    case JBool(b) => if b then "true" else "false"
    case JNumber(n) => NumString(n)
    case JString(s) => s
    case JArray(items) =>
      Join(seq(|items|, i requires 0 <= i < |items| => if Nullish(items[i]) then "" else JsString(items[i])), ",")
    case JObject(_) => "[object Object]"
  }

  // ---------------------------------------------------------------------
  // `deepSanitize`

  /** A string `deepSanitize` replaces by `null`: blank, or "null" or
      "undefined" in any case once trimmed. */
  predicate NullText(s: string) {
    Trim(s) == "" || IsNullWord(Trim(s))
  }

  /** `deepSanitize`: `null`, `undefined`, null-text strings and non-finite
      numbers become `null`; arrays and objects are cleaned element by element
      and field by field; everything else is kept as it is. */
  function DeepSanitize(x: Json): (r: Json)
    ensures r.JNull? <==>
              || Nullish(x)
              || (x.JString? && NullText(x.s))
              || (x.JNumber? && !x.n.Finite?)
    ensures (x.JString? && !NullText(x.s)) || x.JBool? || (x.JNumber? && x.n.Finite?) ==> r == x
    ensures x.JArray? ==> r.JArray? && |r.items| == |x.items|
    ensures x.JObject? ==> r.JObject? && |r.fields| == |x.fields|
                           && forall i :: 0 <= i < |x.fields| ==> r.fields[i].0 == x.fields[i].0
    decreases x
  {
    match x
    case JNull => JNull
    case JUndefined => JNull
    case JBool(_) => x
    case JNumber(n) => if n.Finite? then x else JNull
    case JString(s) => if NullText(s) then JNull else x
    case JArray(items) =>
      JArray(seq(|items|, i requires 0 <= i < |items| => DeepSanitize(items[i])))
    case JObject(fields) =>
      JObject(seq(|fields|, i requires 0 <= i < |fields| => (fields[i].0, DeepSanitize(fields[i].1))))
  }

  /** What a cleaned value looks like, stated independently of
      `deepSanitize`: no `undefined`, no non-finite number and no null-text
      string anywhere inside it. */
  predicate Clean(x: Json)
    decreases x
  {
    match x
    case JNull => true
    case JUndefined => false
    case JBool(_) => true
    case JNumber(n) => n.Finite?
    case JString(s) => !NullText(s)
    case JArray(items) => forall i :: 0 <= i < |items| ==> Clean(items[i])
    case JObject(fields) => forall i :: 0 <= i < |fields| ==> Clean(fields[i].1)
  }

  /** Whatever goes in, what `deepSanitize` returns is clean. */
  lemma {:induction false} SanitizedIsClean(x: Json)
    ensures Clean(DeepSanitize(x))
    decreases x
  {
    match x
    case JArray(items) =>
      forall i | 0 <= i < |items| ensures Clean(DeepSanitize(items[i])) {
        SanitizedIsClean(items[i]);
      }
    case JObject(fields) =>
      forall i | 0 <= i < |fields| ensures Clean(DeepSanitize(fields[i].1)) {
        assert fields[i] in fields;
        SanitizedIsClean(fields[i].1);
      }
    case _ =>
  }

  /** A clean value is returned unchanged. */
  lemma {:induction false} CleanIsUnchanged(x: Json)
    requires Clean(x)
    ensures DeepSanitize(x) == x
    decreases x
  {
    match x
    case JArray(items) =>
      forall i | 0 <= i < |items| ensures DeepSanitize(items[i]) == items[i] {
        CleanIsUnchanged(items[i]);
      }
      assert DeepSanitize(x).items == items;
    case JObject(fields) =>
      forall i | 0 <= i < |fields| ensures (fields[i].0, DeepSanitize(fields[i].1)) == fields[i] {
        assert fields[i] in fields;
        CleanIsUnchanged(fields[i].1);
      }
      assert DeepSanitize(x).fields == fields;
    case _ =>
  }

  /** Sanitizing twice is sanitizing once (the import sanitizes each card and
      then each characteristic value again). */
  lemma SanitizeIdempotent(x: Json)
    ensures DeepSanitize(DeepSanitize(x)) == DeepSanitize(x)
  {
    SanitizedIsClean(x);
    CleanIsUnchanged(DeepSanitize(x));
  }

  // ---------------------------------------------------------------------
  // `asBigint`

  /** Floor division of a natural number brackets it between two multiples. */
  lemma DivBounds(m: nat, p: nat)
    requires p >= 1
    ensures 0 <= (m / p) * p <= m < (m / p + 1) * p
  {
    var q, r := m / p, m % p;
    assert q >= 0;
    assert m == q * p + r && 0 <= r < p;
    assert (q + 1) * p == q * p + p;
  }

  /** The same for a negative number and the quotient of its magnitude, negated. */
  lemma NegDivBounds(m: int, p: nat)
    requires m < 0 && p >= 1
    ensures (-((-m) / p) - 1) * p < m <= -((-m) / p) * p <= 0
  {
    var q := (-m) / p;
    DivBounds(-m, p);
    assert (-q) * p == -(q * p);
    assert (-q - 1) * p == -((q + 1) * p);
  }

  /** `Math.trunc(m / 10^scale)`: the quotient rounded toward zero. */
  function Trunc(m: int, scale: nat): (t: int)
    ensures 0 <= m ==> 0 <= t * Pow10(scale) <= m < (t + 1) * Pow10(scale)
    ensures m < 0 ==> (t - 1) * Pow10(scale) < m <= t * Pow10(scale) <= 0
  {
    if m >= 0 then
      DivBounds(m, Pow10(scale));
      m / Pow10(scale)
    else
      NegDivBounds(m, Pow10(scale));
      -((-m) / Pow10(scale))
  }

  /** `asBigint`: a finite number truncated toward zero, or a string holding
      an (optionally signed) decimal integer once trimmed; `null` for
      everything else, including blank and "null"/"undefined" strings. */
  function AsBigint(v: Json): (r: Option<int>)
    ensures Nullish(v) || v.JBool? || v.JArray? || v.JObject? ==> r == None
    ensures v.JNumber? ==> (r.Some? <==> v.n.Finite?)
    ensures v.JNumber? && v.n.Finite? ==> r == Some(Trunc(v.n.mantissa, v.n.scale))
    ensures v.JString? && NullText(v.s) ==> r == None
    ensures v.JString? ==> r == ParseInteger(Trim(v.s))
  {
    match v
    case JNumber(n) => if n.Finite? then Some(Trunc(n.mantissa, n.scale)) else None
    case JString(s) =>
      var t := Trim(s);
      NullWordIsNotNumeral(t);
      if t == "" || IsNullWord(t) then None else ParseInteger(t)
    case _ => None
  }

  /** "null" and "undefined" (in any case) are not integer numerals. */
  lemma NullWordIsNotNumeral(t: string)
    ensures t == "" || IsNullWord(t) ==> ParseInteger(t) == None
  {
    if IsNullWord(t) {
      assert Lower(t)[0] == LowerChar(t[0]);
    }
  }

  /** A string without white space at either end is its own trim. */
  lemma TrimOfTrimmed(s: string)
    requires s == [] || (!IsSpace(s[0]) && !IsSpace(s[|s| - 1]))
    ensures Trim(s) == s
  {
  }

  /** The numeral of an integer has no white space at either end. */
  lemma IntStringTrimmed(n: int)
    ensures Trim(IntString(n)) == IntString(n)
  {
    var s := IntString(n);
    var d := if n < 0 then NatString(-n) else NatString(n);
    assert s[|s| - 1] == d[|d| - 1] && IsDigit(d[|d| - 1]);
    assert s[0] == '-' || s[0] == d[0];
    assert IsDigit(d[0]);
    TrimOfTrimmed(s);
  }

  /** `Number.MAX_SAFE_INTEGER`, 2^53 - 1: every integer up to it in size is a
      double, so JavaScript reads it back exactly. */
  const MaxSafeInteger := 9007199254740991

  /** `asBigint` reads back every safe integer, whether written as a JSON
      number or as its decimal string. */
  lemma AsBigintReadsIntegers(n: int)
    requires -MaxSafeInteger <= n <= MaxSafeInteger
    ensures AsBigint(JNumber(Finite(n, 0))) == Some(n)
    ensures AsBigint(JString(IntString(n))) == Some(n)
  {
    var v := JNumber(Finite(n, 0));
    assert AsBigint(v) == Some(Trunc(n, 0));
    TruncWhole(n);
    IntStringTrimmed(n);
    IntStringRoundTrip(n);
  }

  /** A whole number is its own truncation. */
  lemma TruncWhole(n: int)
    ensures Trunc(n, 0) == n
  {
    assert Pow10(0) == 1;
  }

  /** Cleaning a value first does not change what `asBigint` makes of it:
      the import reads card numbers from sanitized cards, and this is why that
      keeps and skips the same cards as reading the raw ones would. */
  lemma AsBigintAfterSanitize(x: Json)
    ensures AsBigint(DeepSanitize(x)) == AsBigint(x)
  {
    if x.JString? && NullText(x.s) {
      NullWordIsNotNumeral(Trim(x.s));
    }
  }
}
