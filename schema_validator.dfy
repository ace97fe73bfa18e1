/** Validation of invocation parameters and return values against the small
    JSON-Schema subset the capability registry declares: a `required` list, and
    per property a `type` tag, inclusive `minimum`/`maximum` and a `pattern`.
    A schema is a raw Java map, so a malformed one (a value of the wrong Java
    class where a list, map or string is cast) surfaces as an unexpected exception,
    which the validator reports as SCHEMA_VALIDATION_FAILED. */
module SchemaValidator {
  import opened Wrappers
  import opened Json
  import opened Capabilities

  /** Which constraint a PARAMETER_INVALID failure broke. Pattern mismatches have
      no constructor: they are caught and only logged. */
  datatype Rule = TypeMismatch(expected: string) | BelowMinimum(minimum: real) | AboveMaximum(maximum: real)

  datatype ValidationError =
    | Missing(name: string)               // PARAMETER_REQUIRED
    | Invalid(name: string, rule: Rule)   // PARAMETER_INVALID
    | Malformed                           // SCHEMA_VALIDATION_FAILED

  function Code(e: ValidationError): ErrorCode {
    match e
    case Missing(_) => ParameterRequired
    case Invalid(_, _) => ParameterInvalid
    case Malformed => SchemaValidationFailed
  }

  type Outcome = Result<(), ValidationError>

  const KnownTypes: set<string> := {"string", "integer", "number", "boolean", "array", "object", "null"}

  /** Whether a value is of the Java class a type tag demands. Both "integer" and
      "number" accept any `Number`; an unknown tag accepts everything. */
  predicate Conforms(v: Value, expected: string) {
    if expected == "string" then v.VString?
    else if expected == "integer" || expected == "number" then v.VNumber?
    else if expected == "boolean" then v.VBool?
    else if expected == "array" then v.VArray?
    else if expected == "object" then v.VObject?
    else if expected == "null" then v.VNull?
    else true
  }

  /** `validateType`. */
  function CheckType(name: string, v: Value, expected: string): (r: Outcome)
    ensures r.Success? <==> Conforms(v, expected)
    ensures r.Failure? ==> r.error == Invalid(name, TypeMismatch(expected)) && expected in KnownTypes
    ensures expected == "integer" ==> (r.Success? <==> v.VNumber?)
  {
    if Conforms(v, expected) then Success(()) else Failure(Invalid(name, TypeMismatch(expected)))
  }

  // ---- `getDouble`: a Number as is, a String parsed, anything else ignored ----

  predicate IsDigit(c: char) {
    '0' <= c <= '9'
  }

  predicate AllDigits(s: string) {
    forall i :: 0 <= i < |s| ==> IsDigit(s[i])
  }

  function DigitsValue(s: string): nat
    requires AllDigits(s)
  {
    if s == [] then 0 else DigitsValue(s[..|s| - 1]) * 10 + (s[|s| - 1] - '0') as nat
  }

  function Pow10(k: nat): (p: nat)
    ensures p >= 1
  {
    if k == 0 then 1 else 10 * Pow10(k - 1)
  }

  /** The value of the digits after a decimal point: "25" is 0.25. Each digit
      is worth a tenth of the one before it. */
  function FractionValue(s: string): (r: real)
    requires AllDigits(s)
    ensures 0.0 <= r < 1.0
  {
    if s == [] then 0.0 else (DigitOf(s[0]) as real + FractionValue(s[1..])) / 10.0
  }

  function DigitOf(c: char): (d: nat)
    requires IsDigit(c)
    ensures d <= 9
  {
    (c - '0') as nat
  }

  /** The leading digit is worth ten to the count of the digits after it. */
  lemma {:induction false} DigitsFront(s: string)
    requires AllDigits(s) && |s| > 0
    ensures DigitsValue(s) == DigitOf(s[0]) * Pow10(|s| - 1) + DigitsValue(s[1..])
    decreases |s|
  {
    if |s| == 1 {
      assert s[..0] == [] && s[1..] == [];
    } else {
      var u, t := s[..|s| - 1], s[1..];
      assert AllDigits(u) by { assert forall i :: 0 <= i < |u| ==> u[i] == s[i]; }
      DigitsFront(u);
      assert t[..|t| - 1] == u[1..] && t[|t| - 1] == s[|s| - 1];
      var d, p := DigitOf(s[0]), Pow10(|u| - 1);
      TimesTen(d, p);
      assert u[0] == s[0];
    }
  }

  lemma TimesTen(d: nat, p: nat)
    ensures d * p * 10 == d * (10 * p)
  {
  }

  /** The fraction is the digits' integer value `b` over ten to their count. */
  lemma {:induction false} FractionQuotient(s: string, b: nat)
    requires AllDigits(s) && DigitsValue(s) == b
    ensures FractionValue(s) == b as real / Pow10(|s|) as real
    decreases |s|
  {
    if s != [] {
      var t := s[1..];
      var y := DigitsValue(t);
      FractionQuotient(t, y);
      DigitsFront(s);
      QuotientStep(DigitOf(s[0]), y, Pow10(|t|), Pow10(|s|), FractionValue(t), b, FractionValue(s));
    }
  }

  /** Prepending digit d to the fraction y/p: the fraction (d + y/p)/10 is
      v/q where v = d*p + y and q = 10*p. */
  lemma QuotientStep(d: nat, y: nat, p: nat, q: nat, f: real, v: nat, r: real)
    requires 1 <= p && q == 10 * p && f == y as real / p as real && v == d * p + y && r == (d as real + f) / 10.0
    ensures r == v as real / q as real
  {
    ShiftQuotient(d as real, y as real, p as real);
    assert (d * p) as real == d as real * p as real;
  }

  lemma ShiftQuotient(d: real, y: real, p: real)
    requires 1.0 <= p
    ensures (d + y / p) / 10.0 == (d * p + y) / (10.0 * p)
  {
  }

  function IndexOfDot(s: string): (k: nat)
    ensures k <= |s|
    ensures k < |s| ==> s[k] == '.'
    ensures forall i :: 0 <= i < k ==> s[i] != '.'
  {
    if s == [] then 0 else if s[0] == '.' then 0 else 1 + IndexOfDot(s[1..])
  }

  /** Digits with at most one decimal point and at least one digit: "12", "1.5", "3.", ".25". */
  function ParseUnsigned(s: string): (r: Option<real>)
    ensures r.Some? <==> AllDigits(WholePart(s)) && AllDigits(FractionPart(s)) && |WholePart(s)| + |FractionPart(s)| > 0
    ensures r.Some? ==> r.value == DigitsValue(WholePart(s)) as real + FractionValue(FractionPart(s))
    ensures r.Some? ==> r.value >= 0.0
  {
    var whole, fraction := WholePart(s), FractionPart(s);
    if AllDigits(whole) && AllDigits(fraction) && |whole| + |fraction| > 0 then
      Some(DigitsValue(whole) as real + FractionValue(fraction))
    else
      None
  }

  /** The text before the first point. */
  function WholePart(s: string): string {
    s[..IndexOfDot(s)]
  }

  /** The text after the first point, or nothing when there is no point. */
  function FractionPart(s: string): string {
    var k := IndexOfDot(s);
    if k < |s| then s[k + 1..] else []
  }

  /** `String.trim`: every leading character up to U+0020 is dropped. */
  function TrimStart(s: string): (t: string)
    ensures |t| > 0 ==> t[0] > ' '
  {
    if |s| > 0 && s[0] <= ' ' then TrimStart(s[1..]) else s
  }

  /** `String.trim`: every trailing character up to U+0020 is dropped. */
  function TrimEnd(s: string): (t: string)
    ensures |t| > 0 ==> t[|t| - 1] > ' '
  {
    if |s| > 0 && s[|s| - 1] <= ' ' then TrimEnd(s[..|s| - 1]) else s
  }

  function Trim(s: string): string {
    TrimEnd(TrimStart(s))
  }

  /** Text that neither starts nor ends with a blank is its own trimmed form. */
  lemma TrimUnblanked(s: string)
    requires |s| > 0 && s[0] > ' ' && s[|s| - 1] > ' '
    ensures Trim(s) == s
  {
    assert TrimStart(s) == s;
  }

  predicate IsTypeSuffix(c: char) {
    c == 'd' || c == 'D' || c == 'f' || c == 'F'
  }

  /** Digits with an optional point, then an optional `d`/`D`/`f`/`F` type suffix. */
  function ParseMagnitude(s: string): (r: Option<real>)
    ensures |s| > 0 && IsTypeSuffix(s[|s| - 1]) ==> r == ParseUnsigned(s[..|s| - 1])
    ensures |s| == 0 || !IsTypeSuffix(s[|s| - 1]) ==> r == ParseUnsigned(s)
    ensures r.Some? ==> r.value >= 0.0
  {
    if |s| > 0 && IsTypeSuffix(s[|s| - 1]) then ParseUnsigned(s[..|s| - 1]) else ParseUnsigned(s)
  }

  /** An optional sign before a magnitude. */
  function ParseSigned(t: string): (r: Option<real>)
    ensures |t| > 0 && t[0] == '-' ==>
              (r.Some? <==> ParseMagnitude(t[1..]).Some?) && (r.Some? ==> r.value == -ParseMagnitude(t[1..]).value)
    ensures |t| > 0 && t[0] == '+' ==> r == ParseMagnitude(t[1..])
    ensures |t| == 0 || (t[0] != '-' && t[0] != '+') ==> r == ParseMagnitude(t)
  {
    if |t| > 0 && (t[0] == '-' || t[0] == '+') then
      match ParseMagnitude(t[1..])
      case None => None
      case Some(x) => Some(if t[0] == '-' then -x else x)
    else
      ParseMagnitude(t)
  }

  /** The decimal subset of `Double.parseDouble`: surrounding whitespace is
      trimmed, then an optional sign, digits with an optional point and an
      optional type suffix. Anything else does not parse (`NumberFormatException`). */
  function ParseDecimal(s: string): (r: Option<real>)
    ensures Trim(s) == [] ==> r.None?
  {
    ParseSigned(Trim(s))
  }

  /** `getDouble`. */
  function GetDouble(v: Value): (r: Option<real>)
    ensures v.VNumber? ==> r == Some(v.n)
    ensures !v.VNumber? && !v.VString? ==> r.None?
  {
    match v
    case VNumber(n) => Some(n)
    case VString(s) => ParseDecimal(s)
    case _ => None
  }

  /** Decimal digits of a natural number, as `Integer.toString` writes them. */
  function NatToDigits(n: nat): (s: string)
    ensures AllDigits(s) && |s| > 0
  {
    if n < 10 then [('0' as int + n) as char] else NatToDigits(n / 10) + [('0' as int + n % 10) as char]
  }

  lemma {:induction false} DigitsOfNat(n: nat)
    ensures DigitsValue(NatToDigits(n)) == n
  {
    if n >= 10 {
      var s := NatToDigits(n);
      assert s[..|s| - 1] == NatToDigits(n / 10);
      DigitsOfNat(n / 10);
    }
  }

  lemma ParseDigits(s: string, n: nat)
    requires AllDigits(s) && |s| > 0 && DigitsValue(s) == n
    ensures ParseUnsigned(s) == Some(n as real)
  {
    NoPointInDigits(s);
    var whole, fraction: string := s[..|s|], [];
    assert whole == s;
    assert AllDigits(fraction) && FractionValue(fraction) == 0.0;
  }

  /** A digit string has no decimal point. */
  lemma {:induction false} NoPointInDigits(s: string)
    requires AllDigits(s)
    ensures IndexOfDot(s) == |s|
  {
    if s != [] {
      assert IsDigit(s[0]);
      assert AllDigits(s[1..]) by {
        assert forall i :: 0 <= i < |s[1..]| ==> s[1..][i] == s[i + 1];
      }
      NoPointInDigits(s[1..]);
    }
  }

  /** Digits alone, with no point or suffix, are their integer value. */
  lemma MagnitudeOfDigits(s: string, n: nat)
    requires AllDigits(s) && |s| > 0 && DigitsValue(s) == n
    ensures ParseMagnitude(s) == Some(n as real)
  {
    ParseDigits(s, n);
    assert !IsTypeSuffix(s[|s| - 1]) by { assert IsDigit(s[|s| - 1]); }
  }

  /** A minus sign before digits negates their value. */
  lemma NegatedDigits(m: string, s: string, n: nat)
    requires |m| > 1 && m[0] == '-' && m[1..] == s && AllDigits(s) && DigitsValue(s) == n
    ensures ParseSigned(m) == Some(-(n as real))
    ensures ParseDecimal(m) == Some(-(n as real))
  {
    MagnitudeOfDigits(s, n);
    assert m[|m| - 1] == s[|s| - 1] && IsDigit(s[|s| - 1]);
    TrimUnblanked(m);
  }

  /** Where the parts of "-s" sit. */
  lemma SignSplit(s: string)
    ensures var m := "-" + s; |m| == |s| + 1 && m[0] == '-' && m[1..] == s
  {
    var m := "-" + s;
    assert m[1..] == s;
  }

  /** A bound written as digits of value n, with or without a minus sign, is n or -n. */
  lemma DigitsBoundParses(s: string, n: nat)
    requires AllDigits(s) && |s| > 0 && DigitsValue(s) == n
    ensures GetDouble(VString(s)) == Some(n as real)
    ensures GetDouble(VString("-" + s)) == Some(-(n as real))
  {
    MagnitudeOfDigits(s, n);
    assert s[0] != '-' && s[0] != '+' by { assert IsDigit(s[0]); }
    TrimUnblanked(s);
    SignSplit(s);
    NegatedDigits("-" + s, s, n);
  }

  /** A bound written as the decimal string of a whole number is that number. */
  lemma StringBoundParses(n: nat)
    ensures GetDouble(VString(NatToDigits(n))) == Some(n as real)
    ensures GetDouble(VString("-" + NatToDigits(n))) == Some(-(n as real))
  {
    DigitsOfNat(n);
    DigitsBoundParses(NatToDigits(n), n);
  }

  /** A whole part, a point and a fraction part read as their sum. */
  lemma PointedUnsigned(m: string, k: nat, x: string, y: string, a: nat)
    requires 0 < k < |m| - 1 && m[k] == '.' && m[..k] == x && m[k + 1..] == y && AllDigits(x) && AllDigits(y)
    requires DigitsValue(x) == a
    ensures ParseUnsigned(m) == Some(a as real + FractionValue(y))
  {
    assert IndexOfDot(m) == k by {
      NoPointInDigits(x);
      assert forall i :: 0 <= i < k ==> x[i] == m[i];
    }
  }

  /** The same text read as a bound: no blank to trim, no sign and no suffix. */
  lemma PointedDigits(m: string, k: nat, x: string, y: string, a: nat)
    requires 0 < k < |m| - 1 && m[k] == '.' && m[..k] == x && m[k + 1..] == y && AllDigits(x) && AllDigits(y)
    requires DigitsValue(x) == a
    ensures GetDouble(VString(m)) == Some(a as real + FractionValue(y))
  {
    PointedUnsigned(m, k, x, y, a);
    assert m[0] == x[0] && IsDigit(x[0]);
    assert m[|m| - 1] == y[|y| - 1] && IsDigit(y[|y| - 1]);
    TrimUnblanked(m);
  }

  /** Where the parts of "x.y" sit. */
  lemma PointSplit(x: string, y: string)
    ensures var m := x + ['.'] + y; |m| == |x| + |y| + 1 && m[..|x|] == x && m[|x|] == '.' && m[|x| + 1..] == y
  {
    var m := x + ['.'] + y;
    assert m[..|x|] == x;
    assert m[|x| + 1..] == y;
  }

  /** A bound written "x.y", with digits x of value a and digits y of value b,
      reads as a plus b over ten to the count of y's digits. Together with
      `DigitsOfNat` this covers "a.b" written from whole numbers, and it also
      covers fractions with leading zeros ("0.05"). */
  lemma DecimalBoundParses(x: string, y: string, a: nat, b: nat)
    requires AllDigits(x) && AllDigits(y) && |x| > 0 && |y| > 0 && DigitsValue(x) == a && DigitsValue(y) == b
    ensures GetDouble(VString(x + ['.'] + y)) == Some(a as real + FractionValue(y))
    ensures FractionValue(y) == b as real / Pow10(|y|) as real
  {
    PointSplit(x, y);
    PointedDigits(x + ['.'] + y, |x|, x, y, a);
    FractionQuotient(y, b);
  }

  /** A type suffix after digits is accepted and ignored. */
  lemma SuffixedDigits(m: string, s: string, n: nat)
    requires |m| > 1 && IsTypeSuffix(m[|m| - 1]) && m[..|m| - 1] == s && AllDigits(s) && DigitsValue(s) == n
    ensures ParseMagnitude(m) == Some(n as real)
    ensures GetDouble(VString(m)) == Some(n as real)
  {
    ParseDigits(s, n);
    assert m[0] == s[0] && IsDigit(s[0]);
    TrimUnblanked(m);
  }

  /** A whole number's digits followed by a type suffix are that number. */
  lemma SuffixedBoundParses(n: nat, x: char)
    requires IsTypeSuffix(x)
    ensures GetDouble(VString(NatToDigits(n) + [x])) == Some(n as real)
  {
    var s := NatToDigits(n);
    DigitsOfNat(n);
    SuffixSplit(s, x);
    SuffixedDigits(s + [x], s, n);
  }

  /** Where the parts of "s" followed by one character sit. */
  lemma SuffixSplit(s: string, x: char)
    ensures var m := s + [x]; |m| == |s| + 1 && m[|m| - 1] == x && m[..|m| - 1] == s
  {
    var m := s + [x];
    assert m[..|m| - 1] == s;
  }

  /** Dropping one trailing blank from a string does not change its trimmed form. */
  lemma {:induction false} TrimDropsTrailingBlank(s: string, c: char)
    requires c <= ' '
    ensures Trim(s + [c]) == Trim(s)
  {
    if s == [] {
      assert [c][1..] == [];
    } else if s[0] <= ' ' {
      assert (s + [c])[1..] == s[1..] + [c];
      TrimDropsTrailingBlank(s[1..], c);
    } else {
      assert (s + [c])[..|s|] == s;
    }
  }

  /** Blanks around a bound string make no difference: `Double.parseDouble` trims first. */
  lemma PaddingIgnored(s: string, c: char)
    requires c <= ' '
    ensures ParseDecimal([c] + s) == ParseDecimal(s)
    ensures ParseDecimal(s + [c]) == ParseDecimal(s)
  {
    assert ([c] + s)[1..] == s;
    assert Trim([c] + s) == Trim(s);
    TrimDropsTrailingBlank(s, c);
  }

  // ---- one parameter against one property schema ----

  /** What `validateParameterType` accepts: a null or string `type` the value
      conforms to, every bound that parses, for numbers, and a null or string
      `pattern`, for strings. */
  predicate ValueAccepted(v: Value, ps: map<string, Value>) {
    var t, minimum, maximum, pattern :=
      Lookup(ps, "type"), GetDouble(Lookup(ps, "minimum")), GetDouble(Lookup(ps, "maximum")), Lookup(ps, "pattern");
    && (t.VNull? || (t.VString? && Conforms(v, t.s)))
    && (v.VNumber? ==> (minimum.Some? ==> minimum.value <= v.n) && (maximum.Some? ==> v.n <= maximum.value))
    && (v.VString? ==> pattern.VNull? || pattern.VString?)
  }

  /** `validateParameterType`: the type tag first, then bounds for numbers, then
      the pattern for strings. Casting `type` or (for a string) `pattern` to
      String fails on any other kind of value. The pattern's outcome is never an
      error: the mismatch exception is caught beside the regex call and logged. */
  function CheckValue(name: string, v: Value, ps: map<string, Value>): (r: Outcome)
    ensures r.Failure? && r.error.Invalid? ==> r.error.name == name
    ensures r.Success? && v.VNumber? && GetDouble(Lookup(ps, "minimum")).Some? ==>
              GetDouble(Lookup(ps, "minimum")).value <= v.n
    ensures r.Success? && v.VNumber? && GetDouble(Lookup(ps, "maximum")).Some? ==>
              v.n <= GetDouble(Lookup(ps, "maximum")).value
    ensures r.Success? && Lookup(ps, "type").VString? ==> Conforms(v, Lookup(ps, "type").s)
    ensures r.Success? <==> ValueAccepted(v, ps)
  {
    var t := Lookup(ps, "type");
    if !(t.VNull? || t.VString?) then Failure(Malformed)
    else if t.VString? && CheckType(name, v, t.s).Failure? then CheckType(name, v, t.s)
    else if v.VNumber? then
      var minimum, maximum := GetDouble(Lookup(ps, "minimum")), GetDouble(Lookup(ps, "maximum"));
      if minimum.Some? && v.n < minimum.value then Failure(Invalid(name, BelowMinimum(minimum.value)))
      else if maximum.Some? && v.n > maximum.value then Failure(Invalid(name, AboveMaximum(maximum.value)))
      else Success(())
    else if v.VString? then
      var pattern := Lookup(ps, "pattern");
      if !(pattern.VNull? || pattern.VString?) then Failure(Malformed) else Success(())
    else Success(())
  }

  /** One entry of `properties`. Its value is cast to a Map before the presence
      test, so a non-map entry fails even for an absent parameter; a null entry
      fails only when the parameter is present (its `get` dereferences null). */
  function CheckProperty(name: string, entry: Value, params: map<string, Value>): (r: Outcome)
    ensures name !in params && (entry.VObject? || entry.VNull?) ==> r.Success?
    ensures r.Failure? && r.error.Invalid? ==> r.error.name == name && name in params
    ensures r.Failure? ==> !r.error.Missing?
  {
    if !(entry.VObject? || entry.VNull?) then Failure(Malformed)
    else if name !in params then Success(())
    else if entry.VNull? then Failure(Malformed)
    else CheckValue(name, params[name], entry.fields)
  }

  /** The loop over `properties`. A HashMap's iteration order is unspecified, so
      the entry checked next is chosen; whichever entry fails first is reported. */
  ghost function CheckProperties(props: map<string, Value>, params: map<string, Value>): (r: Outcome)
    ensures r.Success? <==> forall k :: k in props ==> CheckProperty(k, props[k], params).Success?
    ensures r.Failure? ==> exists k :: k in props && CheckProperty(k, props[k], params) == r
    decreases props.Keys
  {
    if props == map[] then Success(())
    else
      var k :| k in props;
      var first := CheckProperty(k, props[k], params);
      if first.Failure? then first
      else
        var rest := props - {k};
        assert forall j :: j in props ==> j == k || j in rest;
        CheckProperties(rest, params)
  }

  // ---- the `required` list ----

  /** The name a `required` entry's `toString()` gives: strings and booleans are
      rendered; a null entry has none (its `toString` dereferences null). */
  function RequiredName(v: Value): Option<string> {
    match v
    case VString(s) => Some(s)
    case VBool(b) => Some(if b then "true" else "false")
    case _ => None
  }

  /** An entry passes when it names a present parameter, or is of a kind whose
      rendering is not modelled. */
  predicate RequiredSatisfied(v: Value, params: map<string, Value>) {
    !v.VNull? && (RequiredName(v).Some? ==> RequiredName(v).value in params)
  }

  /** The loop over `required`, in list order: the first missing name is reported. */
  function CheckRequired(required: seq<Value>, params: map<string, Value>): (r: Outcome)
    ensures r.Success? <==> forall i :: 0 <= i < |required| ==> RequiredSatisfied(required[i], params)
    ensures r.Failure? ==>
              exists i :: 0 <= i < |required| && !RequiredSatisfied(required[i], params) &&
                (forall j :: 0 <= j < i ==> RequiredSatisfied(required[j], params)) &&
                r.error == (if required[i].VNull? then Malformed else Missing(RequiredName(required[i]).value))
  {
    if required == [] then Success(())
    else if required[0].VNull? then Failure(Malformed)
    else if RequiredName(required[0]).Some? && RequiredName(required[0]).value !in params then
      Failure(Missing(RequiredName(required[0]).value))
    else
      var rest := CheckRequired(required[1..], params);
      assert forall i :: 1 <= i < |required| ==> required[i] == required[1..][i - 1];
      if rest.Failure? then
        var i :| 0 <= i < |required[1..]| && !RequiredSatisfied(required[1..][i], params) &&
                 (forall j :: 0 <= j < i ==> RequiredSatisfied(required[1..][j], params)) &&
                 rest.error == (if required[1..][i].VNull? then Malformed else Missing(RequiredName(required[1..][i]).value));
        assert !RequiredSatisfied(required[i + 1], params);
        rest
      else
        rest
  }

  // ---- the two entry points ----

  /** What a non-empty schema accepts: a null or list `required` whose every
      entry is satisfied, and a null or map `properties` whose every entry passes. */
  ghost predicate ParametersAccepted(schema: map<string, Value>, params: map<string, Value>) {
    var required, properties := Lookup(schema, "required"), Lookup(schema, "properties");
    && (required.VNull? || (required.VArray? && forall i :: 0 <= i < |required.items| ==> RequiredSatisfied(required.items[i], params)))
    && (properties.VNull? ||
        (properties.VObject? && forall k :: k in properties.fields ==> CheckProperty(k, properties.fields[k], params).Success?))
  }

  /** `validateParameters`: no schema (null or empty) means no constraint; else
      every required name first, then every present parameter's property schema. */
  ghost function ValidateParameters(schema: Option<map<string, Value>>, params: map<string, Value>): (r: Outcome)
    ensures schema.None? || schema.value == map[] ==> r.Success?
    ensures r.Success? && schema.Some? && Lookup(schema.value, "required").VArray? ==>
              forall i :: 0 <= i < |Lookup(schema.value, "required").items| ==>
                var entry := Lookup(schema.value, "required").items[i];
                entry.VString? ==> entry.s in params
    ensures r.Success? && schema.Some? && Lookup(schema.value, "properties").VObject? ==>
              var props := Lookup(schema.value, "properties").fields;
              forall k :: k in props && k in params ==> CheckProperty(k, props[k], params).Success?
    ensures r.Failure? && r.error.Missing? ==> r.error.name !in params
    ensures r.Failure? && r.error.Invalid? ==> r.error.name in params
    ensures r.Success? <==> schema.None? || schema.value == map[] || ParametersAccepted(schema.value, params)
  {
    if schema.None? || schema.value == map[] then Success(())
    else
      var s := schema.value;
      var required := Lookup(s, "required");
      if !(required.VNull? || required.VArray?) then Failure(Malformed)
      else
        var requiredOutcome := if required.VArray? then CheckRequired(required.items, params) else Success(());
        if requiredOutcome.Failure? then requiredOutcome
        else
          var properties := Lookup(s, "properties");
          if properties.VNull? then Success(())
          else if !properties.VObject? then Failure(Malformed)
          else CheckProperties(properties.fields, params)
  }

  /** `validateReturn`: only the top-level `type`, and only when both the tag and
      the value are non-null. The cast of `type` to String happens first. */
  function ValidateReturn(schema: Option<map<string, Value>>, value: Value): (r: Outcome)
    ensures schema.None? || schema.value == map[] ==> r.Success?
    ensures value == VNull ==> (r.Success? || r.error == Malformed)
    ensures r.Failure? ==> r.error == Malformed || r.error.name == "return value"
    ensures r.Success? && schema.Some? && Lookup(schema.value, "type").VString? && value != VNull ==>
              Conforms(value, Lookup(schema.value, "type").s)
    ensures r.Success? <==>
              || schema.None? || schema.value == map[]
              || Lookup(schema.value, "type").VNull?
              || (Lookup(schema.value, "type").VString? && (value == VNull || Conforms(value, Lookup(schema.value, "type").s)))
  {
    if schema.None? || schema.value == map[] then Success(())
    else
      var t := Lookup(schema.value, "type");
      if !(t.VNull? || t.VString?) then Failure(Malformed)
      else if t.VString? && value != VNull then CheckType("return value", value, t.s)
      else Success(())
  }

  // ---- properties relating several calls ----

  /** Required names are all checked before any type check: when a well-formed
      required list names an absent parameter, the failure is PARAMETER_REQUIRED
      whatever the property schemas say. */
  lemma RequiredBeforeTypes(schema: map<string, Value>, params: map<string, Value>, name: string)
    requires Lookup(schema, "required").VArray?
    requires forall i :: 0 <= i < |Lookup(schema, "required").items| ==> Lookup(schema, "required").items[i].VString?
    requires VString(name) in Lookup(schema, "required").items && name !in params
    ensures ValidateParameters(Some(schema), params).Failure?
    ensures Code(ValidateParameters(Some(schema), params).error) == ParameterRequired
  {
    var items := Lookup(schema, "required").items;
    var i :| 0 <= i < |items| && items[i] == VString(name);
    assert !RequiredSatisfied(items[i], params);
  }

  /** The pattern never decides the outcome: any two patterns, or none, give the same result. */
  lemma PatternNeverRejects(name: string, v: Value, ps: map<string, Value>, pattern: string)
    ensures CheckValue(name, v, ps["pattern" := VString(pattern)]) == CheckValue(name, v, ps - {"pattern"})
  {
    assert Lookup(ps["pattern" := VString(pattern)], "type") == Lookup(ps - {"pattern"}, "type");
    assert Lookup(ps["pattern" := VString(pattern)], "minimum") == Lookup(ps - {"pattern"}, "minimum");
    assert Lookup(ps["pattern" := VString(pattern)], "maximum") == Lookup(ps - {"pattern"}, "maximum");
  }

  /** Bounds are inclusive: a value equal to the minimum or the maximum passes. */
  lemma BoundsInclusive(name: string, lo: real, hi: real)
    requires lo <= hi
    ensures CheckValue(name, VNumber(lo), map["minimum" := VNumber(lo), "maximum" := VNumber(hi)]).Success?
    ensures CheckValue(name, VNumber(hi), map["minimum" := VNumber(lo), "maximum" := VNumber(hi)]).Success?
    ensures CheckValue(name, VNumber(lo - 1.0), map["minimum" := VNumber(lo)]) == Failure(Invalid(name, BelowMinimum(lo)))
    ensures CheckValue(name, VNumber(hi + 1.0), map["maximum" := VNumber(hi)]) == Failure(Invalid(name, AboveMaximum(hi)))
  {
  }

  /** A bound that is neither a number nor a parsable string is ignored: the
      check behaves as if neither bound were written. */
  lemma UnparsableBoundIgnored(name: string, v: Value, ps: map<string, Value>, lo: Value, hi: Value)
    requires GetDouble(lo).None? && GetDouble(hi).None?
    ensures CheckValue(name, v, ps["minimum" := lo]["maximum" := hi]) == CheckValue(name, v, ps - {"minimum", "maximum"})
  {
    var with, without := ps["minimum" := lo]["maximum" := hi], ps - {"minimum", "maximum"};
    assert Lookup(with, "type") == Lookup(without, "type");
    assert Lookup(with, "pattern") == Lookup(without, "pattern");
    assert GetDouble(Lookup(with, "minimum")).None? && GetDouble(Lookup(without, "minimum")).None?;
    assert GetDouble(Lookup(with, "maximum")).None? && GetDouble(Lookup(without, "maximum")).None?;
  }

  /** A bound such as "low" or `true` constrains nothing. */
  lemma UnparsableBoundExample(name: string, x: real)
    ensures CheckValue(name, VNumber(x), map["minimum" := VString("low"), "maximum" := VBool(true)]).Success?
  {
    assert IndexOfDot("low") == 3;
  }

  /** A bound string is trimmed before it is read: "5 " is the bound 5. */
  lemma PaddedBoundApplies(name: string)
    ensures CheckValue(name, VNumber(10.0), map["maximum" := VString("5 ")]) == Failure(Invalid(name, AboveMaximum(5.0)))
  {
    assert GetDouble(VString("5 ")) == Some(5.0) by {
      assert NatToDigits(5) == "5";
      StringBoundParses(5);
      PaddingIgnored("5", ' ');
      assert "5" + [' '] == "5 ";
    }
  }

  /** A type suffix on a bound string is ignored: "5d" is the bound 5. */
  lemma SuffixedBoundApplies(name: string)
    ensures CheckValue(name, VNumber(10.0), map["maximum" := VString("5d")]) == Failure(Invalid(name, AboveMaximum(5.0)))
  {
    assert GetDouble(VString("5d")) == Some(5.0) by {
      assert NatToDigits(5) == "5";
      SuffixedBoundParses(5, 'd');
      assert "5" + ['d'] == "5d";
    }
  }

  /** "integer" accepts a non-integral number; an unknown tag checks nothing. */
  lemma LooseTypeTags(name: string, v: Value)
    ensures CheckType(name, VNumber(0.5), "integer").Success?
    ensures CheckType(name, v, "uuid").Success?
  {
  }

  /** The worked example: `x` required, an integer of at least 0. */
  lemma RequiredNonNegativeExample()
    ensures
      var schema := map["required" := VArray([VString("x")]),
                         "properties" := VObject(map["x" := VObject(map["type" := VString("integer"), "minimum" := VNumber(0.0)])])];
      && ValidateParameters(Some(schema), map["x" := VNumber(-1.0)]) == Failure(Invalid("x", BelowMinimum(0.0)))
      && ValidateParameters(Some(schema), map["x" := VNumber(5.0)]) == Success(())
      && ValidateParameters(Some(schema), map[]) == Failure(Missing("x"))
  {
    var props := map["x" := VObject(map["type" := VString("integer"), "minimum" := VNumber(0.0)])];
    assert CheckProperty("x", props["x"], map["x" := VNumber(-1.0)]) == Failure(Invalid("x", BelowMinimum(0.0)));
  }
}
