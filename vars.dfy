/**
 * The configuration-variable accumulator that configuration resolution
 * threads through its steps: a fixed environment (key to string), the
 * warnings and the errors collected so far, and the keys looked up so
 * far.  Also the 16-bit port parser it applies and the
 * decimal printing used in warnings.
 */
module ConfigVars {
  import opened Wrappers
  import opened TlsModes

  /** Why a variable could not be used. */
  datatype VarError = Missing(key: string) | Invalid(key: string, value: string)

  function Lookup(env: map<string, string>, key: string): (r: Option<string>)
    ensures r.Some? <==> key in env
    ensures r.Some? ==> r.value == env[key]
  {
    if key in env then Some(env[key]) else None
  }

  // -------------------------------------------------------------- sequences

  lemma AppendAssoc<T>(a: seq<T>, b: seq<T>, c: seq<T>)
    ensures a + b + c == a + (b + c)
  {
  }

  lemma AppendAssoc4<T>(e: seq<T>, a: seq<T>, b: seq<T>, c: seq<T>, d: seq<T>)
    ensures e + a + b + c + d == e + (a + b + c + d)
  {
  }

  // ---------------------------------------------------------------- decimal

  predicate IsDigit(c: char)
  {
    '0' <= c <= '9'
  }

  predicate AllDigits(s: string)
  {
    forall i :: 0 <= i < |s| ==> IsDigit(s[i])
  }

  function DigitChar(d: nat): (c: char)
    requires d < 10
    ensures IsDigit(c) && c as int - '0' as int == d
  {
    ('0' as int + d) as char
  }

  /** The value of a string of decimal digits, most significant first. */
  function DigitsValue(s: string): (v: nat)
    requires AllDigits(s)
    ensures |s| == 1 ==> v == s[0] as int - '0' as int
  {
    if |s| == 0 then 0
    else DigitsValue(s[..|s| - 1]) * 10 + (s[|s| - 1] as int - '0' as int)
  }

  /** Decimal rendering of a natural number, as `{}` formats an unsigned integer. */
  function DecimalString(n: nat): (s: string)
    ensures |s| > 0 && AllDigits(s)
    decreases n
  {
    if n < 10 then [DigitChar(n)] else DecimalString(n / 10) + [DigitChar(n % 10)]
  }

  /** Reading back a printed number gives the number. */
  lemma {:induction false} DecimalStringValue(n: nat)
    ensures DigitsValue(DecimalString(n)) == n
    decreases n
  {
    if n >= 10 {
      DecimalStringValue(n / 10);
      var s := DecimalString(n);
      assert s[..|s| - 1] == DecimalString(n / 10);
    }
  }

  /** Digits that start with a non-zero digit have a positive value. */
  lemma {:induction false} LeadingDigitPositive(s: string)
    requires |s| > 0 && AllDigits(s) && s[0] != '0'
    ensures DigitsValue(s) > 0
    decreases |s|
  {
    if |s| > 1 {
      var init := s[..|s| - 1];
      assert init[0] == s[0];
      LeadingDigitPositive(init);
    }
  }

  /** Digits without a leading zero are the decimal rendering of their value. */
  lemma {:induction false} CanonicalDigits(s: string)
    requires |s| > 0 && AllDigits(s) && (s[0] != '0' || |s| == 1)
    ensures DecimalString(DigitsValue(s)) == s
    decreases |s|
  {
    if |s| > 1 {
      var init := s[..|s| - 1];
      assert init[0] == s[0];
      LeadingDigitPositive(init);
      CanonicalDigits(init);
      var n := DigitsValue(s);
      assert n / 10 == DigitsValue(init) && n % 10 == s[|s| - 1] as int - '0' as int;
      assert s == init + [s[|s| - 1]];
    }
  }

  /**
   * Parsing of a 16-bit unsigned integer: an optional `+`, then at least
   * one ASCII digit, with a value below 65536. Text without a sign or a
   * leading zero parses only to the number it is the decimal rendering of.
   */
  function ParseU16(s: string): (r: Option<U16>)
    ensures r.Some? ==> |s| > 0
    ensures |s| > 0 && s[0] != '+' && (s[0] != '0' || |s| == 1) && r.Some? ==>
              s == DecimalString(r.value)
  {
    var digits := if |s| > 0 && s[0] == '+' then s[1..] else s;
    if |digits| > 0 && AllDigits(digits) && DigitsValue(digits) < 0x1_0000
    then
      if s[0] != '+' && (s[0] != '0' || |s| == 1) then
        CanonicalDigits(digits);
        Some(DigitsValue(digits))
      else
        Some(DigitsValue(digits))
    else None
  }

  /** Every port printed in decimal parses back to itself. */
  lemma ParseDecimalString(p: U16)
    ensures ParseU16(DecimalString(p)) == Some(p)
  {
    DecimalStringValue(p);
  }

  // ---------------------------------------------------- typed variable reads

  /** The value of an optional 16-bit variable: the default when absent or unparsable. */
  function U16Var(env: map<string, string>, key: string, default: U16): (v: U16)
    ensures key !in env ==> v == default
    ensures key in env && ParseU16(env[key]).Some? ==> v == ParseU16(env[key]).value
  {
    if key !in env then default else ParseU16(env[key]).GetOr(default)
  }

  /** The error an optional 16-bit variable adds: one, when present and unparsable. */
  function U16Errors(env: map<string, string>, key: string): (e: seq<VarError>)
    ensures e == [] <==> key !in env || ParseU16(env[key]).Some?
  {
    if key in env && ParseU16(env[key]).None? then [Invalid(key, env[key])] else []
  }

  /** The error a required variable adds: one, when absent. */
  function RequiredErrors(env: map<string, string>, key: string): (e: seq<VarError>)
    ensures e == [] <==> key in env
  {
    if key in env then [] else [Missing(key)]
  }

  class Vars {
    const env: map<string, string>
    var warnings: seq<string>
    var errors: seq<VarError>
    /** Every key looked up so far. */
    ghost var lookups: set<string>

    constructor (env: map<string, string>)
      ensures this.env == env && warnings == [] && errors == [] && lookups == {}
    {
      this.env := env;
      warnings, errors := [], [];
      lookups := {};
    }

    /** A required string variable; its absence is recorded as an error. */
    method Var(key: string) returns (v: Option<string>)
      modifies this`errors, this`lookups
      ensures v == Lookup(env, key)
      ensures errors == old(errors) + RequiredErrors(env, key)
      ensures lookups == old(lookups) + {key}
    {
      v := Lookup(env, key);
      if v.None? {
        errors := errors + [Missing(key)];
      }
      lookups := lookups + {key};
    }

    /** A string variable with a default; it cannot fail. */
    method VarDefault(key: string, default: string) returns (v: string)
      modifies this`lookups
      ensures v == Lookup(env, key).GetOr(default)
      ensures lookups == old(lookups) + {key}
    {
      v := Lookup(env, key).GetOr(default);
      lookups := lookups + {key};
    }

    /** A 16-bit variable with a default; a present but unparsable value is an error. */
    method VarDefaultU16(key: string, default: U16) returns (v: U16)
      modifies this`errors, this`lookups
      ensures v == U16Var(env, key, default)
      ensures errors == old(errors) + U16Errors(env, key)
      ensures lookups == old(lookups) + {key}
    {
      v := default;
      if key in env {
        var parsed := ParseU16(env[key]);
        if parsed.Some? {
          v := parsed.value;
        } else {
          errors := errors + [Invalid(key, env[key])];
        }
      }
      lookups := lookups + {key};
    }

    /** An optional string variable; it cannot fail. */
    method MaybeVar(key: string) returns (v: Option<string>)
      modifies this`lookups
      ensures v == Lookup(env, key)
      ensures lookups == old(lookups) + {key}
    {
      v := Lookup(env, key);
      lookups := lookups + {key};
    }

    method AddWarning(w: string)
      modifies this`warnings
      ensures warnings == old(warnings) + [w]
    {
      warnings := warnings + [w];
    }

    /** Whether resolution may go on: Hoodik's `panic_if_errors` stops on any accumulated error. */
    method PanicIfErrors(context: string) returns (ok: bool)
      ensures ok <==> errors == []
    {
      ok := |errors| == 0;
    }
  }
}
