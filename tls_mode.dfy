/**
 * The TLS strategy of the SMTP connection and its two total resolvers:
 * inference from a port number and parsing of a case-insensitive alias.
 */
module TlsModes {
  import opened Wrappers

  /** An SMTP port, a 16-bit unsigned integer. */
  type U16 = x: int | 0 <= x < 0x1_0000

  /** Upgrade-after-connect, encrypted-from-connect, or unencrypted (`TlsMode::None`). */
  datatype TlsMode = StartTls | ImplicitTls | NoTls

  /** Port inference; every port other than the three well-known ones gets implicit TLS. */
  function FromPort(port: U16): (m: TlsMode)
    ensures m == StartTls <==> port == 587
    ensures m == NoTls <==> port == 25
    ensures m == ImplicitTls <==> port != 587 && port != 25
  {
    match port
    case 587 => StartTls
    case 465 => ImplicitTls
    case 25 => NoTls
    case _ => ImplicitTls
  }

  /** An ASCII capital letter. */
  predicate IsUpper(c: char)
  {
    'A' <= c <= 'Z'
  }

  /** ASCII lowercasing of one character. */
  function LowerChar(c: char): char
  {
    if IsUpper(c) then (c as int + 32) as char else c
  }

  /**
   * ASCII lowercasing: no capital is left, every other character is kept,
   * and each capital becomes the letter 32 code points later.
   */
  function ToLower(s: string): (r: string)
    ensures |r| == |s|
    ensures forall i :: 0 <= i < |r| ==> !IsUpper(r[i])
    ensures forall i :: 0 <= i < |s| && !IsUpper(s[i]) ==> r[i] == s[i]
    ensures forall i :: 0 <= i < |s| && IsUpper(s[i]) ==> r[i] as int == s[i] as int + 32
    ensures r == s <==> forall i :: 0 <= i < |s| ==> !IsUpper(s[i])
  {
    var r := seq(|s|, i requires 0 <= i < |s| => LowerChar(s[i]));
    assert (forall i :: 0 <= i < |s| ==> !IsUpper(s[i])) ==> r == s;
    r
  }

  /** Lowercasing twice is lowercasing once. */
  lemma ToLowerIdempotent(s: string)
    ensures ToLower(ToLower(s)) == ToLower(s)
  {
  }

  /** The aliases accepted for each mode, all in lower case. */
  function Aliases(m: TlsMode): (a: set<string>)
    ensures a != {}
    ensures forall x :: x in a ==> ToLower(x) == x
  {
    match m
    case StartTls => {"starttls", "start_tls"}
    case ImplicitTls => {"implicit", "tls", "ssl"}
    case NoTls => {"none", "plain"}
  }

  /** No alias names two modes. */
  lemma AliasesDisjoint(m: TlsMode, n: TlsMode)
    requires m != n
    ensures Aliases(m) * Aliases(n) == {}
  {
  }

  /**
   * Alias parsing; the match is made on the lowercased text. A mode is
   * found exactly for the aliases, and it is the mode the alias belongs to.
   */
  function FromStr(s: string): (r: Option<TlsMode>)
    ensures r.Some? <==> ToLower(s) in Aliases(StartTls) + Aliases(ImplicitTls) + Aliases(NoTls)
    ensures r.Some? ==> ToLower(s) in Aliases(r.value)
  {
    match ToLower(s)
    case "starttls" => Some(StartTls)
    case "start_tls" => Some(StartTls)
    case "implicit" => Some(ImplicitTls)
    case "tls" => Some(ImplicitTls)
    case "ssl" => Some(ImplicitTls)
    case "none" => Some(NoTls)
    case "plain" => Some(NoTls)
    case _ => None
  }

  /** `FromStr` yields `m` exactly for the strings whose lowercase form is an alias of `m`. */
  lemma FromStrAliases(s: string, m: TlsMode)
    ensures FromStr(s) == Some(m) <==> ToLower(s) in Aliases(m)
  {
    if ToLower(s) in Aliases(m) && FromStr(s) != Some(m) {
      AliasesDisjoint(m, FromStr(s).value);
    }
  }

  /** A string none of whose lowercase form is an alias is rejected. */
  lemma FromStrRejects(s: string)
    ensures FromStr(s) == None <==>
      ToLower(s) !in Aliases(StartTls) + Aliases(ImplicitTls) + Aliases(NoTls)
  {
  }

  /** Parsing depends on the lowercased input only. */
  lemma FromStrCaseInsensitive(s: string)
    ensures FromStr(s) == FromStr(ToLower(s))
  {
    ToLowerIdempotent(s);
  }

  /** The name a warning gives to a mode. */
  function ModeName(m: TlsMode): (name: string)
    ensures name in Aliases(m)
  {
    match m
    case StartTls => "starttls"
    case ImplicitTls => "implicit"
    case NoTls => "none"
  }

  /** Every mode name that a warning prints is itself accepted by the parser. */
  lemma ModeNameRoundTrip(m: TlsMode)
    ensures FromStr(ModeName(m)) == Some(m)
  {
  }
}
