/**
 * Resolution of the outbound-email configuration from the environment:
 * which mailer is enabled, the SMTP credentials, the TLS mode (explicit or
 * inferred from the port) and the default sender mailbox, with the
 * warnings each step records.
 */
module EmailConfigs {
  import opened Wrappers
  import opened TlsModes
  import opened ConfigVars

  const MailerType := "MAILER_TYPE"
  const SmtpAddress := "SMTP_ADDRESS"
  const SmtpUsername := "SMTP_USERNAME"
  const SmtpPassword := "SMTP_PASSWORD"
  const SmtpPort := "SMTP_PORT"
  const SmtpDefaultFromEmail := "SMTP_DEFAULT_FROM_EMAIL"
  const SmtpDefaultFromName := "SMTP_DEFAULT_FROM_NAME"
  /** Deprecated in favour of the two variables above. */
  const SmtpDefaultFrom := "SMTP_DEFAULT_FROM"
  const SmtpTlsMode := "SMTP_TLS_MODE"

  const DefaultPort: U16 := 465
  /** The display name used when only an address is configured. */
  const AppLabel := "Hoodik"

  /** The keys credential resolution looks up. */
  const CredentialKeys := {SmtpAddress, SmtpUsername, SmtpPassword, SmtpPort,
                           SmtpDefaultFromEmail, SmtpDefaultFromName, SmtpDefaultFrom, SmtpTlsMode}

  datatype SmtpCredentials = SmtpCredentials(
    address: string,
    username: string,
    password: string,
    port: U16,
    defaultFrom: string,
    tlsMode: TlsMode,
    usedDeprecatedDefaultFrom: bool)

  /** `Disabled` is Hoodik's `EmailConfig::None`: no sender is configured. */
  datatype EmailConfig = Smtp(credentials: SmtpCredentials) | Disabled

  /** Either a configuration, or the stop that accumulated errors cause. */
  datatype Loaded = Loaded(config: EmailConfig) | Panicked(context: string, errors: seq<VarError>)

  // ------------------------------------------------------------- substrings

  /** `part` occurs in `s` at offset `k`. */
  predicate OccursAt(s: string, part: string, k: int)
  {
    0 <= k <= |s| - |part| && s[k..k + |part|] == part
  }

  ghost predicate Contains(s: string, part: string)
  {
    exists k :: OccursAt(s, part, k)
  }

  /** A text assembled from six pieces mentions its second, fourth and sixth pieces. */
  lemma MentionsPieces(a: string, v: string, b: string, n: string, c: string, p: string)
    ensures Contains(a + v + b + n + c + p, v)
    ensures Contains(a + v + b + n + c + p, n)
    ensures Contains(a + v + b + n + c + p, p)
  {
    var w := a + v + b + n + c + p;
    assert OccursAt(w, v, |a|);
    assert OccursAt(w, n, |a| + |v| + |b|);
    assert OccursAt(w, p, |a| + |v| + |b| + |n| + |c|);
  }

  // --------------------------------------------------------------- TLS mode

  const InvalidTlsHead := "Invalid SMTP_TLS_MODE '"
  const InvalidTlsMiddle := "'. Valid values are: starttls, implicit, none. Auto-detected '"
  const InvalidTlsTail := "' from port "

  /** The warning for an unusable `SMTP_TLS_MODE`. */
  function InvalidTlsWarning(value: string, fallback: TlsMode, port: U16): (w: string)
    ensures Contains(w, value)
    ensures Contains(w, ModeName(fallback))
    ensures Contains(w, DecimalString(port))
  {
    var w := InvalidTlsHead + value + InvalidTlsMiddle + ModeName(fallback) + InvalidTlsTail + DecimalString(port);
    MentionsPieces(InvalidTlsHead, value, InvalidTlsMiddle, ModeName(fallback), InvalidTlsTail, DecimalString(port));
    w
  }

  /**
   * The TLS mode from the (possibly empty) `SMTP_TLS_MODE` text and the
   * port: an accepted alias wins, anything else falls back to the port.
   */
  function ResolveTls(modeText: string, port: U16): (m: TlsMode)
    ensures modeText == "" ==> m == FromPort(port)
    ensures FromStr(modeText).Some? ==> m == FromStr(modeText).value
    ensures FromStr(modeText).None? ==> m == FromPort(port)
  {
    if modeText != "" then
      match FromStr(modeText)
      case Some(mode) => mode
      case None => FromPort(port)
    else
      FromPort(port)
  }

  /** The warnings TLS resolution records: one, exactly for non-empty text it cannot parse. */
  function TlsWarnings(modeText: string, port: U16): (w: seq<string>)
    ensures |w| <= 1
    ensures w == [] <==> modeText == "" || FromStr(modeText).Some?
    ensures |w| == 1 ==> Contains(w[0], modeText)
    ensures |w| == 1 ==> Contains(w[0], ModeName(ResolveTls(modeText, port)))
    ensures |w| == 1 ==> Contains(w[0], DecimalString(port))
  {
    if modeText != "" && FromStr(modeText).None?
    then [InvalidTlsWarning(modeText, FromPort(port), port)]
    else []
  }

  /** An explicit, accepted mode does not depend on the port. */
  lemma ExplicitModeIgnoresPort(modeText: string, p: U16, q: U16)
    requires FromStr(modeText).Some?
    ensures ResolveTls(modeText, p) == ResolveTls(modeText, q)
    ensures TlsWarnings(modeText, p) == TlsWarnings(modeText, q) == []
  {
  }

  /** `SMTP_TLS_MODE=bogus` with `SMTP_PORT=587`: STARTTLS, and a warning naming both. */
  lemma BogusModeOnSubmissionPort()
    ensures ResolveTls("bogus", 587) == StartTls
    ensures |TlsWarnings("bogus", 587)| == 1
    ensures Contains(TlsWarnings("bogus", 587)[0], "bogus")
    ensures Contains(TlsWarnings("bogus", 587)[0], "starttls")
  {
    assert ToLower("bogus") == "bogus";
  }

  // -------------------------------------------------------- default sender

  predicate NonEmpty(o: Option<string>)
  {
    o.Some? && o.value != ""
  }

  /**
   * The default sender mailbox text: name and address, else the address
   * with the application label, else the deprecated value verbatim, else
   * the empty string (rejected later, when the sender parses it).
   */
  function DefaultFrom(email: Option<string>, name: Option<string>, deprecated: Option<string>): (r: string)
    ensures NonEmpty(email) && NonEmpty(name) ==> r == name.value + " <" + email.value + ">"
    ensures NonEmpty(email) && !NonEmpty(name) ==> r == AppLabel + " <" + email.value + ">"
    ensures !NonEmpty(email) && NonEmpty(deprecated) ==> r == deprecated.value
    ensures r == "" <==> !NonEmpty(email) && !NonEmpty(deprecated)
  {
    if NonEmpty(email) && NonEmpty(name) then
      name.value + " <" + email.value + ">"
    else if NonEmpty(email) then
      AppLabel + " <" + email.value + ">"
    else if NonEmpty(deprecated) then
      deprecated.value
    else
      ""
  }

  /** Once an address is configured, the deprecated variable no longer matters. */
  lemma DefaultFromIgnoresDeprecated(email: Option<string>, name: Option<string>, d1: Option<string>, d2: Option<string>)
    requires NonEmpty(email)
    ensures DefaultFrom(email, name, d1) == DefaultFrom(email, name, d2)
  {
  }

  const DeprecationWarning :=
    "SMTP_DEFAULT_FROM is deprecated and will be removed in a future version. " +
    "Please use SMTP_DEFAULT_FROM_EMAIL and SMTP_DEFAULT_FROM_NAME instead."

  /**
   * The deprecation warning: recorded exactly when the new address variable
   * is absent and the deprecated one is present (presence, not content).
   */
  function DeprecationWarnings(email: Option<string>, deprecated: Option<string>): (w: seq<string>)
    ensures w != [] <==> email.None? && deprecated.Some?
    ensures w != [] ==> w == [DeprecationWarning]
  {
    if email.None? && deprecated.Some? then [DeprecationWarning] else []
  }

  /**
   * The presence test of the warning and the content test of the default
   * sender disagree: an empty new address lets the deprecated value through
   * without a warning, and an empty deprecated value is warned about
   * although it is not used.
   */
  lemma DeprecationWarningTestsPresence()
    ensures DefaultFrom(Some(""), None, Some("B <b@x.com>")) == "B <b@x.com>"
    ensures DeprecationWarnings(Some(""), Some("B <b@x.com>")) == []
    ensures DefaultFrom(None, None, Some("")) == ""
    ensures DeprecationWarnings(None, Some("")) == [DeprecationWarning]
  {
  }

  // ------------------------------------------------- resolution, env level

  function PortOf(env: map<string, string>): (p: U16)
    ensures SmtpPort !in env ==> p == DefaultPort
    ensures SmtpPort in env && ParseU16(env[SmtpPort]).Some? ==> p == ParseU16(env[SmtpPort]).value
  {
    U16Var(env, SmtpPort, DefaultPort)
  }

  function TlsModeTextOf(env: map<string, string>): (t: string)
  {
    Lookup(env, SmtpTlsMode).GetOr("")
  }

  /** The errors credential resolution adds: missing required fields, an unparsable port. */
  function CredentialErrors(env: map<string, string>): (e: seq<VarError>)
    ensures e == [] <==>
      SmtpAddress in env && SmtpUsername in env && SmtpPassword in env &&
      (SmtpPort !in env || ParseU16(env[SmtpPort]).Some?)
  {
    RequiredErrors(env, SmtpAddress) + RequiredErrors(env, SmtpUsername) +
    RequiredErrors(env, SmtpPassword) + U16Errors(env, SmtpPort)
  }

  /** The warnings credential resolution adds, TLS first. */
  function CredentialWarnings(env: map<string, string>): (w: seq<string>)
  {
    TlsWarnings(TlsModeTextOf(env), PortOf(env)) +
    DeprecationWarnings(Lookup(env, SmtpDefaultFromEmail), Lookup(env, SmtpDefaultFrom))
  }

  /**
   * The values credential resolution captures for later: required fields
   * may still be missing here; they are used only once no error stopped
   * resolution.
   */
  datatype PendingCredentials = PendingCredentials(
    address: Option<string>,
    username: Option<string>,
    password: Option<string>,
    port: U16,
    fromEmail: Option<string>,
    fromName: Option<string>,
    deprecatedFrom: Option<string>,
    tlsMode: TlsMode)
  {
    predicate Complete()
    {
      address.Some? && username.Some? && password.Some?
    }

    /**
     * Builds the credentials; the default sender is decided here, and it is
     * empty exactly when neither a non-empty address nor a non-empty
     * deprecated value was configured.
     */
    function Force(): (c: SmtpCredentials)
      requires Complete()
      ensures c.address == address.value && c.username == username.value && c.password == password.value
      ensures c.port == port && c.tlsMode == tlsMode
      ensures c.defaultFrom == DefaultFrom(fromEmail, fromName, deprecatedFrom)
      ensures c.defaultFrom == "" <==> !NonEmpty(fromEmail) && !NonEmpty(deprecatedFrom)
      ensures !c.usedDeprecatedDefaultFrom
    {
      SmtpCredentials(
        address.value, username.value, password.value, port,
        DefaultFrom(fromEmail, fromName, deprecatedFrom),
        tlsMode,
        false)
    }
  }

  /** What credential resolution captures from an environment. */
  function Captured(env: map<string, string>): (p: PendingCredentials)
    ensures p.Complete() <==> SmtpAddress in env && SmtpUsername in env && SmtpPassword in env
  {
    PendingCredentials(
      Lookup(env, SmtpAddress), Lookup(env, SmtpUsername), Lookup(env, SmtpPassword),
      PortOf(env),
      Lookup(env, SmtpDefaultFromEmail), Lookup(env, SmtpDefaultFromName), Lookup(env, SmtpDefaultFrom),
      ResolveTls(TlsModeTextOf(env), PortOf(env)))
  }

  // ------------------------------------------------- resolution, on Vars

  /** Resolves the TLS mode, recording a warning when the explicit text is unusable. */
  method ResolveTlsMode(vars: Vars, modeText: string, port: U16) returns (tlsMode: TlsMode)
    modifies vars`warnings
    ensures tlsMode == ResolveTls(modeText, port)
    ensures vars.warnings == old(vars.warnings) + TlsWarnings(modeText, port)
  {
    if modeText != "" {
      match FromStr(modeText)
      case Some(mode) =>
        tlsMode := mode;
      case None =>
        var fallback := FromPort(port);
        vars.AddWarning(InvalidTlsWarning(modeText, fallback, port));
        tlsMode := fallback;
    } else {
      tlsMode := FromPort(port);
    }

  }

  /** Reads the required SMTP variables and the port; their problems become errors. */
  method ReadServerVars(vars: Vars) returns (address: Option<string>, username: Option<string>,
                                             password: Option<string>, port: U16)
    modifies vars`errors, vars`lookups
    ensures vars.errors == old(vars.errors) + CredentialErrors(vars.env)
    ensures vars.lookups == old(vars.lookups) + {SmtpAddress, SmtpUsername, SmtpPassword, SmtpPort}
    ensures address == Lookup(vars.env, SmtpAddress)
    ensures username == Lookup(vars.env, SmtpUsername)
    ensures password == Lookup(vars.env, SmtpPassword)
    ensures port == PortOf(vars.env)
  {
    ghost var errors0 := vars.errors;
    address := vars.Var(SmtpAddress);
    username := vars.Var(SmtpUsername);
    password := vars.Var(SmtpPassword);
    port := vars.VarDefaultU16(SmtpPort, DefaultPort);
    AppendAssoc4(errors0, RequiredErrors(vars.env, SmtpAddress), RequiredErrors(vars.env, SmtpUsername),
                 RequiredErrors(vars.env, SmtpPassword), U16Errors(vars.env, SmtpPort));
  }

  /** Reads the optional sender and TLS variables; none of them can fail. */
  method ReadOptionalVars(vars: Vars) returns (fromEmail: Option<string>, fromName: Option<string>,
                                               deprecatedFrom: Option<string>, modeText: string)
    modifies vars`lookups
    ensures vars.lookups == old(vars.lookups) + {SmtpDefaultFromEmail, SmtpDefaultFromName, SmtpDefaultFrom, SmtpTlsMode}
    ensures fromEmail == Lookup(vars.env, SmtpDefaultFromEmail)
    ensures fromName == Lookup(vars.env, SmtpDefaultFromName)
    ensures deprecatedFrom == Lookup(vars.env, SmtpDefaultFrom)
    ensures modeText == TlsModeTextOf(vars.env)
  {
    fromEmail := vars.MaybeVar(SmtpDefaultFromEmail);
    fromName := vars.MaybeVar(SmtpDefaultFromName);
    deprecatedFrom := vars.MaybeVar(SmtpDefaultFrom);
    modeText := vars.VarDefault(SmtpTlsMode, "");
  }

  /** Reads the SMTP variables, resolves the TLS mode and records the warnings. */
  method NewCredentials(vars: Vars) returns (pending: PendingCredentials)
    modifies vars`warnings, vars`errors, vars`lookups
    ensures vars.errors == old(vars.errors) + CredentialErrors(vars.env)
    ensures vars.warnings == old(vars.warnings) + CredentialWarnings(vars.env)
    ensures vars.lookups == old(vars.lookups) + CredentialKeys
    ensures pending == Captured(vars.env)
  {
    ghost var warnings0 := vars.warnings;
    var address, username, password, port := ReadServerVars(vars);
    var fromEmail, fromName, deprecatedFrom, modeText := ReadOptionalVars(vars);

    var tlsMode := ResolveTlsMode(vars, modeText, port);

    if fromEmail.None? && deprecatedFrom.Some? {
      vars.AddWarning(DeprecationWarning);
    }
    AppendAssoc(warnings0, TlsWarnings(modeText, port),
                DeprecationWarnings(fromEmail, deprecatedFrom));

    pending := PendingCredentials(address, username, password, port,
                                  fromEmail, fromName, deprecatedFrom, tlsMode);
  }

  /**
   * Selects the mailer. Anything but exactly `smtp` disables email without
   * looking at any SMTP variable; `smtp` resolves the credentials and
   * yields them only when no error has accumulated.
   */
  method NewEmailConfig(vars: Vars) returns (r: Loaded)
    modifies vars`warnings, vars`errors, vars`lookups
    ensures Lookup(vars.env, MailerType).GetOr("") != "smtp" ==>
      && r == Loaded(Disabled)
      && vars.warnings == old(vars.warnings)
      && vars.errors == old(vars.errors)
      && vars.lookups == old(vars.lookups) + {MailerType}
    ensures Lookup(vars.env, MailerType).GetOr("") == "smtp" ==>
      && vars.warnings == old(vars.warnings) + CredentialWarnings(vars.env)
      && vars.errors == old(vars.errors) + CredentialErrors(vars.env)
      && vars.lookups == old(vars.lookups) + {MailerType} + CredentialKeys
      && (r.Loaded? <==> vars.errors == [])
      && (r.Loaded? ==> r.config.Smtp?)
    ensures r.Panicked? ==> r.context == "EmailConfig" && r.errors == vars.errors && r.errors != []
    ensures r.Loaded? && r.config.Smtp? ==>
      var c := r.config.credentials;
      && SmtpAddress in vars.env && c.address == vars.env[SmtpAddress]
      && SmtpUsername in vars.env && c.username == vars.env[SmtpUsername]
      && SmtpPassword in vars.env && c.password == vars.env[SmtpPassword]
      && c.port == PortOf(vars.env)
      && c.tlsMode == ResolveTls(TlsModeTextOf(vars.env), PortOf(vars.env))
      && c.defaultFrom == DefaultFrom(Lookup(vars.env, SmtpDefaultFromEmail),
                                      Lookup(vars.env, SmtpDefaultFromName),
                                      Lookup(vars.env, SmtpDefaultFrom))
      && !c.usedDeprecatedDefaultFrom
  {
    var mailer := vars.VarDefault(MailerType, "");
    if mailer == "smtp" {
      var pending := NewCredentials(vars);
      var ok := vars.PanicIfErrors("EmailConfig");
      if !ok {
        return Panicked("EmailConfig", vars.errors);
      }
      assert CredentialErrors(vars.env) == [];
      r := Loaded(Smtp(pending.Force()));
    } else {
      r := Loaded(Disabled);
    }
  }
}
