/** Properties of the Widevine flag validator: what a passing verdict
    guarantees, how each rule shows up among the diagnostics, how the
    signing flags resolve to one scheme, and the advisory warning. */
module WidevineProperties {
  import opened WidevineFlags
  import opened WidevineValidation
  import opened AsciiText
  import opened Outcomes

  /** The request-signing scheme a consistent set of signing flags selects. */
  datatype SigningScheme =
    | Unsigned
    | AesSigned(key: string, iv: string)
    | RsaSigned(keyPath: string)

  /** The one scheme the signing flags describe, or None when they describe
      none or more than one: with no signer every credential must be absent;
      with a signer exactly one of a complete AES pair or an RSA key path. */
  function SigningSchemeOf(c: Config): Option<SigningScheme>
  {
    if c.signer == "" then
      if c.aesSigningKey == "" && c.aesSigningIv == "" && c.rsaSigningKeyPath == ""
      then Some(Unsigned) else None
    else if c.aesSigningKey != "" && c.aesSigningIv != "" && c.rsaSigningKeyPath == "" then
      Some(AesSigned(c.aesSigningKey, c.aesSigningIv))
    else if c.aesSigningKey == "" && c.aesSigningIv == "" && c.rsaSigningKeyPath != "" then
      Some(RsaSigned(c.rsaSigningKeyPath))
    else None
  }

  /** The configuration invariants, stated flag by flag independently of
      the rule sequence: the key server URL exactly when Widevine crypto is
      on, content_id exactly when encryption is on, the encryption-only and
      crypto-only options only with their switch, strictly increasing
      positive thresholds, one consistent signing scheme, and a crypto
      period that is not negative. */
  predicate WellFormed(c: Config)
  {
    && (WidevineCryptoOn(c) <==> c.keyServerUrl != "")
    && (c.signer != "" ==> WidevineCryptoOn(c))
    && (c.enableWidevineEncryption <==> c.contentId != "")
    && (c.policy != "" ==> c.enableWidevineEncryption)
    && (c.includeCommonPssh ==> c.enableWidevineEncryption)
    && 0 < c.maxSdPixels < c.maxHdPixels < c.maxUhd1Pixels
    && SigningSchemeOf(c).Some?
    && c.cryptoPeriodDuration >= 0
  }

  /** The rule a diagnostic of the given shape belongs to: each diagnostic
      names its flag and kind closely enough to tell which rule raised it. */
  function Origin(d: Diagnostic): Option<Rule>
  {
    match d
    case Required(field, _) => PresenceRuleOf(field)
    case OnlyValidWith(field, _) => PresenceRuleOf(field)
    case NotPositive(field) =>
      if field == MaxSdPixels then Some(SdPositiveRule)
      else if field == MaxHdPixels then Some(HdPositiveRule)
      else if field == MaxUhd1Pixels then Some(Uhd1PositiveRule)
      else None
    case NotGreater(field, _) =>
      if field == MaxHdPixels then Some(HdAboveSdRule)
      else if field == MaxUhd1Pixels then Some(Uhd1AboveHdRule)
      else None
    case CredentialRequired => Some(CredentialRule)
    case Negative(_) => Some(CryptoPeriodRule)
  }

  function PresenceRuleOf(field: Field): Option<Rule>
  {
    match field
    case KeyServerUrl => Some(KeyServerUrlRule)
    case Signer => Some(SignerRule)
    case ContentId => Some(ContentIdRule)
    case Policy => Some(PolicyRule)
    case IncludeCommonPssh => Some(CommonPsshRule)
    case AesSigningKey => Some(AesKeyRule)
    case AesSigningIv => Some(AesIvRule)
    case RsaSigningKeyPath => Some(RsaKeyPathRule)
    case _ => None
  }

  /** Whatever a rule reports, its origin is that rule: no two rules can
      report the same diagnostic. */
  lemma OriginIsUnique(c: Config, rule: Rule)
    ensures RuleCheck(c, rule).Some? ==> Origin(RuleCheck(c, rule).value) == Some(rule)
  {
  }

  /** A diagnostic is reported exactly when the rule it belongs to reports it. */
  lemma InDiagnostics(c: Config, d: Diagnostic)
    ensures d in Diagnostics(c) <==> Origin(d).Some? && RuleCheck(c, Origin(d).value) == Some(d)
  {
    var o := RuleOutcomes(c);
    InFlatten(o, d);
    if d in Diagnostics(c) {
      var i :| 0 <= i < |o| && o[i] == Some(d);
      OriginIsUnique(c, RuleAt(i));
    }
    if Origin(d).Some? && RuleCheck(c, Origin(d).value) == Some(d) {
      NoRuleSuppressed(c, Origin(d).value);
    }
  }

  /** The form of InDiagnostics used below: when the rule `d` belongs to
      reports it exactly under `condition`, `d` is among the diagnostics
      exactly under `condition`. */
  lemma ReportedWhen(c: Config, d: Diagnostic, rule: Rule, condition: bool)
    requires Origin(d) == Some(rule)
    requires RuleCheck(c, rule) == Some(d) <==> condition
    ensures d in Diagnostics(c) <==> condition
  {
    InDiagnostics(c, d);
  }

  /** A passing verdict guarantees 0 < max_sd_pixels < max_hd_pixels < max_uhd1_pixels. */
  lemma ThresholdsOrderedWhenValid(c: Config)
    requires Verdict(c)
    ensures 0 < c.maxSdPixels < c.maxHdPixels < c.maxUhd1Pixels
  {
    assert Passes(c, SdPositiveRule) && Passes(c, HdAboveSdRule) && Passes(c, Uhd1AboveHdRule);
  }

  /** Each threshold's positivity has its own diagnostic, reported exactly
      when that threshold is not positive, whatever the other rules find. */
  lemma PositivityViolationsReported(c: Config)
    ensures NotPositive(MaxSdPixels) in Diagnostics(c) <==> c.maxSdPixels <= 0
    ensures NotPositive(MaxHdPixels) in Diagnostics(c) <==> c.maxHdPixels <= 0
    ensures NotPositive(MaxUhd1Pixels) in Diagnostics(c) <==> c.maxUhd1Pixels <= 0
  {
    ReportedWhen(c, NotPositive(MaxSdPixels), SdPositiveRule, c.maxSdPixels <= 0);
    ReportedWhen(c, NotPositive(MaxHdPixels), HdPositiveRule, c.maxHdPixels <= 0);
    ReportedWhen(c, NotPositive(MaxUhd1Pixels), Uhd1PositiveRule, c.maxUhd1Pixels <= 0);
  }

  /** Each ordering comparison has its own diagnostic, reported exactly when
      the comparison fails (equal or reversed thresholds). */
  lemma OrderingViolationsReported(c: Config)
    ensures NotGreater(MaxHdPixels, MaxSdPixels) in Diagnostics(c) <==> c.maxHdPixels <= c.maxSdPixels
    ensures NotGreater(MaxUhd1Pixels, MaxHdPixels) in Diagnostics(c) <==> c.maxUhd1Pixels <= c.maxHdPixels
  {
    ReportedWhen(c, NotGreater(MaxHdPixels, MaxSdPixels), HdAboveSdRule, c.maxHdPixels <= c.maxSdPixels);
    ReportedWhen(c, NotGreater(MaxUhd1Pixels, MaxHdPixels), Uhd1AboveHdRule, c.maxUhd1Pixels <= c.maxHdPixels);
  }

  /** include_common_pssh without encryption is reported and fails the
      verdict; with encryption enabled this rule always passes. */
  lemma CommonPsshNeedsEncryption(c: Config)
    ensures OnlyValidWith(IncludeCommonPssh, WidevineEncryption) in Diagnostics(c)
            <==> c.includeCommonPssh && !c.enableWidevineEncryption
    ensures c.includeCommonPssh && !c.enableWidevineEncryption ==> !Verdict(c)
    ensures c.enableWidevineEncryption ==> Passes(c, CommonPsshRule)
  {
    ReportedWhen(c, OnlyValidWith(IncludeCommonPssh, WidevineEncryption), CommonPsshRule,
                 c.includeCommonPssh && !c.enableWidevineEncryption);
    if c.includeCommonPssh && !c.enableWidevineEncryption {
      assert !Passes(c, CommonPsshRule);
    }
  }

  /** key_server_url is required, not optional, under Widevine crypto: it is
      reported missing when crypto is on and the URL is empty, and out of
      place when crypto is off and the URL is given. */
  lemma KeyServerUrlGovernedByCrypto(c: Config)
    ensures Required(KeyServerUrl, WidevineCrypto) in Diagnostics(c)
            <==> WidevineCryptoOn(c) && c.keyServerUrl == ""
    ensures OnlyValidWith(KeyServerUrl, WidevineCrypto) in Diagnostics(c)
            <==> !WidevineCryptoOn(c) && c.keyServerUrl != ""
  {
    ReportedWhen(c, Required(KeyServerUrl, WidevineCrypto), KeyServerUrlRule,
                 WidevineCryptoOn(c) && c.keyServerUrl == "");
    ReportedWhen(c, OnlyValidWith(KeyServerUrl, WidevineCrypto), KeyServerUrlRule,
                 !WidevineCryptoOn(c) && c.keyServerUrl != "");
  }

  /** content_id behaves the same way under encryption alone: decryption
      does not make it required. */
  lemma ContentIdGovernedByEncryption(c: Config)
    ensures Required(ContentId, WidevineEncryption) in Diagnostics(c)
            <==> c.enableWidevineEncryption && c.contentId == ""
    ensures OnlyValidWith(ContentId, WidevineEncryption) in Diagnostics(c)
            <==> !c.enableWidevineEncryption && c.contentId != ""
  {
    ReportedWhen(c, Required(ContentId, WidevineEncryption), ContentIdRule,
                 c.enableWidevineEncryption && c.contentId == "");
    ReportedWhen(c, OnlyValidWith(ContentId, WidevineEncryption), ContentIdRule,
                 !c.enableWidevineEncryption && c.contentId != "");
  }

  /** signer is optional under Widevine crypto: never reported missing, and
      reported out of place exactly when given with crypto off. */
  lemma SignerIsOptional(c: Config)
    ensures Required(Signer, WidevineCrypto) !in Diagnostics(c)
    ensures OnlyValidWith(Signer, WidevineCrypto) in Diagnostics(c)
            <==> !WidevineCryptoOn(c) && c.signer != ""
  {
    ReportedWhen(c, Required(Signer, WidevineCrypto), SignerRule, false);
    ReportedWhen(c, OnlyValidWith(Signer, WidevineCrypto), SignerRule,
                 !WidevineCryptoOn(c) && c.signer != "");
  }

  /** policy is optional under encryption: never reported missing, and
      reported out of place exactly when given with encryption off. */
  lemma PolicyIsOptional(c: Config)
    ensures Required(Policy, WidevineEncryption) !in Diagnostics(c)
    ensures OnlyValidWith(Policy, WidevineEncryption) in Diagnostics(c)
            <==> !c.enableWidevineEncryption && c.policy != ""
  {
    ReportedWhen(c, Required(Policy, WidevineEncryption), PolicyRule, false);
    ReportedWhen(c, OnlyValidWith(Policy, WidevineEncryption), PolicyRule,
                 !c.enableWidevineEncryption && c.policy != "");
  }

  /** A negative crypto period is reported; zero (rotation off) and positive
      periods pass this rule. */
  lemma CryptoPeriodNotNegative(c: Config)
    ensures Negative(CryptoPeriodDuration) in Diagnostics(c) <==> c.cryptoPeriodDuration < 0
  {
    ReportedWhen(c, Negative(CryptoPeriodDuration), CryptoPeriodRule, c.cryptoPeriodDuration < 0);
  }

  /** The signing rules pass exactly when the signing flags describe one
      scheme: nothing without a signer, and with a signer either a complete
      AES pair and no RSA path, or an RSA path and neither AES field. */
  lemma SigningRulesMatchScheme(c: Config)
    ensures SigningRulesPass(c) <==> SigningSchemeOf(c).Some?
  {
  }

  /** With a signer, a full AES pair and no RSA path passes every signing rule. */
  lemma AesPairPasses(c: Config)
    requires c.signer != "" && c.aesSigningKey != "" && c.aesSigningIv != "" && c.rsaSigningKeyPath == ""
    ensures SigningDiagnostics(c) == []
    ensures SigningSchemeOf(c) == Some(AesSigned(c.aesSigningKey, c.aesSigningIv))
  {
  }

  /** With a signer, an RSA path alone passes every signing rule. */
  lemma RsaPathPasses(c: Config)
    requires c.signer != "" && c.aesSigningKey == "" && c.aesSigningIv == "" && c.rsaSigningKeyPath != ""
    ensures SigningDiagnostics(c) == []
    ensures SigningSchemeOf(c) == Some(RsaSigned(c.rsaSigningKeyPath))
  {
  }

  /** With a signer and no RSA path, no credential at all or only one half
      of the AES pair passes the per-flag checks (both AES fields are
      optional) and fails only through the combined credential rule. */
  lemma IncompleteAesFailsOnlyViaCredentialRule(c: Config)
    requires c.signer != "" && c.rsaSigningKeyPath == ""
    requires c.aesSigningKey == "" || c.aesSigningIv == ""
    ensures SigningDiagnostics(c) == [CredentialRequired]
    ensures !Verdict(c)
  {
    assert !Passes(c, CredentialRule);
  }

  /** With a signer, an AES field together with an RSA path selects neither
      scheme: the RSA path and every given AES field are reported out of
      place. */
  lemma AesWithRsaFails(c: Config)
    requires c.signer != "" && c.rsaSigningKeyPath != ""
    requires c.aesSigningKey != "" || c.aesSigningIv != ""
    ensures OnlyValidWith(RsaSigningKeyPath, RsaSigning) in SigningDiagnostics(c)
    ensures c.aesSigningKey != "" ==> OnlyValidWith(AesSigningKey, AesSigning) in SigningDiagnostics(c)
    ensures c.aesSigningIv != "" ==> OnlyValidWith(AesSigningIv, AesSigning) in SigningDiagnostics(c)
    ensures CredentialRequired !in SigningDiagnostics(c)
    ensures SigningDiagnostics(c) ==
      (if c.aesSigningKey != "" then [OnlyValidWith(AesSigningKey, AesSigning)] else [])
      + (if c.aesSigningIv != "" then [OnlyValidWith(AesSigningIv, AesSigning)] else [])
      + [OnlyValidWith(RsaSigningKeyPath, RsaSigning)]
    ensures !Verdict(c)
  {
    assert !Passes(c, RsaKeyPathRule);
  }

  /** Without a signer, every given credential is reported out of place. */
  lemma CredentialWithoutSignerFails(c: Config)
    requires c.signer == ""
    ensures SigningDiagnostics(c) ==
      (if c.aesSigningKey != "" then [OnlyValidWith(AesSigningKey, AesSigning)] else [])
      + (if c.aesSigningIv != "" then [OnlyValidWith(AesSigningIv, AesSigning)] else [])
      + (if c.rsaSigningKeyPath != "" then [OnlyValidWith(RsaSigningKeyPath, RsaSigning)] else [])
    ensures c.aesSigningKey != "" || c.aesSigningIv != "" || c.rsaSigningKeyPath != "" ==> !Verdict(c)
  {
    VerdictIffWellFormed(c);
  }

  /** The verdict passes exactly when the configuration invariants hold. */
  lemma VerdictIffWellFormed(c: Config)
    ensures Verdict(c) <==> WellFormed(c)
  {
    VerdictBySections(c);
    SigningRulesMatchScheme(c);
  }

  /** A passing configuration that names a signer has selected AES or RSA
      signing, never neither. */
  lemma NamedSignerSelectsScheme(c: Config)
    requires Verdict(c) && c.signer != ""
    ensures SigningSchemeOf(c).Some? && !SigningSchemeOf(c).value.Unsigned?
  {
    VerdictBySections(c);
    SigningRulesMatchScheme(c);
  }

  /** The verdict depends on key_server_url only through whether it is
      empty: the http prefix that triggers the advisory warning never
      changes a verdict or a diagnostic. */
  lemma UrlSchemeDoesNotAffectVerdict(c: Config, url: string)
    requires (url == "") == (c.keyServerUrl == "")
    ensures Diagnostics(c.(keyServerUrl := url)) == Diagnostics(c)
    ensures Verdict(c.(keyServerUrl := url)) <==> Verdict(c)
  {
    var c' := c.(keyServerUrl := url);
    forall i | 0 <= i < RuleCount
      ensures RuleOutcomes(c')[i] == RuleOutcomes(c)[i]
    {
      RuleIgnoresUrlText(c, url, RuleAt(i));
    }
    assert RuleOutcomes(c') == RuleOutcomes(c);
    VerdictIsConjunction(c');
    VerdictIsConjunction(c);
  }

  lemma RuleIgnoresUrlText(c: Config, url: string, rule: Rule)
    requires (url == "") == (c.keyServerUrl == "")
    ensures RuleCheck(c.(keyServerUrl := url), rule) == RuleCheck(c, rule)
  {
  }

  /** The warning fires only with crypto on, no signer, and a URL that
      begins with "http" in any ASCII case; the URL is then non-empty, so
      the key_server_url rule passes. */
  lemma WarningCondition(c: Config)
    ensures Warnings(c) == [SignerLikelyRequired] || Warnings(c) == []
    ensures Warnings(c) != [] <==>
      WidevineCryptoOn(c) && c.signer == "" && |c.keyServerUrl| >= 4
      && forall i :: 0 <= i < 4 ==> EqualIgnoringAsciiCase(c.keyServerUrl[i], "http"[i])
    ensures Warnings(c) != [] ==> Passes(c, KeyServerUrlRule) && Passes(c, SignerRule)
  {
  }

  /** Encryption on, an https key server, no signer, a content id, the
      default thresholds and no key rotation: the verdict passes with no
      error and exactly one advisory warning. */
  lemma EncryptionWithoutSignerWarnsButPasses()
    ensures var c := Defaults().(enableWidevineEncryption := true,
                                 keyServerUrl := "https://eu.example", contentId := "abcd");
            Diagnostics(c) == [] && Verdict(c) && Warnings(c) == [SignerLikelyRequired]
  {
    var c := Defaults().(enableWidevineEncryption := true,
                         keyServerUrl := "https://eu.example", contentId := "abcd");
    HttpSpellingsMatch("s://eu.example");
    assert c.keyServerUrl == "http" + "s://eu.example";
    assert WellFormed(c);
    VerdictIffWellFormed(c);
    VerdictIsConjunction(c);
  }

  /** The flag defaults pass validation without warnings. */
  lemma DefaultsPass()
    ensures Diagnostics(Defaults()) == [] && Verdict(Defaults()) && Warnings(Defaults()) == []
  {
    VerdictIsConjunction(Defaults());
  }

  /** Validation only reads the configuration, so validating the same
      configuration twice gives the same verdict, diagnostics and warnings. */
  method RevalidationAgrees(c: Config) returns (same: bool)
    ensures same
  {
    var s1, e1, w1 := ValidateWidevineCryptoFlags(c);
    var s2, e2, w2 := ValidateWidevineCryptoFlags(c);
    same := s1 == s2 && e1 == e2 && w1 == w2;
  }
}
