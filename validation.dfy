/** The Widevine crypto flag validator: every rule is evaluated, each
    violated rule contributes one diagnostic, and one advisory warning is
    reported apart from the verdict. */
module WidevineValidation {
  import opened WidevineFlags
  import opened AsciiText
  import opened Outcomes

  /** The flags a diagnostic can name. */
  datatype Field =
    | KeyServerUrl | Signer | ContentId | Policy | IncludeCommonPssh
    | MaxSdPixels | MaxHdPixels | MaxUhd1Pixels
    | AesSigningKey | AesSigningIv | RsaSigningKeyPath | CryptoPeriodDuration

  /** The condition a conditional flag belongs to; each stands for the label
      the validator passes along with it. */
  datatype Context =
    | WidevineCrypto      // --enable_widevine_encryption/decryption
    | WidevineEncryption  // --enable_widevine_encryption
    | AesSigning          // --signer given, exclusive with --rsa_signing_key_path
    | RsaSigning          // --signer given, exclusive with --aes_signing_key/iv

  /** One error, identified by the flag it concerns and the kind of rule. */
  datatype Diagnostic =
    | Required(field: Field, context: Context)
    | OnlyValidWith(field: Field, context: Context)
    | NotPositive(field: Field)
    | NotGreater(field: Field, than: Field)
    | CredentialRequired
    | Negative(field: Field)

  /** The one advisory message: a signer is likely needed. */
  datatype Warning = SignerLikelyRequired

  /** The validator's rules, one per guarded check, in the order it runs them. */
  datatype Rule =
    | KeyServerUrlRule | SignerRule | ContentIdRule | PolicyRule | CommonPsshRule
    | SdPositiveRule | HdPositiveRule | Uhd1PositiveRule | HdAboveSdRule | Uhd1AboveHdRule
    | AesKeyRule | AesIvRule | RsaKeyPathRule | CredentialRule | CryptoPeriodRule

  /** Either form of Widevine crypto is enabled. */
  predicate WidevineCryptoOn(c: Config)
  {
    c.enableWidevineEncryption || c.enableWidevineDecryption
  }

  /** AES signing is the scheme in play: a signer and no RSA key path. */
  predicate AesSelected(c: Config)
  {
    c.signer != "" && c.rsaSigningKeyPath == ""
  }

  /** RSA signing is the scheme in play: a signer and neither AES field. */
  predicate RsaSelected(c: Config)
  {
    c.signer != "" && c.aesSigningKey == "" && c.aesSigningIv == ""
  }

  /** The shared check for a conditional string flag. An empty value is an
      error only when its condition holds and it is not optional; a
      non-empty value is an error whenever its condition does not hold. */
  function ValidateFlag(field: Field, value: string, condition: bool, optional: bool,
                        context: Context): (r: Option<Diagnostic>)
    ensures r == Some(Required(field, context)) <==> value == "" && condition && !optional
    ensures r == Some(OnlyValidWith(field, context)) <==> value != "" && !condition
    ensures r == None <==> (value == "" ==> optional || !condition) && (value != "" ==> condition)
  {
    if value == "" then
      if condition && !optional then Some(Required(field, context)) else None
    else if !condition then Some(OnlyValidWith(field, context))
    else None
  }

  /** The diagnostic rule `rule` reports for `c`, if it is violated. */
  function RuleCheck(c: Config, rule: Rule): Option<Diagnostic>
  {
    match rule
    case KeyServerUrlRule =>
      ValidateFlag(KeyServerUrl, c.keyServerUrl, WidevineCryptoOn(c), false, WidevineCrypto)
    case SignerRule =>
      ValidateFlag(Signer, c.signer, WidevineCryptoOn(c), true, WidevineCrypto)
    case ContentIdRule =>
      ValidateFlag(ContentId, c.contentId, c.enableWidevineEncryption, false, WidevineEncryption)
    case PolicyRule =>
      ValidateFlag(Policy, c.policy, c.enableWidevineEncryption, true, WidevineEncryption)
    case CommonPsshRule =>
      if c.includeCommonPssh && !c.enableWidevineEncryption
      then Some(OnlyValidWith(IncludeCommonPssh, WidevineEncryption)) else None
    case SdPositiveRule =>
      if c.maxSdPixels <= 0 then Some(NotPositive(MaxSdPixels)) else None
    case HdPositiveRule =>
      if c.maxHdPixels <= 0 then Some(NotPositive(MaxHdPixels)) else None
    case Uhd1PositiveRule =>
      if c.maxUhd1Pixels <= 0 then Some(NotPositive(MaxUhd1Pixels)) else None
    case HdAboveSdRule =>
      if c.maxHdPixels <= c.maxSdPixels then Some(NotGreater(MaxHdPixels, MaxSdPixels)) else None
    case Uhd1AboveHdRule =>
      if c.maxUhd1Pixels <= c.maxHdPixels then Some(NotGreater(MaxUhd1Pixels, MaxHdPixels)) else None
    case AesKeyRule =>
      ValidateFlag(AesSigningKey, c.aesSigningKey, AesSelected(c), true, AesSigning)
    case AesIvRule =>
      ValidateFlag(AesSigningIv, c.aesSigningIv, AesSelected(c), true, AesSigning)
    case RsaKeyPathRule =>
      ValidateFlag(RsaSigningKeyPath, c.rsaSigningKeyPath, RsaSelected(c), true, RsaSigning)
    case CredentialRule =>
      if c.signer != "" && (c.aesSigningKey == "" || c.aesSigningIv == "") && c.rsaSigningKeyPath == ""
      then Some(CredentialRequired) else None
    case CryptoPeriodRule =>
      if c.cryptoPeriodDuration < 0 then Some(Negative(CryptoPeriodDuration)) else None
  }

  /** A rule passes when it reports nothing. */
  predicate Passes(c: Config, rule: Rule)
  {
    RuleCheck(c, rule) == None
  }

  /** The rules on key_server_url and signer all pass. */
  predicate CryptoRulesPass(c: Config)
  {
    Passes(c, KeyServerUrlRule)
    && Passes(c, SignerRule)
  }

  /** The rules on content_id, policy and include_common_pssh all pass. */
  predicate EncryptionRulesPass(c: Config)
  {
    Passes(c, ContentIdRule)
    && Passes(c, PolicyRule)
    && Passes(c, CommonPsshRule)
  }

  /** The three positivity rules on the pixel thresholds pass. */
  predicate PositivityRulesPass(c: Config)
  {
    Passes(c, SdPositiveRule) && Passes(c, HdPositiveRule) && Passes(c, Uhd1PositiveRule)
  }

  /** The two ordering rules on the pixel thresholds pass. */
  predicate OrderingRulesPass(c: Config)
  {
    Passes(c, HdAboveSdRule) && Passes(c, Uhd1AboveHdRule)
  }

  /** The five pixel-threshold rules all pass. */
  predicate ThresholdRulesPass(c: Config)
  {
    PositivityRulesPass(c) && OrderingRulesPass(c)
  }

  /** The four signing-credential rules all pass. */
  predicate SigningRulesPass(c: Config)
  {
    Passes(c, AesKeyRule)
    && Passes(c, AesIvRule)
    && Passes(c, RsaKeyPathRule)
    && Passes(c, CredentialRule)
  }

  /** The overall verdict: the conjunction of every rule's outcome. */
  predicate Verdict(c: Config)
  {
    forall rule :: Passes(c, rule)
  }

  /** Diagnostics of the rules on key_server_url and signer. */
  function CryptoDiagnostics(c: Config): seq<Diagnostic>
  {
    Emit(RuleCheck(c, KeyServerUrlRule)) + Emit(RuleCheck(c, SignerRule))
  }

  /** Diagnostics of the rules on content_id, policy and include_common_pssh. */
  function EncryptionDiagnostics(c: Config): seq<Diagnostic>
  {
    Emit(RuleCheck(c, ContentIdRule)) + Emit(RuleCheck(c, PolicyRule))
    + Emit(RuleCheck(c, CommonPsshRule))
  }

  /** Diagnostics of the three rules that each pixel threshold is positive. */
  function PositivityDiagnostics(c: Config): seq<Diagnostic>
  {
    Emit(RuleCheck(c, SdPositiveRule)) + Emit(RuleCheck(c, HdPositiveRule))
    + Emit(RuleCheck(c, Uhd1PositiveRule))
  }

  /** Diagnostics of the two rules that the pixel thresholds increase. */
  function OrderingDiagnostics(c: Config): seq<Diagnostic>
  {
    Emit(RuleCheck(c, HdAboveSdRule)) + Emit(RuleCheck(c, Uhd1AboveHdRule))
  }

  /** Diagnostics of the five rules on the pixel thresholds. */
  function ThresholdDiagnostics(c: Config): seq<Diagnostic>
  {
    PositivityDiagnostics(c) + OrderingDiagnostics(c)
  }

  /** Diagnostics of the four rules on the signing credentials. */
  function SigningDiagnostics(c: Config): seq<Diagnostic>
  {
    Emit(RuleCheck(c, AesKeyRule)) + Emit(RuleCheck(c, AesIvRule))
    + Emit(RuleCheck(c, RsaKeyPathRule)) + Emit(RuleCheck(c, CredentialRule))
  }

  /** The number of rules. */
  const RuleCount: nat := 15

  /** The rule the validator evaluates in position `i`. */
  function RuleAt(i: nat): Rule
    requires i < RuleCount
  {
    match i
    case 0 => KeyServerUrlRule
    case 1 => SignerRule
    case 2 => ContentIdRule
    case 3 => PolicyRule
    case 4 => CommonPsshRule
    case 5 => SdPositiveRule
    case 6 => HdPositiveRule
    case 7 => Uhd1PositiveRule
    case 8 => HdAboveSdRule
    case 9 => Uhd1AboveHdRule
    case 10 => AesKeyRule
    case 11 => AesIvRule
    case 12 => RsaKeyPathRule
    case 13 => CredentialRule
    case _ => CryptoPeriodRule
  }

  /** Where a rule stands in the evaluation order: every rule is evaluated,
      at exactly one position. */
  function Position(rule: Rule): (i: nat)
    ensures i < RuleCount && RuleAt(i) == rule
  {
    match rule
    case KeyServerUrlRule => 0
    case SignerRule => 1
    case ContentIdRule => 2
    case PolicyRule => 3
    case CommonPsshRule => 4
    case SdPositiveRule => 5
    case HdPositiveRule => 6
    case Uhd1PositiveRule => 7
    case HdAboveSdRule => 8
    case Uhd1AboveHdRule => 9
    case AesKeyRule => 10
    case AesIvRule => 11
    case RsaKeyPathRule => 12
    case CredentialRule => 13
    case CryptoPeriodRule => 14
  }

  /** The outcome of every rule, in evaluation order. */
  function RuleOutcomes(c: Config): (outs: seq<Option<Diagnostic>>)
    ensures |outs| == RuleCount
  {
    seq(RuleCount, i requires 0 <= i < RuleCount => RuleCheck(c, RuleAt(i)))
  }

  /** Every diagnostic the validator reports for `c`, in the order it reports them. */
  function Diagnostics(c: Config): seq<Diagnostic>
  {
    Flatten(RuleOutcomes(c))
  }

  /** The advisory warnings the validator logs for `c`; they never affect the verdict. */
  function Warnings(c: Config): seq<Warning>
  {
    if WidevineCryptoOn(c) && c.signer == "" && StartsWithIgnoringAsciiCase(c.keyServerUrl, "http")
    then [SignerLikelyRequired] else []
  }

  /** Validates the flags: runs every rule in turn, records each violated
      rule's diagnostic and clears `success` on each, and logs the advisory
      warning without touching `success`. */
  method ValidateWidevineCryptoFlags(c: Config)
    returns (success: bool, errors: seq<Diagnostic>, warnings: seq<Warning>)
    ensures errors == Diagnostics(c)
    ensures warnings == Warnings(c)
    ensures success <==> errors == []
    ensures success <==> Verdict(c)
  {
    var ok, found;
    success, errors, warnings := CheckCryptoFlags(c);
    ok, found := CheckEncryptionFlags(c);
    success, errors := success && ok, errors + found;
    ok, found := CheckPixelThresholds(c);
    success, errors := success && ok, errors + found;
    ok, found := CheckSigningFlags(c);
    success, errors := success && ok, errors + found;
    if c.cryptoPeriodDuration < 0 {
      errors := errors + [Negative(CryptoPeriodDuration)];
      success := false;
    }
    DiagnosticsBySections(c);
    VerdictBySections(c);
    VerdictIsConjunction(c);
  }

  /** key_server_url is required under Widevine crypto, signer is optional
      under it; the advisory warning is logged here and leaves `success` alone. */
  method CheckCryptoFlags(c: Config)
    returns (success: bool, errors: seq<Diagnostic>, warnings: seq<Warning>)
    ensures errors == CryptoDiagnostics(c)
    ensures warnings == Warnings(c)
    ensures success <==> CryptoRulesPass(c)
  {
    success, errors, warnings := true, [], [];
    var widevineCrypto := WidevineCryptoOn(c);
    var d := ValidateFlag(KeyServerUrl, c.keyServerUrl, widevineCrypto, false, WidevineCrypto);
    if d.Some? {
      errors := errors + [d.value];
      success := false;
    }
    d := ValidateFlag(Signer, c.signer, widevineCrypto, true, WidevineCrypto);
    if d.Some? {
      errors := errors + [d.value];
      success := false;
    }
    if widevineCrypto && c.signer == "" && StartsWithIgnoringAsciiCase(c.keyServerUrl, "http") {
      warnings := warnings + [SignerLikelyRequired];
    }
  }

  /** content_id is required under encryption, policy is optional under it,
      and include_common_pssh is only valid with it. */
  method CheckEncryptionFlags(c: Config) returns (success: bool, errors: seq<Diagnostic>)
    ensures errors == EncryptionDiagnostics(c)
    ensures success <==> EncryptionRulesPass(c)
  {
    success, errors := true, [];
    var d := ValidateFlag(ContentId, c.contentId, c.enableWidevineEncryption, false, WidevineEncryption);
    if d.Some? {
      errors := errors + [d.value];
      success := false;
    }
    d := ValidateFlag(Policy, c.policy, c.enableWidevineEncryption, true, WidevineEncryption);
    if d.Some? {
      errors := errors + [d.value];
      success := false;
    }
    if c.includeCommonPssh && !c.enableWidevineEncryption {
      errors := errors + [OnlyValidWith(IncludeCommonPssh, WidevineEncryption)];
      success := false;
    }
  }

  /** Each pixel threshold must be positive and each must exceed the one
      below it; every violated comparison is reported. */
  method CheckPixelThresholds(c: Config) returns (success: bool, errors: seq<Diagnostic>)
    ensures errors == ThresholdDiagnostics(c)
    ensures success <==> ThresholdRulesPass(c)
  {
    var ok, found;
    success, errors := CheckThresholdsPositive(c);
    ok, found := CheckThresholdsIncreasing(c);
    success, errors := success && ok, errors + found;
  }

  /** Each of the three pixel thresholds must be positive. */
  method CheckThresholdsPositive(c: Config) returns (success: bool, errors: seq<Diagnostic>)
    ensures errors == PositivityDiagnostics(c)
    ensures success <==> PositivityRulesPass(c)
  {
    success, errors := true, [];
    if c.maxSdPixels <= 0 {
      errors := errors + [NotPositive(MaxSdPixels)];
      success := false;
    }
    if c.maxHdPixels <= 0 {
      errors := errors + [NotPositive(MaxHdPixels)];
      success := false;
    }
    if c.maxUhd1Pixels <= 0 {
      errors := errors + [NotPositive(MaxUhd1Pixels)];
      success := false;
    }
  }

  /** The HD threshold must exceed the SD one and the UHD1 threshold the HD one. */
  method CheckThresholdsIncreasing(c: Config) returns (success: bool, errors: seq<Diagnostic>)
    ensures errors == OrderingDiagnostics(c)
    ensures success <==> OrderingRulesPass(c)
  {
    success, errors := true, [];
    if c.maxHdPixels <= c.maxSdPixels {
      errors := errors + [NotGreater(MaxHdPixels, MaxSdPixels)];
      success := false;
    }
    if c.maxUhd1Pixels <= c.maxHdPixels {
      errors := errors + [NotGreater(MaxUhd1Pixels, MaxHdPixels)];
      success := false;
    }
  }

  /** The AES pair belongs to AES signing, the RSA key path to RSA signing,
      and a named signer needs some credential. */
  method CheckSigningFlags(c: Config) returns (success: bool, errors: seq<Diagnostic>)
    ensures errors == SigningDiagnostics(c)
    ensures success <==> SigningRulesPass(c)
  {
    success, errors := true, [];
    var aes := AesSelected(c);
    var d := ValidateFlag(AesSigningKey, c.aesSigningKey, aes, true, AesSigning);
    if d.Some? {
      errors := errors + [d.value];
      success := false;
    }
    d := ValidateFlag(AesSigningIv, c.aesSigningIv, aes, true, AesSigning);
    if d.Some? {
      errors := errors + [d.value];
      success := false;
    }
    var rsa := RsaSelected(c);
    d := ValidateFlag(RsaSigningKeyPath, c.rsaSigningKeyPath, rsa, true, RsaSigning);
    if d.Some? {
      errors := errors + [d.value];
      success := false;
    }
    if c.signer != "" && (c.aesSigningKey == "" || c.aesSigningIv == "") && c.rsaSigningKeyPath == "" {
      errors := errors + [CredentialRequired];
      success := false;
    }
  }

  /** The verdict is the conjunction of the sections' outcomes. */
  lemma VerdictBySections(c: Config)
    ensures Verdict(c) <==> CryptoRulesPass(c) && EncryptionRulesPass(c) && ThresholdRulesPass(c)
                            && SigningRulesPass(c) && Passes(c, CryptoPeriodRule)
  {
    if CryptoRulesPass(c) && EncryptionRulesPass(c) && ThresholdRulesPass(c)
       && SigningRulesPass(c) && Passes(c, CryptoPeriodRule)
    {
      forall rule ensures Passes(c, rule) {
        match rule
        case KeyServerUrlRule =>
        case SignerRule =>
        case ContentIdRule =>
        case PolicyRule =>
        case CommonPsshRule =>
        case SdPositiveRule =>
        case HdPositiveRule =>
        case Uhd1PositiveRule =>
        case HdAboveSdRule =>
        case Uhd1AboveHdRule =>
        case AesKeyRule =>
        case AesIvRule =>
        case RsaKeyPathRule =>
        case CredentialRule =>
        case CryptoPeriodRule =>
      }
    }
  }

  lemma CryptoSection(c: Config)
    ensures Flatten(RuleOutcomes(c)[0..2]) == CryptoDiagnostics(c)
  {
    var o := RuleOutcomes(c);
    assert o[0] == RuleCheck(c, KeyServerUrlRule);
    assert o[1] == RuleCheck(c, SignerRule);
    FlattenSliceFirst(o, 0, 2);
    FlattenSliceFirst(o, 1, 2);
    assert o[2..2] == [];
  }

  lemma EncryptionSection(c: Config)
    ensures Flatten(RuleOutcomes(c)[2..5]) == EncryptionDiagnostics(c)
  {
    var o := RuleOutcomes(c);
    assert o[2] == RuleCheck(c, ContentIdRule);
    assert o[3] == RuleCheck(c, PolicyRule);
    assert o[4] == RuleCheck(c, CommonPsshRule);
    FlattenSliceFirst(o, 2, 5);
    FlattenSliceFirst(o, 3, 5);
    FlattenSliceFirst(o, 4, 5);
    assert o[5..5] == [];
  }

  lemma PositivitySection(c: Config)
    ensures Flatten(RuleOutcomes(c)[5..8]) == PositivityDiagnostics(c)
  {
    var o := RuleOutcomes(c);
    assert o[5] == RuleCheck(c, SdPositiveRule);
    assert o[6] == RuleCheck(c, HdPositiveRule);
    assert o[7] == RuleCheck(c, Uhd1PositiveRule);
    FlattenSliceFirst(o, 5, 8);
    FlattenSliceFirst(o, 6, 8);
    FlattenSliceFirst(o, 7, 8);
    assert o[8..8] == [];
  }

  lemma OrderingSection(c: Config)
    ensures Flatten(RuleOutcomes(c)[8..10]) == OrderingDiagnostics(c)
  {
    var o := RuleOutcomes(c);
    assert o[8] == RuleCheck(c, HdAboveSdRule);
    assert o[9] == RuleCheck(c, Uhd1AboveHdRule);
    FlattenSliceFirst(o, 8, 10);
    FlattenSliceFirst(o, 9, 10);
    assert o[10..10] == [];
  }

  lemma ThresholdSection(c: Config)
    ensures Flatten(RuleOutcomes(c)[5..10]) == ThresholdDiagnostics(c)
  {
    FlattenSliceSplit(RuleOutcomes(c), 5, 8, 10);
    PositivitySection(c);
    OrderingSection(c);
  }

  lemma SigningSection(c: Config)
    ensures Flatten(RuleOutcomes(c)[10..14]) == SigningDiagnostics(c)
  {
    var o := RuleOutcomes(c);
    assert o[10] == RuleCheck(c, AesKeyRule);
    assert o[11] == RuleCheck(c, AesIvRule);
    assert o[12] == RuleCheck(c, RsaKeyPathRule);
    assert o[13] == RuleCheck(c, CredentialRule);
    FlattenSliceFirst(o, 10, 14);
    FlattenSliceFirst(o, 11, 14);
    FlattenSliceFirst(o, 12, 14);
    FlattenSliceFirst(o, 13, 14);
    assert o[14..14] == [];
  }

  /** The first ten rules are the crypto, encryption and threshold sections. */
  lemma LeadingSections(c: Config)
    ensures Flatten(RuleOutcomes(c)[0..10])
            == CryptoDiagnostics(c) + EncryptionDiagnostics(c) + ThresholdDiagnostics(c)
  {
    var o := RuleOutcomes(c);
    FlattenSliceSplit(o, 0, 5, 10);
    FlattenSliceSplit(o, 0, 2, 5);
    CryptoSection(c);
    EncryptionSection(c);
    ThresholdSection(c);
  }

  /** The last five rules are the signing section and the crypto-period rule. */
  lemma TrailingSections(c: Config)
    ensures Flatten(RuleOutcomes(c)[10..15]) == SigningDiagnostics(c) + Emit(RuleCheck(c, CryptoPeriodRule))
  {
    var o := RuleOutcomes(c);
    FlattenSliceSplit(o, 10, 14, 15);
    assert o[14] == RuleCheck(c, CryptoPeriodRule);
    FlattenSliceFirst(o, 14, 15);
    assert o[15..15] == [];
    SigningSection(c);
  }

  /** The full diagnostic list is the sections' lists one after another. */
  lemma DiagnosticsBySections(c: Config)
    ensures Diagnostics(c) == CryptoDiagnostics(c) + EncryptionDiagnostics(c) + ThresholdDiagnostics(c)
                              + SigningDiagnostics(c) + Emit(RuleCheck(c, CryptoPeriodRule))
  {
    FlattenSplitWhole(RuleOutcomes(c), 10);
    LeadingSections(c);
    TrailingSections(c);
    ConcatAssoc(CryptoDiagnostics(c) + EncryptionDiagnostics(c) + ThresholdDiagnostics(c),
                SigningDiagnostics(c), Emit(RuleCheck(c, CryptoPeriodRule)));
  }


  /** The verdict holds exactly when no diagnostic is reported: every rule is
      evaluated and any one of them failing fails the whole. */
  lemma VerdictIsConjunction(c: Config)
    ensures Diagnostics(c) == [] <==> Verdict(c)
  {
    FlattenEmpty(RuleOutcomes(c));
    if Verdict(c) {
      forall i | 0 <= i < RuleCount ensures RuleOutcomes(c)[i] == None {
        assert Passes(c, RuleAt(i));
      }
    } else {
      var rule :| !Passes(c, rule);
      assert RuleOutcomes(c)[Position(rule)] != None;
    }
  }

  /** No rule's failure hides another's: whatever a rule reports appears
      among the diagnostics, whatever the other rules decide. */
  lemma NoRuleSuppressed(c: Config, rule: Rule)
    ensures RuleCheck(c, rule).Some? ==> RuleCheck(c, rule).value in Diagnostics(c)
  {
    if RuleCheck(c, rule).Some? {
      InFlatten(RuleOutcomes(c), RuleCheck(c, rule).value);
      assert RuleOutcomes(c)[Position(rule)] == RuleCheck(c, rule);
    }
  }
}
