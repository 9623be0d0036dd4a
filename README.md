# Widevine crypto flag validation

This project models the validator for the Widevine encryption and
decryption flags of Shaka Packager, `shaka::ValidateWidevineCryptoFlags()`.
The flags decide four things:

- whether Widevine crypto is on;
- which request-signing scheme (AES or RSA) authenticates calls to the key server;
- the pixel thresholds that separate the SD, HD, UHD1 and UHD2 tiers;
- whether keys rotate, and how often.

The validator checks every rule in turn and never stops at the first
failure. Each violated rule prints one error. One advisory warning is
logged apart from the verdict.

Layout:

- `flags.dfy` (module `WidevineFlags`): the flags as one immutable `Config`
  record instead of process-wide globals. It also holds their defaults and an
  `Int32` newtype for the `int32` flags.
- `outcomes.dfy` (module `Outcomes`): `Option` and `Flatten`, which turns a
  sequence of per-rule outcomes into the list of diagnostics. Also the
  sequence lemmas about `Flatten`.
- `ascii_text.dfy` (module `AsciiText`): the ASCII case-insensitive prefix
  test used by the warning.
- `validation.dfy` (module `WidevineValidation`): holds
  - the shared `ValidateFlag` rule;
  - the fifteen rules in source order (`RuleCheck`, `RuleAt`);
  - the specification functions `Diagnostics`, `Warnings` and `Verdict`;
  - the imperative validator `ValidateWidevineCryptoFlags`. It is built from
    one method per group of `if` statements in the source, and it is proved
    to return exactly the specification functions' values.
- `properties.dfy` (module `WidevineProperties`): holds
  - the rule-by-rule properties;
  - a declarative reference invariant `WellFormed` that the verdict is proved
    equivalent to;
  - a tagged signing-scheme reference `SigningSchemeOf` (none, AES with key
    and IV, or RSA with a key path);
  - the end-to-end scenarios.

Diagnostics are identified by the flag and the kind of rule, not by their
text:

- `Required` means an empty flag its condition requires;
- `OnlyValidWith` means a flag given without its condition;
- `NotPositive` and `NotGreater` are the threshold rules;
- `CredentialRequired` is the combined signing credential rule;
- `Negative` is the crypto period rule.

The `Context` of `Required` and `OnlyValidWith` stands for the label string
the source passes along with the flag.

The help text of `--aes_signing_key` says that `--aes_signing_iv` is
required with it (packager/app/widevine_encryption_flags.cc:55), but the code
passes `optional = true` for both AES flags (lines 149-156). So with a signer
named and no RSA key path, an AES key without an IV, or an IV without a key,
passes both per-flag checks. It then fails only through the combined
credential rule at lines 171-178. The model follows the code, and the lemma
`WidevineProperties.IncompleteAesFailsOnlyViaCredentialRule` states this.
Without a signer, or next to an RSA key path, `aes` is false, so the per-flag
check itself reports a given AES field out of place. The lemmas
`WidevineProperties.CredentialWithoutSignerFails` and
`WidevineProperties.AesWithRsaFails` state this.

## Model

| member | source | states |
|---|---|---|
| WidevineFlags.Defaults | packager/app/widevine_encryption_flags.cc:16-67 | every flag's value when none is given: both switches and include_common_pssh off, every string empty, thresholds 768*576, 1920*1080 and 4096*2160, crypto period 0 |
| WidevineValidation.WidevineCryptoOn | packager/app/widevine_encryption_flags.cc:74-75 | Widevine crypto is on when encryption or decryption is enabled |
| WidevineValidation.AesSelected | packager/app/widevine_encryption_flags.cc:145 | AES signing is in play when a signer is named and no RSA key path is given |
| WidevineValidation.RsaSelected | packager/app/widevine_encryption_flags.cc:158-159 | RSA signing is in play when a signer is named and both AES fields are empty |
| WidevineValidation.RuleCheck | packager/app/widevine_encryption_flags.cc:80-183 | the diagnostic each of the fifteen guarded checks reports, None when it passes |
| WidevineValidation.Warnings | packager/app/widevine_encryption_flags.cc:94-99 | the advisory signer warning, given when crypto is on, no signer is named and the key server URL begins with "http" in any ASCII case |
| WidevineValidation.Verdict | packager/app/widevine_encryption_flags.cc:72-184 | the verdict holds exactly when every one of the fifteen rules passes |
| WidevineValidation.Diagnostics | packager/app/widevine_encryption_flags.cc:80-183 | the fifteen rules' diagnostics in source order, the order being fixed by `RuleAt` |
| WidevineValidation.ValidateFlag | packager/app/widevine_encryption_flags.cc:80-93 | an empty value is reported `Required` exactly when its condition holds and the flag is not optional; a non-empty value is reported `OnlyValidWith` exactly when its condition does not hold; otherwise nothing is reported |
| WidevineValidation.ValidateWidevineCryptoFlags | packager/app/widevine_encryption_flags.cc:71-185 | the method returns exactly the diagnostics of all fifteen rules in source order and the advisory warnings; it succeeds exactly when no diagnostic was reported, and exactly when every rule passes |
| WidevineValidation.CheckCryptoFlags | packager/app/widevine_encryption_flags.cc:74-99 | the key_server_url and signer checks under encryption-or-decryption report exactly their two rules' diagnostics and succeed exactly when both pass; the warning is produced alongside |
| WidevineValidation.CheckEncryptionFlags | packager/app/widevine_encryption_flags.cc:101-122 | the content_id, policy and include_common_pssh checks report exactly their rules' diagnostics and succeed exactly when all three pass |
| WidevineValidation.CheckPixelThresholds | packager/app/widevine_encryption_flags.cc:124-143 | all five threshold checks run; each failed one is reported in order, and the group succeeds exactly when all five pass |
| WidevineValidation.CheckThresholdsPositive | packager/app/widevine_encryption_flags.cc:124-135 | each of the three thresholds that is not positive is reported, in order; success exactly when all three are positive |
| WidevineValidation.CheckThresholdsIncreasing | packager/app/widevine_encryption_flags.cc:136-143 | hd not above sd and uhd1 not above hd are each reported; success exactly when both comparisons hold |
| WidevineValidation.CheckSigningFlags | packager/app/widevine_encryption_flags.cc:145-178 | the AES key, AES IV and RSA path checks under the derived `aes`/`rsa` selections, then the combined credential check, report exactly their diagnostics; success exactly when all four pass |
| WidevineValidation.VerdictBySections | packager/app/widevine_encryption_flags.cc:72-184 | the verdict is the conjunction of the crypto, encryption, threshold and signing groups and the crypto period rule |
| WidevineValidation.DiagnosticsBySections | packager/app/widevine_encryption_flags.cc:72-184 | the full diagnostic list is the groups' lists concatenated in source order, so no group's failure hides a later group's |
| WidevineValidation.VerdictIsConjunction | packager/app/widevine_encryption_flags.cc:72-184 | no diagnostic is reported exactly when every rule passes, so `success` is the logical AND of all rule outcomes |
| WidevineValidation.NoRuleSuppressed | packager/app/widevine_encryption_flags.cc:72-184 | whatever any rule reports appears among the diagnostics, whichever other rules fail |
| AsciiText.StartsWithIgnoringAsciiCase | packager/app/widevine_encryption_flags.cc:95-96 | the URL starts with the prefix case-insensitively exactly when it is at least as long and each leading character equals the prefix's after ASCII lower-casing |
| AsciiText.HttpSpellingsMatch | packager/app/widevine_encryption_flags.cc:94-96 | "http", "HTTP" and "Http" followed by anything all match the prefix "http"; "ftp" does not |
| WidevineProperties.InDiagnostics | packager/app/widevine_encryption_flags.cc:72-184 | a diagnostic is reported exactly when the one rule it belongs to reports it |
| WidevineProperties.ThresholdsOrderedWhenValid | packager/app/widevine_encryption_flags.cc:124-143 | a passing verdict guarantees 0 < max_sd_pixels < max_hd_pixels < max_uhd1_pixels |
| WidevineProperties.PositivityViolationsReported | packager/app/widevine_encryption_flags.cc:124-135 | each threshold's not-positive diagnostic is reported exactly when that threshold is at most zero |
| WidevineProperties.OrderingViolationsReported | packager/app/widevine_encryption_flags.cc:136-143 | each ordering diagnostic is reported exactly when the comparison fails, for equal as well as reversed thresholds |
| WidevineProperties.CommonPsshNeedsEncryption | packager/app/widevine_encryption_flags.cc:118-122 | include_common_pssh is reported exactly when set without encryption, which fails the verdict; with encryption enabled the rule passes |
| WidevineProperties.KeyServerUrlGovernedByCrypto | packager/app/widevine_encryption_flags.cc:74-86 | key_server_url is reported missing exactly when crypto is on and it is empty, and out of place exactly when crypto is off and it is given |
| WidevineProperties.ContentIdGovernedByEncryption | packager/app/widevine_encryption_flags.cc:101-110 | content_id is reported missing exactly when encryption is on and it is empty, and out of place exactly when encryption is off and it is given; decryption alone does not require it |
| WidevineProperties.SignerIsOptional | packager/app/widevine_encryption_flags.cc:87-93 | signer is never reported missing, and is reported out of place exactly when given with crypto off |
| WidevineProperties.PolicyIsOptional | packager/app/widevine_encryption_flags.cc:111-117 | policy is never reported missing, and is reported out of place exactly when given with encryption off |
| WidevineProperties.CryptoPeriodNotNegative | packager/app/widevine_encryption_flags.cc:180-183 | a negative crypto period is reported exactly when it is below zero; zero and positive periods pass |
| WidevineProperties.SigningRulesMatchScheme | packager/app/widevine_encryption_flags.cc:145-178 | the four signing rules pass exactly when the signing flags describe one scheme: none without a signer, and with a signer either a full AES pair without an RSA path or an RSA path without AES fields |
| WidevineProperties.AesPairPasses | packager/app/widevine_encryption_flags.cc:145-178 | with a signer, a full AES pair and no RSA path passes every signing rule and selects AES signing with that key and IV |
| WidevineProperties.RsaPathPasses | packager/app/widevine_encryption_flags.cc:145-178 | with a signer, an RSA path alone passes every signing rule and selects RSA signing with that path |
| WidevineProperties.IncompleteAesFailsOnlyViaCredentialRule | packager/app/widevine_encryption_flags.cc:145-178 | with a signer and no RSA path, no credential or half an AES pair yields exactly the one combined-credential diagnostic from the signing rules, and the verdict fails |
| WidevineProperties.AesWithRsaFails | packager/app/widevine_encryption_flags.cc:145-169 | with a signer, an AES field together with an RSA path makes both `aes` and `rsa` false: the signing diagnostics are exactly one out-of-place report for each given AES field and one for the RSA path, in source order; the credential rule is not reported, and the verdict fails |
| WidevineProperties.CredentialWithoutSignerFails | packager/app/widevine_encryption_flags.cc:145-169 | without a signer, the signing diagnostics are exactly one out-of-place report for each given credential, in source order, and any given credential fails the verdict |
| WidevineProperties.VerdictIffWellFormed | packager/app/widevine_encryption_flags.cc:71-185 | the verdict passes exactly when the flag-by-flag invariants hold (URL iff crypto, content_id iff encryption, optional flags only with their switch, strictly increasing positive thresholds, one signing scheme, non-negative crypto period) |
| WidevineProperties.NamedSignerSelectsScheme | packager/app/widevine_encryption_flags.cc:145-178 | a passing configuration that names a signer has selected AES or RSA signing, never neither |
| WidevineProperties.UrlSchemeDoesNotAffectVerdict | packager/app/widevine_encryption_flags.cc:80-99 | the diagnostics and the verdict depend on key_server_url only through whether it is empty, so the http prefix that triggers the warning never changes either |
| WidevineProperties.WarningCondition | packager/app/widevine_encryption_flags.cc:94-99 | at most one warning; it is given exactly when crypto is on, signer is empty and the URL begins with "http" in any ASCII case, and then the key_server_url and signer rules pass |
| WidevineProperties.EncryptionWithoutSignerWarnsButPasses | packager/app/widevine_encryption_flags.cc:71-185 | encryption on, key server "https://eu.example", no signer, content id "abcd", default thresholds and crypto period 0: no diagnostic, a passing verdict and exactly one warning |
| WidevineProperties.DefaultsPass | packager/app/widevine_encryption_flags.cc:16-67 | the flag defaults pass validation with no diagnostic and no warning |
| WidevineProperties.RevalidationAgrees | packager/app/widevine_encryption_flags.cc:71-185 | validation only reads the flags, so validating the same configuration twice gives the same verdict, diagnostics and warnings |

## Left out

- gflags registration and command-line parsing (`DEFINE_*`): the flags are an immutable `Config` value passed in. Only their types and defaults are modelled.
- The text of `PrintError` and `LOG(WARNING)`: errors and the warning are datatype values in separate sequences.
- The warning's position in the log relative to the errors is not kept, because the two streams are returned separately.
- `packager/app/validate_flag.h` is not part of this model. Its call sites show only the arguments and that a false result clears `success`. `ValidateFlag`'s behaviour is assumed: an empty value fails when its condition holds and the flag is not optional; a given value fails when its condition does not hold; otherwise it passes.
- `base::StartsWith` with `INSENSITIVE_ASCII` is replaced by `AsciiText.StartsWithIgnoringAsciiCase`, which folds ASCII letters only.
- `packager/media/base/text_sample.h` is a payload holder with declared-only methods and no validation logic, so it is not modelled.
- `docs/search/all_7.js` is a generated documentation search index with no logic.
- Tier classification of tracks by the thresholds, key rotation and the license-server RPC are not modelled. None of their code is in the validator.
- `int32` flags: the `Int32` newtype bounds their values. The validator only compares them, so no wrap-around arises.
