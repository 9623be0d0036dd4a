/** The flat set of Widevine encryption/decryption flags, as one immutable
    record handed to the validator instead of process-wide globals. */
module WidevineFlags {

  /** The range of the source's int32 flags. The validator only compares
      them, so no arithmetic on them can wrap around. */
  newtype Int32 = x: int | -0x8000_0000 <= x < 0x8000_0000

  datatype Config = Config(
    enableWidevineEncryption: bool,
    enableWidevineDecryption: bool,
    includeCommonPssh: bool,
    keyServerUrl: string,
    contentId: string,
    policy: string,
    maxSdPixels: Int32,
    maxHdPixels: Int32,
    maxUhd1Pixels: Int32,
    signer: string,
    aesSigningKey: string,
    aesSigningIv: string,
    rsaSigningKeyPath: string,
    cryptoPeriodDuration: Int32)

  /** The value of every flag when nothing is given on the command line. */
  function Defaults(): Config
  {
    Config(
      enableWidevineEncryption := false,
      enableWidevineDecryption := false,
      includeCommonPssh := false,
      keyServerUrl := "",
      contentId := "",
      policy := "",
      maxSdPixels := 768 * 576,
      maxHdPixels := 1920 * 1080,
      maxUhd1Pixels := 4096 * 2160,
      signer := "",
      aesSigningKey := "",
      aesSigningIv := "",
      rsaSigningKeyPath := "",
      cryptoPeriodDuration := 0)
  }
}
