/**
 * The gate in front of MAC integrity protection: whether a document written
 * with the given writer settings gets a MAC, or which error the writer
 * raises instead. The implementation is not part of this model; the
 * decision below is the one MacIntegrityProtectorTest asserts, with the
 * error messages it asserts. The MAC itself (HKDF, key wrapping, HMAC) is
 * not modelled.
 */
module MacIntegrity {
  import opened Wrappers

  /** The crypto provider the process was configured with. */
  datatype Provider = BouncyCastle | BouncyCastleFips

  /** PDF versions, ordered by (major, minor). */
  datatype PdfVersion = PdfVersion(major: nat, minor: nat)

  const PDF_1_7 := PdfVersion(1, 7)
  const PDF_2_0 := PdfVersion(2, 0)

  /** A document whose writer properties set no version is written as PDF 1.7. */
  const DEFAULT_VERSION := PDF_1_7

  predicate AtLeast(v: PdfVersion, w: PdfVersion) {
    v.major > w.major || (v.major == w.major && v.minor >= w.minor)
  }

  /** The encryption algorithm constants of EncryptionConstants. */
  datatype EncryptionAlgorithm =
    | STANDARD_ENCRYPTION_40
    | STANDARD_ENCRYPTION_128
    | ENCRYPTION_AES_128
    | ENCRYPTION_AES_256

  /** The value of the encryption dictionary's /V entry each algorithm is written with. */
  function AlgorithmVersion(a: EncryptionAlgorithm): nat {
    match a
    case STANDARD_ENCRYPTION_40 => 1
    case STANDARD_ENCRYPTION_128 => 2
    case ENCRYPTION_AES_128 => 4
    case ENCRYPTION_AES_256 => 5
  }

  datatype MacDigestAlgorithm = SHA_256 | SHA_384 | SHA_512 | SHA3_256 | SHA3_384 | SHA3_512
  datatype MacAlgorithm = HMAC_WITH_SHA_256
  datatype KeyWrappingAlgorithm = AES_256_NO_PADD

  datatype MacProperties = MacProperties(digest: MacDigestAlgorithm, mac: MacAlgorithm, keyWrapping: KeyWrappingAlgorithm)

  /** Password-based (standard) or certificate-based (public-key) encryption. */
  datatype EncryptionKind = Standard | PublicKey

  /** The writer properties that matter: version (None when never set) and encryption. */
  datatype WriterSettings = WriterSettings(
    version: Option<PdfVersion>,
    kind: EncryptionKind,
    algorithm: EncryptionAlgorithm,
    mac: MacProperties)

  datatype MacError =
    | HkdfNotSupportedInFips      // UnsupportedOperationException
    | PdfVersionTooLow            // PdfException
    | EncryptionAlgorithmTooOld   // PdfException
    | StreamError(message: string) // whatever the output stream threw, unchanged

  /** The exception messages the tests compare against. */
  const HKDF_IN_FIPS_MESSAGE := "HKDF algorithm is not supported in bouncy-castle FIPS mode."
  const PDF_VERSION_MESSAGE := "MAC integrity protection is only supported for PDF 2.0 or higher."
  const ALGORITHM_VERSION_MESSAGE := "MAC integrity protection is only supported for encryption algorithms of version 5 or higher."

  function Message(e: MacError): string {
    match e
    case HkdfNotSupportedInFips => HKDF_IN_FIPS_MESSAGE
    case PdfVersionTooLow => PDF_VERSION_MESSAGE
    case EncryptionAlgorithmTooOld => ALGORITHM_VERSION_MESSAGE
    case StreamError(m) => m
  }

  function EffectiveVersion(s: WriterSettings): PdfVersion {
    match s.version
    case Some(v) => v
    case None => DEFAULT_VERSION
  }

  /**
   * The setup check. Under the FIPS provider every request fails, whatever
   * the version and algorithm; under the general provider a request passes
   * exactly when the version is at least 2.0 and the algorithm's /V is at
   * least 5, and a too-low version is reported before a too-old algorithm.
   */
  function SetUpMac(p: Provider, s: WriterSettings): (r: Outcome<MacError>)
    ensures p == BouncyCastleFips ==> r == Fail(HkdfNotSupportedInFips)
    ensures p == BouncyCastle ==>
              (r == Pass <==> AtLeast(EffectiveVersion(s), PDF_2_0) && AlgorithmVersion(s.algorithm) >= 5)
    ensures p == BouncyCastle && !AtLeast(EffectiveVersion(s), PDF_2_0) ==> r == Fail(PdfVersionTooLow)
    ensures p == BouncyCastle && AtLeast(EffectiveVersion(s), PDF_2_0) && AlgorithmVersion(s.algorithm) < 5 ==>
              r == Fail(EncryptionAlgorithmTooOld)
  {
    if p == BouncyCastleFips then Fail(HkdfNotSupportedInFips)
    else if !AtLeast(EffectiveVersion(s), PDF_2_0) then Fail(PdfVersionTooLow)
    else if AlgorithmVersion(s.algorithm) < 5 then Fail(EncryptionAlgorithmTooOld)
    else Pass
  }

  /** What the output stream does when the document is written to it. */
  datatype StreamBehaviour = Writable | Throws(message: string)

  /**
   * Writing a protected document: setup is checked before any byte is
   * written, then the stream's own error, if any, reaches the caller as it
   * was raised.
   */
  function WriteProtectedDocument(p: Provider, s: WriterSettings, out: StreamBehaviour): (r: Outcome<MacError>)
    ensures SetUpMac(p, s).Fail? ==> r == SetUpMac(p, s)
    ensures SetUpMac(p, s).Pass? ==> (r.Pass? <==> out.Writable?)
    ensures SetUpMac(p, s).Pass? && out.Throws? ==> r.Fail? && Message(r.error) == out.message
  {
    match SetUpMac(p, s)
    case Fail(e) => Fail(e)
    case Pass =>
      match out
      case Writable => Pass
      case Throws(m) => Fail(StreamError(m))
  }

  // ---------------------------------------------------------------------
  // The cases of MacIntegrityProtectorTest.

  const DEFAULT_MAC := MacProperties(SHA_256, HMAC_WITH_SHA_256, AES_256_NO_PADD)

  lemma StandaloneMacStandardEncryption()
    ensures WriteProtectedDocument(BouncyCastle,
              WriterSettings(Some(PDF_2_0), Standard, ENCRYPTION_AES_256, DEFAULT_MAC), Writable) == Pass
    ensures Message(WriteProtectedDocument(BouncyCastleFips,
              WriterSettings(Some(PDF_2_0), Standard, ENCRYPTION_AES_256, DEFAULT_MAC), Writable).error)
            == HKDF_IN_FIPS_MESSAGE
  {
  }

  lemma StandaloneMacUnwritableStream()
    ensures Message(WriteProtectedDocument(BouncyCastle,
              WriterSettings(Some(PDF_2_0), Standard, ENCRYPTION_AES_256, DEFAULT_MAC), Throws("expected")).error)
            == "expected"
    ensures Message(WriteProtectedDocument(BouncyCastleFips,
              WriterSettings(Some(PDF_2_0), Standard, ENCRYPTION_AES_256, DEFAULT_MAC), Writable).error)
            == HKDF_IN_FIPS_MESSAGE
  {
    var s := WriterSettings(Some(PDF_2_0), Standard, ENCRYPTION_AES_256, DEFAULT_MAC);
    assert SetUpMac(BouncyCastle, s) == Pass;
    assert WriteProtectedDocument(BouncyCastle, s, Throws("expected")) == Fail(StreamError("expected"));
  }

  lemma StandaloneMacWithAllHashAlgorithms(d: MacDigestAlgorithm)
    ensures WriteProtectedDocument(BouncyCastle,
              WriterSettings(Some(PDF_2_0), Standard, ENCRYPTION_AES_256,
                             MacProperties(d, HMAC_WITH_SHA_256, AES_256_NO_PADD)), Writable) == Pass
    ensures WriteProtectedDocument(BouncyCastleFips,
              WriterSettings(Some(PDF_2_0), Standard, ENCRYPTION_AES_256,
                             MacProperties(d, HMAC_WITH_SHA_256, AES_256_NO_PADD)), Writable)
            == Fail(HkdfNotSupportedInFips)
  {
  }

  lemma StandaloneMacPdfVersionNotSet()
    ensures Message(WriteProtectedDocument(BouncyCastle,
              WriterSettings(None, Standard, ENCRYPTION_AES_256, DEFAULT_MAC), Writable).error)
            == PDF_VERSION_MESSAGE
    ensures WriteProtectedDocument(BouncyCastleFips,
              WriterSettings(None, Standard, ENCRYPTION_AES_256, DEFAULT_MAC), Writable)
            == Fail(HkdfNotSupportedInFips)
  {
  }

  lemma StandaloneMacOldEncryptionAlgorithm()
    ensures Message(WriteProtectedDocument(BouncyCastle,
              WriterSettings(Some(PDF_2_0), Standard, ENCRYPTION_AES_128, DEFAULT_MAC), Writable).error)
            == ALGORITHM_VERSION_MESSAGE
    ensures WriteProtectedDocument(BouncyCastleFips,
              WriterSettings(Some(PDF_2_0), Standard, ENCRYPTION_AES_128, DEFAULT_MAC), Writable)
            == Fail(HkdfNotSupportedInFips)
  {
    var s := WriterSettings(Some(PDF_2_0), Standard, ENCRYPTION_AES_128, DEFAULT_MAC);
    assert SetUpMac(BouncyCastle, s) == Fail(EncryptionAlgorithmTooOld);
  }

  lemma StandaloneMacPublicKeyEncryption()
    ensures WriteProtectedDocument(BouncyCastle,
              WriterSettings(Some(PDF_2_0), PublicKey, ENCRYPTION_AES_256, DEFAULT_MAC), Writable) == Pass
    ensures WriteProtectedDocument(BouncyCastleFips,
              WriterSettings(Some(PDF_2_0), PublicKey, ENCRYPTION_AES_256, DEFAULT_MAC), Writable).Fail?
  {
  }

  /** The kind of encryption and the digest never decide the gate; only provider, version and algorithm do. */
  lemma GateIgnoresKindAndDigest(p: Provider, s: WriterSettings, kind: EncryptionKind, mac: MacProperties)
    ensures SetUpMac(p, s) == SetUpMac(p, s.(kind := kind, mac := mac))
  {
  }
}
