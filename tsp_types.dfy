/**
 * Values shared by the time-stamp token generator: object identifiers, the
 * validated time-stamp request, the evidentiary objects bundled into the CMS
 * envelope, and the exceptions the generator raises.
 */
module TspTypes {
  import opened Wrappers

  newtype byte = x: int | 0 <= x < 256
  type Bytes = seq<byte>

  /** A Java `int`. */
  type Int32 = x: int | -0x8000_0000 <= x < 0x8000_0000

  /** An ASN.1 OBJECT IDENTIFIER, as its sequence of arcs. */
  type Oid = seq<nat>

  /** SHA-1, under the OIW arc (1.3.14.3.2.26). */
  const IdSha1: Oid := [1, 3, 14, 3, 2, 26]
  /** SHA-256, under the NIST arc (2.16.840.1.101.3.4.2.1). */
  const IdSha256: Oid := [2, 16, 840, 1, 101, 3, 4, 2, 1]
  /** id-aa-signingCertificate, section 5.4 of RFC 2634 (1.2.840.113549.1.9.16.2.12). */
  const IdAaSigningCertificate: Oid := [1, 2, 840, 113549, 1, 9, 16, 2, 12]
  /** id-aa-signingCertificateV2, section 3 of RFC 5035 (1.2.840.113549.1.9.16.2.47). */
  const IdAaSigningCertificateV2: Oid := [1, 2, 840, 113549, 1, 9, 16, 2, 47]
  /** id-ct-TSTInfo, section 2.4.2 of RFC 3161 (1.2.840.113549.1.9.16.1.4). */
  const IdCtTstInfo: Oid := [1, 2, 840, 113549, 1, 9, 16, 1, 4]

  /** The parameters of an AlgorithmIdentifier: left out, or an explicit ASN.1 NULL. */
  datatype AlgorithmParameters = Absent | DerNull
  datatype AlgorithmIdentifier = AlgorithmIdentifier(algorithm: Oid, parameters: AlgorithmParameters)

  /** An X.500 distinguished name, kept as its DER bytes. */
  datatype Name = Name(der: Bytes)
  /** A GeneralName (section 4.2.1.6 of RFC 5280): its CHOICE tag and its DER bytes. */
  datatype GeneralName = GeneralName(tag: nat, der: Bytes)

  /** The parts of an X.509 certificate the generator looks at. */
  datatype Certificate = Certificate(issuer: Name, serialNumber: int, encoded: Bytes)
  datatype Crl = Crl(encoded: Bytes)
  datatype AttributeCertificate = AttributeCertificate(encoded: Bytes)
  datatype OtherRevocationInfo = OtherRevocationInfo(encoded: Bytes)

  /** One X.509 extension. */
  datatype Extension = Extension(extnId: Oid, critical: bool, extnValue: Bytes)

  /** The generation time, passed through unchanged (a Java `Date`, milliseconds since the epoch). */
  datatype GeneralizedTime = GeneralizedTime(epochMillis: int)

  /** A validated RFC 3161 time-stamp request; each `Option` is a field the request may leave out. */
  datatype TimeStampRequest = TimeStampRequest(
    messageImprintAlgOid: Oid,
    messageImprintDigest: Bytes,
    reqPolicy: Option<Oid>,
    nonce: Option<int>,
    certReq: bool,
    extensions: Option<seq<Extension>>)

  /** The exceptions the generator throws. */
  datatype TspError =
    | MissingAssociatedCertificate   // IllegalArgumentException: the signer has no certificate
    | CertificateNotCompliant        // TSPValidationException from the time-stamping compliance check
    | CertificateProcessing          // TSPException: I/O fault while digesting the certificate
    | InvalidAccuracy                // IllegalArgumentException from the ASN.1 Accuracy structure
    | InfoEncoding                   // TSPException: I/O fault while DER-encoding the TSTInfo
    | TokenGeneration                // TSPException: CMS fault while producing the signed data
}
