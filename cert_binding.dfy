/**
 * The signing-certificate binder run by the time-stamp token generator's
 * constructor: it digests the signer's certificate, builds an ESSCertID
 * (section 5.4 of RFC 2634) for SHA-1 or an ESSCertIDv2 (section 3 of
 * RFC 5035) for any other digest, and decorates the signer's signed-attribute
 * generator so that the attribute is added only when the base table lacks it.
 */
module CertBinding {
  import opened Wrappers
  import opened TspTypes

  datatype IssuerSerial = IssuerSerial(issuer: Name, serialNumber: int)
  datatype EssCertId = EssCertId(certHash: Bytes, issuerSerial: Option<IssuerSerial>)
  datatype EssCertIdV2 = EssCertIdV2(hashAlgorithm: AlgorithmIdentifier, certHash: Bytes, issuerSerial: Option<IssuerSerial>)

  /** The value of a CMS attribute: the two certificate bindings, or anything else kept as DER. */
  datatype AttributeValue =
    | SigningCertificate(essCertId: EssCertId)
    | SigningCertificateV2(essCertIdV2: EssCertIdV2)
    | OtherValue(der: Bytes)

  /** A CMS attribute table: attribute type to the attribute's values. */
  type AttributeTable = map<Oid, seq<AttributeValue>>

  /** The parameters CMS hands to an attribute-table generator. */
  datatype CmsParameters = CmsParameters(contentType: Oid, digest: Bytes, digestAlgorithm: AlgorithmIdentifier)

  type AttributeTableGenerator = CmsParameters -> AttributeTable

  /** The signer's identity and key handle, opaque to the generator. */
  datatype SignerIdentity = SignerIdentity(der: Bytes)

  /** A CMS SignerInfoGenerator, reduced to what the binder reads and replaces. */
  datatype SignerInfoGenerator = SignerInfoGenerator(
    signer: SignerIdentity,
    associatedCertificate: Option<Certificate>,
    signedAttributes: AttributeTableGenerator,
    unsignedAttributes: AttributeTableGenerator)

  /** A digest calculator: its algorithm and its digest function (None: an I/O fault). */
  datatype DigestCalculator = DigestCalculator(algorithm: Oid, digestOf: Bytes -> Option<Bytes>)

  /** What the decorated generator returns: the base table unchanged when it already holds `oid`,
      otherwise the base table with one more attribute, `oid` with the single value `v`. */
  function AddIfAbsent(table: AttributeTable, oid: Oid, v: AttributeValue): (r: AttributeTable)
    ensures oid in r && r.Keys == table.Keys + {oid}
    ensures forall k :: k in table ==> r[k] == table[k]
    ensures oid !in table ==> r[oid] == [v]
  {
    if oid in table then table else table[oid := [v]]
  }

  /** Adding the binding a second time changes nothing. */
  lemma AddIfAbsentIdempotent(table: AttributeTable, oid: Oid, v: AttributeValue)
    ensures AddIfAbsent(AddIfAbsent(table, oid, v), oid, v) == AddIfAbsent(table, oid, v)
  {
  }

  /** The issuer and serial number of `cert`, present exactly when asked for. */
  function IssuerSerialOf(cert: Certificate, included: bool): (r: Option<IssuerSerial>)
    ensures r.Some? <==> included
    ensures r.Some? ==> r.value == IssuerSerial(cert.issuer, cert.serialNumber)
  {
    if included then Some(IssuerSerial(cert.issuer, cert.serialNumber)) else None
  }

  /** The attribute type that carries the binding: v1 for SHA-1, v2 for every other digest. */
  function BindingOid(digestAlgorithm: Oid): (r: Oid)
    ensures r == IdAaSigningCertificate <==> digestAlgorithm == IdSha1
    ensures r == IdAaSigningCertificateV2 <==> digestAlgorithm != IdSha1
  {
    if digestAlgorithm == IdSha1 then IdAaSigningCertificate else IdAaSigningCertificateV2
  }

  /** The binding attribute's value: an ESSCertID for SHA-1, else an ESSCertIDv2 naming the algorithm
      (without parameters). Both carry the certificate hash and the optional issuer/serial. */
  function BindingValue(digestAlgorithm: Oid, certHash: Bytes, issuerSerial: Option<IssuerSerial>): (r: AttributeValue)
    ensures r.SigningCertificate? <==> digestAlgorithm == IdSha1
    ensures r.SigningCertificateV2? <==> digestAlgorithm != IdSha1
    ensures r.SigningCertificate? ==> r.essCertId.certHash == certHash && r.essCertId.issuerSerial == issuerSerial
    ensures r.SigningCertificateV2? ==>
      r.essCertIdV2.hashAlgorithm == AlgorithmIdentifier(digestAlgorithm, Absent) &&
      r.essCertIdV2.certHash == certHash && r.essCertIdV2.issuerSerial == issuerSerial
  {
    if digestAlgorithm == IdSha1 then SigningCertificate(EssCertId(certHash, issuerSerial))
    else SigningCertificateV2(EssCertIdV2(AlgorithmIdentifier(digestAlgorithm, Absent), certHash, issuerSerial))
  }

  /** `bound` is `base` with its signed-attribute generator decorated to add (`oid`, `v`) when absent;
      everything else, including the unsigned-attribute generator, is `base`'s. */
  ghost predicate Decorates(bound: SignerInfoGenerator, base: SignerInfoGenerator, oid: Oid, v: AttributeValue)
    ensures Decorates(bound, base, oid, v) ==>
      forall p :: oid in bound.signedAttributes(p) &&
                  bound.signedAttributes(p).Keys == base.signedAttributes(p).Keys + {oid}
    ensures Decorates(bound, base, oid, v) ==>
      forall p, k :: k in base.signedAttributes(p) ==> bound.signedAttributes(p)[k] == base.signedAttributes(p)[k]
  {
    && bound.signer == base.signer
    && bound.associatedCertificate == base.associatedCertificate
    && bound.unsignedAttributes == base.unsignedAttributes
    && forall p :: bound.signedAttributes(p) == AddIfAbsent(base.signedAttributes(p), oid, v)
  }

  /** The binder: fails without an associated certificate, on a certificate that is not fit for
      time-stamping, or on an I/O fault while digesting it; otherwise decorates the signer. */
  function Bind(signerInfoGen: SignerInfoGenerator, digestCalculator: DigestCalculator,
                isIssuerSerialIncluded: bool, isTsaCompliant: Certificate -> bool): (r: Result<SignerInfoGenerator, TspError>)
    ensures signerInfoGen.associatedCertificate.None? ==> r == Failure(MissingAssociatedCertificate)
    ensures signerInfoGen.associatedCertificate.Some? && !isTsaCompliant(signerInfoGen.associatedCertificate.value) ==>
      r == Failure(CertificateNotCompliant)
    ensures (signerInfoGen.associatedCertificate.Some? && isTsaCompliant(signerInfoGen.associatedCertificate.value) &&
             digestCalculator.digestOf(signerInfoGen.associatedCertificate.value.encoded).None?) ==>
      r == Failure(CertificateProcessing)
    ensures r.Success? <==>
      (signerInfoGen.associatedCertificate.Some? && isTsaCompliant(signerInfoGen.associatedCertificate.value) &&
       digestCalculator.digestOf(signerInfoGen.associatedCertificate.value.encoded).Some?)
    ensures r.Success? ==>
      var cert := signerInfoGen.associatedCertificate.value;
      var hash := digestCalculator.digestOf(cert.encoded).value;
      Decorates(r.value, signerInfoGen, BindingOid(digestCalculator.algorithm),
                BindingValue(digestCalculator.algorithm, hash, IssuerSerialOf(cert, isIssuerSerialIncluded)))
  {
    match signerInfoGen.associatedCertificate
    case None => Failure(MissingAssociatedCertificate)
    case Some(cert) =>
      if !isTsaCompliant(cert) then Failure(CertificateNotCompliant)
      else match digestCalculator.digestOf(cert.encoded)
        case None => Failure(CertificateProcessing)
        case Some(hash) =>
          var oid := BindingOid(digestCalculator.algorithm);
          var v := BindingValue(digestCalculator.algorithm, hash, IssuerSerialOf(cert, isIssuerSerialIncluded));
          var base := signerInfoGen.signedAttributes;
          Success(SignerInfoGenerator(signerInfoGen.signer, signerInfoGen.associatedCertificate,
                                      p => AddIfAbsent(base(p), oid, v), signerInfoGen.unsignedAttributes))
  }

  /** Binding an already-bound signer again, with the same calculator, succeeds and yields the same
      signed attributes: the binding is never duplicated. */
  lemma BindTwiceSameAsOnce(signerInfoGen: SignerInfoGenerator, digestCalculator: DigestCalculator,
                            isIssuerSerialIncluded: bool, isTsaCompliant: Certificate -> bool)
    requires Bind(signerInfoGen, digestCalculator, isIssuerSerialIncluded, isTsaCompliant).Success?
    ensures var once := Bind(signerInfoGen, digestCalculator, isIssuerSerialIncluded, isTsaCompliant).value;
      var twice := Bind(once, digestCalculator, isIssuerSerialIncluded, isTsaCompliant);
      twice.Success? && forall p :: twice.value.signedAttributes(p) == once.signedAttributes(p)
  {
    var once := Bind(signerInfoGen, digestCalculator, isIssuerSerialIncluded, isTsaCompliant).value;
    var cert := signerInfoGen.associatedCertificate.value;
    var oid := BindingOid(digestCalculator.algorithm);
    var v := BindingValue(digestCalculator.algorithm, digestCalculator.digestOf(cert.encoded).value,
                          IssuerSerialOf(cert, isIssuerSerialIncluded));
    var twice := Bind(once, digestCalculator, isIssuerSerialIncluded, isTsaCompliant);
    forall p ensures twice.value.signedAttributes(p) == once.signedAttributes(p) {
      AddIfAbsentIdempotent(signerInfoGen.signedAttributes(p), oid, v);
    }
  }

  /** With a SHA-1 calculator every signed-attribute table of the bound signer holds
      id-aa-signingCertificate, and the table the base produced without it gains exactly an ESSCertID. */
  lemma Sha1BindsEssCertId(signerInfoGen: SignerInfoGenerator, digestCalculator: DigestCalculator,
                           isIssuerSerialIncluded: bool, isTsaCompliant: Certificate -> bool, p: CmsParameters)
    requires digestCalculator.algorithm == IdSha1
    requires Bind(signerInfoGen, digestCalculator, isIssuerSerialIncluded, isTsaCompliant).Success?
    ensures var table := Bind(signerInfoGen, digestCalculator, isIssuerSerialIncluded, isTsaCompliant).value.signedAttributes(p);
      var cert := signerInfoGen.associatedCertificate.value;
      && IdAaSigningCertificate in table
      && (IdAaSigningCertificate !in signerInfoGen.signedAttributes(p) ==>
            table[IdAaSigningCertificate] == [SigningCertificate(EssCertId(digestCalculator.digestOf(cert.encoded).value,
                                                                           IssuerSerialOf(cert, isIssuerSerialIncluded)))])
  {
  }

  /** With any other calculator the attribute is an ESSCertIDv2 under id-aa-signingCertificateV2 that names
      the calculator's algorithm. */
  lemma OtherDigestBindsEssCertIdV2(signerInfoGen: SignerInfoGenerator, digestCalculator: DigestCalculator,
                                    isIssuerSerialIncluded: bool, isTsaCompliant: Certificate -> bool, p: CmsParameters)
    requires digestCalculator.algorithm != IdSha1
    requires Bind(signerInfoGen, digestCalculator, isIssuerSerialIncluded, isTsaCompliant).Success?
    ensures var table := Bind(signerInfoGen, digestCalculator, isIssuerSerialIncluded, isTsaCompliant).value.signedAttributes(p);
      var cert := signerInfoGen.associatedCertificate.value;
      && IdAaSigningCertificateV2 in table
      && (IdAaSigningCertificateV2 !in signerInfoGen.signedAttributes(p) ==>
            table[IdAaSigningCertificateV2] ==
              [SigningCertificateV2(EssCertIdV2(AlgorithmIdentifier(digestCalculator.algorithm, Absent),
                                                digestCalculator.digestOf(cert.encoded).value,
                                                IssuerSerialOf(cert, isIssuerSerialIncluded)))])
  {
  }
}
