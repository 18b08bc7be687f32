/**
 * The RFC 3161 time-stamp token generator: a configuration phase that fills
 * the evidentiary stores and the TSTInfo options, then per-call generation
 * that builds the TSTInfo and the CMS SignedData envelope (section 5 of
 * RFC 5652) around its DER encoding.
 */
module TimeStampTokenGeneration {
  import opened Wrappers
  import opened TspTypes
  import opened CertBinding
  import opened TstInfoBuilder

  /** What the CMS signed-data generator is given: the encapsulated content with its type, the certificates,
      attribute certificates, CRLs and other revocation information to bundle, and the one signer. */
  datatype Envelope = Envelope(
    contentType: Oid,
    content: Bytes,
    certificates: seq<Certificate>,
    attributeCertificates: seq<AttributeCertificate>,
    crls: seq<Crl>,
    otherRevocationInfo: map<Oid, seq<OtherRevocationInfo>>,
    signerInfoGenerator: SignerInfoGenerator)

  /** A generated token: the TSTInfo, the envelope it was signed in, and the signed data produced. */
  datatype TimeStampToken = TimeStampToken(tstInfo: TstInfo, envelope: Envelope, signedData: Bytes)

  /** The library routines generation calls: DER encoding of the TSTInfo (None: an I/O fault) and CMS
      signing of the envelope (None: a CMS fault). */
  datatype Backend = Backend(encodeTstInfo: TstInfo -> Option<Bytes>, signEnvelope: Envelope -> Option<Bytes>)

  /** The generator's state as generation reads it. */
  datatype GeneratorConfig = GeneratorConfig(
    accuracySeconds: Int32,
    accuracyMillis: Int32,
    accuracyMicros: Int32,
    ordering: bool,
    tsa: Option<GeneralName>,
    tsaPolicy: Oid,
    certs: seq<Certificate>,
    crls: seq<Crl>,
    attrCerts: seq<AttributeCertificate>,
    otherRevoc: map<Oid, seq<OtherRevocationInfo>>,
    signerInfoGen: SignerInfoGenerator)

  /** A freshly constructed generator: accuracy unset (-1), ordering off, no TSA name, empty stores. */
  function InitialConfig(signerInfoGen: SignerInfoGenerator, tsaPolicy: Oid): (r: GeneratorConfig)
    ensures AccuracyOf(r.accuracySeconds, r.accuracyMillis, r.accuracyMicros) == None
    ensures !r.ordering && r.tsa == None
    ensures r.tsaPolicy == tsaPolicy && r.signerInfoGen == signerInfoGen
    ensures forall certReq, der :: EnvelopeFor(r, certReq, der).certificates == [] &&
                                   EnvelopeFor(r, certReq, der).attributeCertificates == [] &&
                                   EnvelopeFor(r, certReq, der).crls == [] &&
                                   EnvelopeFor(r, certReq, der).otherRevocationInfo == map[]
  {
    GeneratorConfig(-1, -1, -1, false, None, tsaPolicy, [], [], [], map[], signerInfoGen)
  }

  /** The envelope around the DER-encoded TSTInfo `der`. */
  function EnvelopeFor(config: GeneratorConfig, certReq: bool, der: Bytes): (r: Envelope)
    ensures r.contentType == IdCtTstInfo && r.content == der
    ensures certReq ==> r.certificates == config.certs && r.attributeCertificates == config.attrCerts
    ensures !certReq ==> r.certificates == [] && r.attributeCertificates == []
    ensures r.crls == config.crls && r.otherRevocationInfo == config.otherRevoc
    ensures r.signerInfoGenerator == config.signerInfoGen
  {
    Envelope(IdCtTstInfo, der,
             if certReq then config.certs else [],
             if certReq then config.attrCerts else [],
             config.crls, config.otherRevoc, config.signerInfoGen)
  }

  /** The outcome of one generation call. */
  function TokenFor(config: GeneratorConfig, request: TimeStampRequest, serialNumber: int, genTime: GeneralizedTime,
                    additionalExtensions: Option<seq<Extension>>, backend: Backend): (r: Result<TimeStampToken, TspError>)
    ensures r.Success? ==>
      r.value.tstInfo ==
        TstInfoFor(request, serialNumber, genTime, MergedExtensions(request.extensions, additionalExtensions),
                   config.accuracySeconds, config.accuracyMillis, config.accuracyMicros,
                   config.ordering, config.tsa, config.tsaPolicy)
    ensures r.Success? ==> backend.encodeTstInfo(r.value.tstInfo) == Some(r.value.envelope.content)
    ensures r.Success? ==> r.value.envelope == EnvelopeFor(config, request.certReq, r.value.envelope.content)
    ensures r.Success? ==> backend.signEnvelope(r.value.envelope) == Some(r.value.signedData)
    ensures r == Failure(InvalidAccuracy) <==> config.accuracyMillis > 999 || config.accuracyMicros > 999
    ensures r.Failure? ==> r.error == InvalidAccuracy || r.error == InfoEncoding || r.error == TokenGeneration
  {
    var accuracy := AccuracyOf(config.accuracySeconds, config.accuracyMillis, config.accuracyMicros);
    if accuracy.Some? && !AccuracyAccepted(accuracy.value) then Failure(InvalidAccuracy) else
    var info := TstInfoFor(request, serialNumber, genTime, MergedExtensions(request.extensions, additionalExtensions),
                           config.accuracySeconds, config.accuracyMillis, config.accuracyMicros,
                           config.ordering, config.tsa, config.tsaPolicy);
    match backend.encodeTstInfo(info)
    case None => Failure(InfoEncoding)
    case Some(der) =>
      var envelope := EnvelopeFor(config, request.certReq, der);
      match backend.signEnvelope(envelope)
      case None => Failure(TokenGeneration)
      case Some(signed) => Success(TimeStampToken(info, envelope, signed))
  }

  /** Certificates and attribute certificates are bundled only when the request asks for them (the certReq
      field of section 2.4.1 of RFC 3161); CRLs and every configured format of other revocation information
      are bundled whatever the request says. */
  lemma EnvelopeContents(config: GeneratorConfig, request: TimeStampRequest, serialNumber: int, genTime: GeneralizedTime,
                         additionalExtensions: Option<seq<Extension>>, backend: Backend)
    requires TokenFor(config, request, serialNumber, genTime, additionalExtensions, backend).Success?
    ensures var env := TokenFor(config, request, serialNumber, genTime, additionalExtensions, backend).value.envelope;
      && (request.certReq ==> env.certificates == config.certs && env.attributeCertificates == config.attrCerts)
      && (!request.certReq ==> env.certificates == [] && env.attributeCertificates == [])
      && env.crls == config.crls
      && env.otherRevocationInfo.Keys == config.otherRevoc.Keys
      && (forall format :: format in config.otherRevoc ==> env.otherRevocationInfo[format] == config.otherRevoc[format])
      && env.contentType == IdCtTstInfo
  {
  }

  /** The signed TSTInfo echoes the request: the imprint verbatim (with NULL algorithm parameters), the nonce
      exactly when the request has one, the requested policy or else the configured one; serial number and
      time are the caller's. */
  lemma TokenEchoesRequest(config: GeneratorConfig, request: TimeStampRequest, serialNumber: int, genTime: GeneralizedTime,
                           additionalExtensions: Option<seq<Extension>>, backend: Backend)
    requires TokenFor(config, request, serialNumber, genTime, additionalExtensions, backend).Success?
    ensures var info := TokenFor(config, request, serialNumber, genTime, additionalExtensions, backend).value.tstInfo;
      && info.messageImprint == MessageImprint(AlgorithmIdentifier(request.messageImprintAlgOid, DerNull), request.messageImprintDigest)
      && info.nonce == request.nonce
      && info.policy == request.reqPolicy.GetOr(config.tsaPolicy)
      && info.serialNumber == serialNumber && info.genTime == genTime
      && DerConsistent(info)
      && (info.accuracy.Some? ==> AccuracyAccepted(info.accuracy.value))
  {
  }

  /** Generation fails first on an accuracy setting the ASN.1 structure refuses, then only in the two library
      steps, and never yields a partial token. */
  lemma GenerationFailures(config: GeneratorConfig, request: TimeStampRequest, serialNumber: int, genTime: GeneralizedTime,
                           additionalExtensions: Option<seq<Extension>>, backend: Backend)
    ensures var info := TstInfoFor(request, serialNumber, genTime, MergedExtensions(request.extensions, additionalExtensions),
                                   config.accuracySeconds, config.accuracyMillis, config.accuracyMicros,
                                   config.ordering, config.tsa, config.tsaPolicy);
      var inRange := config.accuracyMillis <= 999 && config.accuracyMicros <= 999;
      var r := TokenFor(config, request, serialNumber, genTime, additionalExtensions, backend);
      && (!inRange ==> r == Failure(InvalidAccuracy))
      && (inRange && backend.encodeTstInfo(info).None? ==> r == Failure(InfoEncoding))
      && (inRange && backend.encodeTstInfo(info).Some? &&
          backend.signEnvelope(EnvelopeFor(config, request.certReq, backend.encodeTstInfo(info).value)).None? ==>
            r == Failure(TokenGeneration))
      && (r.Success? <==>
            inRange &&
            backend.encodeTstInfo(info).Some? &&
            backend.signEnvelope(EnvelopeFor(config, request.certReq, backend.encodeTstInfo(info).value)).Some?)
  {
  }

  /** The three-argument generation (an empty set of additional extensions) gives the same token as no
      additional extensions at all: the request's extensions pass through. */
  lemma WithoutAdditionalExtensions(config: GeneratorConfig, request: TimeStampRequest, serialNumber: int,
                                    genTime: GeneralizedTime, backend: Backend)
    ensures TokenFor(config, request, serialNumber, genTime, Some([]), backend) ==
            TokenFor(config, request, serialNumber, genTime, None, backend)
    ensures TokenFor(config, request, serialNumber, genTime, Some([]), backend).Success? ==>
            TokenFor(config, request, serialNumber, genTime, Some([]), backend).value.tstInfo.extensions == request.extensions
  {
    EmptyAdditionalIsPassThrough(request.extensions);
  }

  /** Copies the other-revocation store into the envelope one format at a time, in no particular order. */
  method CollectOtherRevocation(otherRevoc: map<Oid, seq<OtherRevocationInfo>>)
    returns (added: map<Oid, seq<OtherRevocationInfo>>)
    ensures added == otherRevoc
  {
    added := map[];
    if |otherRevoc| > 0 {
      var remaining := otherRevoc.Keys;
      while remaining != {}
        invariant remaining <= otherRevoc.Keys
        invariant added.Keys == otherRevoc.Keys - remaining
        invariant forall format :: format in added ==> added[format] == otherRevoc[format]
        decreases remaining
      {
        var format :| format in remaining;
        added := added[format := otherRevoc[format]];
        remaining := remaining - {format};
      }
    }
    assert added.Keys == otherRevoc.Keys;
  }

  class TimeStampTokenGenerator {
    var accuracySeconds: Int32
    var accuracyMillis: Int32
    var accuracyMicros: Int32
    var ordering: bool
    var tsa: Option<GeneralName>
    var tsaPolicyOid: Oid
    var certs: seq<Certificate>
    var crls: seq<Crl>
    var attrCerts: seq<AttributeCertificate>
    var otherRevoc: map<Oid, seq<OtherRevocationInfo>>
    var signerInfoGen: SignerInfoGenerator

    /** The configuration generation reads. */
    function Config(): GeneratorConfig
      reads this
    {
      GeneratorConfig(accuracySeconds, accuracyMillis, accuracyMicros, ordering, tsa, tsaPolicyOid,
                      certs, crls, attrCerts, otherRevoc, signerInfoGen)
    }

    /** Installs the signer decorated by the binder; the failing cases are those of `Create`. */
    constructor (signerInfoGen: SignerInfoGenerator, digestCalculator: DigestCalculator, tsaPolicy: Oid,
                 isIssuerSerialIncluded: bool, isTsaCompliant: Certificate -> bool)
      requires Bind(signerInfoGen, digestCalculator, isIssuerSerialIncluded, isTsaCompliant).Success?
      ensures Config() ==
        InitialConfig(Bind(signerInfoGen, digestCalculator, isIssuerSerialIncluded, isTsaCompliant).value, tsaPolicy)
    {
      accuracySeconds, accuracyMillis, accuracyMicros := -1, -1, -1;
      ordering := false;
      tsa := None;
      certs, crls, attrCerts, otherRevoc := [], [], [], map[];
      this.signerInfoGen := signerInfoGen;
      tsaPolicyOid := tsaPolicy;
      this.signerInfoGen := Bind(signerInfoGen, digestCalculator, isIssuerSerialIncluded, isTsaCompliant).value;
    }

    /** Appends the certificates of a store; earlier ones are kept. */
    method AddCertificates(certStore: seq<Certificate>)
      modifies this`certs
      ensures Config() == old(Config()).(certs := old(certs) + certStore)
    {
      certs := certs + certStore;
    }

    /** Appends the CRLs of a store; earlier ones are kept. */
    method AddCrls(crlStore: seq<Crl>)
      modifies this`crls
      ensures Config() == old(Config()).(crls := old(crls) + crlStore)
    {
      crls := crls + crlStore;
    }

    /** Appends the attribute certificates of a store; earlier ones are kept. */
    method AddAttributeCertificates(attrStore: seq<AttributeCertificate>)
      modifies this`attrCerts
      ensures Config() == old(Config()).(attrCerts := old(attrCerts) + attrStore)
    {
      attrCerts := attrCerts + attrStore;
    }

    /** Sets the revocation objects of one format, replacing that format's earlier entry only. */
    method AddOtherRevocationInfo(otherRevocationInfoFormat: Oid, otherRevocationInfos: seq<OtherRevocationInfo>)
      modifies this`otherRevoc
      ensures Config() == old(Config()).(otherRevoc := old(otherRevoc)[otherRevocationInfoFormat := otherRevocationInfos])
      ensures forall f :: f in old(otherRevoc) && f != otherRevocationInfoFormat ==> f in otherRevoc && otherRevoc[f] == old(otherRevoc)[f]
    {
      otherRevoc := otherRevoc[otherRevocationInfoFormat := otherRevocationInfos];
    }

    method SetAccuracySeconds(accuracySeconds: Int32)
      modifies this`accuracySeconds
      ensures Config() == old(Config()).(accuracySeconds := accuracySeconds)
    {
      this.accuracySeconds := accuracySeconds;
    }

    method SetAccuracyMillis(accuracyMillis: Int32)
      modifies this`accuracyMillis
      ensures Config() == old(Config()).(accuracyMillis := accuracyMillis)
    {
      this.accuracyMillis := accuracyMillis;
    }

    method SetAccuracyMicros(accuracyMicros: Int32)
      modifies this`accuracyMicros
      ensures Config() == old(Config()).(accuracyMicros := accuracyMicros)
    {
      this.accuracyMicros := accuracyMicros;
    }

    method SetOrdering(ordering: bool)
      modifies this`ordering
      ensures Config() == old(Config()).(ordering := ordering)
    {
      this.ordering := ordering;
    }

    method SetTsa(tsa: Option<GeneralName>)
      modifies this`tsa
      ensures Config() == old(Config()).(tsa := tsa)
    {
      this.tsa := tsa;
    }

    /** Generates a token with extra extensions appended to the request's; reads the configuration only. */
    method Generate(request: TimeStampRequest, serialNumber: int, genTime: GeneralizedTime,
                    additionalExtensions: Option<seq<Extension>>, backend: Backend)
      returns (r: Result<TimeStampToken, TspError>)
      ensures r == TokenFor(Config(), request, serialNumber, genTime, additionalExtensions, backend)
    {
      var algId := AlgorithmIdentifier(request.messageImprintAlgOid, DerNull);
      var messageImprint := MessageImprint(algId, request.messageImprintDigest);
      var accuracy := AccuracyOf(accuracySeconds, accuracyMillis, accuracyMicros);
      if accuracy.Some? && !AccuracyAccepted(accuracy.value) {
        return Failure(InvalidAccuracy);
      }
      var derOrdering: Option<bool> := None;
      if ordering {
        derOrdering := Some(true);
      }
      var nonce: Option<int> := None;
      if request.nonce.Some? {
        nonce := Some(request.nonce.value);
      }
      var tsaPolicy := tsaPolicyOid;
      if request.reqPolicy.Some? {
        tsaPolicy := request.reqPolicy.value;
      }
      var exts := MergeExtensions(request.extensions, additionalExtensions);
      var tstInfo := TstInfo(1, tsaPolicy, messageImprint, serialNumber, genTime, accuracy, derOrdering, nonce, tsa, exts);

      var envCerts: seq<Certificate> := [];
      var envAttrCerts: seq<AttributeCertificate> := [];
      if request.certReq {
        envCerts := certs;
        envAttrCerts := attrCerts;
      }
      var envCrls := crls;
      var envOther := CollectOtherRevocation(otherRevoc);

      var der := backend.encodeTstInfo(tstInfo);
      if der.None? {
        return Failure(InfoEncoding);
      }
      var envelope := Envelope(IdCtTstInfo, der.value, envCerts, envAttrCerts, envCrls, envOther, signerInfoGen);
      var signed := backend.signEnvelope(envelope);
      if signed.None? {
        return Failure(TokenGeneration);
      }
      r := Success(TimeStampToken(tstInfo, envelope, signed.value));
    }

    /** Generates a token for the request's own extensions: an empty set of additional extensions. */
    method GenerateWithoutAdditionalExtensions(request: TimeStampRequest, serialNumber: int, genTime: GeneralizedTime,
                                               backend: Backend)
      returns (r: Result<TimeStampToken, TspError>)
      ensures r == TokenFor(Config(), request, serialNumber, genTime, Some([]), backend)
    {
      r := Generate(request, serialNumber, genTime, Some([]), backend);
    }
  }

  /** The generator's constructor: binds the signer or fails as the binder does. */
  method Create(signerInfoGen: SignerInfoGenerator, digestCalculator: DigestCalculator, tsaPolicy: Oid,
                isIssuerSerialIncluded: bool, isTsaCompliant: Certificate -> bool)
    returns (r: Result<TimeStampTokenGenerator, TspError>)
    ensures r.Failure? <==> Bind(signerInfoGen, digestCalculator, isIssuerSerialIncluded, isTsaCompliant).Failure?
    ensures r.Failure? ==> r.error == Bind(signerInfoGen, digestCalculator, isIssuerSerialIncluded, isTsaCompliant).error
    ensures r.Success? ==>
      fresh(r.value) && r.value.Config() == InitialConfig(Bind(signerInfoGen, digestCalculator, isIssuerSerialIncluded, isTsaCompliant).value, tsaPolicy)
  {
    var bound := Bind(signerInfoGen, digestCalculator, isIssuerSerialIncluded, isTsaCompliant);
    if bound.Failure? {
      return Failure(bound.error);
    }
    var generator := new TimeStampTokenGenerator(signerInfoGen, digestCalculator, tsaPolicy, isIssuerSerialIncluded, isTsaCompliant);
    r := Success(generator);
  }

  /** The three-argument constructor: issuer/serial left out of the binding. */
  method CreateWithoutIssuerSerial(signerInfoGen: SignerInfoGenerator, digestCalculator: DigestCalculator, tsaPolicy: Oid,
                                   isTsaCompliant: Certificate -> bool)
    returns (r: Result<TimeStampTokenGenerator, TspError>)
    ensures r.Failure? <==> Bind(signerInfoGen, digestCalculator, false, isTsaCompliant).Failure?
    ensures r.Failure? ==> r.error == Bind(signerInfoGen, digestCalculator, false, isTsaCompliant).error
    ensures r.Success? ==>
      fresh(r.value) && r.value.Config() == InitialConfig(Bind(signerInfoGen, digestCalculator, false, isTsaCompliant).value, tsaPolicy)
  {
    r := Create(signerInfoGen, digestCalculator, tsaPolicy, false, isTsaCompliant);
  }

  /** A SHA-256 request for 32 zero bytes, without nonce or policy, asking for certificates, against a
      generator with default policy `policy`, no accuracy, ordering off and one certificate `cert`. */
  method Sha256Scenario(signerInfoGen: SignerInfoGenerator, digestCalculator: DigestCalculator, policy: Oid,
                        isTsaCompliant: Certificate -> bool, cert: Certificate, genTime: GeneralizedTime, backend: Backend)
    requires digestCalculator.algorithm == IdSha256
    requires Bind(signerInfoGen, digestCalculator, false, isTsaCompliant).Success?
  {
    var created := CreateWithoutIssuerSerial(signerInfoGen, digestCalculator, policy, isTsaCompliant);
    var generator := created.value;
    generator.AddCertificates([cert]);
    var digest: Bytes := seq(32, _ => 0);
    var request := TimeStampRequest(IdSha256, digest, None, None, true, None);
    var r := generator.GenerateWithoutAdditionalExtensions(request, 1, genTime, backend);
    if r.Success? {
      TokenEchoesRequest(generator.Config(), request, 1, genTime, Some([]), backend);
      EnvelopeContents(generator.Config(), request, 1, genTime, Some([]), backend);
      var token := r.value;
      assert token.tstInfo.policy == policy;
      assert token.tstInfo.accuracy.None? && token.tstInfo.ordering.None? && token.tstInfo.nonce.None?;
      assert token.tstInfo.messageImprint.hashedMessage == digest;
      assert token.envelope.certificates == [cert];
      assert IdAaSigningCertificateV2 in token.envelope.signerInfoGenerator.signedAttributes(
        CmsParameters(IdCtTstInfo, [], AlgorithmIdentifier(digestCalculator.algorithm, Absent)));
    }
  }
}
