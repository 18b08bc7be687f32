# SignServer time-stamp token generation and renewal signature algorithm, in Dafny

This project models two pieces of SignServer:

* `TimeStampTokenGenerator`. This is the RFC 3161 time-stamp authority's token builder. Its constructor binds the
  signer's certificate to the signature with a signing-certificate attribute. That attribute is an ESSCertID
  (section 5.4 of RFC 2634) for a SHA-1 certificate digest and an ESSCertIDv2 (section 3 of RFC 5035) for any
  other digest. The attribute is added only when the signer's own signed attributes lack it. A configuration
  phase then fills these stores and options:
  * certificates, CRLs and attribute certificates, kept in append-only lists;
  * other revocation information, a map keyed by format;
  * accuracy (`-1` means unset), the ordering flag and the TSA name.

  Each `generate` call builds the TSTInfo of section 2.4.2 of RFC 3161. It then hands the DER-encoded TSTInfo to a
  CMS SignedData generator (section 5 of RFC 5652) together with the evidentiary material.
* `RenewalUtils.getRequestSignatureAlgorithm`. This picks the signature algorithm for a certificate-renewal request.

Modules:

* `Wrappers`: `Option` for Java `null` and `Result` for thrown exceptions.
* `TspTypes`: object identifiers, the request, the evidentiary objects and the exceptions.
* `CertBinding`: the constructor's binder. It is pure: the decorated attribute generator is a function value.
* `TstInfoBuilder`: the TSTInfo field rules, plus the extension merge as a loop.
* `TimeStampTokenGeneration`: the generator as a class with mutable fields, and its specification `TokenFor`.
  * `Config()` freezes the fields into a `GeneratorConfig` value.
  * `Generate` is proved equal to `TokenFor(Config(), ...)`.
  * Lemmas state what the token contains.
* `RenewalUtils`: the algorithm choice as a total function. Java's `String.trim` is modelled character by character.

The comments on the four-argument constructor say it throws `IllegalArgumentException` when the calculator is not
SHA-1. The code does not: it accepts any digest and uses ESSCertIDv2 for the others. The model follows the code.

## Model

| member | source | states |
|---|---|---|
| `CertBinding.AddIfAbsent` | signserver/modules/SignServer-Module-TSA/src/main/java/org/signserver/module/tsa/bc/TimeStampTokenGenerator.java:177-184 | the decorated table always holds the binding's type; every attribute of the base table is kept unchanged; the binding value is added only when its type was missing, and then as the single value |
| `CertBinding.AddIfAbsentIdempotent` | signserver/modules/SignServer-Module-TSA/src/main/java/org/signserver/module/tsa/bc/TimeStampTokenGenerator.java:200-207 | adding the binding to a table that went through the decorator already leaves it unchanged |
| `CertBinding.IssuerSerialOf` | signserver/modules/SignServer-Module-TSA/src/main/java/org/signserver/module/tsa/bc/TimeStampTokenGenerator.java:169-170 | issuer/serial is present iff `isIssuerSerialIncluded`, and then carries the certificate's issuer and serial number |
| `CertBinding.BindingOid` | signserver/modules/SignServer-Module-TSA/src/main/java/org/signserver/module/tsa/bc/TimeStampTokenGenerator.java:166-204 | the attribute type is id-aa-signingCertificate iff the calculator is SHA-1, else id-aa-signingCertificateV2 |
| `CertBinding.BindingValue` | signserver/modules/SignServer-Module-TSA/src/main/java/org/signserver/module/tsa/bc/TimeStampTokenGenerator.java:166-193 | SHA-1 gives an ESSCertID and every other digest an ESSCertIDv2 naming the calculator's algorithm without parameters; both carry the certificate hash and the optional issuer/serial |
| `CertBinding.Bind` | signserver/modules/SignServer-Module-TSA/src/main/java/org/signserver/module/tsa/bc/TimeStampTokenGenerator.java:150-215 | no associated certificate gives IllegalArgumentException; a certificate that is not fit for time-stamping gives the validation error; an I/O fault while digesting gives TSPException; it succeeds in exactly the remaining case, and the bound signer's signed attributes are the original generator's table plus the binding if absent; signer, certificate and unsigned generator are unchanged |
| `CertBinding.Decorates` | signserver/modules/SignServer-Module-TSA/src/main/java/org/signserver/module/tsa/bc/TimeStampTokenGenerator.java:172-186 | a signer that decorates another holds the binding's attribute type in the signed table of every CMS parameter set, adds no other type, and keeps every attribute of the base table unchanged (lines 195-209 are the same decorator for ESSCertIDv2) |
| `CertBinding.BindTwiceSameAsOnce` | signserver/modules/SignServer-Module-TSA/src/main/java/org/signserver/module/tsa/bc/TimeStampTokenGenerator.java:177-207 | binding an already-bound signer again with the same calculator succeeds and yields the same signed attributes for every CMS parameter set (no duplication) |
| `CertBinding.Sha1BindsEssCertId` | signserver/modules/SignServer-Module-TSA/src/main/java/org/signserver/module/tsa/bc/TimeStampTokenGenerator.java:166-186 | with SHA-1 every signed table holds id-aa-signingCertificate, and where the base lacked it the value is exactly the ESSCertID of the certificate digest |
| `CertBinding.OtherDigestBindsEssCertIdV2` | signserver/modules/SignServer-Module-TSA/src/main/java/org/signserver/module/tsa/bc/TimeStampTokenGenerator.java:188-209 | with any other digest every signed table holds id-aa-signingCertificateV2, and where the base lacked it the value is exactly the ESSCertIDv2 carrying the calculator's algorithm |
| `TstInfoBuilder.Component` | signserver/modules/SignServer-Module-TSA/src/main/java/org/signserver/module/tsa/bc/TimeStampTokenGenerator.java:312-328 | an accuracy component is encoded iff its setting is positive, and then with that value |
| `TstInfoBuilder.AccuracyOf` | signserver/modules/SignServer-Module-TSA/src/main/java/org/signserver/module/tsa/bc/TimeStampTokenGenerator.java:309-331 | accuracy is present iff some component is positive; when present each component is present iff positive and equals its setting |
| `TstInfoBuilder.MergedExtensions` | signserver/modules/SignServer-Module-TSA/src/main/java/org/signserver/module/tsa/bc/TimeStampTokenGenerator.java:351-376 | with null or empty additional extensions the request's extensions (absent or not) pass through; otherwise the result is the request's extensions, in order, followed by the additional ones, in order, and nothing else |
| `TstInfoBuilder.MergeExtensions` | signserver/modules/SignServer-Module-TSA/src/main/java/org/signserver/module/tsa/bc/TimeStampTokenGenerator.java:353-376 | the list built by appending the request's and then the additional extensions equals the merge rule |
| `TstInfoBuilder.EmptyAdditionalIsPassThrough` | signserver/modules/SignServer-Module-TSA/src/main/java/org/signserver/module/tsa/bc/TimeStampTokenGenerator.java:293-294 | an empty or null set of additional extensions leaves the request's extensions unchanged |
| `TstInfoBuilder.TstInfoFor` | signserver/modules/SignServer-Module-TSA/src/main/java/org/signserver/module/tsa/bc/TimeStampTokenGenerator.java:304-381 | the TSTInfo follows the generator's field choices (version 1, ordering only TRUE, accuracy only with positive parts); the imprint is the request's algorithm with NULL parameters and its digest verbatim; the policy is the requested one, else the default; ordering is present iff enabled; the nonce is the request's, present iff given; serial, time, TSA name and extensions are the arguments |
| `TimeStampTokenGeneration.InitialConfig` | signserver/modules/SignServer-Module-TSA/src/main/java/org/signserver/module/tsa/bc/TimeStampTokenGenerator.java:88-104 | a fresh generator encodes no accuracy, no ordering and no TSA name; its envelope carries no certificate, attribute certificate, CRL or revocation information whatever the request; the policy and signer are the given ones |
| `TimeStampTokenGeneration.EnvelopeFor` | signserver/modules/SignServer-Module-TSA/src/main/java/org/signserver/module/tsa/bc/TimeStampTokenGenerator.java:385-410 | the envelope wraps the encoded TSTInfo under id-ct-TSTInfo; certificates and attribute certificates are the stores iff certReq, else empty; CRLs and other revocation info are always the stores; the signer is the bound one |
| `TimeStampTokenGeneration.TokenFor` | signserver/modules/SignServer-Module-TSA/src/main/java/org/signserver/module/tsa/bc/TimeStampTokenGenerator.java:309-421 | a token carries the TSTInfo built from the request and the configuration, its DER encoding as the envelope content, and the signature over that envelope; it fails with the accuracy error exactly when the milliseconds or microseconds setting is above 999 (the ASN.1 Accuracy structure refuses it, outside the try block, lines 330 and 383), and otherwise only with the encoding and CMS errors |
| `TimeStampTokenGeneration.EnvelopeContents` | signserver/modules/SignServer-Module-TSA/src/main/java/org/signserver/module/tsa/bc/TimeStampTokenGenerator.java:387-403 | certificates and attribute certificates are bundled iff certReq; CRLs always; every configured revocation format with its objects always |
| `TimeStampTokenGeneration.TokenEchoesRequest` | signserver/modules/SignServer-Module-TSA/src/main/java/org/signserver/module/tsa/bc/TimeStampTokenGenerator.java:304-349 | a generated token's imprint, nonce, serial and time are the caller's, its policy is the requested one or else the default, and any accuracy it carries has milliseconds and microseconds within 1..999 |
| `TimeStampTokenGeneration.GenerationFailures` | signserver/modules/SignServer-Module-TSA/src/main/java/org/signserver/module/tsa/bc/TimeStampTokenGenerator.java:330-421 | a millisecond or microsecond setting above 999 gives the IllegalArgumentException of the Accuracy structure before anything is encoded; then an encoding fault gives "Exception encoding info"; a CMS fault gives "Error generating time-stamp token"; otherwise a complete token |
| `TimeStampTokenGeneration.WithoutAdditionalExtensions` | signserver/modules/SignServer-Module-TSA/src/main/java/org/signserver/module/tsa/bc/TimeStampTokenGenerator.java:287-295 | the three-argument generate gives the same result as no additional extensions, so the request's extensions pass through |
| `TimeStampTokenGeneration.CollectOtherRevocation` | signserver/modules/SignServer-Module-TSA/src/main/java/org/signserver/module/tsa/bc/TimeStampTokenGenerator.java:396-404 | the loop over the formats hands every format with its objects to the envelope, and nothing else |
| `TimeStampTokenGeneration.TimeStampTokenGenerator.constructor` | signserver/modules/SignServer-Module-TSA/src/main/java/org/signserver/module/tsa/bc/TimeStampTokenGenerator.java:140-216 | for a signer the binder accepts: accuracy unset (-1), ordering off, no TSA name, empty stores, the given default policy and the bound signer |
| `TimeStampTokenGeneration.Create` | signserver/modules/SignServer-Module-TSA/src/main/java/org/signserver/module/tsa/bc/TimeStampTokenGenerator.java:140-216 | construction fails iff the binder fails, with the binder's error; otherwise a fresh generator in its initial configuration |
| `TimeStampTokenGeneration.CreateWithoutIssuerSerial` | signserver/modules/SignServer-Module-TSA/src/main/java/org/signserver/module/tsa/bc/TimeStampTokenGenerator.java:118-125 | the three-argument constructor is the four-argument one without issuer/serial |
| `TimeStampTokenGeneration.TimeStampTokenGenerator.AddCertificates` | signserver/modules/SignServer-Module-TSA/src/main/java/org/signserver/module/tsa/bc/TimeStampTokenGenerator.java:223-227 | the store's certificates are appended after the earlier ones; nothing else changes |
| `TimeStampTokenGeneration.TimeStampTokenGenerator.AddCrls` | signserver/modules/SignServer-Module-TSA/src/main/java/org/signserver/module/tsa/bc/TimeStampTokenGenerator.java:233-237 | the store's CRLs are appended after the earlier ones; nothing else changes |
| `TimeStampTokenGeneration.TimeStampTokenGenerator.AddAttributeCertificates` | signserver/modules/SignServer-Module-TSA/src/main/java/org/signserver/module/tsa/bc/TimeStampTokenGenerator.java:243-247 | the store's attribute certificates are appended after the earlier ones; nothing else changes |
| `TimeStampTokenGeneration.TimeStampTokenGenerator.AddOtherRevocationInfo` | signserver/modules/SignServer-Module-TSA/src/main/java/org/signserver/module/tsa/bc/TimeStampTokenGenerator.java:255-260 | the entry for that format is replaced and every other format keeps its objects |
| `TimeStampTokenGeneration.TimeStampTokenGenerator.SetAccuracySeconds` | signserver/modules/SignServer-Module-TSA/src/main/java/org/signserver/module/tsa/bc/TimeStampTokenGenerator.java:262-265 | only the seconds setting changes |
| `TimeStampTokenGeneration.TimeStampTokenGenerator.SetAccuracyMillis` | signserver/modules/SignServer-Module-TSA/src/main/java/org/signserver/module/tsa/bc/TimeStampTokenGenerator.java:267-270 | only the milliseconds setting changes |
| `TimeStampTokenGeneration.TimeStampTokenGenerator.SetAccuracyMicros` | signserver/modules/SignServer-Module-TSA/src/main/java/org/signserver/module/tsa/bc/TimeStampTokenGenerator.java:272-275 | only the microseconds setting changes |
| `TimeStampTokenGeneration.TimeStampTokenGenerator.SetOrdering` | signserver/modules/SignServer-Module-TSA/src/main/java/org/signserver/module/tsa/bc/TimeStampTokenGenerator.java:277-280 | only the ordering flag changes |
| `TimeStampTokenGeneration.TimeStampTokenGenerator.SetTsa` | signserver/modules/SignServer-Module-TSA/src/main/java/org/signserver/module/tsa/bc/TimeStampTokenGenerator.java:282-285 | only the TSA name changes |
| `TimeStampTokenGeneration.TimeStampTokenGenerator.Generate` | signserver/modules/SignServer-Module-TSA/src/main/java/org/signserver/module/tsa/bc/TimeStampTokenGenerator.java:297-422 | generation reads the configuration only and gives exactly the specified outcome for the frozen configuration |
| `TimeStampTokenGeneration.TimeStampTokenGenerator.GenerateWithoutAdditionalExtensions` | signserver/modules/SignServer-Module-TSA/src/main/java/org/signserver/module/tsa/bc/TimeStampTokenGenerator.java:287-295 | the three-argument generate is generate with an empty set of additional extensions |
| `RenewalUtils.TrimLeading` | signserver/modules/SignServer-Server/src/main/java/org/signserver/server/RenewalUtils.java:29 | the result is the suffix of the input after every leading character at or below U+0020, and, if non-empty, starts with a character above U+0020 |
| `RenewalUtils.TrimTrailing` | signserver/modules/SignServer-Server/src/main/java/org/signserver/server/RenewalUtils.java:29 | the result is the prefix of the input before every trailing character at or below U+0020, and, if non-empty, ends with a character above U+0020 |
| `RenewalUtils.IsBlank` | signserver/modules/SignServer-Server/src/main/java/org/signserver/server/RenewalUtils.java:29 | `trim().isEmpty()` holds iff every character is at or below U+0020 |
| `RenewalUtils.UsableConfigured` | signserver/modules/SignServer-Server/src/main/java/org/signserver/server/RenewalUtils.java:30 | the configured algorithm is used iff it has a character above U+0020 and its first eight characters are not NONEwith |
| `RenewalUtils.IsEcName` | signserver/modules/SignServer-Server/src/main/java/org/signserver/server/RenewalUtils.java:36 | `"EC".equalsIgnoreCase` holds exactly for EC, Ec, eC and ec |
| `RenewalUtils.KeyDerivedName` | signserver/modules/SignServer-Server/src/main/java/org/signserver/server/RenewalUtils.java:33-43 | an EdEC key with parameters gives their name; otherwise the name starts with Ed or with SHA512with |
| `RenewalUtils.RequestSignatureAlgorithm` | signserver/modules/SignServer-Server/src/main/java/org/signserver/server/RenewalUtils.java:27-51 | the result is always one of the candidates: the request algorithm, the configured one, the key-derived name or SHA512withRSA; the request algorithm is returned exactly when it is not blank |
| `RenewalUtils.ExplicitRequestWins` | signserver/modules/SignServer-Server/src/main/java/org/signserver/server/RenewalUtils.java:47-48 | a non-blank request algorithm is returned exactly, untrimmed, whatever the other inputs |
| `RenewalUtils.ConfiguredAlgorithmUsed` | signserver/modules/SignServer-Server/src/main/java/org/signserver/server/RenewalUtils.java:30-31 | with a blank request, a non-blank configured algorithm not starting with NONEwith is returned unchanged |
| `RenewalUtils.DefaultWithoutCertificate` | signserver/modules/SignServer-Server/src/main/java/org/signserver/server/RenewalUtils.java:44-45 | with a blank request, an unusable configured algorithm and no certificate the result is SHA512withRSA |
| `RenewalUtils.CertificateKeyUsed` | signserver/modules/SignServer-Server/src/main/java/org/signserver/server/RenewalUtils.java:32-43 | with a blank request, an unusable configured algorithm and a certificate the result is named after the certificate's key |
| `RenewalUtils.KeyDerivedNameCases` | signserver/modules/SignServer-Server/src/main/java/org/signserver/server/RenewalUtils.java:36-43 | an EdEC key with parameters gives their name; otherwise EC in any case gives SHA512withECDSA, an Ed... algorithm is returned as is, and any other algorithm X gives SHA512withX |
| `RenewalUtils.KeyDerivedNameLead` | signserver/modules/SignServer-Server/src/main/java/org/signserver/server/RenewalUtils.java:36-43 | without EdEC parameters the key-derived name is non-empty and starts with E or S |
| `RenewalUtils.ResultIsUsable` | signserver/modules/SignServer-Server/src/main/java/org/signserver/server/RenewalUtils.java:20-50 | unless an EdEC key supplies its parameters' name, the result is never blank, and with a blank request it never starts with NONEwith |

`TimeStampTokenGeneration.Sha256Scenario` is an example that runs `CreateWithoutIssuerSerial`, `AddCertificates` and `GenerateWithoutAdditionalExtensions` together on a SHA-256 signer and asserts what the token holds. It models no source function.

## Left out

- DER encoding of the TSTInfo and CMS signing are BouncyCastle library calls. `Backend` supplies them as functions, and `None` stands for the IOException and the CMSException.
- Because signing and the base signed-attribute generator are pure functions, the model has no clock (the signing-time attribute) and no signature randomness (ECDSA, PSS). Lemmas that equate whole tokens, such as `WithoutAdditionalExtensions`, hold only under this abstraction.
- The checks that the TimeStampToken constructor runs on the signed data are library code and are not modelled.
- The certificate digest is an uninterpreted function. `None` stands for an IOException from `getEncoded` or from the digest stream.
- `TSPUtil.validateCertificate` is not part of this model. It is replaced by a predicate parameter.
- The conversion of the generation time from `Date` to GeneralizedTime is not modelled. The time passes through as an opaque value.
- The CMS generator stores certificates and attribute certificates in one set. It also stores CRLs and other revocation entries in one set. The model keeps four separate fields.
- `HashMap` iteration order of the other-revocation store is unspecified. The store is a map, and the loop picks formats in an arbitrary order.
- `Store.getMatches(null)` is modelled as the whole store in order: a `seq`.
- `Extensions` may reject duplicate extension identifiers, but that check is in the ASN.1 library and is not modelled.
- `getExtensionOIDs().length > 0` is modelled as "the additional extension list is non-empty".
- The ASN.1 `Accuracy` structure is library code. Its range check on milliseconds and microseconds (1..999, section 2.4.2 of RFC 3161) is modelled as `AccuracyAccepted`. The source calls its constructor at line 330, before the try block, so the IllegalArgumentException escapes `generate`; the model returns `Failure(InvalidAccuracy)` instead.
- Null arguments are not modelled. The source throws NullPointerException in these cases:
  - a null `requestSignatureAlgorithm` in RenewalUtils, always (line 29);
  - a null `signatureAlgorithm` in RenewalUtils, only when the request algorithm is blank (line 30);
  - a null default policy, only when the request names no policy (lines 345-349), when the TSTInfo is built;
  - a null base signed-attribute generator, on every generate, when the CMS generator asks it for attributes.
- `RenewalUtils`: the certificate is reduced to its public key's algorithm name and, for an EdEC key with parameters, the parameters' name.
- `RenewalUtils`: `equalsIgnoreCase("EC")` is modelled for ASCII letters only. No other Java character folds to E or C.
- The configuration-then-generation lifecycle and thread safety are not enforced. `Generate` has no `modifies` clause and its result is `TokenFor(Config(), ...)`, so one call cannot change what another call sees.
- WorkerResource.java, BaseSigner.java, SequencialIntegrityProtectedLoggerSessionBean.java, GlobalConfigurationSession.java, MockedMasterListSigner.java and ResyncException.java are not part of this model. They hold REST plumbing, persistence, audit logging, an interface, a test mock and an exception class.
