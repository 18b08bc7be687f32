/**
 * Choice of the signature algorithm for a certificate-renewal request: an
 * explicit request wins, then the signer's configured algorithm when usable,
 * then a name derived from the signer certificate's public key, and finally
 * the documented default SHA512withRSA.
 */
module RenewalUtils {
  import opened Wrappers

  const DefaultSignatureAlgorithm: string := "SHA512withRSA"

  /** A certificate's public key, reduced to its algorithm name and, for an EdEC key whose parameters are
      set, the parameters' name. */
  datatype PublicKey = PublicKey(algorithm: string, edParamsName: Option<string>)

  /** Java's String.trim drops leading characters at or below U+0020. */
  function TrimLeading(s: string): (r: string)
    ensures |r| <= |s| && r == s[|s| - |r|..]
    ensures r != [] ==> r[0] > ' '
    ensures forall i :: 0 <= i < |s| - |r| ==> s[i] <= ' '
  {
    if |s| > 0 && s[0] <= ' ' then TrimLeading(s[1..]) else s
  }

  /** ... and trailing characters at or below U+0020. */
  function TrimTrailing(s: string): (r: string)
    ensures |r| <= |s| && r == s[..|r|]
    ensures r != [] ==> r[|r| - 1] > ' '
    ensures forall i :: |r| <= i < |s| ==> s[i] <= ' '
  {
    if |s| > 0 && s[|s| - 1] <= ' ' then TrimTrailing(s[..|s| - 1]) else s
  }

  function Trim(s: string): string
  {
    TrimTrailing(TrimLeading(s))
  }

  /** `s.trim().isEmpty()` in Java: blank exactly when every character is at or below U+0020. */
  predicate IsBlank(s: string)
    ensures IsBlank(s) <==> forall i :: 0 <= i < |s| ==> s[i] <= ' '
  {
    var lead := TrimLeading(s);
    assert lead != [] ==> s[|s| - |lead|] == lead[0];
    Trim(s) == []
  }

  predicate StartsWith(s: string, prefix: string)
  {
    |prefix| <= |s| && s[..|prefix|] == prefix
  }

  /** `"EC".equalsIgnoreCase(algorithm)`: no other character folds to 'E' or 'C'. */
  predicate IsEcName(algorithm: string)
    ensures IsEcName(algorithm) <==> algorithm in {"EC", "Ec", "eC", "ec"}
  {
    if |algorithm| == 2 then
      assert algorithm == [algorithm[0], algorithm[1]];
      (algorithm[0] == 'E' || algorithm[0] == 'e') && (algorithm[1] == 'C' || algorithm[1] == 'c')
    else
      false
  }

  /** A configured signature algorithm that can be used as it is: non-blank, and not NONEwith... */
  predicate UsableConfigured(signatureAlgorithm: string)
    ensures UsableConfigured(signatureAlgorithm) <==>
      (exists i :: 0 <= i < |signatureAlgorithm| && signatureAlgorithm[i] > ' ') &&
      !(8 <= |signatureAlgorithm| && signatureAlgorithm[..8] == "NONEwith")
  {
    !StartsWith(signatureAlgorithm, "NONEwith") && !IsBlank(signatureAlgorithm)
  }

  /** The algorithm named after the signer certificate's key. */
  function KeyDerivedName(key: PublicKey): (r: string)
    ensures key.edParamsName.Some? ==> r == key.edParamsName.value
    ensures key.edParamsName.None? ==> StartsWith(r, "Ed") || StartsWith(r, "SHA512with")
  {
    var keyAlg := if IsEcName(key.algorithm) then "ECDSA" else key.algorithm;
    if key.edParamsName.Some? then key.edParamsName.value
    else if StartsWith(keyAlg, "Ed") then keyAlg
    else "SHA512with" + keyAlg
  }

  /** The algorithm to sign the renewal request with. `signerCertKey` is the public key of the signer's
      certificate, None when no certificate is available. */
  function RequestSignatureAlgorithm(requestSignatureAlgorithm: string, signatureAlgorithm: string,
                                     signerCertKey: Option<PublicKey>): (r: string)
    ensures r == requestSignatureAlgorithm || r == signatureAlgorithm || r == DefaultSignatureAlgorithm ||
            (signerCertKey.Some? && r == KeyDerivedName(signerCertKey.value))
    ensures !IsBlank(requestSignatureAlgorithm) <==> r == requestSignatureAlgorithm && !IsBlank(r)
  {
    if IsBlank(requestSignatureAlgorithm) then
      if UsableConfigured(signatureAlgorithm) then signatureAlgorithm
      else if signerCertKey.Some? then KeyDerivedName(signerCertKey.value)
      else DefaultSignatureAlgorithm
    else
      requestSignatureAlgorithm
  }

  /** A request algorithm with any non-blank character is returned as given, untrimmed. */
  lemma ExplicitRequestWins(requestSignatureAlgorithm: string, signatureAlgorithm: string, signerCertKey: Option<PublicKey>)
    requires !IsBlank(requestSignatureAlgorithm)
    ensures RequestSignatureAlgorithm(requestSignatureAlgorithm, signatureAlgorithm, signerCertKey) == requestSignatureAlgorithm
  {
  }

  /** With a blank request, a usable configured algorithm is returned unchanged, whatever the certificate. */
  lemma ConfiguredAlgorithmUsed(requestSignatureAlgorithm: string, signatureAlgorithm: string, signerCertKey: Option<PublicKey>)
    requires IsBlank(requestSignatureAlgorithm) && UsableConfigured(signatureAlgorithm)
    ensures RequestSignatureAlgorithm(requestSignatureAlgorithm, signatureAlgorithm, signerCertKey) == signatureAlgorithm
  {
  }

  /** Nothing usable and no certificate: the documented default. */
  lemma DefaultWithoutCertificate(requestSignatureAlgorithm: string, signatureAlgorithm: string)
    requires IsBlank(requestSignatureAlgorithm) && !UsableConfigured(signatureAlgorithm)
    ensures RequestSignatureAlgorithm(requestSignatureAlgorithm, signatureAlgorithm, None) == "SHA512withRSA"
  {
  }

  /** Nothing usable but a certificate: the name derived from its key. */
  lemma CertificateKeyUsed(requestSignatureAlgorithm: string, signatureAlgorithm: string, key: PublicKey)
    requires IsBlank(requestSignatureAlgorithm) && !UsableConfigured(signatureAlgorithm)
    ensures RequestSignatureAlgorithm(requestSignatureAlgorithm, signatureAlgorithm, Some(key)) == KeyDerivedName(key)
  {
  }

  /** The key-derived name: an EdEC key with parameters uses their name; otherwise EC (in any case) signs
      with SHA512withECDSA, an Ed... algorithm is used as it is, and any other algorithm X with SHA512withX. */
  lemma KeyDerivedNameCases(key: PublicKey)
    ensures key.edParamsName.Some? ==> KeyDerivedName(key) == key.edParamsName.value
    ensures key.edParamsName.None? && IsEcName(key.algorithm) ==> KeyDerivedName(key) == "SHA512withECDSA"
    ensures key.edParamsName.None? && !IsEcName(key.algorithm) && StartsWith(key.algorithm, "Ed") ==>
              KeyDerivedName(key) == key.algorithm
    ensures key.edParamsName.None? && !IsEcName(key.algorithm) && !StartsWith(key.algorithm, "Ed") ==>
              KeyDerivedName(key) == "SHA512with" + key.algorithm
  {
    if IsEcName(key.algorithm) {
      assert "ECDSA"[..2][1] != "Ed"[1];
    }
  }

  /** Without EdEC parameters the key-derived name starts with 'E' or 'S'. */
  lemma KeyDerivedNameLead(key: PublicKey)
    requires key.edParamsName.None?
    ensures var r := KeyDerivedName(key); r != [] && (r[0] == 'E' || r[0] == 'S')
  {
    var keyAlg := if IsEcName(key.algorithm) then "ECDSA" else key.algorithm;
    if StartsWith(keyAlg, "Ed") {
      assert KeyDerivedName(key) == keyAlg && keyAlg[0] == 'E';
    } else {
      assert KeyDerivedName(key) == "SHA512with" + keyAlg;
    }
  }

  /** Unless an EdEC key supplies its parameters' name, the result is usable: never blank, and with a blank
      request it never names a NONEwith... (digest-less) algorithm. */
  lemma {:induction false} ResultIsUsable(requestSignatureAlgorithm: string, signatureAlgorithm: string,
                                          signerCertKey: Option<PublicKey>)
    requires signerCertKey.None? || signerCertKey.value.edParamsName.None?
    ensures var r := RequestSignatureAlgorithm(requestSignatureAlgorithm, signatureAlgorithm, signerCertKey);
      && !IsBlank(r)
      && (IsBlank(requestSignatureAlgorithm) ==> !StartsWith(r, "NONEwith"))
  {
    if IsBlank(requestSignatureAlgorithm) && !UsableConfigured(signatureAlgorithm) {
      if signerCertKey.Some? {
        KeyDerivedNameLead(signerCertKey.value);
      } else {
        assert DefaultSignatureAlgorithm[0] == 'S';
      }
    }
  }
}
