/**
 * The TSTInfo of section 2.4.2 of RFC 3161 as the generator fills it in:
 * which optional fields are present, and from where each value comes.
 */
module TstInfoBuilder {
  import opened Wrappers
  import opened TspTypes

  datatype MessageImprint = MessageImprint(hashAlgorithm: AlgorithmIdentifier, hashedMessage: Bytes)

  /** Accuracy: each component is present or left out. */
  datatype Accuracy = Accuracy(seconds: Option<int>, millis: Option<int>, micros: Option<int>)

  datatype TstInfo = TstInfo(
    version: int,
    policy: Oid,
    messageImprint: MessageImprint,
    serialNumber: int,
    genTime: GeneralizedTime,
    accuracy: Option<Accuracy>,
    ordering: Option<bool>,
    nonce: Option<int>,
    tsa: Option<GeneralName>,
    extensions: Option<seq<Extension>>)

  /** A configured accuracy component (-1 when never set) as it appears in the TSTInfo. */
  function Component(configured: Int32): (r: Option<int>)
    ensures r.Some? <==> configured > 0
    ensures r.Some? ==> r.value == configured
  {
    if configured > 0 then Some(configured as int) else None
  }

  /** The accuracy field: absent unless some component is positive; when present it holds exactly the
      positive components, so a zero or negative setting is never encoded. */
  function AccuracyOf(seconds: Int32, millis: Int32, micros: Int32): (r: Option<Accuracy>)
    ensures r.Some? <==> seconds > 0 || millis > 0 || micros > 0
    ensures r.Some? ==> (r.value.seconds.Some? <==> seconds > 0)
    ensures r.Some? ==> (r.value.millis.Some? <==> millis > 0)
    ensures r.Some? ==> (r.value.micros.Some? <==> micros > 0)
    ensures r.Some? ==> r.value.seconds.GetOr(seconds) == seconds && r.value.millis.GetOr(millis) == millis &&
                        r.value.micros.GetOr(micros) == micros
  {
    if seconds > 0 || millis > 0 || micros > 0 then
      Some(Accuracy(Component(seconds), Component(millis), Component(micros)))
    else
      None
  }

  /** The range the ASN.1 Accuracy structure admits for milliseconds and microseconds (1..999, section 2.4.2
      of RFC 3161); its constructor throws IllegalArgumentException for any other value it is given. */
  predicate AccuracyAccepted(a: Accuracy)
  {
    && (a.millis.Some? ==> 1 <= a.millis.value <= 999)
    && (a.micros.Some? ==> 1 <= a.micros.value <= 999)
  }

  /** The extensions of a request, an absent set read as empty. */
  function Listed(exts: Option<seq<Extension>>): seq<Extension>
  {
    exts.GetOr([])
  }

  /** The TSTInfo's extensions: the request's followed by the additional ones when additional extensions are
      given and non-empty; otherwise the request's extensions, absent or not, pass through. */
  function MergedExtensions(requestExts: Option<seq<Extension>>, additional: Option<seq<Extension>>): (r: Option<seq<Extension>>)
    ensures Listed(additional) == [] ==> r == requestExts
    ensures Listed(additional) != [] ==>
      && r.Some?
      && |r.value| == |Listed(requestExts)| + |Listed(additional)|
      && (forall i :: 0 <= i < |Listed(requestExts)| ==> r.value[i] == Listed(requestExts)[i])
      && (forall j :: 0 <= j < |Listed(additional)| ==> r.value[|Listed(requestExts)| + j] == Listed(additional)[j])
  {
    if additional.Some? && |additional.value| > 0 then Some(Listed(requestExts) + additional.value)
    else requestExts
  }

  /** The merge as the generator performs it: a fresh list, the request's extensions appended one by one,
      then the additional ones. */
  method MergeExtensions(requestExts: Option<seq<Extension>>, additional: Option<seq<Extension>>)
    returns (exts: Option<seq<Extension>>)
    ensures exts == MergedExtensions(requestExts, additional)
  {
    exts := requestExts;
    if additional.Some? && |additional.value| > 0 {
      var all: seq<Extension> := [];
      if requestExts.Some? {
        var i := 0;
        while i < |requestExts.value|
          invariant 0 <= i <= |requestExts.value|
          invariant all == requestExts.value[..i]
        {
          all := all + [requestExts.value[i]];
          i := i + 1;
        }
        assert requestExts.value[..i] == requestExts.value;
      }
      ghost var before := all;
      var j := 0;
      while j < |additional.value|
        invariant 0 <= j <= |additional.value|
        invariant all == before + additional.value[..j]
      {
        all := all + [additional.value[j]];
        j := j + 1;
      }
      assert additional.value[..j] == additional.value;
      exts := Some(all);
    }
  }

  /** Call-time extensions that are an empty set leave the request's extensions as they are. */
  lemma EmptyAdditionalIsPassThrough(requestExts: Option<seq<Extension>>)
    ensures MergedExtensions(requestExts, Some([])) == requestExts
    ensures MergedExtensions(requestExts, None) == requestExts
  {
  }

  /** The generator's own field choices: version 1, an ordering flag encoded only when true (FALSE is the
      DEFAULT of section 2.4.2 of RFC 3161 and DER leaves it out), and an accuracy field that holds at least
      one part and only positive parts. The 1..999 bound on milliseconds and microseconds is `AccuracyAccepted`. */
  ghost predicate DerConsistent(info: TstInfo)
  {
    && info.version == 1
    && info.ordering != Some(false)
    && (info.accuracy.Some? ==>
          var a := info.accuracy.value;
          && (a.seconds.Some? || a.millis.Some? || a.micros.Some?)
          && (a.seconds.Some? ==> a.seconds.value > 0)
          && (a.millis.Some? ==> a.millis.value > 0)
          && (a.micros.Some? ==> a.micros.value > 0))
  }

  /** The TSTInfo the generator signs. */
  function TstInfoFor(request: TimeStampRequest, serialNumber: int, genTime: GeneralizedTime,
                      extensions: Option<seq<Extension>>,
                      accuracySeconds: Int32, accuracyMillis: Int32, accuracyMicros: Int32,
                      ordering: bool, tsa: Option<GeneralName>, defaultPolicy: Oid): (r: TstInfo)
    ensures DerConsistent(r)
    ensures r.messageImprint.hashAlgorithm == AlgorithmIdentifier(request.messageImprintAlgOid, DerNull)
    ensures r.messageImprint.hashedMessage == request.messageImprintDigest
    ensures request.reqPolicy.Some? ==> r.policy == request.reqPolicy.value
    ensures request.reqPolicy.None? ==> r.policy == defaultPolicy
    ensures r.serialNumber == serialNumber && r.genTime == genTime
    ensures r.accuracy == AccuracyOf(accuracySeconds, accuracyMillis, accuracyMicros)
    ensures r.ordering.Some? <==> ordering
    ensures r.nonce == request.nonce
    ensures r.tsa == tsa && r.extensions == extensions
  {
    var imprint := MessageImprint(AlgorithmIdentifier(request.messageImprintAlgOid, DerNull), request.messageImprintDigest);
    var policy := if request.reqPolicy.Some? then request.reqPolicy.value else defaultPolicy;
    var derOrdering := if ordering then Some(true) else None;
    TstInfo(1, policy, imprint, serialNumber, genTime, AccuracyOf(accuracySeconds, accuracyMillis, accuracyMicros),
            derOrdering, request.nonce, tsa, extensions)
  }
}
