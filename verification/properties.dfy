/**
 * Properties that relate several operations of the local assertion
 * generator: the lifetime of its state, the agreement of `CanGenerate` with
 * `Generate`, and the negotiation from an offer to an assertion.
 */
module GeneratorProperties {
  import opened Errors
  import opened SgxStructs
  import opened Wire
  import opened Hardware
  import opened LocalAssertionGenerator

  /** The fields and statuses after `Initialize` is called once per configuration lookup, in order. */
  function InitializeAll(s: GeneratorState, lookups: seq<StatusOr<EnclaveConfig>>): (r: (GeneratorState, seq<Status>))
    ensures |r.1| == |lookups|
    decreases |lookups|
  {
    if lookups == [] then (s, [])
    else
      var step := InitializeStep(s, lookups[0]);
      var rest := InitializeAll(step.0, lookups[1..]);
      (rest.0, [step.1] + rest.1)
  }

  /**
   * However many times `Initialize` is called, at most one call succeeds;
   * once initialized, the generator's fields never change again and every
   * later call fails with FAILED_PRECONDITION.
   */
  lemma {:induction false} InitializeSucceedsAtMostOnce(s: GeneratorState, lookups: seq<StatusOr<EnclaveConfig>>)
    ensures var (final, statuses) := InitializeAll(s, lookups);
      && (forall i, j | 0 <= i < j < |statuses| :: !(statuses[i].IsOk() && statuses[j].IsOk()))
      && (s.initialized ==> final == s && forall i | 0 <= i < |statuses| :: statuses[i] == ALREADY_INITIALIZED)
      && (forall i | 0 <= i < |statuses| && statuses[i].IsOk() ::
            && final.initialized
            && ConfiguredDomain(lookups[i]) == Some(final.attestationDomain)
            && forall j | i < j < |statuses| :: statuses[j] == ALREADY_INITIALIZED)
      && (final.initialized ==> s.initialized || exists i | 0 <= i < |statuses| :: statuses[i].IsOk())
    decreases |lookups|
  {
    if lookups != [] {
      var step := InitializeStep(s, lookups[0]);
      InitializeSucceedsAtMostOnce(step.0, lookups[1..]);
      var (final, statuses) := InitializeAll(s, lookups);
      var rest := InitializeAll(step.0, lookups[1..]);
      assert statuses == [step.1] + rest.1;
      if step.1.IsOk() {
        assert step.0.initialized;
        forall i | 0 < i < |statuses| ensures statuses[i] == ALREADY_INITIALIZED {
          assert statuses[i] == rest.1[i - 1];
        }
      }
      if final.initialized && !s.initialized && !step.1.IsOk() {
        var k :| 0 <= k < |rest.1| && rest.1[k].IsOk();
        assert statuses[k + 1].IsOk();
      }
    }
  }

  /**
   * `CanGenerate` answers for `Generate` up to the TARGETINFO size: an error
   * of one is the error of the other, a domain `CanGenerate` refuses is one
   * `Generate` refuses without asking the hardware, and a successful
   * generation was one `CanGenerate` accepts. `CanGenerate` does not look at
   * the TARGETINFO, so an accepted request can still fail on its size.
   */
  lemma CanGenerateAgreesWithGenerate(
    g: SgxLocalAssertionGenerator, userData: Bytes, request: AssertionRequest, codec: Codec,
    sha256: Bytes -> Sha256Digest, ereport: (Targetinfo, Reportdata) -> Option<Report>)
    ensures var can := g.CanGenerate(request, codec);
      var out := g.GenerateOutcome(userData, request, codec, sha256, ereport);
      && (can.Failure? ==> out == GenerateTrace(can.status, None, None))
      && (can == Value(false) ==> out == GenerateTrace(DOMAIN_MISMATCH, None, None))
      && (out.reportCall.Some? || out.status.IsOk() ==> can == Value(true))
      && (can == Value(true) && |g.ParseAdditionalInfo(request, codec).value.targetinfo| != TARGETINFO_SIZE ==>
            out == GenerateTrace(TARGETINFO_SIZE_MISMATCH, None, None))
  {
  }

  /**
   * A request with a description other than this generator's is refused
   * before its additional information is decoded: the answer is the same
   * whatever the bytes and whatever the decoder.
   */
  lemma ForeignRequestIsNotDecoded(
    g: SgxLocalAssertionGenerator, r1: AssertionRequest, r2: AssertionRequest, c1: Codec, c2: Codec)
    requires r1.description == r2.description
    requires r1.description != OWN_DESCRIPTION
    ensures g.ParseAdditionalInfo(r1, c1) == g.ParseAdditionalInfo(r2, c2) == Failure(INCOMPATIBLE_DESCRIPTION)
  {
  }

  /**
   * The negotiation a peer runs against this generator: it reads the domain
   * off the generator's offer and requests an assertion for that domain.
   * The generator then accepts the request, asks the hardware for a REPORT
   * bound to the digest of the user data whenever the TARGETINFO has the
   * right size, succeeds whenever the hardware returns a REPORT that
   * serializes, and on success hands back bytes that decode to exactly that
   * REPORT.
   */
  lemma OfferedDomainIsAccepted(
    g: SgxLocalAssertionGenerator, codec: Codec, peerView: LocalAssertionOfferAdditionalInfo,
    targetinfo: Bytes, blob: Bytes, userData: Bytes,
    sha256: Bytes -> Sha256Digest, ereport: (Targetinfo, Reportdata) -> Option<Report>)
    requires codec.RoundTrips()
    requires g.OfferOutcome(codec).status.IsOk()
    requires codec.parseOfferInfo(g.OfferOutcome(codec).written.value) == Some(peerView)
    requires codec.serializeRequestInfo(
               LocalAssertionRequestAdditionalInfo(peerView.localAttestationDomain, targetinfo)) == Some(blob)
    ensures peerView.localAttestationDomain == g.attestationDomain
    ensures g.CanGenerate(AssertionRequest(OWN_DESCRIPTION, blob), codec) == Value(true)
    ensures var out := g.GenerateOutcome(userData, AssertionRequest(OWN_DESCRIPTION, blob), codec, sha256, ereport);
      && (|targetinfo| == TARGETINFO_SIZE <==> out.reportCall.Some?)
      && (out.reportCall.Some? ==>
            out.reportCall.value == ReportCall(targetinfo, ReportdataFromDigest(sha256(userData))))
      && (|targetinfo| == TARGETINFO_SIZE
            && ereport(targetinfo, ReportdataFromDigest(sha256(userData))).Some?
            && codec.serializeLocalAssertion(
                 LocalAssertion(ereport(targetinfo, ReportdataFromDigest(sha256(userData))).value)).Some? ==>
            out.status.IsOk())
      && (out.status.IsOk() ==>
            codec.parseLocalAssertion(out.written.value)
              == Some(LocalAssertion(ereport(out.reportCall.value.targetinfo, out.reportCall.value.reportdata).value)))
  {
  }

  /**
   * Two generations for the same request that reach the hardware ask it for
   * the same REPORTDATA exactly when the user data have the same digest.
   */
  lemma GenerationBindsUserData(
    g: SgxLocalAssertionGenerator, u1: Bytes, u2: Bytes, request: AssertionRequest, codec: Codec,
    sha256: Bytes -> Sha256Digest, ereport: (Targetinfo, Reportdata) -> Option<Report>)
    requires g.GenerateOutcome(u1, request, codec, sha256, ereport).reportCall.Some?
    ensures var c1 := g.GenerateOutcome(u1, request, codec, sha256, ereport).reportCall.value;
      var c2 := g.GenerateOutcome(u2, request, codec, sha256, ereport).reportCall;
      && c2.Some?
      && c1.targetinfo == c2.value.targetinfo
      && (c1.reportdata == c2.value.reportdata <==> sha256(u1) == sha256(u2))
  {
  }
}
