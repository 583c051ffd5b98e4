/**
 * The SGX local assertion generator: a two-state machine (uninitialized, then
 * initialized with a fixed attestation domain) in front of a fail-closed
 * pipeline that turns an assertion request into a hardware REPORT bound to
 * caller-supplied data.
 */
module LocalAssertionGenerator {
  import opened Errors
  import opened SgxStructs
  import opened Wire
  import opened Hardware

  /**
   * The class's static members `identity_type_` and `authority_type_`: the
   * identity type and authority type this generator is registered under.
   */
  const IDENTITY_TYPE := CodeIdentity
  const AUTHORITY_TYPE := "SGX Local"

  /** The description the generator stamps on its offers and assertions. */
  const OWN_DESCRIPTION := AssertionDescription(IDENTITY_TYPE, AUTHORITY_TYPE)

  const ALREADY_INITIALIZED := Status(FailedPrecondition, "Already initialized")
  const MISSING_DOMAIN := Status(Internal, "Config is missing attestation domain")
  const NOT_INITIALIZED := Status(FailedPrecondition, "Not initialized")
  const OFFER_NOT_SERIALIZED := Status(Internal, "Failed to serialize LocalAssertionOfferAdditionalInfo")
  const DOMAIN_MISMATCH := Status(InvalidArgument, "AssertionRequest specifies non-local attestation domain")
  const TARGETINFO_SIZE_MISMATCH := Status(InvalidArgument, "TARGETINFO from AssertionRequest has incorrect size")
  const REPORT_FAILED := Status(Internal, "Failed to generate a REPORT")
  const ASSERTION_NOT_SERIALIZED := Status(Internal, "Failed to serialize local assertion")
  const INCOMPATIBLE_DESCRIPTION := Status(InvalidArgument, "Incompatible assertion description")
  const REQUEST_NOT_PARSED := Status(Internal, "Failed to parse request additional information")

  /** The part of the enclave configuration the generator reads. */
  datatype HostConfig = HostConfig(localAttestationDomain: Option<string>)
  datatype EnclaveConfig = EnclaveConfig(hostConfig: HostConfig)

  /** The domain a configuration lookup supplies, if it succeeded and has one. */
  function ConfiguredDomain(lookup: StatusOr<EnclaveConfig>): Option<string>
  {
    if lookup.Value? then lookup.value.hostConfig.localAttestationDomain else None
  }

  /** The generator's mutable fields as a value. */
  datatype GeneratorState = GeneratorState(initialized: bool, attestationDomain: string)

  /**
   * What `Initialize` does to the generator's fields and returns, given the
   * outcome of the enclave-configuration lookup.
   */
  function InitializeStep(s: GeneratorState, lookup: StatusOr<EnclaveConfig>): (r: (GeneratorState, Status))
    ensures s.initialized ==> r.1 == ALREADY_INITIALIZED
    ensures !s.initialized && lookup.Failure? ==> r.1 == lookup.status
    ensures !s.initialized && lookup.Value? && ConfiguredDomain(lookup).None? ==> r.1 == MISSING_DOMAIN
    ensures r.1.IsOk() <==> !s.initialized && ConfiguredDomain(lookup).Some?
    ensures r.1.IsOk() ==> r.0 == GeneratorState(true, ConfiguredDomain(lookup).value)
    ensures !r.1.IsOk() ==> r.0 == s
  {
    if s.initialized then (s, ALREADY_INITIALIZED)
    else match lookup
      case Failure(status) => (s, status)
      case Value(config) =>
        match config.hostConfig.localAttestationDomain
        case None => (s, MISSING_DOMAIN)
        case Some(domain) => (GeneratorState(true, domain), OK_STATUS)
  }

  /** What `CreateAssertionOffer` returns and writes: `written` is the additional information, when the offer is touched. */
  datatype OfferTrace = OfferTrace(status: Status, written: Option<Bytes>)

  /**
   * What `Generate` returns, which EREPORT request it makes (if it gets that
   * far) and what it writes into the assertion's bytes (if anything).
   */
  datatype GenerateTrace = GenerateTrace(status: Status, reportCall: Option<ReportCall>, written: Option<Bytes>)

  class SgxLocalAssertionGenerator {
    var initialized: bool
    var attestationDomain: string

    function State(): GeneratorState
      reads this
    {
      GeneratorState(initialized, attestationDomain)
    }

    constructor ()
      ensures !initialized && attestationDomain == ""
    {
      initialized := false;
      attestationDomain := "";
    }

    /**
     * `config` is not consulted: the domain comes from the enclave
     * configuration, whose lookup outcome is `lookup`.
     */
    method Initialize(config: string, lookup: StatusOr<EnclaveConfig>) returns (status: Status)
      modifies this
      ensures (State(), status) == InitializeStep(old(State()), lookup)
    {
      if IsInitialized() {
        return ALREADY_INITIALIZED;
      }
      if lookup.Failure? {
        return lookup.status;
      }
      var hostConfig := lookup.value.hostConfig;
      if hostConfig.localAttestationDomain.None? {
        return MISSING_DOMAIN;
      }
      attestationDomain := hostConfig.localAttestationDomain.value;
      initialized := true;
      return OK_STATUS;
    }

    function IsInitialized(): (r: bool)
      reads this
      ensures r <==> State().initialized
    {
      initialized
    }

    function IdentityType(): (r: EnclaveIdentityType)
      ensures r == CodeIdentity
    {
      IDENTITY_TYPE
    }

    function AuthorityType(): (r: string)
      ensures r == "SGX Local"
    {
      AUTHORITY_TYPE
    }

    /** A description is compatible when both its identity type and its authority type are this generator's. */
    function IsCompatibleAssertionDescription(description: AssertionDescription): (r: bool)
      ensures r <==> description == OWN_DESCRIPTION
    {
      description.identityType == IdentityType() && description.authorityType == AuthorityType()
    }

    /** The offer this generator makes, as a value. */
    function OfferOutcome(codec: Codec): (r: OfferTrace)
      reads this
      ensures !initialized ==> r == OfferTrace(NOT_INITIALIZED, None)
      ensures r.status.IsOk() ==>
        r.written == codec.serializeOfferInfo(LocalAssertionOfferAdditionalInfo(attestationDomain))
      ensures r.status.IsOk() <==>
        initialized && codec.serializeOfferInfo(LocalAssertionOfferAdditionalInfo(attestationDomain)).Some?
      ensures initialized && !r.status.IsOk() ==> r == OfferTrace(OFFER_NOT_SERIALIZED, Some([]))
    {
      if !initialized then OfferTrace(NOT_INITIALIZED, None)
      else match codec.serializeOfferInfo(LocalAssertionOfferAdditionalInfo(attestationDomain))
        case None => OfferTrace(OFFER_NOT_SERIALIZED, Some([]))
        case Some(bytes) => OfferTrace(OK_STATUS, Some(bytes))
    }

    /**
     * Stamps this generator's description and domain onto `offer`. The
     * description is written before serialization is attempted, so it stays
     * even when serialization fails.
     */
    method CreateAssertionOffer(offer: AssertionOffer, codec: Codec) returns (status: Status)
      modifies offer
      ensures var out := OfferOutcome(codec);
        && status == out.status
        && (out.written.None? ==> unchanged(offer))
        && (out.written.Some? ==>
              offer.description == OWN_DESCRIPTION && offer.additionalInformation == out.written.value)
    {
      if !IsInitialized() {
        return NOT_INITIALIZED;
      }
      offer.description := AssertionDescription(IdentityType(), AuthorityType());
      var additionalInfo := LocalAssertionOfferAdditionalInfo(attestationDomain);
      var serialized := codec.serializeOfferInfo(additionalInfo);
      if serialized.None? {
        offer.additionalInformation := [];
        return OFFER_NOT_SERIALIZED;
      }
      offer.additionalInformation := serialized.value;
      return OK_STATUS;
    }

    /**
     * Decodes a request's additional information, but only once its
     * description is known to be this generator's.
     */
    function ParseAdditionalInfo(request: AssertionRequest, codec: Codec): (r: StatusOr<LocalAssertionRequestAdditionalInfo>)
      ensures !IsCompatibleAssertionDescription(request.description) ==> r == Failure(INCOMPATIBLE_DESCRIPTION)
      ensures IsCompatibleAssertionDescription(request.description) &&
              codec.parseRequestInfo(request.additionalInformation).None? ==>
        r == Failure(REQUEST_NOT_PARSED)
      ensures r.Value? <==>
        IsCompatibleAssertionDescription(request.description) && codec.parseRequestInfo(request.additionalInformation).Some?
      ensures r.Value? ==> codec.parseRequestInfo(request.additionalInformation) == Some(r.value)
    {
      if !IsCompatibleAssertionDescription(request.description) then Failure(INCOMPATIBLE_DESCRIPTION)
      else match codec.parseRequestInfo(request.additionalInformation)
        case None => Failure(REQUEST_NOT_PARSED)
        case Some(info) => Value(info)
    }

    /** Whether this generator would serve `request`: its domain is exactly this generator's. */
    function CanGenerate(request: AssertionRequest, codec: Codec): (r: StatusOr<bool>)
      reads this
      ensures !initialized ==> r == Failure(NOT_INITIALIZED)
      ensures initialized && ParseAdditionalInfo(request, codec).Failure? ==>
        r == Failure(ParseAdditionalInfo(request, codec).status)
      ensures r.Value? <==> initialized && ParseAdditionalInfo(request, codec).Value?
      ensures r.Value? ==>
        (r.value <==> ParseAdditionalInfo(request, codec).value.localAttestationDomain == attestationDomain)
    {
      if !IsInitialized() then Failure(NOT_INITIALIZED)
      else match ParseAdditionalInfo(request, codec)
        case Failure(status) => Failure(status)
        case Value(info) => Value(info.localAttestationDomain == attestationDomain)
    }

    /** Everything `Generate` does, as a value. */
    function GenerateOutcome(
      userData: Bytes, request: AssertionRequest, codec: Codec,
      sha256: Bytes -> Sha256Digest, ereport: (Targetinfo, Reportdata) -> Option<Report>): (r: GenerateTrace)
      reads this
      // Each gate that fails stops the pipeline: nothing is written, the hardware is not asked.
      ensures !initialized ==> r == GenerateTrace(NOT_INITIALIZED, None, None)
      ensures initialized && ParseAdditionalInfo(request, codec).Failure? ==>
        r == GenerateTrace(ParseAdditionalInfo(request, codec).status, None, None)
      ensures initialized && ParseAdditionalInfo(request, codec).Value?
                && ParseAdditionalInfo(request, codec).value.localAttestationDomain != attestationDomain ==>
        r == GenerateTrace(DOMAIN_MISMATCH, None, None)
      ensures initialized && ParseAdditionalInfo(request, codec).Value?
                && ParseAdditionalInfo(request, codec).value.localAttestationDomain == attestationDomain
                && |ParseAdditionalInfo(request, codec).value.targetinfo| != TARGETINFO_SIZE ==>
        r == GenerateTrace(TARGETINFO_SIZE_MISMATCH, None, None)
      // The hardware is asked only past every gate, with the requested TARGETINFO and the digest of the user data.
      ensures r.reportCall.Some? <==>
        && initialized && ParseAdditionalInfo(request, codec).Value?
        && ParseAdditionalInfo(request, codec).value.localAttestationDomain == attestationDomain
        && |ParseAdditionalInfo(request, codec).value.targetinfo| == TARGETINFO_SIZE
      ensures r.reportCall.Some? ==>
        r.reportCall.value == ReportCall(ParseAdditionalInfo(request, codec).value.targetinfo,
                                         ReportdataFromDigest(sha256(userData)))
      ensures r.reportCall.Some? && ereport(r.reportCall.value.targetinfo, r.reportCall.value.reportdata).None? ==>
        r.status == REPORT_FAILED && r.written.None?
      // Once the hardware produced a REPORT, generation succeeds exactly when that REPORT serializes;
      // otherwise the assertion's bytes are cleared and INTERNAL is returned.
      ensures r.reportCall.Some? && ereport(r.reportCall.value.targetinfo, r.reportCall.value.reportdata).Some? ==>
        var report := ereport(r.reportCall.value.targetinfo, r.reportCall.value.reportdata).value;
        && (r.status.IsOk() <==> codec.serializeLocalAssertion(LocalAssertion(report)).Some?)
        && (codec.serializeLocalAssertion(LocalAssertion(report)).None? ==>
              r == GenerateTrace(ASSERTION_NOT_SERIALIZED, r.reportCall, Some([])))
      // Only a REPORT the hardware produced is ever written, and only it.
      ensures r.written.Some? ==>
        && r.reportCall.Some?
        && ereport(r.reportCall.value.targetinfo, r.reportCall.value.reportdata).Some?
        && var report := ereport(r.reportCall.value.targetinfo, r.reportCall.value.reportdata).value;
           (if r.status.IsOk() then codec.serializeLocalAssertion(LocalAssertion(report)) == Some(r.written.value)
            else codec.serializeLocalAssertion(LocalAssertion(report)).None?
                   && r == GenerateTrace(ASSERTION_NOT_SERIALIZED, r.reportCall, Some([])))
      ensures r.status.IsOk() ==> r.written.Some?
    {
      if !IsInitialized() then GenerateTrace(NOT_INITIALIZED, None, None)
      else match ParseAdditionalInfo(request, codec)
        case Failure(status) => GenerateTrace(status, None, None)
        case Value(info) =>
          if info.localAttestationDomain != attestationDomain then GenerateTrace(DOMAIN_MISMATCH, None, None)
          else if |info.targetinfo| != TARGETINFO_SIZE then GenerateTrace(TARGETINFO_SIZE_MISMATCH, None, None)
          else
            var call := ReportCall(info.targetinfo, ReportdataFromDigest(sha256(userData)));
            match ereport(call.targetinfo, call.reportdata)
            case None => GenerateTrace(REPORT_FAILED, Some(call), None)
            case Some(report) =>
              match codec.serializeLocalAssertion(LocalAssertion(report))
              case None => GenerateTrace(ASSERTION_NOT_SERIALIZED, Some(call), Some([]))
              case Some(bytes) => GenerateTrace(OK_STATUS, Some(call), Some(bytes))
    }

    /**
     * Produces an assertion bound to `userData` for `request`. The
     * description is stamped only after the REPORT was serialized.
     */
    method Generate(
      userData: Bytes, request: AssertionRequest, assertion: Assertion, codec: Codec,
      sha256: Bytes -> Sha256Digest, hw: SgxHardware) returns (status: Status)
      modifies assertion, hw
      ensures var out := GenerateOutcome(userData, request, codec, sha256, hw.ereport);
        && status == out.status
        && hw.calls == old(hw.calls) + (if out.reportCall.Some? then [out.reportCall.value] else [])
        && assertion.assertion == (if out.written.Some? then out.written.value else old(assertion.assertion))
        && assertion.description == (if status.IsOk() then OWN_DESCRIPTION else old(assertion.description))
    {
      if !IsInitialized() {
        return NOT_INITIALIZED;
      }
      var parsed := ParseAdditionalInfo(request, codec);
      if parsed.Failure? {
        return parsed.status;
      }
      var info := parsed.value;
      if info.localAttestationDomain != attestationDomain {
        return DOMAIN_MISMATCH;
      }
      if |info.targetinfo| != TARGETINFO_SIZE {
        return TARGETINFO_SIZE_MISMATCH;
      }
      var targetinfo: Targetinfo := info.targetinfo;
      var reportdata := ReportdataFromDigest(sha256(userData));
      var report := hw.GetHardwareReport(targetinfo, reportdata);
      if report.None? {
        return REPORT_FAILED;
      }
      var serialized := codec.serializeLocalAssertion(LocalAssertion(report.value));
      if serialized.None? {
        assertion.assertion := [];
        return ASSERTION_NOT_SERIALIZED;
      }
      assertion.assertion := serialized.value;
      assertion.description := AssertionDescription(IdentityType(), AuthorityType());
      return OK_STATUS;
    }
  }
}
