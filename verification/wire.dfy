/**
 * Protocol envelopes (assertion description, offer, request, assertion) and
 * the messages private to the SGX local authority that travel inside their
 * additional-information fields.
 */
module Wire {
  import opened Errors
  import opened SgxStructs

  datatype EnclaveIdentityType = UnknownIdentity | NullIdentity | CodeIdentity | CertIdentity

  /** Which generator/verifier pair an offer, request or assertion is meant for. */
  datatype AssertionDescription = AssertionDescription(identityType: EnclaveIdentityType, authorityType: string)

  /** The description of a freshly constructed (empty) message. */
  const EMPTY_DESCRIPTION := AssertionDescription(UnknownIdentity, "")

  /** A request is only read by the generator, so it is a value. */
  datatype AssertionRequest = AssertionRequest(description: AssertionDescription, additionalInformation: Bytes)

  /** An offer is an out-parameter the generator fills in place. */
  class AssertionOffer {
    var description: AssertionDescription
    var additionalInformation: Bytes

    constructor ()
      ensures description == EMPTY_DESCRIPTION && additionalInformation == []
    {
      description := EMPTY_DESCRIPTION;
      additionalInformation := [];
    }
  }

  /** An assertion is an out-parameter the generator fills in place. */
  class Assertion {
    var description: AssertionDescription
    var assertion: Bytes

    constructor ()
      ensures description == EMPTY_DESCRIPTION && assertion == []
    {
      description := EMPTY_DESCRIPTION;
      assertion := [];
    }
  }

  datatype LocalAssertionOfferAdditionalInfo = LocalAssertionOfferAdditionalInfo(localAttestationDomain: string)

  datatype LocalAssertionRequestAdditionalInfo =
    LocalAssertionRequestAdditionalInfo(localAttestationDomain: string, targetinfo: Bytes)

  /** The assertion's additional information: the raw REPORT bytes. */
  datatype LocalAssertion = LocalAssertion(report: Bytes)

  /**
   * The message encoder and decoder, an external library: a serializer may
   * fail, a parser may reject its input.
   */
  datatype Codec = Codec(
    serializeOfferInfo: LocalAssertionOfferAdditionalInfo -> Option<Bytes>,
    parseOfferInfo: Bytes -> Option<LocalAssertionOfferAdditionalInfo>,
    serializeRequestInfo: LocalAssertionRequestAdditionalInfo -> Option<Bytes>,
    parseRequestInfo: Bytes -> Option<LocalAssertionRequestAdditionalInfo>,
    serializeLocalAssertion: LocalAssertion -> Option<Bytes>,
    parseLocalAssertion: Bytes -> Option<LocalAssertion>)
  {
    /** Whatever a serializer produces, the matching parser reads back unchanged. */
    ghost predicate RoundTrips() {
      && (forall m :: serializeOfferInfo(m).Some? ==> parseOfferInfo(serializeOfferInfo(m).value) == Some(m))
      && (forall m :: serializeRequestInfo(m).Some? ==> parseRequestInfo(serializeRequestInfo(m).value) == Some(m))
      && (forall m :: serializeLocalAssertion(m).Some? ==> parseLocalAssertion(serializeLocalAssertion(m).value) == Some(m))
    }
  }
}
