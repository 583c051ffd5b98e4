# SGX local assertion generator — a Dafny model

This project models Asylo's `SgxLocalAssertionGenerator`. Inside an SGX enclave, this
component produces *local assertions*: a hardware REPORT that is targeted at another
enclave on the same machine and bound to caller-supplied data. The generator is a
two-state machine. It starts uninitialized. `Initialize` moves it to initialized and
fixes its attestation domain taken from the enclave configuration. Three operations
then read that state:
- `CreateAssertionOffer` advertises the generator's description and domain.
- `CanGenerate` decides whether a request names the same domain.
- `Generate` runs a fail-closed pipeline: description check, decode, domain check,
  TARGETINFO size check, REPORTDATA = SHA-256(user data) followed by 32 zero bytes,
  EREPORT, serialization.

Modules:
- `Errors` (errors.dfy): canonical error codes, `Status`, `StatusOr`, `Option`.
- `SgxStructs` (sgx_structs.dfy): TARGETINFO (512 bytes), REPORTDATA (64 bytes) and
  REPORT (432 bytes) of the Intel SGX architecture (Intel SDM Vol. 3D), and a SHA-256
  digest (32 bytes, FIPS 180-4), all as byte strings of fixed length.
- `Wire` (wire.dfy): assertion descriptions, requests, and the offer and assertion
  out-parameters. Offers and assertions are classes because the generator fills them
  in place. `Codec` holds the abstract message serializers and parsers.
- `Hardware` (hardware.dfy): EREPORT as an oracle. The hardware unit logs every request
  made of it, so contracts can say whether the hardware was asked, and with what.
- `LocalAssertionGenerator` (generator.dfy): the generator class. `Initialize`,
  `CreateAssertionOffer` and `Generate` are methods that change state, and each is tied
  to a pure function describing its whole effect (`InitializeStep`, `OfferOutcome`,
  `GenerateOutcome`). `IsInitialized`, `ParseAdditionalInfo` and `CanGenerate` are
  functions that only read state. `IdentityType` and `AuthorityType` return the constants
  CODE_IDENTITY and "SGX Local".
- `GeneratorProperties` (properties.dfy): lemmas that relate several operations.

Behaviour of the code worth noting, all of it modelled as written:
- A request with a foreign description is refused with INVALID_ARGUMENT before its
  additional information is decoded. So garbage bytes give a decode error only when
  the description is this generator's.
- The domain is checked before the TARGETINFO size. A request that is wrong on both
  counts gets the domain-mismatch status.
- `CanGenerate` never looks at the TARGETINFO. It answers true for a matching domain
  even when `Generate` would then reject the TARGETINFO size.
- A failed configuration lookup returns the lookup's own status.
- The missing-domain case returns INTERNAL.
- `CreateAssertionOffer` writes the offer's description before it tries to serialize.
  On a serialization failure the description therefore stays written.
- `Initialize` ignores its `config` argument.

## Model

| member | source | states |
|---|---|---|
| `SgxStructs.ReportdataFromDigest` | asylo/identity/sgx/sgx_local_assertion_generator.cc:157-167 | the REPORTDATA holds the SHA-256 digest in its first 32 bytes and zero in each of the remaining 32 |
| `SgxStructs.ReportdataDeterminesDigest` | asylo/identity/sgx/sgx_local_assertion_generator.cc:157-167 | two REPORTDATA values are equal iff the digests they were built from are equal, so the REPORTDATA binds exactly the digest |
| `Hardware.SgxHardware.GetHardwareReport` | asylo/identity/sgx/sgx_local_assertion_generator.cc:171-174 | each call appends its TARGETINFO and REPORTDATA to the hardware's (ghost) request log; the result is the REPORT the hardware yields, or a failure |
| `LocalAssertionGenerator.InitializeStep` | asylo/identity/sgx/sgx_local_assertion_generator.cc:41-65 | an already-initialized generator gets FAILED_PRECONDITION; a failed config lookup returns the lookup's own status; a config without a domain gets INTERNAL; any failure leaves both fields unchanged; success happens iff the generator was uninitialized and the config supplies a domain, and it sets initialized with exactly that domain |
| `LocalAssertionGenerator.SgxLocalAssertionGenerator.constructor` | asylo/identity/sgx/sgx_local_assertion_generator.cc:38-39 | a new generator is uninitialized and its domain is the empty string |
| `LocalAssertionGenerator.SgxLocalAssertionGenerator.Initialize` | asylo/identity/sgx/sgx_local_assertion_generator.cc:41-65 | the new fields and the returned status are exactly those `InitializeStep` gives for the old fields; the `config` argument plays no part |
| `LocalAssertionGenerator.SgxLocalAssertionGenerator.IsInitialized` | asylo/identity/sgx/sgx_local_assertion_generator.cc:67-70 | returns the initialized flag |
| `LocalAssertionGenerator.SgxLocalAssertionGenerator.IdentityType` | asylo/identity/sgx/sgx_local_assertion_generator.cc:72-74 | the identity type, independent of state, is CODE_IDENTITY |
| `LocalAssertionGenerator.SgxLocalAssertionGenerator.AuthorityType` | asylo/identity/sgx/sgx_local_assertion_generator.cc:76-78 | the authority type, independent of state, is the SGX local authority "SGX Local", the static member set at lines 35-36 |
| `LocalAssertionGenerator.SgxLocalAssertionGenerator.IsCompatibleAssertionDescription` | asylo/identity/sgx/sgx_local_assertion_generator.cc:199 | a description is compatible iff both its identity type and its authority type are this generator's |
| `LocalAssertionGenerator.SgxLocalAssertionGenerator.OfferOutcome` | asylo/identity/sgx/sgx_local_assertion_generator.cc:80-98 | uninitialized: FAILED_PRECONDITION and the offer is not touched; success iff initialized and the offer info serializes, and then the additional information is exactly the serialization of the generator's domain; a serialization failure gives INTERNAL |
| `LocalAssertionGenerator.SgxLocalAssertionGenerator.CreateAssertionOffer` | asylo/identity/sgx/sgx_local_assertion_generator.cc:80-98 | the status and the offer's new contents are those of `OfferOutcome`: untouched when uninitialized, otherwise the description (identity type, authority type) is stamped, even if serialization then fails |
| `LocalAssertionGenerator.SgxLocalAssertionGenerator.ParseAdditionalInfo` | asylo/identity/sgx/sgx_local_assertion_generator.cc:196-211 | an incompatible description gives INVALID_ARGUMENT; a compatible description whose blob does not decode gives INTERNAL; the result is a value iff the description is compatible and the blob decodes, and it is then the decoded message |
| `LocalAssertionGenerator.SgxLocalAssertionGenerator.CanGenerate` | asylo/identity/sgx/sgx_local_assertion_generator.cc:100-117 | uninitialized: FAILED_PRECONDITION; parse errors are propagated and never turned into false; on a parsed request the answer is exactly "request domain == generator domain" |
| `LocalAssertionGenerator.SgxLocalAssertionGenerator.GenerateOutcome` | asylo/identity/sgx/sgx_local_assertion_generator.cc:119-194 | the gates run in order: uninitialized, then parse errors, then domain mismatch (INVALID_ARGUMENT), then a TARGETINFO size other than 512 (INVALID_ARGUMENT), each stopping with nothing written and no hardware request; the hardware is asked iff every gate passed, with the request's TARGETINFO and REPORTDATA = SHA-256(user data) followed by 32 zeros; a hardware failure gives INTERNAL with nothing written; once the hardware produced a REPORT, generation succeeds exactly when that REPORT serializes, and then writes exactly its serialization; otherwise it returns INTERNAL and clears the assertion's bytes |
| `LocalAssertionGenerator.SgxLocalAssertionGenerator.Generate` | asylo/identity/sgx/sgx_local_assertion_generator.cc:119-194 | the status, the hardware's request log (at most one new request) and the assertion's new bytes are those of `GenerateOutcome`; the assertion's description becomes the generator's on success and only on success |
| `GeneratorProperties.InitializeSucceedsAtMostOnce` | asylo/identity/sgx/sgx_local_assertion_generator.cc:41-65 | over any sequence of `Initialize` calls, at most one succeeds; after a success every later call gets FAILED_PRECONDITION and the domain stays the one the successful call's config supplied; an initialized generator never changes; the generator ends initialized only through a success |
| `GeneratorProperties.CanGenerateAgreesWithGenerate` | asylo/identity/sgx/sgx_local_assertion_generator.cc:100-144 | a `CanGenerate` error is exactly the error `Generate` returns; a domain `CanGenerate` refuses makes `Generate` fail with INVALID_ARGUMENT before any hardware request; a hardware request or a success implies `CanGenerate` says true; an accepted request with a wrongly sized TARGETINFO still fails `Generate` |
| `GeneratorProperties.ForeignRequestIsNotDecoded` | asylo/identity/sgx/sgx_local_assertion_generator.cc:196-202 | for a foreign description the parse result is INVALID_ARGUMENT whatever the blob and whatever the decoder, so the blob is never decoded |
| `GeneratorProperties.OfferedDomainIsAccepted` | asylo/identity/sgx/sgx_local_assertion_generator.cc:80-194 | with a codec whose parsers invert its serializers, the domain a peer reads off a successful offer is the generator's; a request the peer builds for that domain is accepted by `CanGenerate`; the hardware is asked iff the TARGETINFO is 512 bytes, with REPORTDATA from the digest of the user data; generation then succeeds whenever the hardware returns a REPORT that serializes; a successful assertion decodes to exactly the REPORT the hardware returned |
| `GeneratorProperties.GenerationBindsUserData` | asylo/identity/sgx/sgx_local_assertion_generator.cc:157-172 | when one generation for a request reaches the hardware, so does another with different user data; both ask for the same TARGETINFO, and ask for the same REPORTDATA iff the user data have the same SHA-256 digest |

## Left out

- Locking (`initialized_mu_`, lines 61 and 68) is left out; the model is sequential. The source writes `attestation_domain_` outside the lock and checks the flag before taking it. Two concurrent `Initialize` calls could therefore both succeed and race on the domain. `InitializeSucceedsAtMostOnce` holds only for sequential calls.
- The enclave-configuration lookup (`GetEnclaveConfig`, line 47) reads trusted global state. Its outcome is a `StatusOr<EnclaveConfig>` parameter.
- SHA-256 is a parameter `sha256: Bytes -> Sha256Digest`. Its internals and its collision resistance are not modelled, so the binding of user data is stated up to equal digests.
- EREPORT (`GetHardwareReport`) is an oracle fixed when the hardware unit is created. The MAC and the REPORT's internal fields are not modelled.
- Message serialization and parsing are an external library, modelled by the abstract `Codec`. The model writes an empty string into the output field when serialization fails, matching the library's clear-before-serialize behaviour; that library is not part of this model.
- The memory-layout copies (`TrivialObjectFromBinaryString`, `reinterpret_cast`) are replaced by byte strings of fixed length. Alignment is not modelled.
- The static registration in the generator map (line 214) is a global side effect and is left out.
- The status messages are modelled as given. Only the codes take part in the properties.
- `IsCompatibleAssertionDescription` is inherited from a base class that is not part of this model. It is modelled as equality of both description fields.
- The two setter calls that stamp a description are modelled as one assignment of the whole description. The description has no other fields.
- The values of the identity type (CODE_IDENTITY) and the authority type ("SGX Local") come from the generator's header and the SGX constants file. Neither file is part of this model.
- asylo/platform/posix/syslog.cc only forwards a formatted message to the untrusted host, and asylo/grpc/auth/null_credentials_options.cc only assembles default options. Neither is modelled.
