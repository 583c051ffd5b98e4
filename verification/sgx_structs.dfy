/**
 * The fixed-layout structures of the Intel SGX architecture that the local
 * assertion protocol carries (Intel SDM Vol. 3D, "SGX Data Structures":
 * TARGETINFO, REPORTDATA and REPORT), seen as opaque byte strings whose only
 * checked property is their architecture-defined length.
 */
module SgxStructs {

  newtype byte = b: int | 0 <= b < 0x100

  type Bytes = seq<byte>

  const TARGETINFO_SIZE: nat := 512
  const REPORTDATA_SIZE: nat := 64
  const REPORT_SIZE: nat := 432
  const SHA256_DIGEST_SIZE: nat := 32

  /** `n` zero bytes. */
  function Zeros(n: nat): (z: Bytes)
    ensures |z| == n
    ensures forall i | 0 <= i < n :: z[i] == 0
  {
    seq(n, _ => 0)
  }

  type Targetinfo = s: Bytes | |s| == TARGETINFO_SIZE witness Zeros(TARGETINFO_SIZE)
  type Reportdata = s: Bytes | |s| == REPORTDATA_SIZE witness Zeros(REPORTDATA_SIZE)
  type Report = s: Bytes | |s| == REPORT_SIZE witness Zeros(REPORT_SIZE)

  /** A SHA-256 digest (FIPS 180-4): 32 bytes. */
  type Sha256Digest = s: Bytes | |s| == SHA256_DIGEST_SIZE witness Zeros(SHA256_DIGEST_SIZE)

  /**
   * The REPORTDATA that binds a digest into a REPORT: the digest in the low
   * 32 bytes, zeros in the remaining 32.
   */
  function ReportdataFromDigest(digest: Sha256Digest): (reportdata: Reportdata)
    ensures reportdata[..SHA256_DIGEST_SIZE] == digest
    ensures forall i | SHA256_DIGEST_SIZE <= i < REPORTDATA_SIZE :: reportdata[i] == 0
  {
    digest + Zeros(REPORTDATA_SIZE - SHA256_DIGEST_SIZE)
  }

  /** The REPORTDATA carries the digest and nothing else: equal REPORTDATA iff equal digests. */
  lemma ReportdataDeterminesDigest(d1: Sha256Digest, d2: Sha256Digest)
    ensures ReportdataFromDigest(d1) == ReportdataFromDigest(d2) <==> d1 == d2
  {
  }
}
