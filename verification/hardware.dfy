/**
 * The EREPORT instruction (Intel SDM Vol. 3D), reached through
 * `GetHardwareReport`. Which REPORT the hardware produces is an oracle fixed
 * when the unit is created; the unit records every request made of it, so
 * that a caller's contract can say whether, and with what, it asked.
 */
module Hardware {
  import opened Errors
  import opened SgxStructs

  datatype ReportCall = ReportCall(targetinfo: Targetinfo, reportdata: Reportdata)

  class SgxHardware {
    /** The REPORT EREPORT yields for a TARGETINFO and REPORTDATA, or None when it fails. */
    const ereport: (Targetinfo, Reportdata) -> Option<Report>
    /** Every request made so far, oldest first: a record for proofs, not state the hardware keeps. */
    ghost var calls: seq<ReportCall>

    constructor (ereport: (Targetinfo, Reportdata) -> Option<Report>)
      ensures this.ereport == ereport && calls == []
    {
      this.ereport := ereport;
      calls := [];
    }

    method GetHardwareReport(targetinfo: Targetinfo, reportdata: Reportdata) returns (report: Option<Report>)
      modifies this
      ensures calls == old(calls) + [ReportCall(targetinfo, reportdata)]
      ensures report == ereport(targetinfo, reportdata)
    {
      calls := calls + [ReportCall(targetinfo, reportdata)];
      report := ereport(targetinfo, reportdata);
    }
  }
}
