/** What the two request kinds share: the inherited `orgName` property, which
    the client fills in before sending. */
module BaseRequest {
  import opened Wrappers
  import opened Json
  import Reports
  import StatusUpdates

  /** A request the client can send; both kinds derive `orgName` from the base. */
  datatype Request =
    | Report(report: Reports.ReportDataRequest)
    | StatusUpdate(update: StatusUpdates.UpdateStationStatusRequest)

  function OrgName(req: Request): Option<string> {
    match req
    case Report(r) => r.orgName
    case StatusUpdate(u) => u.orgName
  }

  function ToWire(req: Request): Wire {
    match req
    case Report(r) => Reports.ToWire(r)
    case StatusUpdate(u) => StatusUpdates.ToWire(u)
  }

  /** Overwrites `orgName` with the client's own organisation, whatever the
      caller put there. On the wire this sets the `orgName` member and leaves
      every other member exactly as the caller's request would have sent it. */
  function Stamp(req: Request, org: string): (s: Request)
    ensures s.Report? == req.Report?
    ensures OrgName(s) == Some(org)
    ensures ToWire(s) == ToWire(req)["orgName" := JString(org)]
  {
    match req
    case Report(r) =>
      var s := Report(r.(orgName := Some(org)));
      StampedReportWire(r, org);
      s
    case StatusUpdate(u) =>
      var s := StatusUpdate(u.(orgName := Some(org)));
      StampedStatusWire(u, org);
      s
  }

  /** Stamping a report changes its wire form in the `orgName` member only. */
  lemma StampedReportWire(r: Reports.ReportDataRequest, org: string)
    ensures Reports.ToWire(r.(orgName := Some(org))) == Reports.ToWire(r)["orgName" := JString(org)]
  {
    var stamped := r.(orgName := Some(org));
    var w := Reports.ToWire(r);
    var updated := w["orgName" := JString(org)];
    CarriesAfterUpdate(w, "orgName", JString(org), "lineName", r.lineName);
    CarriesAfterUpdate(w, "orgName", JString(org), "stationName", r.stationName);
    CarriesAfterUpdate(w, "orgName", JString(org), "passResult", r.passResult);
    CarriesAfterUpdate(w, "orgName", JString(org), "failReason", r.failReason);
    CarriesAfterUpdate(w, "orgName", JString(org), "failNotes", r.failNotes);
    assert Reports.Describes(updated, stamped);
    Reports.DescribesUnique(stamped, Reports.ToWire(stamped), updated);
  }

  /** Stamping a status update changes its wire form in the `orgName` member only. */
  lemma StampedStatusWire(u: StatusUpdates.UpdateStationStatusRequest, org: string)
    ensures StatusUpdates.ToWire(u.(orgName := Some(org))) == StatusUpdates.ToWire(u)["orgName" := JString(org)]
  {
    var stamped := u.(orgName := Some(org));
    var w := StatusUpdates.ToWire(u);
    var updated := w["orgName" := JString(org)];
    CarriesAfterUpdate(w, "orgName", JString(org), "lineName", u.lineName);
    CarriesAfterUpdate(w, "orgName", JString(org), "stationName", u.stationName);
    CarriesAfterUpdate(w, "orgName", JString(org), "statusColor", u.statusColor);
    CarriesAfterUpdate(w, "orgName", JString(org), "statusReason", u.statusReason);
    CarriesAfterUpdate(w, "orgName", JString(org), "statusNotes", u.statusNotes);
    assert StatusUpdates.Describes(updated, stamped);
    StatusUpdates.DescribesUnique(stamped, StatusUpdates.ToWire(stamped), updated);
  }
}
