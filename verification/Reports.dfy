/** The process-outcome report and its JSON wire form. */
module Reports {
  import opened Wrappers
  import opened Json

  /** A report of one process run at a station. Every string field may be
      null; the client checks none of them (not even the ones documented as
      required) and sends `passResult` as given, leaving validation to the
      server. `processTimeSeconds` is a non-nullable `long`. */
  datatype ReportDataRequest = ReportDataRequest(
    orgName: Option<string>,
    lineName: Option<string>,
    stationName: Option<string>,
    passResult: Option<string>,
    processTimeSeconds: Int64,
    failReason: Option<string>,
    failNotes: Option<string>)

  /** The JSON names the record declares, in the order the serialiser writes
      them: the record's own properties, then `orgName` from the base. */
  const ReportNames: seq<string> := ["lineName", "stationName", "passResult", "processTimeSeconds", "failReason", "failNotes", "orgName"]

  /** Every key the record can put on the wire: exactly its declared names. */
  const ReportKeys: set<string> := {"orgName", "lineName", "stationName", "passResult", "processTimeSeconds", "failReason", "failNotes"}

  /** The declared names are distinct and are exactly the wire keys. */
  lemma NamesAreKeys()
    ensures forall i, j | 0 <= i < j < |ReportNames| :: ReportNames[i] != ReportNames[j]
    ensures forall k :: k in ReportKeys <==> k in ReportNames
  {
  }

  /** The declared JSON properties of a report. */
  function Properties(r: ReportDataRequest): (props: seq<Property>)
    ensures DistinctNames(props)
    ensures |props| == |ReportNames| == 7
    ensures forall i | 0 <= i < |props| :: props[i].name == ReportNames[i]
  {
    var props :=
      [ StringProperty("lineName", r.lineName),
        StringProperty("stationName", r.stationName),
        StringProperty("passResult", r.passResult),
        NumberProperty("processTimeSeconds", r.processTimeSeconds),
        StringProperty("failReason", r.failReason),
        StringProperty("failNotes", r.failNotes),
        StringProperty("orgName", r.orgName) ];
    assert props[0].name == "lineName" && props[1].name == "stationName" && props[2].name == "passResult";
    assert props[3].name == "processTimeSeconds" && props[4].name == "failReason" && props[5].name == "failNotes";
    assert props[6].name == "orgName";
    props
  }

  /** `w` is a wire form of `r` with nulls omitted: only report keys,
      `processTimeSeconds` always present, and every nullable string member
      present exactly when non-null, holding its value unchanged. */
  predicate Describes(w: Wire, r: ReportDataRequest) {
    && w.Keys <= ReportKeys
    && "processTimeSeconds" in w && w["processTimeSeconds"] == JNumber(r.processTimeSeconds as int)
    && Carries(w, "orgName", r.orgName)
    && Carries(w, "lineName", r.lineName)
    && Carries(w, "stationName", r.stationName)
    && Carries(w, "passResult", r.passResult)
    && Carries(w, "failReason", r.failReason)
    && Carries(w, "failNotes", r.failNotes)
  }

  /** The JSON object sent for a report, nulls omitted. */
  function ToWire(r: ReportDataRequest): (w: Wire)
    ensures Describes(w, r)
  {
    var props := Properties(r);
    var w := Serialize(props);
    assert props[0].name == "lineName" && props[1].name == "stationName" && props[2].name == "passResult";
    assert props[3].name == "processTimeSeconds" && props[4].name == "failReason" && props[5].name == "failNotes";
    assert props[6].name == "orgName";
    w
  }

  /** How a receiver reads a report back off the wire: absent string keys are
      null, `processTimeSeconds` must be present; an unknown key or a member
      of the wrong JSON type is refused. */
  function FromWire(w: Wire): (r: Option<ReportDataRequest>)
    ensures r.Some? ==> w.Keys <= ReportKeys
  {
    if && w.Keys <= ReportKeys
       && StringOrAbsent(w, "orgName") && StringOrAbsent(w, "lineName")
       && StringOrAbsent(w, "stationName") && StringOrAbsent(w, "passResult")
       && StringOrAbsent(w, "failReason") && StringOrAbsent(w, "failNotes")
       && GetInt64(w, "processTimeSeconds").Some?
    then Some(ReportDataRequest(
      GetString(w, "orgName"), GetString(w, "lineName"), GetString(w, "stationName"),
      GetString(w, "passResult"), GetInt64(w, "processTimeSeconds").value,
      GetString(w, "failReason"), GetString(w, "failNotes")))
    else None
  }

  /** Serialisation loses nothing: reading the wire form back yields the same
      report, so omitting a null member is the same as sending it as null. */
  lemma RoundTrip(r: ReportDataRequest)
    ensures FromWire(ToWire(r)) == Some(r)
  {
    ReadsBack(r, ToWire(r));
  }

  /** Any object carrying exactly the fields of `r` reads back as `r`. */
  lemma ReadsBack(r: ReportDataRequest, w: Wire)
    requires Describes(w, r)
    ensures FromWire(w) == Some(r)
  {
  }

  /** A report has only one wire form. */
  lemma DescribesUnique(r: ReportDataRequest, a: Wire, b: Wire)
    requires Describes(a, r) && Describes(b, r)
    ensures a == b
  {
    forall k | k in a
      ensures k in b && a[k] == b[k]
    {
      assert k in ReportKeys;
    }
    assert a.Keys == b.Keys;
  }
}
