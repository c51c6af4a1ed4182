/** The station status change and its JSON wire form. */
module StatusUpdates {
  import opened Wrappers
  import opened Json

  /** A change of a station's status. Every field may be null; `statusColor`
      is documented as GREEN, YELLOW or RED but the client does not check it. */
  datatype UpdateStationStatusRequest = UpdateStationStatusRequest(
    orgName: Option<string>,
    lineName: Option<string>,
    stationName: Option<string>,
    statusColor: Option<string>,
    statusReason: Option<string>,
    statusNotes: Option<string>)

  /** The JSON names the record declares, in the order the serialiser writes
      them: the record's own properties, then `orgName` from the base. */
  const StatusNames: seq<string> := ["lineName", "stationName", "statusColor", "statusReason", "statusNotes", "orgName"]

  /** Every key the record can put on the wire: exactly its declared names. */
  const StatusKeys: set<string> := {"orgName", "lineName", "stationName", "statusColor", "statusReason", "statusNotes"}

  /** The declared names are distinct and are exactly the wire keys. */
  lemma NamesAreKeys()
    ensures forall i, j | 0 <= i < j < |StatusNames| :: StatusNames[i] != StatusNames[j]
    ensures forall k :: k in StatusKeys <==> k in StatusNames
  {
  }

  /** The declared JSON properties of a status update. */
  function Properties(u: UpdateStationStatusRequest): (props: seq<Property>)
    ensures DistinctNames(props)
    ensures |props| == |StatusNames| == 6
    ensures forall i | 0 <= i < |props| :: props[i].name == StatusNames[i]
  {
    var props :=
      [ StringProperty("lineName", u.lineName),
        StringProperty("stationName", u.stationName),
        StringProperty("statusColor", u.statusColor),
        StringProperty("statusReason", u.statusReason),
        StringProperty("statusNotes", u.statusNotes),
        StringProperty("orgName", u.orgName) ];
    assert props[0].name == "lineName" && props[1].name == "stationName" && props[2].name == "statusColor";
    assert props[3].name == "statusReason" && props[4].name == "statusNotes" && props[5].name == "orgName";
    props
  }

  /** `w` is a wire form of `u` with nulls omitted: only status keys, and
      every member present exactly when non-null, holding its value unchanged. */
  predicate Describes(w: Wire, u: UpdateStationStatusRequest) {
    && w.Keys <= StatusKeys
    && Carries(w, "orgName", u.orgName)
    && Carries(w, "lineName", u.lineName)
    && Carries(w, "stationName", u.stationName)
    && Carries(w, "statusColor", u.statusColor)
    && Carries(w, "statusReason", u.statusReason)
    && Carries(w, "statusNotes", u.statusNotes)
  }

  /** The JSON object sent for a status update, nulls omitted. */
  function ToWire(u: UpdateStationStatusRequest): (w: Wire)
    ensures Describes(w, u)
  {
    var props := Properties(u);
    var w := Serialize(props);
    assert props[0].name == "lineName" && props[1].name == "stationName" && props[2].name == "statusColor";
    assert props[3].name == "statusReason" && props[4].name == "statusNotes" && props[5].name == "orgName";
    w
  }

  /** How a receiver reads a status update back off the wire: absent keys are
      null; an unknown key or a non-string member is refused. */
  function FromWire(w: Wire): (u: Option<UpdateStationStatusRequest>)
    ensures u.Some? ==> w.Keys <= StatusKeys
  {
    if && w.Keys <= StatusKeys
       && StringOrAbsent(w, "orgName") && StringOrAbsent(w, "lineName")
       && StringOrAbsent(w, "stationName") && StringOrAbsent(w, "statusColor")
       && StringOrAbsent(w, "statusReason") && StringOrAbsent(w, "statusNotes")
    then Some(UpdateStationStatusRequest(
      GetString(w, "orgName"), GetString(w, "lineName"), GetString(w, "stationName"),
      GetString(w, "statusColor"), GetString(w, "statusReason"), GetString(w, "statusNotes")))
    else None
  }

  /** Serialisation loses nothing: reading the wire form back yields the same
      status update. */
  lemma RoundTrip(u: UpdateStationStatusRequest)
    ensures FromWire(ToWire(u)) == Some(u)
  {
    ReadsBack(u, ToWire(u));
  }

  /** Any object carrying exactly the fields of `u` reads back as `u`. */
  lemma ReadsBack(u: UpdateStationStatusRequest, w: Wire)
    requires Describes(w, u)
    ensures FromWire(w) == Some(u)
  {
  }

  /** A status update has only one wire form. */
  lemma DescribesUnique(u: UpdateStationStatusRequest, a: Wire, b: Wire)
    requires Describes(a, u) && Describes(b, u)
    ensures a == b
  {
    forall k | k in a
      ensures k in b && a[k] == b[k]
    {
      assert k in StatusKeys;
    }
    assert a.Keys == b.Keys;
  }
}
