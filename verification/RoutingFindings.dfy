/**
  The findings the poller files about its own routing (`src/routingFindings.js`), and
  the resolution that files and settles them (`findGroupByUnit` of `src/store.js`).
*/
module RoutingFindings {
  import opened Wrappers
  import opened Routing

  const ROUTING_KEYS := {ROUTED_BY_NAME, DISAGREEMENT, CONTESTED}

  const VEHICLE := "samsara_vehicle"

  /** The columns `ON CONFLICT` names. */
  datatype Key = Key(checkKey: string, subjectType: string, subjectId: string)

  /** `dismissed` stands for every status that is neither open nor resolved. */
  datatype FindingStatus = Open | Resolved | Dismissed

  datatype FindingRow = FindingRow(status: FindingStatus, severity: Severity, claims: seq<int>, parsedId: Option<int>)

  function KeyOf(f: Finding): Key {
    Key(f.checkKey, VEHICLE, f.subjectId)
  }

  function Reopened(status: FindingStatus): FindingStatus {
    if status.Resolved? then Open else status
  }

  /** The upsert: a resolved row opens again, a dismissed one stays dismissed. */
  function Filed(rows: map<Key, FindingRow>, f: Finding): map<Key, FindingRow> {
    var key := KeyOf(f);
    rows[key := FindingRow(if key in rows then Reopened(rows[key].status) else Open, f.severity, f.claims, f.parsedId)]
  }

  /** What is filed is what the finding says; nobody else's row changes. */
  lemma FiledSaysTheFinding(rows: map<Key, FindingRow>, f: Finding)
    ensures var after := Filed(rows, f);
      && after.Keys == rows.Keys + {KeyOf(f)}
      && after[KeyOf(f)].severity == f.severity && after[KeyOf(f)].claims == f.claims
      && after[KeyOf(f)].parsedId == f.parsedId
      && (KeyOf(f) !in rows ==> after[KeyOf(f)].status.Open?)
      && forall key :: key in rows && key != KeyOf(f) ==> after[key] == rows[key]
  {}

  predicate Closes(key: Key, row: FindingRow, subjectId: string, except: Option<string>) {
    && key.checkKey in ROUTING_KEYS && except != Some(key.checkKey)
    && key.subjectType == VEHICLE && key.subjectId == subjectId
    && row.status.Open?
  }

  function Settled(rows: map<Key, FindingRow>, subjectId: string, except: Option<string>): map<Key, FindingRow> {
    map key | key in rows ::
      if Closes(key, rows[key], subjectId, except) then rows[key].(status := Resolved) else rows[key]
  }

  class Findings {
    var rows: map<Key, FindingRow>

    constructor ()
      ensures rows == map[]
    {
      rows := map[];
    }

    /** Never throws: answers whether the upsert landed. */
    method RecordRoutingFinding(finding: Finding, lands: bool) returns (ok: bool)
      modifies this
      ensures ok == lands
      ensures rows == if lands then Filed(old(rows), finding) else old(rows)
    {
      ok := lands;
      if lands {
        var key := KeyOf(finding);
        var status := Open;
        if key in rows {
          status := if rows[key].status.Resolved? then Open else rows[key].status;
        }
        rows := rows[key := FindingRow(status, finding.severity, finding.claims, finding.parsedId)];
      }
    }

    /** Answers how many rows it closed. */
    method ResolveRoutingFindings(subjectId: string, except: Option<string>, lands: bool) returns (count: nat)
      modifies this
      ensures rows == if lands && subjectId != "" then Settled(old(rows), subjectId, except) else old(rows)
      ensures count == |set key | key in old(rows) && old(rows)[key] != rows[key]|
    {
      count := 0;
      if subjectId != "" && lands {
        var open := set key | key in rows && Closes(key, rows[key], subjectId, except);
        rows := Settled(rows, subjectId, except);
        count := |open|;
        assert open == set key | key in old(rows) && old(rows)[key] != rows[key];
      } else {
        assert (set key | key in old(rows) && old(rows)[key] != rows[key]) == {};
      }
    }

    /**
      `findGroupByUnit`. The lookups answer with none when they throw: the alert is
      then routed nowhere, and nothing is filed or settled.
    */
    method FindGroupByUnit(unitNumber: string, vehicleId: string, claims: Option<seq<Group>>,
                           parsed: Option<Option<Group>>,
                           fileLands: bool, settleLands: bool)
      returns (group: Option<Group>)
      modifies this
      ensures (group, rows) == Routed(old(rows), unitNumber, vehicleId, claims, parsed, fileLands, settleLands)
    {
      if (unitNumber == "" && vehicleId == "") || claims.None? || parsed.None? {
        return None;
      }
      var subjectId := RoutingSubjectId(vehicleId, unitNumber);
      var choice := ChooseRoutedGroup(claims.value, parsed.value, subjectId);
      if choice.finding.Some? {
        var _ := RecordRoutingFinding(choice.finding.value, fileLands);
      }
      if choice.group.None? {
        return None;
      }
      var except := if choice.finding.Some? then Some(choice.finding.value.checkKey) else None;
      var _ := ResolveRoutingFindings(subjectId, except, settleLands);
      return choice.group;
    }
  }

  /** The group an alert is routed to, and the findings afterwards. */
  function Routed(rows: map<Key, FindingRow>, unitNumber: string, vehicleId: string, claims: Option<seq<Group>>,
                  parsed: Option<Option<Group>>, fileLands: bool, settleLands: bool):
                  (Option<Group>, map<Key, FindingRow>) {
    if (unitNumber == "" && vehicleId == "") || claims.None? || parsed.None? then (None, rows)
    else
      var subjectId := RoutingSubjectId(vehicleId, unitNumber);
      var choice := ChooseRoutedGroup(claims.value, parsed.value, subjectId);
      var filed := if choice.finding.Some? && fileLands then Filed(rows, choice.finding.value) else rows;
      var except := if choice.finding.Some? then Some(choice.finding.value.checkKey) else None;
      (choice.group, if choice.group.Some? && settleLands then Settled(filed, subjectId, except) else filed)
  }

  /** A routing finding of this vehicle. */
  predicate IsOwn(key: Key, subjectId: string) {
    key.checkKey in ROUTING_KEYS && key.subjectType == VEHICLE && key.subjectId == subjectId
  }

  /**
    Once an alert has routed and both writes have landed, the open routing findings of
    its vehicle are the one it filed or none; what it filed is open unless somebody
    dismissed it; a dismissed row stays dismissed.
  */
  lemma RoutedAlertSettlesItsVehicle(rows: map<Key, FindingRow>, unitNumber: string, vehicleId: string,
                                     claims: seq<Group>,
                                     parsed: Option<Group>, key: Key)
    requires unitNumber != "" || vehicleId != ""
    requires var subjectId := RoutingSubjectId(vehicleId, unitNumber);
             IsOwn(key, subjectId) && ChooseRoutedGroup(claims, parsed, subjectId).group.Some?
    ensures var finding := ChooseRoutedGroup(claims, parsed, key.subjectId).finding;
            var (group, after) := Routed(rows, unitNumber, vehicleId, Some(claims), Some(parsed), true, true);
      && group.Some?
      && (key in after && after[key].status.Open? <==>
            finding.Some? && key == KeyOf(finding.value) && !(key in rows && rows[key].status.Dismissed?))
      && (key in after && after[key].status.Dismissed? <==> key in rows && rows[key].status.Dismissed?)
      && (key in rows ==> key in after)
  {}

  /**
    Whatever lands, rows of other vehicles, of other checks and of other subjects are
    left alone, no row disappears, and an alert that reaches nobody settles nothing.
  */
  lemma OthersAreLeftAlone(rows: map<Key, FindingRow>, unitNumber: string, vehicleId: string,
                           claims: Option<seq<Group>>,
                           parsed: Option<Option<Group>>, fileLands: bool, settleLands: bool, key: Key)
    ensures var (group, after) := Routed(rows, unitNumber, vehicleId, claims, parsed, fileLands, settleLands);
      && (!IsOwn(key, RoutingSubjectId(vehicleId, unitNumber)) ==>
            (key in after <==> key in rows) && (key in rows ==> after[key] == rows[key]))
      && (key in rows ==> key in after)
      && (key in rows && group.None? ==> after[key].status in {rows[key].status, Reopened(rows[key].status)})
  {}
}
