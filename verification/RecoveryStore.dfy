/**
  The durable table of recoveries (`src/videoRecoveryStore.js`). Each statement is
  one atomic change of the table that lands or does not.
*/
module RecoveryStore {
  import opened Wrappers
  import opened CameraMedia
  import opened RecoveryTypes

  const STALE_LOCK_MS := 10 * 60 * 1000

  /** Open, due, and not in the hands of a claim that may still be alive. */
  predicate Claimable(row: Row, now: int) {
    && Open(row.job.status)
    && row.nextCheckAt <= now
    && (row.lockedAt.None? || row.lockedAt.value < now - STALE_LOCK_MS)
  }

  function Lock(row: Row, now: int): Row {
    row.(lockedAt := Some(now))
  }

  /** `secondsFromNow` */
  function SecondsFrom(now: int, seconds: int): int {
    now + (if seconds < 1 then 1 else seconds) * 1000
  }

  /** What `reschedule` and `finish` leave in the row: by id only, whoever holds the claim. */
  function Applied(row: Row, cmd: WriteCmd, now: int): Row {
    var job := row.job;
    match cmd
    case Reschedule(status, delay, retrievalId, requested, windowStart, windowEnd, targets) =>
      Row(job.(status := status,
               attempts := job.attempts + 1,
               retrievalId := Coalesce(retrievalId, job.retrievalId),
               requestedAt := if retrievalId.Some? || requested then Coalesce(job.requestedAt, Some(now))
                              else job.requestedAt,
               windowStart := Coalesce(windowStart, job.windowStart),
               windowEnd := Coalesce(windowEnd, job.windowEnd),
               targets := if targets.Some? then targets.value else job.targets),
          SecondsFrom(now, delay), None)
    case Finish(status, targets) =>
      row.(job := job.(status := status, targets := if targets.Some? then targets.value else job.targets),
           lockedAt := None)
  }

  function NewRow(eventId: string, vehicleId: Option<string>, raw: Option<RawEvent>, targets: seq<Ref>,
                  nextCheckAt: int): Row {
    Row(Job(eventId, vehicleId, raw, targets, PendingRecheck, 0, None, None, None, None), nextCheckAt, None)
  }

  /** A recovery begins with all its messages waiting, nothing tried, nothing asked for, in nobody's hands. */
  lemma NewRowWaits(eventId: string, vehicleId: Option<string>, raw: Option<RawEvent>, targets: seq<Ref>, due: int)
    ensures var row := NewRow(eventId, vehicleId, raw, targets, due);
      && row.nextCheckAt == due && row.lockedAt.None?
      && row.job.eventId == eventId && row.job.vehicleId == vehicleId && row.job.rawEvent == raw
      && row.job.targets == targets && row.job.status == PendingRecheck && row.job.attempts == 0
      && !Asked(row.job) && row.job.windowStart.None? && row.job.windowEnd.None?
  {}

  /**
    A reschedule frees the row and counts an attempt; what it names replaces what was
    there, what it does not name stays; a request is dated when it is first recorded.
    Ending a recovery frees the row too, and counts nothing.
  */
  lemma WritesKeepWhatTheyDoNotName(row: Row, cmd: WriteCmd, now: int)
    ensures var after := Applied(row, cmd, now);
      && after.lockedAt.None? && after.job.status == cmd.status
      && after.job.targets == (if cmd.targets.Some? then cmd.targets.value else row.job.targets)
      && after.job.eventId == row.job.eventId && after.job.rawEvent == row.job.rawEvent
      && after.job.vehicleId == row.job.vehicleId
      && (cmd.Finish? ==> after.job == row.job.(status := cmd.status, targets := after.job.targets)
                          && after.nextCheckAt == row.nextCheckAt)
      && (cmd.Reschedule? ==>
            && after.job.attempts == row.job.attempts + 1
            && after.nextCheckAt >= now + 1000 && after.nextCheckAt >= now + 1000 * cmd.delaySeconds
            && after.nextCheckAt in {now + 1000, now + 1000 * cmd.delaySeconds}
            && after.job.retrievalId == (if cmd.retrievalId.Some? then cmd.retrievalId else row.job.retrievalId)
            && after.job.windowStart == (if cmd.windowStart.Some? then cmd.windowStart else row.job.windowStart)
            && after.job.windowEnd == (if cmd.windowEnd.Some? then cmd.windowEnd else row.job.windowEnd)
            && after.job.requestedAt == (if row.job.requestedAt.Some? then row.job.requestedAt
                                         else if cmd.requested || cmd.retrievalId.Some? then Some(now) else None))
  {}

  predicate HasEvent(rows: map<nat, Row>, eventId: string) {
    exists id :: id in rows && rows[id].job.eventId == eventId
  }

  function DueIds(rows: map<nat, Row>, now: int): set<nat> {
    set id | id in rows && Claimable(rows[id], now)
  }

  function LockAll(rows: map<nat, Row>, ids: seq<nat>, now: int): map<nat, Row> {
    map id | id in rows :: if id in ids then Lock(rows[id], now) else rows[id]
  }

  /** As many due rows as the limit allows, each once, none due later than one that is left out. */
  ghost predicate EarliestDue(rows: map<nat, Row>, ids: seq<nat>, limit: nat, now: int) {
    && (forall i, j :: 0 <= i < j < |ids| ==> ids[i] != ids[j])
    && (forall id :: id in ids ==> id in DueIds(rows, now))
    && (forall id, other :: id in ids && other in DueIds(rows, now) && other !in ids
          ==> rows[id].nextCheckAt <= rows[other].nextCheckAt)
    && |ids| == (if |DueIds(rows, now)| < limit then |DueIds(rows, now)| else limit)
  }

  /** A row that a claim passes over: not due yet, its recovery ended, or claimed less than ten minutes ago. */
  ghost predicate IsPassedOver(row: Row, now: int) {
    || row.nextCheckAt > now
    || row.job.status in {Completed, NoVideo, Failed}
    || (row.lockedAt.Some? && now - row.lockedAt.value <= 600000)
  }

  /** No row that is to be passed over is claimed, and no other is left while there is room. */
  ghost predicate OnlyDue(rows: map<nat, Row>, ids: seq<nat>, limit: nat, lands: bool, now: int) {
    && (forall id :: id in ids ==> id in rows && !IsPassedOver(rows[id], now))
    && (lands && |ids| < limit ==> forall id :: id in rows && id !in ids ==> IsPassedOver(rows[id], now))
  }

  /** The earliest due row of a non-empty set. */
  lemma {:induction false} EarliestExists(rows: map<nat, Row>, ids: set<nat>) returns (best: nat)
    requires ids != {} && ids <= rows.Keys
    ensures best in ids && forall id :: id in ids ==> rows[best].nextCheckAt <= rows[id].nextCheckAt
    decreases |ids|
  {
    best :| best in ids;
    if ids != {best} {
      assert ids == {best} + (ids - {best});
      var other := EarliestExists(rows, ids - {best});
      if rows[other].nextCheckAt < rows[best].nextCheckAt {
        best := other;
      }
    }
  }

  /** Of `all`, these have been picked, earliest first, and those are left. */
  ghost predicate Picking(rows: map<nat, Row>, all: set<nat>, picked: seq<nat>, left: set<nat>) {
    && left <= all <= rows.Keys
    && (forall id :: id in all <==> id in left || id in picked)
    && (forall id :: id in picked ==> id !in left)
    && (forall i, j :: 0 <= i < j < |picked| ==> picked[i] != picked[j])
    && |picked| + |left| == |all|
    && (forall id, other :: id in picked && other in left ==> rows[id].nextCheckAt <= rows[other].nextCheckAt)
  }

  lemma PickKeeps(rows: map<nat, Row>, all: set<nat>, picked: seq<nat>, left: set<nat>, best: nat)
    requires Picking(rows, all, picked, left) && best in left
    requires forall id :: id in left ==> rows[best].nextCheckAt <= rows[id].nextCheckAt
    ensures Picking(rows, all, picked + [best], left - {best})
  {}

  lemma PickedEnough(rows: map<nat, Row>, picked: seq<nat>, left: set<nat>, limit: nat, now: int)
    requires Picking(rows, DueIds(rows, now), picked, left)
    requires |picked| == limit || (left == {} && |picked| <= limit)
    ensures EarliestDue(rows, picked, limit, now)
    ensures OnlyDue(rows, picked, limit, true, now)
  {}

  class Store {
    var rows: map<nat, Row>
    var nextId: nat

    ghost predicate Valid()
      reads this
    {
      && (forall id :: id in rows ==> id < nextId)
      && (forall a, b :: a in rows && b in rows && rows[a].job.eventId == rows[b].job.eventId ==> a == b)
    }

    constructor ()
      ensures Valid() && rows == map[]
    {
      rows, nextId := map[], 0;
    }

    /** One recovery per event: a second enqueue of the same event changes nothing. */
    method Enqueue(eventId: string, vehicleId: Option<string>, raw: Option<RawEvent>,
                   targets: seq<Ref>, nextCheckAt: int, lands: bool)
      returns (created: bool)
      requires Valid()
      modifies this
      ensures Valid()
      ensures created <==> lands && eventId != "" && !HasEvent(old(rows), eventId)
      ensures created ==> rows == old(rows)[old(nextId) := NewRow(eventId, vehicleId, raw, targets, nextCheckAt)]
      ensures !created ==> rows == old(rows)
    {
      created := lands && eventId != "" && !HasEvent(rows, eventId);
      if created {
        rows := rows[nextId := NewRow(eventId, vehicleId, raw, targets, nextCheckAt)];
        nextId := nextId + 1;
      }
    }

    /**
      Claim what is due, earliest first, at most `limit` rows. The claimer may
      never hear the answer of a statement that landed: then the rows are locked
      and nobody works on them.
    */
    method ClaimDueJobs(limit: nat, now: int, lands: bool, heard: bool) returns (claimed: seq<nat>,
                        ghost locked: seq<nat>)
      requires Valid()
      modifies this`rows
      ensures Valid()
      ensures rows == LockAll(old(rows), locked, now)
      ensures claimed == if heard then locked else []
      ensures lands ==> EarliestDue(old(rows), locked, limit, now)
      ensures !lands ==> locked == []
      ensures OnlyDue(old(rows), locked, limit, lands, now)
    {
      var picked: seq<nat> := [];
      if lands {
        var due := DueIds(rows, now);
        while |picked| < limit && due != {}
          invariant rows == old(rows)
          invariant |picked| <= limit
          invariant Picking(rows, DueIds(rows, now), picked, due)
          decreases due
        {
          var _ := EarliestExists(rows, due);
          var best :| best in due && forall id :: id in due ==> rows[best].nextCheckAt <= rows[id].nextCheckAt;
          PickKeeps(rows, DueIds(rows, now), picked, due, best);
          picked := picked + [best];
          due := due - {best};
        }
        PickedEnough(rows, picked, due, limit, now);
      }
      locked := picked;
      rows := LockAll(rows, picked, now);
      claimed := if heard then picked else [];
    }

    /** `reschedule` or `finish`, by the id alone. Answers whether the caller learns that it landed. */
    method Update(id: nat, cmd: WriteCmd, now: int, lands: bool) returns (ok: bool)
      requires Valid()
      modifies this`rows
      ensures Valid()
      ensures ok <==> lands && id in old(rows)
      ensures rows == if ok then old(rows)[id := Applied(old(rows)[id], cmd, now)] else old(rows)
    {
      ok := lands && id in rows;
      if ok {
        rows := rows[id := Applied(rows[id], cmd, now)];
      }
    }
  }
}
