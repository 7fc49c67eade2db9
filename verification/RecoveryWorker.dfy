/**
  One step of one recovery (`src/videoRecoveryWorker.js`): re-read, check, ask
  once, fold the video in, and end with exactly one write.
*/
module RecoveryWorker {
  import opened Wrappers
  import opened CameraMedia
  import opened RecoveryTypes
  import opened VideoBackfill
  import opened RecoveryStore

  datatype Cfg = Cfg(maxAttempts: int, retrySeconds: int, retrievalEnabled: bool,
                     beforeSeconds: Option<int>, afterSeconds: Option<int>)

  /**
    Everything outside the process that one step meets. A failed read answers with
    no URLs. `throwAfter`: something unforeseen throws after that many effects.
  */
  datatype Env = Env(refetch: Urls, byId: Urls, listed: Urls, ask: AskAnswer, downloader: bool,
                     answer: Ref -> TargetAnswer, throwAfter: Option<nat>)

  predicate BudgetSpent(job: Job, cfg: Cfg) {
    job.attempts + 1 >= cfg.maxAttempts
  }

  function WindowFor(job: Job, cfg: Cfg): Option<Window> {
    BuildRetrievalWindow(job.rawEvent, cfg.beforeSeconds, cfg.afterSeconds)
  }

  /** The listing is read for the stored window if there is one, otherwise for one built afresh. */
  predicate ListingReadable(job: Job, cfg: Cfg) {
    if job.windowStart.Some? && job.windowEnd.Some?
    then job.vehicleId.Some? && job.vehicleId.value != ""
    else WindowFor(job, cfg).Some?
  }

  /** Steps 1 and 2: the event itself, then a retrieval already owned, then the camera's media. */
  function Look(job: Job, cfg: Cfg, env: Env): Urls {
    if HasUrls(env.refetch) then env.refetch
    else if job.retrievalId.Some? && HasUrls(env.byId) then env.byId
    else if ListingReadable(job, cfg) && HasUrls(env.listed) then env.listed
    else NO_URLS
  }

  function AnswerUrls(answer: AskAnswer): Urls {
    if answer.Accepted? then answer.urls else NO_URLS
  }

  /** Step 5. */
  function GiveUpOrWait(job: Job, cfg: Cfg): WriteCmd {
    if BudgetSpent(job, cfg) then Finish(NoVideo, None)
    else Reschedule(if job.retrievalId.Some? then PendingRetrieval else PendingRecheck,
                    cfg.retrySeconds, None, false, None, None, None)
  }

  function WaitForRetrieval(w: Window, cfg: Cfg, answer: AskAnswer): WriteCmd {
    Reschedule(PendingRetrieval, cfg.retrySeconds,
               if answer.Accepted? then answer.id else None, !answer.Refused?,
               Some(w.startMs), Some(w.endMs), None)
  }

  function DropAll(refs: seq<Ref>): seq<Effect> {
    seq(|refs|, i requires 0 <= i < |refs| => Drop(refs[i]))
  }

  /** What `deliverVideo` does outside, and the messages it leaves waiting. */
  function Delivery(job: Job, env: Env, urls: Urls): (seq<Effect>, seq<Ref>) {
    var send := Sorted(job.targets, env.answer, Send);
    var held := Sorted(job.targets, env.answer, Held);
    var drops := DropAll(Sorted(job.targets, env.answer, Dropped));
    if send == [] then (drops, held)
    else if !env.downloader then (drops, send + held)
    else (drops + FoldInAll(send, urls, env.answer), Missed(send, urls, env.answer) + held)
  }

  /** Step 4's write carries the surviving targets in the same statement as the status. */
  function AfterDelivery(job: Job, cfg: Cfg, remaining: seq<Ref>): WriteCmd {
    if remaining == [] then Finish(Completed, Some([]))
    else if BudgetSpent(job, cfg) then Finish(Failed, Some(remaining))
    else Reschedule(VideoAvailable, cfg.retrySeconds, None, false, None, None, Some(remaining))
  }

  function Deliver(job: Job, cfg: Cfg, env: Env, urls: Urls): seq<Effect> {
    var (effects, remaining) := Delivery(job, env, urls);
    effects + [Write(AfterDelivery(job, cfg, remaining), false)]
  }

  predicate AsksNow(job: Job, cfg: Cfg, env: Env) {
    !HasUrls(Look(job, cfg, env)) && !Asked(job) && cfg.retrievalEnabled && WindowFor(job, cfg).Some?
  }

  /** `processJob`, as what it does outside, ending in its one write. */
  function Step(job: Job, cfg: Cfg, env: Env): seq<Effect> {
    if job.targets == [] then [Write(Finish(Completed, None), false)]
    else if HasUrls(Look(job, cfg, env)) then Deliver(job, cfg, env, Look(job, cfg, env))
    else if !AsksNow(job, cfg, env) then [Write(GiveUpOrWait(job, cfg), false)]
    else
      var w := WindowFor(job, cfg).value;
      [Ask(w, env.ask)] +
      if HasUrls(AnswerUrls(env.ask)) then Deliver(job, cfg, env, AnswerUrls(env.ask))
      else [Write(if BudgetSpent(job, cfg) then GiveUpOrWait(job, cfg) else WaitForRetrieval(w, cfg, env.ask), false)]
  }

  /** The write of `tick`'s catch: the same status, the same targets, no look at the budget. */
  function CatchWrite(job: Job, cfg: Cfg): WriteCmd {
    Reschedule(job.status, cfg.retrySeconds, None, false, None, None, None)
  }

  /** The whole of what working on a claimed job does, when it throws and when it does not. */
  function Plan(job: Job, cfg: Cfg, env: Env): seq<Effect> {
    var step := Step(job, cfg, env);
    if env.throwAfter.None? || env.throwAfter.value >= |step| then step
    else step[..env.throwAfter.value] + [Write(CatchWrite(job, cfg), true)]
  }

  /** When the write of a step happens, and whether it lands. */
  datatype Landing = Landing(at: int, lands: bool)

  function RowsAfter(rows: map<nat, Row>, id: nat, cmd: WriteCmd, landing: Landing): map<nat, Row> {
    if landing.lands && id in rows then rows[id := Applied(rows[id], cmd, landing.at)] else rows
  }

  /** What a tick finds before it claims anything. */
  datatype Readiness = Readiness(settingsLoad: bool, recoveryEnabled: bool, enabled: bool, hasApiKey: bool)

  predicate MayWork(r: Readiness): (may: bool)
    ensures may <==> r == Readiness(true, true, true, true)
  {
    r.settingsLoad && r.recoveryEnabled && r.enabled && r.hasApiKey
  }

  /** Every claimed job has had the step of the job it was claimed as. */
  ghost predicate WorkDone(ids: seq<nat>, rows: map<nat, Row>, cfg: Cfg, env: nat -> Env, work: seq<seq<Effect>>) {
    && |work| == |ids|
    && (forall i :: 0 <= i < |ids| ==> ids[i] in rows && work[i] == Plan(rows[ids[i]].job, cfg, env(ids[i])))
    && (forall i :: 0 <= i < |work| ==> |work[i]| > 0 && work[i][|work[i]| - 1].Write?)
  }

  /** The table once every claimed job has had its step, in the order of the claim. */
  function RowsAfterAll(rows: map<nat, Row>, ids: seq<nat>, work: seq<seq<Effect>>, landing: nat -> Landing): map<nat,
                        Row>
    requires |ids| == |work|
    requires forall i :: 0 <= i < |work| ==> |work[i]| > 0 && work[i][|work[i]| - 1].Write?
  {
    if ids == [] then rows
    else
      var last := |ids| - 1;
      RowsAfter(RowsAfterAll(rows, ids[..last], work[..last], landing),
                ids[last], work[last][|work[last]| - 1].cmd, landing(ids[last]))
  }

  lemma OneMoreWorked(rows: map<nat, Row>, ids: seq<nat>, id: nat, cfg: Cfg, env: nat -> Env,
                      work: seq<seq<Effect>>, calls: seq<Effect>, landing: nat -> Landing)
    requires WorkDone(ids, rows, cfg, env, work) && id in rows
    requires calls == Plan(rows[id].job, cfg, env(id)) && |calls| > 0 && calls[|calls| - 1].Write?
    ensures WorkDone(ids + [id], rows, cfg, env, work + [calls])
    ensures RowsAfterAll(rows, ids + [id], work + [calls], landing)
            == RowsAfter(RowsAfterAll(rows, ids, work, landing), id, calls[|calls| - 1].cmd, landing(id))
  {
    hide Plan;
    assert (ids + [id])[..|ids|] == ids && (work + [calls])[..|ids|] == work;
  }

  class Worker {
    const store: Store
    var ticking: bool

    constructor (store: Store)
      ensures this.store == store && !ticking
    {
      this.store := store;
      ticking := false;
    }

    method DeliverVideo(job: Job, env: Env, urls: Urls) returns (calls: seq<Effect>, remaining: seq<Ref>)
      ensures (calls, remaining) == Delivery(job, env, urls)
    {
      var send, dropped, held := SortTargetsBySwitch(job.targets, env.answer);
      calls := DropAll(dropped);
      if send == [] {
        remaining := held;
        return;
      }
      if !env.downloader {
        remaining := send + held;
        return;
      }
      var posted, attempted, failed, made := RunVideoBackfill(send, urls, env.answer);
      calls := calls + made;
      remaining := failed + held;
    }

    /** Advance one job by one step. */
    method ProcessJob(id: nat, job: Job, cfg: Cfg, env: Env, landing: Landing)
      returns (outcome: Status, calls: seq<Effect>)
      requires store.Valid()
      modifies store`rows
      ensures store.Valid()
      ensures calls == Step(job, cfg, env)
      ensures calls[|calls| - 1].Write? && outcome == calls[|calls| - 1].cmd.status
      ensures store.rows == RowsAfter(old(store.rows), id, calls[|calls| - 1].cmd, landing)
    {
      calls := [];
      var cmd: WriteCmd;
      if |job.targets| == 0 {
        cmd := Finish(Completed, None);
        var _ := store.Update(id, cmd, landing.at, landing.lands);
        return Completed, [Write(cmd, false)];
      }

      var urls := env.refetch;
      if !HasUrls(urls) {
        if job.retrievalId.Some? && HasUrls(env.byId) {
          urls := env.byId;
        } else if ListingReadable(job, cfg) && HasUrls(env.listed) {
          urls := env.listed;
        }
      }

      if !HasUrls(urls) && !Asked(job) && cfg.retrievalEnabled {
        var window := WindowFor(job, cfg);
        if window.Some? {
          calls := [Ask(window.value, env.ask)];
          if env.ask.Accepted? && HasUrls(env.ask.urls) {
            urls := env.ask.urls;
          } else if !BudgetSpent(job, cfg) {
            cmd := WaitForRetrieval(window.value, cfg, env.ask);
            var _ := store.Update(id, cmd, landing.at, landing.lands);
            return PendingRetrieval, calls + [Write(cmd, false)];
          }
        }
      }

      if HasUrls(urls) {
        var made, remaining := DeliverVideo(job, env, urls);
        if remaining == [] {
          cmd := Finish(Completed, Some([]));
        } else if BudgetSpent(job, cfg) {
          cmd := Finish(Failed, Some(remaining));
        } else {
          cmd := Reschedule(VideoAvailable, cfg.retrySeconds, None, false, None, None, Some(remaining));
        }
        var _ := store.Update(id, cmd, landing.at, landing.lands);
        return cmd.status, calls + (made + [Write(cmd, false)]);
      }

      if BudgetSpent(job, cfg) {
        cmd := Finish(NoVideo, None);
      } else {
        cmd := Reschedule(if job.retrievalId.Some? then PendingRetrieval else PendingRecheck,
                          cfg.retrySeconds, None, false, None, None, None);
      }
      var _ := store.Update(id, cmd, landing.at, landing.lands);
      return cmd.status, calls + [Write(cmd, false)];
    }

    /** A step that throws is caught, and its job rescheduled as it was. */
    method WorkOn(id: nat, job: Job, cfg: Cfg, env: Env, landing: Landing) returns (calls: seq<Effect>)
      requires store.Valid()
      modifies store`rows
      ensures store.Valid()
      ensures calls == Plan(job, cfg, env)
      ensures |calls| > 0 && calls[|calls| - 1].Write?
      ensures store.rows == RowsAfter(old(store.rows), id, calls[|calls| - 1].cmd, landing)
    {
      if env.throwAfter.Some? && env.throwAfter.value < |Step(job, cfg, env)| {
        calls := Step(job, cfg, env)[..env.throwAfter.value];
        var cmd := CatchWrite(job, cfg);
        var _ := store.Update(id, cmd, landing.at, landing.lands);
        calls := calls + [Write(cmd, true)];
      } else {
        var _, made := ProcessJob(id, job, cfg, env, landing);
        calls := made;
      }
    }

    /** The claimed jobs one after another, each worked on as it was when it was claimed. */
    method WorkThrough(claimed: seq<nat>, jobs: map<nat, Row>, cfg: Cfg, env: nat -> Env, landing: nat -> Landing)
      returns (work: seq<seq<Effect>>)
      requires store.Valid() && store.rows == jobs
      requires forall id :: id in claimed ==> id in jobs
      modifies store`rows
      ensures store.Valid()
      ensures WorkDone(claimed, jobs, cfg, env, work)
      ensures store.rows == RowsAfterAll(jobs, claimed, work, landing)
    {
      hide Plan;
      work := [];
      for i := 0 to |claimed|
        invariant store.Valid()
        invariant WorkDone(claimed[..i], jobs, cfg, env, work)
        invariant store.rows == RowsAfterAll(jobs, claimed[..i], work, landing)
      {
        var id := claimed[i];
        var calls := WorkOn(id, jobs[id].job, cfg, env(id), landing(id));
        OneMoreWorked(jobs, claimed[..i], id, cfg, env, work, calls, landing);
        assert claimed[..i + 1] == claimed[..i] + [id];
        work := work + [calls];
      }
      assert claimed[..|claimed|] == claimed;
    }

    /**
      One pass: claim what is due and give each claimed job one step. A switched-off
      integration leaves every job alone; a tick never overlaps another one of the
      same worker.
    */
    method Tick(ready: Readiness, cfg: Cfg, limit: nat, now: int, lands: bool, heard: bool,
                env: nat -> Env, landing: nat -> Landing)
      returns (claimed: seq<nat>, work: seq<seq<Effect>>, ghost locked: seq<nat>)
      requires store.Valid()
      modifies store`rows, this`ticking
      ensures store.Valid() && ticking == old(ticking)
      ensures old(ticking) || !MayWork(ready) ==> store.rows == old(store.rows)
      ensures !old(ticking) && MayWork(ready) && lands ==> EarliestDue(old(store.rows), locked, limit, now)
      ensures old(ticking) || !MayWork(ready) || !lands ==> locked == []
      ensures claimed == if heard then locked else []
      ensures WorkDone(claimed, old(store.rows), cfg, env, work)
      ensures store.rows == RowsAfterAll(LockAll(old(store.rows), locked, now), claimed, work, landing)
    {
      claimed, work, locked := [], [], [];
      assert LockAll(store.rows, [], now) == store.rows;
      if ticking {
        return;
      }
      ticking := true;
      if MayWork(ready) {
        claimed, locked := store.ClaimDueJobs(limit, now, lands, heard);
        work := WorkThrough(claimed, store.rows, cfg, env, landing);
      }
      ticking := false;
    }
  }

  /** `Math.round` of a number of milliseconds in seconds, one at least. */
  function DelaySeconds(delayMs: Option<int>, initialDelaySeconds: int): int {
    if delayMs.None? then initialDelaySeconds
    else if (delayMs.value + 500) / 1000 < 1 then 1 else (delayMs.value + 500) / 1000
  }

  /** The delay is the one given to the nearest second, halves up, and a second at least. */
  lemma DelayIsRounded(delayMs: int, initialDelaySeconds: int)
    ensures var d := DelaySeconds(Some(delayMs), initialDelaySeconds);
            d >= 1 && (delayMs >= 500 ==> 1000 * d - 500 <= delayMs < 1000 * d + 500) && (delayMs < 500 ==> d == 1)
    ensures DelaySeconds(None, initialDelaySeconds) == initialDelaySeconds
  {}

  /**
    `enqueueVideoRecovery`, called once an alert without video has been delivered: one
    recovery of exactly the messages just sent, the first time; nothing the second time.
  */
  method EnqueueVideoRecovery(store: Store, eventId: string, vehicleId: Option<string>, raw: Option<RawEvent>,
                              sent: seq<Ref>,
                              ready: Readiness, delayMs: Option<int>, initialDelaySeconds: int, now: int, lands: bool)
    returns (enqueued: bool)
    requires store.Valid()
    modifies store
    ensures store.Valid()
    ensures enqueued <==> eventId != "" && sent != [] && ready.settingsLoad && ready.recoveryEnabled && lands
                          && !HasEvent(old(store.rows), eventId)
    ensures !enqueued ==> store.rows == old(store.rows)
    ensures enqueued ==>
              && HasEvent(store.rows, eventId)
              && store.rows == old(store.rows)[old(store.nextId) :=
                   NewRow(eventId, vehicleId, raw, sent, SecondsFrom(now, DelaySeconds(delayMs, initialDelaySeconds)))]
  {
    if eventId == "" || |sent| == 0 || !ready.settingsLoad || !ready.recoveryEnabled {
      return false;
    }
    var due := SecondsFrom(now, DelaySeconds(delayMs, initialDelaySeconds));
    enqueued := store.Enqueue(eventId, vehicleId, raw, sent, due, lands);
    if enqueued {
      assert store.rows[old(store.nextId)].job.eventId == eventId;
    }
  }
}
