/** What the recovery promises over every run, and what it costs when something is lost. */
module RecoveryTheorems {
  import opened Wrappers
  import opened CameraMedia
  import opened RecoveryTypes
  import opened VideoBackfill
  import opened RecoveryStore
  import opened RecoveryWorker
  import opened RecoveryPlan
  import opened RecoveryRuns

  ghost predicate At(states: seq<State>, actions: seq<Action>, n: nat, id: nat) {
    IsTimelyRun(states, actions) && n < |states| && id in states[n].jobs
  }

  // ---- From one instant to a later one ----------------------------------------------

  /** An environment in which nothing is found and nothing is answered. */
  const SILENCE := Env(NO_URLS, NO_URLS, NO_URLS, Unknown, false,
                       (r: Ref) => TargetAnswer(SwitchUnreadable, false, false, false, false), None)

  /** What one job keeps from one state of a run to any later one. */
  ghost predicate Evolves(c: Cell, c': Cell) {
    && c'.row.job.eventId == c.row.job.eventId && c'.row.job.rawEvent == c.row.job.rawEvent
    && c'.history.initial == c.history.initial
    && (forall r :: r in c'.row.job.targets ==> r in c.row.job.targets)
    && c.history.faults <= c'.history.faults
    && c.history.throws <= c'.history.throws
    && c.history.landed <= c'.history.landed
    && c.history.budgets <= c'.history.budgets
    && (Asked(c.row.job) ==> Asked(c'.row.job) && c'.history.asks == c.history.asks
                             && c'.history.posts == c.history.posts)
    && (c.row.job.retrievalId.Some? ==> c'.row.job.retrievalId == c.row.job.retrievalId)
    && (c.row.job.requestedAt.Some? ==> c'.row.job.requestedAt == c.row.job.requestedAt)
    && (!Open(c.row.job.status) ==> c' == c)
  }

  lemma EffectEvolves(c: Cell, token: nat, lands: bool, clock: int)
    requires CellOk(c, clock) && token in c.holders && !c.holders[token].plan[c.holders[token].pos].Write?
    ensures Evolves(c, Advanced(c, token, lands, clock))
  {
    var h := c.holders[token];
    assert HolderOk(c, h, clock);
    var effects := h.plan[..|h.plan| - 1];
    assert effects[h.pos] == h.plan[h.pos];
  }

  /**
    A write replaces nothing that must stay: it shrinks the targets, and names a retrieval
    only if none was asked for.
  */
  lemma WriteOnlyShrinks(job: Job, budget: int, plan: seq<Effect>, pos: nat)
    requires PlanOk(job, budget, plan) && pos < |plan| && plan[pos].Write?
    ensures forall r :: r in TargetsAfter(job, plan[pos].cmd) ==> r in job.targets
    ensures plan[pos].cmd.Reschedule? && plan[pos].cmd.retrievalId.Some? ==> !Asked(job)
  {
    LastIsTheWrite(job, budget, plan, pos);
    if plan[pos].cmd.Reschedule? && plan[pos].cmd.retrievalId.Some? {
      var i :| 0 <= i < pos && MustNotRepeat(plan[..pos][i]);
    }
  }

  lemma WriteEvolves(c: Cell, token: nat, lands: bool, clock: int)
    requires CellOk(c, clock) && token in c.holders && c.holders[token].plan[c.holders[token].pos].Write?
    ensures Evolves(c, Advanced(c, token, lands, clock))
  {
    var h := c.holders[token];
    assert HolderOk(c, h, clock);
    WriteOnlyShrinks(h.job, h.budget, h.plan, h.pos);
  }

  lemma CrashEvolves(c: Cell, token: nat, clock: int)
    requires CellOk(c, clock) && token in c.holders
    ensures Evolves(c, Crashed(c, token))
  {
    assert HolderOk(c, c.holders[token], clock);
  }

  lemma ClaimEvolves(c: Cell, token: nat, now: int, cfg: Cfg, env: Env)
    requires Claimable(c.row, now)
    ensures Evolves(c, Claimed(c, token, now, cfg, env)) && Evolves(c, c.(row := Lock(c.row, now)))
  {}

  lemma AdvanceEvolves(c: Cell, token: nat, lands: bool, clock: int)
    requires CellOk(c, clock) && token in c.holders && c.holders[token].pos < |c.holders[token].plan|
    ensures Evolves(c, Advanced(c, token, lands, clock))
  {
    if c.holders[token].plan[c.holders[token].pos].Write? {
      WriteEvolves(c, token, lands, clock);
    } else {
      EffectEvolves(c, token, lands, clock);
    }
  }

  lemma ActionEvolves(s: State, a: Action, id: nat)
    requires Enabled(s, a) && id in s.jobs && CellOk(s.jobs[id], s.clock)
    ensures id in Apply(s, a).jobs && Evolves(s.jobs[id], Apply(s, a).jobs[id])
  {
    var c := s.jobs[id];
    if a.Elapse? || a.Enqueue? || a.id != id {
      assert Apply(s, a).jobs[id] == c;
    } else {
      match a
      case Claim(token, _, now, cfg, env) => ClaimEvolves(c, token, now, cfg, env);
      case ClaimUnheard(_, now) => ClaimEvolves(c, 0, now, Cfg(0, 0, false, None, None), SILENCE);
      case Advance(_, token, lands) => AdvanceEvolves(c, token, lands, s.clock);
      case Crash(_, token) => CrashEvolves(c, token, s.clock);
    }
  }

  lemma EvolvesOn(a: Cell, b: Cell, c: Cell)
    requires Evolves(a, b) && Evolves(b, c)
    ensures Evolves(a, c)
  {}

  /** Over any stretch of a run, every job evolves: it never grows, forgets a request, or moves once it has ended. */
  lemma {:induction false} JobsEvolve(states: seq<State>, actions: seq<Action>, i: nat, j: nat, id: nat)
    requires At(states, actions, i, id) && i <= j < |states|
    ensures id in states[j].jobs && Evolves(states[i].jobs[id], states[j].jobs[id])
    decreases j
  {
    if i < j {
      var s := states[j - 1];
      JobsEvolve(states, actions, i, j - 1, id);
      RunKeeps(states, actions, j - 1);
      assert CellOk(s.jobs[id], s.clock);
      ActionEvolves(s, actions[j - 1], id);
      EvolvesOn(states[i].jobs[id], s.jobs[id], states[j].jobs[id]);
    }
  }

  /** A job in a run is in order, with the plan of its holder if it has one. */
  lemma JobAt(states: seq<State>, actions: seq<Action>, n: nat, id: nat) returns (plan: seq<Effect>, pos: nat)
    requires At(states, actions, n, id)
    ensures var c := states[n].jobs[id];
      && JobOk(c.row, c.history, plan, pos)
      && (c.holders == map[] ==> pos == 0)
      && (c.holders != map[] ==> Open(c.row.job.status))
  {
    RunKeeps(states, actions, n);
    var c := states[n].jobs[id];
    assert CellOk(c, states[n].clock);
    if t :| t in c.holders {
      assert HolderOk(c, c.holders[t], states[n].clock);
      plan, pos := c.holders[t].plan, c.holders[t].pos;
    } else {
      assert c.holders == map[];
      plan, pos := [], 0;
    }
  }

  // ---- The worker's methods are runs --------------------------------------------------

  /** Everything a holder still has to do, with nobody in between. */
  function Through(c: Cell, token: nat, lands: bool, clock: int): Cell
    requires token in c.holders
    decreases |c.holders[token].plan| - c.holders[token].pos
  {
    var h := c.holders[token];
    if h.pos >= |h.plan| then c
    else if h.plan[h.pos].Write? then Advanced(c, token, lands, clock)
    else Through(Advanced(c, token, lands, clock), token, lands, clock)
  }

  lemma {:induction false} ThroughToTheWrite(c: Cell, token: nat, budget: int, lands: bool, clock: int)
    requires token in c.holders
    requires var h := c.holders[token]; h.pos < |h.plan| && PlanOk(h.job, budget, h.plan)
    ensures var plan := c.holders[token].plan;
            var c' := Through(c, token, lands, clock);
      && plan[|plan| - 1].Write?
      && c'.row == (if lands then Applied(c.row, plan[|plan| - 1].cmd, clock) else c.row)
      && c'.holders == c.holders - {token}
    decreases |c.holders[token].plan| - c.holders[token].pos
  {
    var h := c.holders[token];
    if h.plan[h.pos].Write? {
      LastIsTheWrite(h.job, budget, h.plan, h.pos);
    } else {
      var next := Advanced(c, token, lands, clock);
      ThroughToTheWrite(next, token, budget, lands, clock);
      assert next.holders - {token} == c.holders - {token};
    }
  }

  ghost predicate EndInWrites(work: seq<seq<Effect>>) {
    forall i :: 0 <= i < |work| ==> |work[i]| > 0 && work[i][|work[i]| - 1].Write?
  }

  lemma {:induction false} OthersKeepTheirRow(rows: map<nat, Row>, ids: seq<nat>, work: seq<seq<Effect>>,
                                              landing: nat -> Landing, id: nat)
    requires |ids| == |work| && EndInWrites(work) && id !in ids
    ensures var after := RowsAfterAll(rows, ids, work, landing);
            (id in after <==> id in rows) && (id in rows ==> after[id] == rows[id])
  {
    if ids != [] {
      OthersKeepTheirRow(rows, ids[..|ids| - 1], work[..|ids| - 1], landing, id);
    }
  }

  /** Among jobs claimed once each, a job's row is what its own step leaves. */
  lemma {:induction false} EachGetsItsOwnStep(rows: map<nat, Row>, ids: seq<nat>, work: seq<seq<Effect>>,
                                              landing: nat -> Landing, i: nat)
    requires |ids| == |work| && EndInWrites(work) && i < |ids| && ids[i] in rows
    requires forall j, k :: 0 <= j < k < |ids| ==> ids[j] != ids[k]
    ensures var after := RowsAfterAll(rows, ids, work, landing);
            && ids[i] in after
            && after[ids[i]] == RowsAfter(rows, ids[i], work[i][|work[i]| - 1].cmd, landing(ids[i]))[ids[i]]
  {
    var last := |ids| - 1;
    if i < last {
      EachGetsItsOwnStep(rows, ids[..last], work[..last], landing, i);
    } else {
      OthersKeepTheirRow(rows, ids[..last], work[..last], landing, ids[last]);
    }
  }

  lemma OneStepIsARun(c: Cell, token: nat, now: int, cfg: Cfg, env: Env, landing: Landing)
    requires DistinctChats(c.row.job.targets) && token !in c.holders
    ensures var plan := Plan(c.row.job, cfg, env);
            var done := Through(Claimed(c, token, now, cfg, env), token, landing.lands, landing.at);
      && |plan| > 0 && plan[|plan| - 1].Write?
      && done.row == (if landing.lands then Applied(Lock(c.row, now), plan[|plan| - 1].cmd, landing.at)
                      else Lock(c.row, now))
      && done.holders == c.holders
  {
    PlanKeepsPlan(c.row.job, cfg, env);
    ThroughToTheWrite(Claimed(c, token, now, cfg, env), token, cfg.maxAttempts, landing.lands, landing.at);
  }

  /**
    What `Worker.Tick` leaves in the table, job by job, is what the run machine leaves
    there: of a claimed job, when one holder claims it and goes through its plan
    undisturbed; of a job locked by a claim nobody heard of, the lock alone; of any
    other, nothing. `c` is any job of the run machine with that row.
  */
  lemma TicksAreRuns(rows: map<nat, Row>, locked: seq<nat>, claimed: seq<nat>, now: int, cfg: Cfg, env: nat -> Env,
                     work: seq<seq<Effect>>, landing: nat -> Landing, id: nat, c: Cell, token: nat)
    requires WorkDone(claimed, rows, cfg, env, work)
    requires forall i, j :: 0 <= i < j < |claimed| ==> claimed[i] != claimed[j]
    requires forall other :: other in claimed ==> other in locked
    requires id in rows && rows[id] == c.row && DistinctChats(c.row.job.targets) && token !in c.holders
    ensures var after := RowsAfterAll(LockAll(rows, locked, now), claimed, work, landing);
      && id in after
      && (id in claimed ==>
            after[id] == Through(Claimed(c, token, now, cfg, env(id)), token, landing(id).lands, landing(id).at).row)
      && (id in locked && id !in claimed ==> after[id] == Lock(c.row, now))
      && (id !in locked ==> after[id] == c.row)
  {
    var lockedRows := LockAll(rows, locked, now);
    if id in claimed {
      var i: nat :| i < |claimed| && claimed[i] == id;
      EachGetsItsOwnStep(lockedRows, claimed, work, landing, i);
      OneStepIsARun(c, token, now, cfg, env(id), landing(id));
    } else {
      OthersKeepTheirRow(lockedRows, claimed, work, landing, id);
    }
  }

  // ---- The promises --------------------------------------------------------------------

  /**
    Each waiting message receives the video at most once for itself and once for
    each lost write, crash or throw on its job - and while it is still waiting and
    nobody works on the job, only as often as there were faults. With every write
    landing that is: at most once, and never while it still waits.
  */
  lemma AtMostOncePerFault(states: seq<State>, actions: seq<Action>, n: nat, id: nat, r: Ref)
    requires At(states, actions, n, id) && r in states[n].jobs[id].history.initial
    ensures var c := states[n].jobs[id];
      && c.history.videos[r.chatId] <= 1 + c.history.faults
      && (c.holders == map[] && r in c.row.job.targets ==> c.history.videos[r.chatId] <= c.history.faults)
  {
    var plan, pos := JobAt(states, actions, n, id);
  }

  /** After waiting `ms`, a worker can claim the job. */
  ghost predicate ClaimableAfter(s: State, id: nat, ms: nat, cfg: Cfg, env: Env) {
    Enabled(Apply(s, Elapse(ms)), Claim(0, id, s.clock + ms, cfg, env))
  }

  lemma WaitingIsEnough(s: State, id: nat, cfg: Cfg, env: Env) returns (ms: nat)
    requires id in s.jobs && Open(s.jobs[id].row.job.status) && s.jobs[id].holders == map[]
    ensures ClaimableAfter(s, id, ms, cfg, env)
  {
    var row := s.jobs[id].row;
    var due := if row.nextCheckAt > s.clock then row.nextCheckAt - s.clock else 0;
    var stale := if row.lockedAt.Some? && row.lockedAt.value + STALE_LOCK_MS >= s.clock
                 then row.lockedAt.value + STALE_LOCK_MS + 1 - s.clock else 0;
    ms := due + stale;
    assert Claimable(row, s.clock + ms);
  }

  /**
    Under the lease no job ever has two live holders, and no claim can take a job
    from a live one; a job nobody holds any more can be claimed again, however its
    last holder ended.
  */
  lemma LeaseSafety(states: seq<State>, actions: seq<Action>, n: nat, id: nat, now: int, cfg: Cfg, env: Env)
    requires At(states, actions, n, id) && now <= states[n].clock
    ensures var s, c := states[n], states[n].jobs[id];
      && AtMostOneHolder(c)
      && (Claimable(c.row, now) ==> c.holders == map[])
      && (Open(c.row.job.status) && c.holders == map[] ==> exists ms: nat :: ClaimableAfter(s, id, ms, cfg, env))
  {
    var s, c := states[n], states[n].jobs[id];
    RunKeeps(states, actions, n);
    assert CellOk(c, s.clock);
    if Claimable(c.row, now) {
      ClaimableIsFree(c, now, s.clock);
    }
    if Open(c.row.job.status) && c.holders == map[] {
      var _ := WaitingIsEnough(s, id, cfg, env);
    }
  }

  /**
    Stored messages only shrink; every message the recovery began with has its
    video, was dropped, or is still stored; without faults it is in exactly one of
    the three whenever nobody works on the job; a completed job stores none.
  */
  lemma TargetsAreConserved(states: seq<State>, actions: seq<Action>, i: nat, n: nat, id: nat, r: Ref)
    requires At(states, actions, i, id) && i <= n < |states| && id in states[n].jobs
    requires r in states[i].jobs[id].history.initial
    ensures var before, c := states[i].jobs[id], states[n].jobs[id];
            var stored, sent, dropped := r in c.row.job.targets,
                                          r.chatId in c.history.videos, r.chatId in c.history.dropped;
      && c.history.initial == before.history.initial
      && (stored ==> r in before.row.job.targets)
      && (stored || sent || dropped)
      && (c.history.faults == 0 && c.holders == map[] ==>
            !(sent && dropped) && !(stored && sent) && !(stored && dropped))
      && (c.row.job.status.Completed? ==> c.row.job.targets == [] && (sent || dropped))
  {
    JobsEvolve(states, actions, i, n, id);
    var plan, pos := JobAt(states, actions, n, id);
  }

  /**
    At every instant, between any two bot calls too, each chat holds the original
    text or a video carrying that message's own text, cut to what Telegram takes;
    and no video ever carries anything else.
  */
  lemma NoTextIsLost(states: seq<State>, actions: seq<Action>, n: nat, id: nat)
    requires At(states, actions, n, id)
    ensures var h := states[n].jobs[id].history;
      && (forall r :: r in h.initial ==> r.chatId in h.texts || (r.chatId, FitCaption(r.caption)) in h.captions)
      && (forall v :: v in h.captions ==>
            |v.1| <= TELEGRAM_CAPTION_LIMIT && exists r :: r in h.initial && v == (r.chatId, FitCaption(r.caption)))
  {
    var plan, pos := JobAt(states, actions, n, id);
    var h := states[n].jobs[id].history;
    forall v | v in h.captions
      ensures |v.1| <= TELEGRAM_CAPTION_LIMIT
    {
      var r :| r in h.initial && v == (r.chatId, FitCaption(r.caption));
    }
  }

  /**
    Footage of one event is asked for at most once more than the faults and the
    requests answered with media at once; and once a request is on record it stays
    on record and is the last.
  */
  lemma FootageIsAskedForOnce(states: seq<State>, actions: seq<Action>, i: nat, n: nat, id: nat)
    requires At(states, actions, i, id) && i <= n < |states| && id in states[n].jobs
    ensures var before, c := states[i].jobs[id], states[n].jobs[id];
      && c.history.asks <= 1 + c.history.faults + c.history.instant
      && (Asked(before.row.job) ==> Asked(c.row.job) && c.history.asks == before.history.asks)
      && (Asked(before.row.job) ==> c.history.posts == before.history.posts)
      && (before.row.job.retrievalId.Some? ==> c.row.job.retrievalId == before.row.job.retrievalId)
  {
    JobsEvolve(states, actions, i, n, id);
    var plan, pos := JobAt(states, actions, n, id);
    assert AsksOk(states[n].jobs[id].row, states[n].jobs[id].history, plan, pos);
  }

  /**
    Whatever a step asks for is a genuine window of the job's own event: never empty, at
    most ten minutes, around its start.
  */
  lemma EveryWindowIsGenuine(states: seq<State>, actions: seq<Action>, n: nat, id: nat, token: nat, k: nat)
    requires At(states, actions, n, id) && token in states[n].jobs[id].holders
    requires var plan := states[n].jobs[id].holders[token].plan; k < |plan| && plan[k].Ask?
    ensures var h := states[n].jobs[id].holders[token];
            k == 0 && !Asked(h.job) && Covers(h.plan[k].window, states[n].jobs[id].row.job.rawEvent)
  {
    RunKeeps(states, actions, n);
    CellWindows(states[n].jobs[id], states[n].clock, token, k);
  }

  lemma CellWindows(c: Cell, clock: int, token: nat, k: nat)
    requires CellOk(c, clock) && token in c.holders
    requires var plan := c.holders[token].plan; k < |plan| && plan[k].Ask?
    ensures var h := c.holders[token]; k == 0 && !Asked(h.job) && Covers(h.plan[k].window, c.row.job.rawEvent)
  {
    hide JobOk;
    var h := c.holders[token];
    assert HolderOk(c, h, clock);
    assert h.plan[k] == h.plan[..|h.plan| - 1][k];
  }

  // ---- How long a recovery takes -----------------------------------------------------------

  /** From `c0` on: each landed step that did not throw used an attempt, and only while the budget lasted. */
  ghost predicate Paced(c0: Cell, c: Cell, budget: int) {
    var quiet, used := c.history.quiet - c0.history.quiet, c.row.job.attempts - c0.row.job.attempts;
    var left := budget - c0.row.job.attempts;
    && 0 <= quiet && 0 <= used
    && (Open(c.row.job.status) ==> quiet <= used && (quiet == 0 || quiet < left))
    && (!Open(c.row.job.status) ==> quiet <= 1 || quiet <= left)
  }

  /** A write that did not throw reschedules only while the budget lasts. */
  lemma QuietWriteIsBudgeted(job: Job, budget: int, plan: seq<Effect>, pos: nat)
    requires PlanOk(job, budget, plan) && pos < |plan| && plan[pos].Write?
    ensures plan[pos].thrown ==> plan[pos].cmd.Reschedule? && plan[pos].cmd.status == job.status
    ensures !plan[pos].thrown && plan[pos].cmd.Reschedule? ==> Open(plan[pos].cmd.status) && job.attempts + 1 < budget
    ensures plan[pos].cmd.Finish? ==> !Open(plan[pos].cmd.status)
  {
    LastIsTheWrite(job, budget, plan, pos);
  }

  lemma AdvancePaces(c0: Cell, c: Cell, token: nat, lands: bool, clock: int, budget: int)
    requires CellOk(c, clock) && token in c.holders && c.holders[token].pos < |c.holders[token].plan|
    requires Paced(c0, c, budget) && c.history.budgets <= {budget}
    ensures Paced(c0, Advanced(c, token, lands, clock), budget)
  {
    var h := c.holders[token];
    assert HolderOk(c, h, clock);
    assert h.budget in c.history.budgets;
    if h.plan[h.pos].Write? {
      QuietWriteIsBudgeted(h.job, h.budget, h.plan, h.pos);
    }
  }

  lemma ActionPaces(c0: Cell, s: State, a: Action, id: nat, budget: int)
    requires Enabled(s, a) && id in s.jobs && CellOk(s.jobs[id], s.clock)
    requires Paced(c0, s.jobs[id], budget) && s.jobs[id].history.budgets <= {budget}
    ensures id in Apply(s, a).jobs && Paced(c0, Apply(s, a).jobs[id], budget)
  {
    var c := s.jobs[id];
    if a.Elapse? || a.Enqueue? || a.id != id {
      assert Apply(s, a).jobs[id] == c;
    } else if a.Advance? {
      AdvancePaces(c0, c, a.token, a.lands, s.clock, budget);
    }
  }

  lemma CellIsOk(states: seq<State>, actions: seq<Action>, n: nat, id: nat)
    requires At(states, actions, n, id)
    ensures CellOk(states[n].jobs[id], states[n].clock)
  {
    RunKeeps(states, actions, n);
  }

  lemma PacedFromItself(c: Cell, budget: int)
    ensures Paced(c, c, budget)
  {}

  lemma {:induction false} RunPaces(states: seq<State>, actions: seq<Action>, i: nat, n: nat, id: nat, budget: int)
    requires At(states, actions, i, id) && i <= n < |states| && id in states[n].jobs
    requires states[n].jobs[id].history.budgets <= {budget} && Open(states[i].jobs[id].row.job.status)
    ensures Paced(states[i].jobs[id], states[n].jobs[id], budget)
    decreases n
  {
    hide Apply, Enabled, Paced, CellOk, Timely;
    if i == n {
      PacedFromItself(states[i].jobs[id], budget);
    } else {
      var s := states[n - 1];
      JobsEvolve(states, actions, i, n - 1, id);
      JobsEvolve(states, actions, n - 1, n, id);
      CellIsOk(states, actions, n - 1, id);
      RunPaces(states, actions, i, n - 1, id, budget);
      ActionPaces(states[i].jobs[id], s, actions[n - 1], id, budget);
    }
  }

  /**
    Under a fixed attempt budget an open job has ended after at most
    max(1, budget - attempts) more landed steps that did not throw, whatever other
    steps threw, crashed or lost their write. Every landed step but the one that
    ends the job counts one attempt.
  */
  lemma RecoveryEnds(states: seq<State>, actions: seq<Action>, i: nat, n: nat, id: nat, budget: int)
    requires At(states, actions, i, id) && i <= n < |states| && id in states[n].jobs
    requires states[n].jobs[id].history.budgets <= {budget}
    requires Open(states[i].jobs[id].row.job.status)
    ensures var before, c := states[i].jobs[id], states[n].jobs[id];
            var left := if budget - before.row.job.attempts > 1 then budget - before.row.job.attempts else 1;
            var steps := c.history.quiet - before.history.quiet;
      && steps <= left
      && (steps == left ==> !Open(c.row.job.status))
      && c.row.job.attempts == c.history.landed - (if Open(c.row.job.status) then 0 else 1)
      && c.history.landed - c.history.throws <= c.history.quiet <= c.history.landed
  {
    RunPaces(states, actions, i, n, id, budget);
    AttemptsAt(states, actions, n, id);
  }

  lemma AttemptsAt(states: seq<State>, actions: seq<Action>, n: nat, id: nat)
    requires At(states, actions, n, id)
    ensures AttemptsOk(states[n].jobs[id].row, states[n].jobs[id].history)
  {
    var plan, pos := JobAt(states, actions, n, id);
  }

  /** A job that has ended is never claimed, posted to, or changed again. */
  lemma EndedIsEnded(states: seq<State>, actions: seq<Action>, i: nat, n: nat, id: nat)
    requires At(states, actions, i, id) && i <= n < |states|
    requires !Open(states[i].jobs[id].row.job.status)
    ensures id in states[n].jobs && states[n].jobs[id] == states[i].jobs[id]
    ensures states[i].jobs[id].holders == map[]
  {
    JobsEvolve(states, actions, i, n, id);
    var _, _ := JobAt(states, actions, i, id);
  }

  /** However often an event is delivered again, it has one recovery. */
  lemma {:induction false} OneRecoveryEach(states: seq<State>, actions: seq<Action>, n: nat)
    requires IsTimelyRun(states, actions) && n < |states|
    ensures OneRecoveryPerEvent(states[n])
  {
    if n > 0 {
      OneRecoveryEach(states, actions, n - 1);
      RunKeeps(states, actions, n - 1);
      var s, a := states[n - 1], actions[n - 1];
      forall id | id in s.jobs
        ensures id in states[n].jobs && states[n].jobs[id].row.job.eventId == s.jobs[id].row.job.eventId
      {
        assert CellOk(s.jobs[id], s.clock);
        ActionEvolves(s, a, id);
      }
    }
  }
}
