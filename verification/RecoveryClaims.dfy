/**
  What the claims of a run decide: when a job may be looked at again, whom its steps
  drop and serve, and when they give up.
*/
module RecoveryClaims {
  import opened Wrappers
  import opened RecoveryTypes
  import opened RecoveryStore
  import opened RecoveryWorker
  import opened RecoveryPlan
  import opened RecoverySteps
  import opened RecoveryRuns
  import opened RecoveryTheorems

  /** A claim that a worker heard of, and works on. */
  predicate Claims(a: Action, id: nat) {
    a.Claim? && a.id == id
  }

  /** Any claim of the job, at the time `a.now`. */
  predicate Locks(a: Action, id: nat) {
    (a.Claim? || a.ClaimUnheard?) && a.id == id
  }

  // ---- What the steps of a run come from -----------------------------------------------------

  /** The step in progress is the one of this claim's settings and answers. */
  ghost predicate MadeBy(a: Action, id: nat, token: nat, h: Holder) {
    Claims(a, id) && a.token == token && h.plan == Plan(h.job, a.cfg, a.env)
  }

  /** In this claim's step the switch of that chat's group answered off. */
  ghost predicate FoundOff(a: Action, id: nat, initial: seq<Ref>, chat: string) {
    Claims(a, id) && exists r :: r in initial && r.chatId == chat && IsOff(r, a.env)
  }

  /** In this claim's step nothing held that chat's message back. */
  ghost predicate FoundOn(a: Action, id: nat, initial: seq<Ref>, chat: string) {
    Claims(a, id) && exists r :: r in initial && r.chatId == chat && !IsOff(r, a.env) && !IsUnreadable(r, a.env)
  }

  /** This claim's step was the last the budget allowed. */
  ghost predicate SpentBudget(a: Action, id: nat, job: Job) {
    Claims(a, id) && IsLastAttempt(job, a.cfg)
  }

  ghost predicate HoldersFrom(actions: seq<Action>, id: nat, c: Cell) {
    forall t :: t in c.holders ==> exists i :: 0 <= i < |actions| && MadeBy(actions[i], id, t, c.holders[t])
  }

  ghost predicate HistoryFrom(actions: seq<Action>, id: nat, c: Cell) {
    && (forall chat :: chat in c.history.dropped ==>
          exists i :: 0 <= i < |actions| && FoundOff(actions[i], id, c.history.initial, chat))
    && (forall chat :: chat in c.history.videos ==>
          exists i :: 0 <= i < |actions| && FoundOn(actions[i], id, c.history.initial, chat))
    && (c.row.job.status in {Failed, NoVideo} ==>
          exists i :: 0 <= i < |actions| && SpentBudget(actions[i], id, c.row.job))
  }

  /** Whoever works on the job claimed it when it was due. */
  ghost predicate Dated(c: Cell) {
    forall t :: t in c.holders ==> c.row.nextCheckAt <= c.holders[t].since
  }

  lemma MoreActions(actions: seq<Action>, a: Action, id: nat, c: Cell)
    requires HistoryFrom(actions, id, c)
    ensures HistoryFrom(actions + [a], id, c)
    ensures HoldersFrom(actions, id, c) ==> HoldersFrom(actions + [a], id, c)
  {
    hide FoundOff, FoundOn, SpentBudget, MadeBy;
    var more := actions + [a];
    assert forall i :: 0 <= i < |actions| ==> more[i] == actions[i];
  }

  lemma ClaimFrom(actions: seq<Action>, c: Cell, id: nat, token: nat, now: int, cfg: Cfg, env: Env)
    requires HoldersFrom(actions, id, c) && HistoryFrom(actions, id, c)
    ensures var more, c' := actions + [Claim(token, id, now, cfg, env)], Claimed(c, token, now, cfg, env);
            HoldersFrom(more, id, c') && HistoryFrom(more, id, c')
  {
    var a := Claim(token, id, now, cfg, env);
    var more, c' := actions + [a], Claimed(c, token, now, cfg, env);
    MoreActions(actions, a, id, c);
    hide Plan, Claimable;
    assert more[|actions|] == a && MadeBy(a, id, token, c'.holders[token]);
    forall t | t in c'.holders
      ensures exists i :: 0 <= i < |more| && MadeBy(more[i], id, t, c'.holders[t])
    {
      if t == token {
        assert MadeBy(more[|actions|], id, t, c'.holders[t]);
      } else {
        assert c'.holders[t] == c.holders[t];
      }
    }
  }

  lemma EffectHistory(actions: seq<Action>, c: Cell, id: nat, e: Effect, i: nat)
    requires HistoryFrom(actions, id, c) && !e.Write? && i < |actions| && Claims(actions[i], id)
    requires e.Drop? ==> e.ref in c.history.initial && IsOff(e.ref, actions[i].env)
    requires e.Post? ==> e.ref in c.history.initial && !IsOff(e.ref, actions[i].env)
                         && !IsUnreadable(e.ref, actions[i].env)
    ensures HistoryFrom(actions, id, c.(history := Happened(c.history, e)))
  {
    hide IsOff, IsUnreadable;
    if e.Drop? {
      assert FoundOff(actions[i], id, c.history.initial, e.ref.chatId);
    }
    if e.Post? {
      assert FoundOn(actions[i], id, c.history.initial, e.ref.chatId);
    }
  }

  lemma HeldTargets(c: Cell, token: nat, clock: int)
    requires CellOk(c, clock) && token in c.holders
    ensures forall r :: r in c.holders[token].job.targets ==> r in c.history.initial
  {
    assert HolderOk(c, c.holders[token], clock);
  }

  /** Somebody is dropped, or served, by the next effect of a step. */
  lemma EffectFrom(actions: seq<Action>, c: Cell, id: nat, token: nat, lands: bool, clock: int)
    requires CellOk(c, clock) && token in c.holders && c.holders[token].pos < |c.holders[token].plan|
    requires !c.holders[token].plan[c.holders[token].pos].Write?
    requires HoldersFrom(actions, id, c) && HistoryFrom(actions, id, c)
    ensures var c' := Advanced(c, token, lands, clock); HoldersFrom(actions, id, c') && HistoryFrom(actions, id, c')
  {
    HeldTargets(c, token, clock);
    hide Plan, IsOff, IsUnreadable, CellOk, HistoryFrom, Happened;
    var h := c.holders[token];
    var e := h.plan[h.pos];
    var i :| 0 <= i < |actions| && MadeBy(actions[i], id, token, h);
    SwitchDecides(h.job, actions[i].cfg, actions[i].env, e);
    EffectHistory(actions, c, id, e, i);
    HistoryOnly(actions, id, c.(history := Happened(c.history, e)), Advanced(c, token, lands, clock));
    assert MadeBy(actions[i], id, token, h.(pos := h.pos + 1));
    var c' := Advanced(c, token, lands, clock);
    forall t | t in c'.holders
      ensures exists k :: 0 <= k < |actions| && MadeBy(actions[k], id, t, c'.holders[t])
    {
    }
  }

  lemma HistoryOnly(actions: seq<Action>, id: nat, c: Cell, c': Cell)
    requires HistoryFrom(actions, id, c) && c'.history == c.history && c'.row == c.row
    ensures HistoryFrom(actions, id, c')
  {}

  /** A step's write ends the job for want of a video only on its last attempt. */
  lemma PlanEnds(job: Job, cfg: Cfg, env: Env)
    requires Open(job.status)
    ensures var plan := Plan(job, cfg, env);
      && plan[|plan| - 1].Write?
      && var cmd := plan[|plan| - 1].cmd;
      && (cmd.status in {Failed, NoVideo} ==> cmd.Finish? && IsLastAttempt(job, cfg))
      && (cmd.Reschedule? ==> cmd.delaySeconds == cfg.retrySeconds)
  {
    StepEnds(job, cfg, env);
    ThrownStepWaitsAsItWas(job, cfg, env);
    hide Step;
  }

  lemma WriteFrom(actions: seq<Action>, c: Cell, id: nat, token: nat, lands: bool, clock: int)
    requires CellOk(c, clock) && token in c.holders && c.holders[token].plan[c.holders[token].pos].Write?
    requires HoldersFrom(actions, id, c) && HistoryFrom(actions, id, c)
    ensures var c' := Advanced(c, token, lands, clock); HoldersFrom(actions, id, c') && HistoryFrom(actions, id, c')
  {
    hide Plan, JobOk;
    var h := c.holders[token];
    assert HolderOk(c, h, clock);
    LastIsTheWrite(h.job, h.budget, h.plan, h.pos);
    var i :| 0 <= i < |actions| && MadeBy(actions[i], id, token, h);
    PlanEnds(h.job, actions[i].cfg, actions[i].env);
    var c' := Advanced(c, token, lands, clock);
    if lands && c'.row.job.status in {Failed, NoVideo} {
      assert SpentBudget(actions[i], id, c'.row.job);
    }
  }

  lemma CrashFrom(actions: seq<Action>, c: Cell, id: nat, token: nat)
    requires token in c.holders && HoldersFrom(actions, id, c) && HistoryFrom(actions, id, c)
    ensures HoldersFrom(actions, id, Crashed(c, token)) && HistoryFrom(actions, id, Crashed(c, token))
  {
    hide FoundOff, FoundOn, SpentBudget, MadeBy;
  }

  lemma ActionFrom(actions: seq<Action>, s: State, a: Action, id: nat)
    requires Enabled(s, a) && id in s.jobs && CellOk(s.jobs[id], s.clock)
    requires HoldersFrom(actions, id, s.jobs[id]) && HistoryFrom(actions, id, s.jobs[id])
    ensures id in Apply(s, a).jobs
    ensures HoldersFrom(actions + [a], id, Apply(s, a).jobs[id]) && HistoryFrom(actions + [a], id, Apply(s, a).jobs[id])
  {
    var c := s.jobs[id];
    hide HoldersFrom, HistoryFrom, CellOk, Plan, Claimable, Claimed, Advanced, Crashed;
    if a.Elapse? || a.Enqueue? || a.id != id {
      assert Apply(s, a).jobs[id] == c;
      MoreActions(actions, a, id, c);
    } else {
      match a
      case Claim(token, _, now, cfg, env) => ClaimFrom(actions, c, id, token, now, cfg, env);
      case ClaimUnheard(_, now) =>
        MoreActions(actions, a, id, c);
        LockFrom(actions + [a], id, c, now);
      case Advance(_, token, lands) =>
        AdvanceFrom(actions, c, id, token, lands, s.clock);
        MoreActions(actions, a, id, Advanced(c, token, lands, s.clock));
      case Crash(_, token) =>
        CrashFrom(actions, c, id, token);
        MoreActions(actions, a, id, Crashed(c, token));
    }
  }

  lemma AdvanceFrom(actions: seq<Action>, c: Cell, id: nat, token: nat, lands: bool, clock: int)
    requires CellOk(c, clock) && token in c.holders && c.holders[token].pos < |c.holders[token].plan|
    requires HoldersFrom(actions, id, c) && HistoryFrom(actions, id, c)
    ensures var c' := Advanced(c, token, lands, clock); HoldersFrom(actions, id, c') && HistoryFrom(actions, id, c')
  {
    hide HoldersFrom, HistoryFrom, CellOk, Advanced;
    if c.holders[token].plan[c.holders[token].pos].Write? {
      WriteFrom(actions, c, id, token, lands, clock);
    } else {
      EffectFrom(actions, c, id, token, lands, clock);
    }
  }

  lemma LockFrom(actions: seq<Action>, id: nat, c: Cell, now: int)
    requires HoldersFrom(actions, id, c) && HistoryFrom(actions, id, c)
    ensures var c' := c.(row := Lock(c.row, now)); HoldersFrom(actions, id, c') && HistoryFrom(actions, id, c')
  {}

  lemma NewFrom(actions: seq<Action>, id: nat, c: Cell)
    requires c.holders == map[] && c.history.dropped == {} && c.history.videos == multiset{} && Open(c.row.job.status)
    ensures HoldersFrom(actions, id, c) && HistoryFrom(actions, id, c)
  {}

  lemma {:induction false} RunFrom(states: seq<State>, actions: seq<Action>, n: nat, id: nat)
    requires At(states, actions, n, id)
    ensures HoldersFrom(actions[..n], id, states[n].jobs[id]) && HistoryFrom(actions[..n], id, states[n].jobs[id])
  {
    hide HoldersFrom, HistoryFrom, Inv;
    if n > 0 {
      var s, a := states[n - 1], actions[n - 1];
      assert actions[..n] == actions[..n - 1] + [a];
      if id in s.jobs {
        RunFrom(states, actions, n - 1, id);
        CellIsOk(states, actions, n - 1, id);
        ActionFrom(actions[..n - 1], s, a, id);
      } else {
        NewFrom(actions[..n], id, states[n].jobs[id]);
      }
    }
  }

  // ---- Whom the switches hold back ------------------------------------------------------------

  /** Every chat dropped was found switched off by some step on the job. */
  lemma DroppedWasOff(states: seq<State>, actions: seq<Action>, n: nat, id: nat, chat: string) returns (i: nat)
    requires At(states, actions, n, id) && chat in states[n].jobs[id].history.dropped
    ensures i < n && FoundOff(actions[i], id, states[n].jobs[id].history.initial, chat)
  {
    hide FoundOff;
    RunFrom(states, actions, n, id);
    i :| i < n && FoundOff(actions[..n][i], id, states[n].jobs[id].history.initial, chat);
  }

  /** Every chat with a video was let through by some step: never by one that found it off or could not tell. */
  lemma ServedWasOn(states: seq<State>, actions: seq<Action>, n: nat, id: nat, chat: string) returns (i: nat)
    requires At(states, actions, n, id) && chat in states[n].jobs[id].history.videos
    ensures i < n && FoundOn(actions[i], id, states[n].jobs[id].history.initial, chat)
  {
    hide FoundOn;
    RunFrom(states, actions, n, id);
    i :| i < n && FoundOn(actions[..n][i], id, states[n].jobs[id].history.initial, chat);
  }

  /**
    A message is waited for until somebody finds it off or serves it: a job that has
    given up did so on the last attempt some claim's budget allowed.
  */
  lemma NobodyGivesUpEarly(states: seq<State>, actions: seq<Action>, n: nat, id: nat) returns (i: nat)
    requires At(states, actions, n, id) && states[n].jobs[id].row.job.status in {Failed, NoVideo}
    ensures i < n && SpentBudget(actions[i], id, states[n].jobs[id].row.job)
  {
    hide SpentBudget;
    RunFrom(states, actions, n, id);
    i :| i < n && SpentBudget(actions[..n][i], id, states[n].jobs[id].row.job);
  }

  // ---- When a job is due ------------------------------------------------------------------------

  /** The next check moves on, and whoever works on the job claimed it when it was due. */
  lemma ActionDates(s: State, a: Action, id: nat)
    requires Inv(s) && Timely(s) && Enabled(s, a) && id in s.jobs && Dated(s.jobs[id])
    ensures id in Apply(s, a).jobs && Dated(Apply(s, a).jobs[id])
    ensures s.jobs[id].row.nextCheckAt <= Apply(s, a).jobs[id].row.nextCheckAt
  {
    var c := s.jobs[id];
    hide CellOk, Dated, Plan, Claimable, Claimed, Advanced, Crashed, TimelyCell;
    assert CellOk(c, s.clock) && TimelyCell(c, s.clock);
    if a.Elapse? || a.Enqueue? || a.id != id {
      assert Apply(s, a).jobs[id] == c;
    } else {
      match a
      case Claim(token, _, now, cfg, env) => ClaimDates(c, token, now, cfg, env, s.clock);
      case ClaimUnheard(_, now) => ClaimDates(c, 0, now, Cfg(0, 0, false, None, None), SILENCE, s.clock);
      case Advance(_, token, lands) => AdvanceDates(c, token, lands, s.clock);
      case Crash(_, token) => CrashDates(c, token);
    }
  }

  lemma LockDates(s: State, a: Action, id: nat)
    requires Enabled(s, a) && Locks(a, id)
    ensures id in s.jobs && s.jobs[id].row.nextCheckAt <= a.now
  {}

  lemma ClaimDates(c: Cell, token: nat, now: int, cfg: Cfg, env: Env, clock: int)
    requires CellOk(c, clock) && TimelyCell(c, clock) && now <= clock && Claimable(c.row, now)
    ensures Dated(Claimed(c, token, now, cfg, env)) && Dated(c.(row := Lock(c.row, now)))
  {
    hide Plan, JobOk;
    ClaimableIsFree(c, now, clock);
  }

  lemma AdvanceDates(c: Cell, token: nat, lands: bool, clock: int)
    requires CellOk(c, clock) && Dated(c) && token in c.holders && c.holders[token].pos < |c.holders[token].plan|
    ensures Dated(Advanced(c, token, lands, clock))
    ensures c.row.nextCheckAt <= Advanced(c, token, lands, clock).row.nextCheckAt
  {
    hide PlanOk, JobOk;
    assert HolderOk(c, c.holders[token], clock);
    LastHolderLeaves(c, token);
  }

  lemma CrashDates(c: Cell, token: nat)
    requires Dated(c) && token in c.holders
    ensures Dated(Crashed(c, token))
  {}

  lemma {:induction false} RunDates(states: seq<State>, actions: seq<Action>, n: nat, id: nat)
    requires At(states, actions, n, id)
    ensures Dated(states[n].jobs[id])
  {
    hide Inv, Dated;
    if n > 0 {
      if id in states[n - 1].jobs {
        RunDates(states, actions, n - 1, id);
        RunKeeps(states, actions, n - 1);
        ActionDates(states[n - 1], actions[n - 1], id);
      } else {
        NobodyYet(states[n].jobs[id]);
      }
    }
  }

  lemma NobodyYet(c: Cell)
    requires c.holders == map[]
    ensures Dated(c)
  {}

  /** A job's next check never moves back. */
  lemma {:induction false} NextCheckMovesOn(states: seq<State>, actions: seq<Action>, i: nat, n: nat, id: nat)
    requires At(states, actions, i, id) && i <= n < |states|
    ensures id in states[n].jobs && states[i].jobs[id].row.nextCheckAt <= states[n].jobs[id].row.nextCheckAt
    decreases n
  {
    hide Inv, Dated;
    if i < n {
      NextCheckMovesOn(states, actions, i, n - 1, id);
      RunDates(states, actions, n - 1, id);
      RunKeeps(states, actions, n - 1);
      ActionDates(states[n - 1], actions[n - 1], id);
    }
  }

  /** No claim, heard of or not, takes a job before the time that was its next check at any moment before. */
  lemma NotBeforeItIsDue(states: seq<State>, actions: seq<Action>, i: nat, n: nat, id: nat)
    requires At(states, actions, i, id) && i <= n < |actions| && Locks(actions[n], id)
    ensures states[i].jobs[id].row.nextCheckAt <= actions[n].now
  {
    NextCheckMovesOn(states, actions, i, n, id);
    LockDates(states[n], actions[n], id);
  }

  /** A new recovery waits out its delay: it is never claimed before the time it was enqueued for. */
  lemma NeverBeforeItsDelay(states: seq<State>, actions: seq<Action>, i: nat, n: nat)
    requires IsTimelyRun(states, actions) && i < n < |actions|
    requires actions[i].Enqueue? && Locks(actions[n], states[i].nextId)
    ensures actions[i].nextCheckAt <= actions[n].now
  {
    assert states[i + 1] == Apply(states[i], actions[i]);
    NotBeforeItIsDue(states, actions, i + 1, n, states[i].nextId);
  }

  /** This action is a reschedule of the job that lands. */
  ghost predicate Reschedules(s: State, a: Action, id: nat) {
    && Enabled(s, a) && a.Advance? && a.id == id && a.lands
    && var h := s.jobs[id].holders[a.token]; h.plan[h.pos].Write? && h.plan[h.pos].cmd.Reschedule?
  }

  /**
    After a reschedule has landed the job is left alone for the interval of the
    settings its claim was made under, in milliseconds from the write, and for a second
    at least - whether the step threw or not.
  */
  lemma RetriesWaitTheInterval(states: seq<State>, actions: seq<Action>, i: nat, n: nat, id: nat) returns (j: nat)
    requires IsTimelyRun(states, actions) && i < n < |actions|
    requires Reschedules(states[i], actions[i], id) && Locks(actions[n], id)
    ensures j < i && Claims(actions[j], id)
    ensures states[i].clock + 1000 * actions[j].cfg.retrySeconds <= actions[n].now
    ensures states[i].clock + 1000 <= actions[n].now
  {
    hide Plan, CellOk, HistoryFrom, Advanced;
    var c := states[i].jobs[id];
    var token := actions[i].token;
    RunFrom(states, actions, i, id);
    j :| j < i && MadeBy(actions[..i][j], id, token, c.holders[token]);
    CellIsOk(states, actions, i, id);
    RescheduleDates(c, token, states[i].clock, actions[j].cfg, actions[j].env);
    assert states[i + 1] == Apply(states[i], actions[i]);
    NotBeforeItIsDue(states, actions, i + 1, n, id);
  }

  lemma RescheduleDates(c: Cell, token: nat, clock: int, cfg: Cfg, env: Env)
    requires CellOk(c, clock) && token in c.holders && c.holders[token].pos < |c.holders[token].plan|
    requires var h := c.holders[token];
             h.plan == Plan(h.job, cfg, env) && h.plan[h.pos].Write? && h.plan[h.pos].cmd.Reschedule?
    ensures var next := Advanced(c, token, true, clock).row.nextCheckAt;
            clock + 1000 * cfg.retrySeconds <= next && clock + 1000 <= next
  {
    hide Plan, JobOk;
    var h := c.holders[token];
    assert HolderOk(c, h, clock);
    LastIsTheWrite(h.job, h.budget, h.plan, h.pos);
    PlanEnds(h.job, cfg, env);
  }
}
