/**
  Where the promises of `RecoveryTheorems` stop: the bounds on videos and requests are
  reached for every number of faults, the lease is exactly `STALE_LOCK_MS` because
  writes go by the id alone, and steps that throw outlast the budget.
*/
module RecoveryLimits {
  import opened Wrappers
  import opened CameraMedia
  import opened RecoveryTypes
  import opened VideoBackfill
  import opened RecoveryStore
  import opened RecoveryWorker
  import opened RecoveryRuns
  import opened RecoveryTheorems

  const ALERT := Ref(NotificationBot, "-100", None, "text")
  const CLIP := Urls(Some("clip"), None)
  const CFG := Cfg(12, 120, true, None, None)

  /** A chat that takes the video, or does not. */
  function Chat(takes: bool): Ref -> TargetAnswer {
    (r: Ref) => TargetAnswer(SwitchOn, true, false, takes, false)
  }

  /** The clip is simply there. */
  function ClipIsThere(): Env {
    Env(CLIP, NO_URLS, NO_URLS, Unknown, true, Chat(true), None)
  }

  /** The one chat is sent to: nobody is dropped or held. */
  lemma OneChatSorted(takes: bool)
    ensures Sorted([ALERT], Chat(takes), Send) == [ALERT]
    ensures Sorted([ALERT], Chat(takes), Dropped) == [] && Sorted([ALERT], Chat(takes), Held) == []
  {
    assert [ALERT][..0] == [];
    assert DispositionOf(ALERT, Chat(takes)(ALERT)) == Send;
    assert Sorted([ALERT], Chat(takes), Send) == [] + [ALERT];
  }

  lemma OneChatServed(takes: bool)
    ensures FoldInAll([ALERT], CLIP, Chat(takes)) == if takes then [Post(ALERT)] else []
    ensures Missed([ALERT], CLIP, Chat(takes)) == if takes then [] else [ALERT]
  {
    assert [ALERT][..0] == [];
    assert FoldInAll([ALERT], CLIP, Chat(takes))
           == FoldInAll([], CLIP, Chat(takes)) + FoldIn(ALERT, CLIP, Chat(takes)(ALERT));
  }

  lemma NothingDropped()
    ensures DropAll([]) == []
  {}

  lemma OneChatDelivery(job: Job, env: Env, takes: bool)
    requires job.targets == [ALERT] && env.downloader && env.answer == Chat(takes)
    ensures Delivery(job, env, CLIP) == (if takes then [Post(ALERT)] else [], if takes then [] else [ALERT])
  {
    hide Sorted, FoldInAll, Missed, DropAll;
    OneChatSorted(takes);
    OneChatServed(takes);
    NothingDropped();
    var calls, missed := if takes then [Post(ALERT)] else [], if takes then [] else [ALERT];
    assert [] + calls == calls && missed + [] == missed;
  }

  lemma OneChatPlan(job: Job)
    requires job.targets == [ALERT]
    ensures Plan(job, CFG, ClipIsThere()) == [Post(ALERT), Write(Finish(Completed, Some([])), false)]
  {
    hide Delivery;
    OneChatDelivery(job, ClipIsThere(), true);
  }

  /** A state in which there is one job, of the event "e". */
  function OneJob(clock: int, c: Cell): State {
    State(clock, 1, map[0 := c])
  }

  /** Whoever works on the job claimed it no longer than `lease` ago. */
  ghost predicate HeldWithin(c: Cell, clock: int, lease: int) {
    forall t :: t in c.holders ==> clock <= c.holders[t].since + lease
  }

  /** Every claimer writes, or dies, within `lease` of its claim. */
  ghost predicate WithinLease(s: State, lease: int) {
    forall id :: id in s.jobs ==> HeldWithin(s.jobs[id], s.clock, lease)
  }

  ghost predicate IsRunWithin(states: seq<State>, actions: seq<Action>, lease: int) {
    IsRun(states, actions) && forall i :: 0 <= i < |states| ==> WithinLease(states[i], lease)
  }

  lemma WithinIsTimely(states: seq<State>, actions: seq<Action>, lease: int)
    requires IsRunWithin(states, actions, lease) && lease <= STALE_LOCK_MS
    ensures IsTimelyRun(states, actions)
  {
    forall i | 0 <= i < |states|
      ensures Timely(states[i])
    {
      StateIsTimely(states[i], lease);
    }
  }

  lemma StateIsTimely(s: State, lease: int)
    requires WithinLease(s, lease) && lease <= STALE_LOCK_MS
    ensures Timely(s)
  {
    forall id | id in s.jobs
      ensures TimelyCell(s.jobs[id], s.clock)
    {
      assert HeldWithin(s.jobs[id], s.clock, lease);
    }
  }

  /** A run under construction, within this lease, and at the moment in this state. */
  ghost predicate Reaches(states: seq<State>, actions: seq<Action>, lease: int, s: State) {
    IsRunWithin(states, actions, lease) && states[|states| - 1] == s
  }

  lemma Extended(states: seq<State>, actions: seq<Action>, lease: int, s: State, a: Action, s': State)
    requires Reaches(states, actions, lease, s) && Enabled(s, a) && Apply(s, a) == s' && WithinLease(s', lease)
    ensures Reaches(states + [s'], actions + [a], lease, s')
  {}

  lemma Begin(raw: Option<RawEvent>, lease: int) returns (states: seq<State>, actions: seq<Action>)
    ensures Reaches(states, actions, lease, OneJob(0, NewCell("e", None, raw, [ALERT], 0)))
  {
    var a := Enqueue("e", None, raw, [ALERT], 0);
    assert Reaches([START], [], lease, START);
    Extended([START], [], lease, START, a, Apply(START, a));
    states, actions := [START] + [Apply(START, a)], [] + [a];
  }

  lemma ThenClaim(states: seq<State>, actions: seq<Action>, lease: int, clock: int, c: Cell, token: nat, cfg: Cfg,
                  env: Env)
    returns (states': seq<State>, actions': seq<Action>)
    requires Reaches(states, actions, lease, OneJob(clock, c))
    requires token !in c.holders && Claimable(c.row, clock) && lease >= 0
    ensures Reaches(states', actions', lease, OneJob(clock, Claimed(c, token, clock, cfg, env)))
  {
    var a, s' := Claim(token, 0, clock, cfg, env), OneJob(clock, Claimed(c, token, clock, cfg, env));
    assert Apply(OneJob(clock, c), a).jobs == s'.jobs;
    assert WithinLease(OneJob(clock, c), lease) && HeldWithin(OneJob(clock, c).jobs[0], clock, lease);
    Extended(states, actions, lease, OneJob(clock, c), a, s');
    states', actions' := states + [s'], actions + [a];
  }

  lemma ThenAdvance(states: seq<State>, actions: seq<Action>, lease: int, clock: int, c: Cell, token: nat,
                    lands: bool)
    returns (states': seq<State>, actions': seq<Action>)
    requires Reaches(states, actions, lease, OneJob(clock, c))
    requires token in c.holders && c.holders[token].pos < |c.holders[token].plan|
    ensures Reaches(states', actions', lease, OneJob(clock, Advanced(c, token, lands, clock)))
  {
    var a, s' := Advance(0, token, lands), OneJob(clock, Advanced(c, token, lands, clock));
    assert Apply(OneJob(clock, c), a).jobs == s'.jobs;
    assert WithinLease(OneJob(clock, c), lease) && HeldWithin(OneJob(clock, c).jobs[0], clock, lease);
    Extended(states, actions, lease, OneJob(clock, c), a, s');
    states', actions' := states + [s'], actions + [a];
  }

  lemma ThenWait(states: seq<State>, actions: seq<Action>, lease: int, clock: int, c: Cell, ms: nat)
    returns (states': seq<State>, actions': seq<Action>)
    requires Reaches(states, actions, lease, OneJob(clock, c)) && HeldWithin(c, clock + ms, lease)
    ensures Reaches(states', actions', lease, OneJob(clock + ms, c))
  {
    var a, s' := Elapse(ms), OneJob(clock + ms, c);
    Extended(states, actions, lease, OneJob(clock, c), a, s');
    states', actions' := states + [s'], actions + [a];
  }

  /** The job once a worker has claimed it with this plan. */
  function ClaimedWith(c: Cell, token: nat, clock: int, budget: int, plan: seq<Effect>): Cell {
    Cell(Lock(c.row, clock), c.history.(budgets := c.history.budgets + {budget}),
         c.holders[token := Holder(clock, c.row.job, budget, plan, 0)])
  }

  const CLIP_PLAN := [Post(ALERT), Write(Finish(Completed, Some([])), false)]

  lemma ThenClaimClip(states: seq<State>, actions: seq<Action>, lease: int, clock: int, c: Cell, token: nat)
    returns (states': seq<State>, actions': seq<Action>)
    requires Reaches(states, actions, lease, OneJob(clock, c)) && lease >= 0
    requires token !in c.holders && Claimable(c.row, clock) && c.row.job.targets == [ALERT]
    ensures Reaches(states', actions', lease,
                    OneJob(clock, ClaimedWith(c, token, clock, CFG.maxAttempts, CLIP_PLAN)))
  {
    OneChatPlan(c.row.job);
    states', actions' := ThenClaim(states, actions, lease, clock, c, token, CFG, ClipIsThere());
  }

  /** Nobody works on the job, its one chat waits, and a worker can claim it now. */
  ghost predicate Idle(c: Cell, clock: int) {
    c.holders == map[] && c.row.job.targets == [ALERT] && Claimable(c.row, clock)
  }

  /** The video goes out, its write is lost, and the claim goes stale. */
  lemma ThenLoseAWrite(states: seq<State>, actions: seq<Action>, clock: int, c: Cell)
    returns (states': seq<State>, actions': seq<Action>, clock': int, c': Cell)
    requires Reaches(states, actions, STALE_LOCK_MS, OneJob(clock, c)) && Idle(c, clock)
    ensures Reaches(states', actions', STALE_LOCK_MS, OneJob(clock', c')) && Idle(c', clock')
    ensures c'.history.faults == c.history.faults + 1
    ensures c'.history.videos[ALERT.chatId] == c.history.videos[ALERT.chatId] + 1
  {
    states', actions' := ThenClaimClip(states, actions, STALE_LOCK_MS, clock, c, 0);
    c' := ClaimedWith(c, 0, clock, CFG.maxAttempts, CLIP_PLAN);
    states', actions' := ThenAdvance(states', actions', STALE_LOCK_MS, clock, c', 0, true);
    c' := Advanced(c', 0, true, clock);
    states', actions' := ThenAdvance(states', actions', STALE_LOCK_MS, clock, c', 0, false);
    c' := Advanced(c', 0, false, clock);
    assert c'.holders == map[];
    clock' := clock + STALE_LOCK_MS + 1;
    states', actions' := ThenWait(states', actions', STALE_LOCK_MS, clock, c', STALE_LOCK_MS + 1);
  }

  lemma {:induction false} LostWrites(k: nat) returns (states: seq<State>, actions: seq<Action>, clock: int, c: Cell)
    ensures Reaches(states, actions, STALE_LOCK_MS, OneJob(clock, c)) && Idle(c, clock)
    ensures c.history.faults == k && c.history.videos[ALERT.chatId] == k
  {
    if k == 0 {
      states, actions := Begin(None, STALE_LOCK_MS);
      clock, c := 0, NewCell("e", None, None, [ALERT], 0);
    } else {
      states, actions, clock, c := LostWrites(k - 1);
      states, actions, clock, c := ThenLoseAWrite(states, actions, clock, c);
    }
  }

  /**
    The bound of `AtMostOncePerFault` is reached for every number of faults: every
    claimer is in time, `k` writes are lost after the video went out, and the chat
    receives it `k + 1` times. (The comment above `deliverVideo` says a second copy
    can never happen.)
  */
  lemma EveryLostWriteCostsAVideo(k: nat) returns (states: seq<State>, actions: seq<Action>)
    ensures IsTimelyRun(states, actions)
    ensures var last := states[|states| - 1];
      && 0 in last.jobs
      && last.jobs[0].history.faults == k
      && last.jobs[0].history.videos[ALERT.chatId] == k + 1
  {
    var clock, c;
    states, actions, clock, c := LostWrites(k);
    states, actions := ThenClaimClip(states, actions, STALE_LOCK_MS, clock, c, 0);
    c := ClaimedWith(c, 0, clock, CFG.maxAttempts, CLIP_PLAN);
    states, actions := ThenAdvance(states, actions, STALE_LOCK_MS, clock, c, 0, true);
    c := Advanced(c, 0, true, clock);
    WithinIsTimely(states, actions, STALE_LOCK_MS);
  }

  // ---- Steps that throw ------------------------------------------------------------------

  /** Something unforeseen throws before anything is done. */
  function ThrowsAtOnce(): Env {
    ClipIsThere().(throwAfter := Some(0))
  }

  function ThrownPlan(job: Job): seq<Effect> {
    [Write(CatchWrite(job, CFG), true)]
  }

  lemma ThrowingPlan(job: Job)
    requires job.targets == [ALERT]
    ensures Plan(job, CFG, ThrowsAtOnce()) == ThrownPlan(job)
  {
    OneChatPlan(job);
    hide Step;
    assert Step(job, CFG, ThrowsAtOnce())[..0] == [];
  }

  /** A step throws, its catch reschedules the job, and the job comes due again. */
  lemma ThenThrow(states: seq<State>, actions: seq<Action>, clock: int, c: Cell)
    returns (states': seq<State>, actions': seq<Action>, clock': int, c': Cell)
    requires Reaches(states, actions, STALE_LOCK_MS, OneJob(clock, c)) && Idle(c, clock)
    ensures Reaches(states', actions', STALE_LOCK_MS, OneJob(clock', c')) && Idle(c', clock')
    ensures c'.row.job.attempts == c.row.job.attempts + 1 && c'.history.landed == c.history.landed + 1
    ensures c'.history.throws == c.history.throws + 1 && c'.history.budgets == c.history.budgets + {CFG.maxAttempts}
  {
    ThrowingPlan(c.row.job);
    states', actions' := ThenClaim(states, actions, STALE_LOCK_MS, clock, c, 0, CFG, ThrowsAtOnce());
    c' := ClaimedWith(c, 0, clock, CFG.maxAttempts, ThrownPlan(c.row.job));
    states', actions' := ThenAdvance(states', actions', STALE_LOCK_MS, clock, c', 0, true);
    c' := Advanced(c', 0, true, clock);
    assert c'.holders == map[];
    clock' := c'.row.nextCheckAt;
    states', actions' := ThenWait(states', actions', STALE_LOCK_MS, clock, c', clock' - clock);
  }

  lemma {:induction false} Throws(k: nat) returns (states: seq<State>, actions: seq<Action>, clock: int, c: Cell)
    ensures Reaches(states, actions, STALE_LOCK_MS, OneJob(clock, c)) && Idle(c, clock)
    ensures c.row.job.attempts == c.history.landed == c.history.throws == k && c.history.budgets <= {CFG.maxAttempts}
  {
    if k == 0 {
      states, actions := Begin(None, STALE_LOCK_MS);
      clock, c := 0, NewCell("e", None, None, [ALERT], 0);
    } else {
      states, actions, clock, c := Throws(k - 1);
      states, actions, clock, c := ThenThrow(states, actions, clock, c);
    }
  }

  /**
    `RecoveryEnds` cannot count steps that throw: for every `k`, a job with a budget
    of twelve attempts is still open after `k` of them, with every write landing,
    because the catch of `tick` does not look at the budget.
  */
  lemma ThrowsOutlastTheBudget(k: nat) returns (states: seq<State>, actions: seq<Action>)
    ensures IsTimelyRun(states, actions)
    ensures var last := states[|states| - 1];
      && 0 in last.jobs
      && Open(last.jobs[0].row.job.status)
      && last.jobs[0].row.job.attempts == last.jobs[0].history.landed == k
      && last.jobs[0].history.budgets <= {CFG.maxAttempts}
  {
    var clock, c;
    states, actions, clock, c := Throws(k);
    WithinIsTimely(states, actions, STALE_LOCK_MS);
  }

  // ---- The lease ---------------------------------------------------------------------------

  /** Each waiting message has had its video once, and once more for each fault. */
  ghost predicate OncePerFault(s: State) {
    forall id, r :: id in s.jobs && r in s.jobs[id].history.initial ==>
      s.jobs[id].history.videos[r.chatId] <= 1 + s.jobs[id].history.faults
  }

  ghost predicate OncePerFaultWithin(lease: int) {
    forall states: seq<State>, actions: seq<Action> :: IsRunWithin(states, actions, lease)
      ==> OncePerFault(states[|states| - 1])
  }

  /**
    With any longer lease, no write is lost and nobody crashes, but one holder takes
    longer than `STALE_LOCK_MS`, and the chat receives two videos.
  */
  lemma SlowHolderTwoVideos(lease: int) returns (states: seq<State>, actions: seq<Action>)
    requires lease > STALE_LOCK_MS
    ensures IsRunWithin(states, actions, lease) && !IsTimelyRun(states, actions)
    ensures var last := states[|states| - 1];
      && 0 in last.jobs
      && last.jobs[0].history.initial == [ALERT]
      && last.jobs[0].history.faults == 0
      && last.jobs[0].history.videos[ALERT.chatId] == 2
  {
    var c, later := NewCell("e", None, None, [ALERT], 0), STALE_LOCK_MS + 1;
    states, actions := Begin(None, lease);
    states, actions := ThenClaimClip(states, actions, lease, 0, c, 0);
    c := ClaimedWith(c, 0, 0, CFG.maxAttempts, CLIP_PLAN);
    states, actions := ThenWait(states, actions, lease, 0, c, later);
    states, actions := ThenClaimClip(states, actions, lease, later, c, 1);
    c := ClaimedWith(c, 1, later, CFG.maxAttempts, CLIP_PLAN);
    states, actions := ThenAdvance(states, actions, lease, later, c, 0, true);
    c := Advanced(c, 0, true, later);
    states, actions := ThenAdvance(states, actions, lease, later, c, 1, true);
    assert ALERT in states[|states| - 1].jobs[0].history.initial;
    assert !OncePerFault(states[|states| - 1]);
    if IsTimelyRun(states, actions) {
      TimelyOncePerFault(states, actions);
    }
  }

  lemma TimelyOncePerFault(states: seq<State>, actions: seq<Action>)
    requires IsTimelyRun(states, actions)
    ensures OncePerFault(states[|states| - 1])
  {
    var s := states[|states| - 1];
    forall id, r | id in s.jobs && r in s.jobs[id].history.initial
      ensures s.jobs[id].history.videos[r.chatId] <= 1 + s.jobs[id].history.faults
    {
      AtMostOncePerFault(states, actions, |states| - 1, id, r);
    }
  }

  /**
    The promise of one video and one more for each fault holds of every run in which
    claimers write or die within a lease - exactly if the lease is no longer than
    `STALE_LOCK_MS`.
  */
  lemma LeaseIsExact(lease: int)
    ensures OncePerFaultWithin(lease) <==> lease <= STALE_LOCK_MS
  {
    if lease <= STALE_LOCK_MS {
      forall states: seq<State>, actions: seq<Action> | IsRunWithin(states, actions, lease)
        ensures OncePerFault(states[|states| - 1])
      {
        WithinIsTimely(states, actions, lease);
        TimelyOncePerFault(states, actions);
      }
    } else {
      var states, actions := SlowHolderTwoVideos(lease);
      var last := states[|states| - 1];
      assert ALERT in last.jobs[0].history.initial;
    }
  }

  // ---- Requests ------------------------------------------------------------------------------

  const RAW := RawEvent(Some("truck"), None, At(1000000), Missing, Missing, Missing, Missing, Missing)

  /** Settings with an attempt budget that `k` attempts do not use up. */
  function Patient(k: nat): Cfg {
    Cfg(k + 2, 120, true, None, None)
  }

  /** Samsara answers the request so, and never has the clip otherwise; the chat does not take a video. */
  function Answering(answer: AskAnswer): Env {
    Env(NO_URLS, NO_URLS, NO_URLS, answer, true, Chat(false), None)
  }

  const AT_ONCE := Accepted(None, CLIP)

  function AskedWindow(): Window {
    BuildRetrievalWindow(Some(RAW), None, None).value
  }

  /** The window is asked for, and the answer is media at once, or unknown. */
  function AskPlan(atOnce: bool): seq<Effect> {
    if atOnce then
      [Ask(AskedWindow(), AT_ONCE),
       Write(Reschedule(VideoAvailable, 120, None, false, None, None, Some([ALERT])), false)]
    else
      [Ask(AskedWindow(), Unknown),
       Write(Reschedule(PendingRetrieval, 120, None, true, Some(AskedWindow().startMs), Some(AskedWindow().endMs),
                        None), false)]
  }

  function AnswerOf(atOnce: bool): AskAnswer {
    if atOnce then AT_ONCE else Unknown
  }

  /** Nobody works on the job, its footage is not on record as asked for, and a worker can claim it now. */
  ghost predicate Hungry(c: Cell, clock: int, k: nat) {
    && Idle(c, clock) && c.row.job.rawEvent == Some(RAW) && !Asked(c.row.job) && c.row.job.attempts <= k
    && c.history.budgets <= {k + 2}
  }

  lemma AskingPlan(job: Job, k: nat, atOnce: bool)
    requires job.targets == [ALERT] && job.rawEvent == Some(RAW) && !Asked(job) && job.attempts <= k
    ensures Plan(job, Patient(k), Answering(AnswerOf(atOnce))) == AskPlan(atOnce)
  {
    hide Delivery;
    var env := Answering(AnswerOf(atOnce));
    OneChatDelivery(job, env, false);
    assert AsksNow(job, Patient(k), env);
  }

  /** A worker asks. */
  lemma ThenAsk(states: seq<State>, actions: seq<Action>, clock: int, c: Cell, k: nat, atOnce: bool)
    returns (states': seq<State>, actions': seq<Action>, c': Cell)
    requires Reaches(states, actions, STALE_LOCK_MS, OneJob(clock, c)) && Hungry(c, clock, k)
    ensures Reaches(states', actions', STALE_LOCK_MS, OneJob(clock, c'))
    ensures c' == Advanced(ClaimedWith(c, 0, clock, k + 2, AskPlan(atOnce)), 0, true, clock)
  {
    hide Reaches, Plan;
    AskingPlan(c.row.job, k, atOnce);
    states', actions' := ThenClaim(states, actions, STALE_LOCK_MS, clock, c, 0, Patient(k),
                                   Answering(AnswerOf(atOnce)));
    c' := ClaimedWith(c, 0, clock, k + 2, AskPlan(atOnce));
    states', actions' := ThenAdvance(states', actions', STALE_LOCK_MS, clock, c', 0, true);
    c' := Advanced(c', 0, true, clock);
  }

  /** An answer with media at once, whose write lands and does not record the request. */
  lemma ThenAnswerAtOnce(states: seq<State>, actions: seq<Action>, clock: int, c: Cell, k: nat)
    returns (states': seq<State>, actions': seq<Action>, clock': int, c': Cell)
    requires Reaches(states, actions, STALE_LOCK_MS, OneJob(clock, c)) && Hungry(c, clock, k)
    requires c.row.job.attempts < k
    ensures Reaches(states', actions', STALE_LOCK_MS, OneJob(clock', c')) && Hungry(c', clock', k)
    ensures c'.row.job.attempts == c.row.job.attempts + 1
    ensures c'.history.asks == c.history.asks + 1 && c'.history.instant == c.history.instant + 1
    ensures c'.history.faults == c.history.faults
  {
    hide Reaches;
    states', actions', c' := ThenAsk(states, actions, clock, c, k, true);
    states', actions' := ThenAdvance(states', actions', STALE_LOCK_MS, clock, c', 0, true);
    c' := Advanced(c', 0, true, clock);
    assert c'.holders == map[];
    clock' := c'.row.nextCheckAt;
    states', actions' := ThenWait(states', actions', STALE_LOCK_MS, clock, c', clock' - clock);
  }

  /** An unknown answer, whose write is lost. */
  lemma ThenLoseARequest(states: seq<State>, actions: seq<Action>, clock: int, c: Cell, k: nat)
    returns (states': seq<State>, actions': seq<Action>, clock': int, c': Cell)
    requires Reaches(states, actions, STALE_LOCK_MS, OneJob(clock, c)) && Hungry(c, clock, k)
    ensures Reaches(states', actions', STALE_LOCK_MS, OneJob(clock', c')) && Hungry(c', clock', k)
    ensures c'.history.asks == c.history.asks + 1 && c'.history.instant == c.history.instant
    ensures c'.history.faults == c.history.faults + 1 && c'.row.job.attempts == c.row.job.attempts
  {
    hide Reaches;
    states', actions', c' := ThenAsk(states, actions, clock, c, k, false);
    states', actions' := ThenAdvance(states', actions', STALE_LOCK_MS, clock, c', 0, false);
    c' := Advanced(c', 0, false, clock);
    assert c'.holders == map[];
    clock' := clock + STALE_LOCK_MS + 1;
    states', actions' := ThenWait(states', actions', STALE_LOCK_MS, clock, c', STALE_LOCK_MS + 1);
  }

  lemma {:induction false} Requests(faults: nat, instant: nat, k: nat)
    returns (states: seq<State>, actions: seq<Action>, clock: int, c: Cell)
    requires instant <= k
    ensures Reaches(states, actions, STALE_LOCK_MS, OneJob(clock, c)) && Hungry(c, clock, k)
    ensures c.row.job.attempts == instant
    ensures c.history.asks == faults + instant && c.history.faults == faults && c.history.instant == instant
  {
    hide Reaches;
    if faults > 0 {
      states, actions, clock, c := Requests(faults - 1, instant, k);
      states, actions, clock, c := ThenLoseARequest(states, actions, clock, c, k);
    } else if instant > 0 {
      states, actions, clock, c := Requests(0, instant - 1, k);
      states, actions, clock, c := ThenAnswerAtOnce(states, actions, clock, c, k);
    } else {
      states, actions := Begin(Some(RAW), STALE_LOCK_MS);
      clock, c := 0, NewCell("e", None, Some(RAW), [ALERT], 0);
    }
  }

  /**
    The bound of `FootageIsAskedForOnce` is reached for all numbers of faults and of
    answers with media at once, under one attempt budget: a write that is lost does not record its request, and
    the write that follows a delivery does not either.
  */
  lemma EveryFaultCostsARequest(faults: nat, instant: nat) returns (states: seq<State>, actions: seq<Action>)
    ensures IsTimelyRun(states, actions)
    ensures var last := states[|states| - 1];
      && 0 in last.jobs
      && last.jobs[0].history.faults == faults && last.jobs[0].history.instant == instant
      && last.jobs[0].history.asks == 1 + faults + instant
      && last.jobs[0].history.budgets == {instant + 2}
  {
    var clock, c;
    states, actions, clock, c := Requests(faults, instant, instant);
    states, actions, c := ThenAsk(states, actions, clock, c, instant, false);
    WithinIsTimely(states, actions, STALE_LOCK_MS);
  }
}
