/**
  Whole runs of the recovery table under any number of workers, with lost writes,
  claims nobody heard of, steps that throw and crashes between any two effects.

  A holder is one claimed job being worked on. Its plan is what the step will do
  (`RecoveryWorker.Plan`), performed one effect at a time, so other holders act in
  between. Holders of one worker are not even kept from overlapping: that only
  adds runs.
*/
module RecoveryRuns {
  import opened Wrappers
  import opened CameraMedia
  import opened RecoveryTypes
  import opened VideoBackfill
  import opened RecoveryStore
  import opened RecoveryWorker
  import opened RecoveryPlan

  /** A claim being worked on: the row as it was claimed, and the effects of the step, `pos` of them done. */
  datatype Holder = Holder(since: int, job: Job, budget: int, plan: seq<Effect>, pos: nat)

  /** What has happened on one job so far, outside its row. */
  datatype History = History(
    initial: seq<Ref>,                // the messages the recovery began with
    videos: multiset<string>,         // how many videos each chat has received
    captions: set<(string, string)>,  // chat and caption of each of them
    texts: set<string>,               // chats still holding the original text
    dropped: set<string>,             // chats found switched off
    faults: nat,                      // lost writes, crashes and steps that threw
    throws: nat,
    landed: nat,                      // steps whose write landed
    quiet: nat,                       // those of them that did not throw
    posts: nat,                       // requests made, refused ones too
    asks: nat,                        // requests that may have reached Samsara
    instant: nat,                     // those answered with media at once
    budgets: set<int>)                // the attempt budgets steps ran under

  /** One job: its row, its history, and whoever is working on it. */
  datatype Cell = Cell(row: Row, history: History, holders: map<nat, Holder>)

  datatype State = State(clock: int, nextId: nat, jobs: map<nat, Cell>)

  datatype Action =
    | Enqueue(eventId: string, vehicleId: Option<string>, raw: Option<RawEvent>, targets: seq<Ref>, nextCheckAt: int)
    | Claim(token: nat, id: nat, now: int, cfg: Cfg, env: Env)
    | ClaimUnheard(id: nat, now: int)
    | Advance(id: nat, token: nat, lands: bool)
    | Crash(id: nat, token: nat)
    | Elapse(ms: nat)

  const START := State(0, 0, map[])

  function NewHistory(targets: seq<Ref>): History {
    History(targets, multiset{}, {}, set r | r in targets :: r.chatId, {}, 0, 0, 0, 0, 0, 0, 0, {})
  }

  /** An effect other than the write, as the outside sees it. */
  function Happened(h: History, e: Effect): History
    requires !e.Write?
  {
    match e
    case Ask(_, answer) =>
      if answer.Refused? then h.(posts := h.posts + 1)
      else h.(posts := h.posts + 1, asks := h.asks + 1,
              instant := h.instant + if HasUrls(AnswerUrls(answer)) then 1 else 0)
    case Drop(ref) => h.(dropped := h.dropped + {ref.chatId})
    case Post(ref) => h.(videos := h.videos + multiset{ref.chatId},
                         captions := h.captions + {(ref.chatId, FitCaption(ref.caption))})
    case Erase(ref) => h.(texts := h.texts - {ref.chatId})
  }

  function Faulty(h: History, thrown: bool): History {
    h.(faults := h.faults + 1, throws := h.throws + if thrown then 1 else 0)
  }

  function Landed(h: History, thrown: bool): History {
    var counted := h.(landed := h.landed + 1);
    if thrown then Faulty(counted, true) else counted.(quiet := h.quiet + 1)
  }

  function NewCell(eventId: string, vehicleId: Option<string>, raw: Option<RawEvent>, targets: seq<Ref>,
                   nextCheckAt: int): Cell {
    Cell(NewRow(eventId, vehicleId, raw, targets, nextCheckAt), NewHistory(targets), map[])
  }

  function Claimed(c: Cell, token: nat, now: int, cfg: Cfg, env: Env): Cell {
    var plan := Plan(c.row.job, cfg, env);
    Cell(Lock(c.row, now),
         c.history.(budgets := c.history.budgets + {cfg.maxAttempts}),
         c.holders[token := Holder(now, c.row.job, cfg.maxAttempts, plan, 0)])
  }

  /** The next effect of a holder happens; its write, the last one, lands or is lost. */
  function Advanced(c: Cell, token: nat, lands: bool, clock: int): Cell
    requires token in c.holders && c.holders[token].pos < |c.holders[token].plan|
  {
    var h := c.holders[token];
    var e := h.plan[h.pos];
    if !e.Write? then
      c.(history := Happened(c.history, e), holders := c.holders[token := h.(pos := h.pos + 1)])
    else if lands then
      Cell(Applied(c.row, e.cmd, clock), Landed(c.history, e.thrown), c.holders - {token})
    else
      c.(history := Faulty(c.history, e.thrown), holders := c.holders - {token})
  }

  function Crashed(c: Cell, token: nat): Cell {
    c.(history := Faulty(c.history, false), holders := c.holders - {token})
  }

  ghost predicate Enabled(s: State, a: Action) {
    match a
    // `deliverEvent` hands over one message per chat (`DeliveryTheorems.RefsNameDistinctChats`).
    case Enqueue(eventId, _, _, targets, _) =>
      && eventId != "" && DistinctChats(targets) && s.nextId !in s.jobs
      && (forall id :: id in s.jobs ==> s.jobs[id].row.job.eventId != eventId)
    // `now` was read when the tick began, so it is never ahead of the clock.
    case Claim(token, id, now, _, _) =>
      id in s.jobs && token !in s.jobs[id].holders && now <= s.clock && Claimable(s.jobs[id].row, now)
    case ClaimUnheard(id, now) =>
      id in s.jobs && now <= s.clock && Claimable(s.jobs[id].row, now)
    case Advance(id, token, _) =>
      id in s.jobs && token in s.jobs[id].holders && s.jobs[id].holders[token].pos < |s.jobs[id].holders[token].plan|
    case Crash(id, token) => id in s.jobs && token in s.jobs[id].holders
    case Elapse(_) => true
  }

  ghost function Apply(s: State, a: Action): State
    requires Enabled(s, a)
  {
    match a
    case Enqueue(eventId, vehicleId, raw, targets, nextCheckAt) =>
      s.(nextId := s.nextId + 1, jobs := s.jobs[s.nextId := NewCell(eventId, vehicleId, raw, targets, nextCheckAt)])
    case Claim(token, id, now, cfg, env) =>
      s.(jobs := s.jobs[id := Claimed(s.jobs[id], token, now, cfg, env)])
    case ClaimUnheard(id, now) =>
      s.(jobs := s.jobs[id := s.jobs[id].(row := Lock(s.jobs[id].row, now))])
    case Advance(id, token, lands) =>
      s.(jobs := s.jobs[id := Advanced(s.jobs[id], token, lands, s.clock)])
    case Crash(id, token) =>
      s.(jobs := s.jobs[id := Crashed(s.jobs[id], token)])
    case Elapse(ms) => s.(clock := s.clock + ms)
  }

  /** The hypothesis the code needs: a claimer writes, or dies, within `STALE_LOCK_MS` of its claim. */
  ghost predicate TimelyCell(c: Cell, clock: int) {
    forall t :: t in c.holders ==> clock <= c.holders[t].since + STALE_LOCK_MS
  }

  ghost predicate Timely(s: State) {
    forall id :: id in s.jobs ==> TimelyCell(s.jobs[id], s.clock)
  }

  ghost predicate IsRun(states: seq<State>, actions: seq<Action>) {
    && |states| == |actions| + 1
    && states[0] == START
    && (forall i :: 0 <= i < |actions| ==>
          Enabled(states[i], actions[i]) && states[i + 1] == Apply(states[i], actions[i]))
  }

  ghost predicate IsTimelyRun(states: seq<State>, actions: seq<Action>) {
    IsRun(states, actions) && forall i :: 0 <= i < |states| ==> Timely(states[i])
  }

  // ---- The invariant ---------------------------------------------------------------

  ghost predicate Waiting(row: Row, r: Ref) {
    r in row.job.targets
  }

  /** No chat has more videos than the faults allow; a waiting one none beyond them. */
  ghost predicate CountsOk(row: Row, h: History, plan: seq<Effect>, pos: nat) {
    forall r :: r in h.initial ==>
      h.videos[r.chatId] <= h.faults + if Waiting(row, r) && !Posted(plan, pos, r.chatId) then 0 else 1
  }

  /** Nobody is forgotten; without faults nobody is in two places but the message being served right now. */
  ghost predicate CoverageOk(row: Row, h: History, plan: seq<Effect>, pos: nat) {
    && (forall r :: r in h.initial ==> Waiting(row, r) || r.chatId in h.videos || r.chatId in h.dropped)
    && (h.faults == 0 ==> forall r :: r in h.initial ==>
          && !(r.chatId in h.videos && r.chatId in h.dropped)
          && (Waiting(row, r) && r.chatId in h.videos ==> Posted(plan, pos, r.chatId))
          && (Waiting(row, r) && r.chatId in h.dropped ==> DroppedNow(plan, pos, r.chatId)))
  }

  /** Each chat holds its original text or a video with its own text; and no other caption is ever posted. */
  ghost predicate TextsOk(h: History) {
    && (forall r :: r in h.initial ==> r.chatId in h.texts || (r.chatId, FitCaption(r.caption)) in h.captions)
    && (forall v :: v in h.captions ==> exists r :: r in h.initial && v == (r.chatId, FitCaption(r.caption)))
  }

  /** What the plan in progress has done is on record. */
  ghost predicate Recorded(h: History, plan: seq<Effect>, pos: nat) {
    && (forall i :: 0 <= i < pos && i < |plan| && plan[i].Post? ==>
          plan[i].ref.chatId in h.videos && (plan[i].ref.chatId, FitCaption(plan[i].ref.caption)) in h.captions)
    && (forall i :: 0 <= i < pos && i < |plan| && plan[i].Drop? ==> plan[i].ref.chatId in h.dropped)
  }

  ghost predicate AsksOk(row: Row, h: History, plan: seq<Effect>, pos: nat) {
    h.asks <= h.faults + h.instant
            + if Open(row.job.status) && !Asked(row.job) && !AskedNow(plan, pos) then 0 else 1
  }

  ghost predicate AttemptsOk(row: Row, h: History) {
    && h.landed == row.job.attempts + (if Open(row.job.status) then 0 else 1)
    && h.throws <= h.faults
    && h.landed - h.throws <= h.quiet <= h.landed
    && (h.throws == 0 && row.job.attempts > 0 ==> exists b :: b in h.budgets && row.job.attempts < b)
  }

  ghost predicate JobOk(row: Row, h: History, plan: seq<Effect>, pos: nat) {
    && DistinctChats(h.initial) && DistinctChats(row.job.targets)
    && (forall r :: r in row.job.targets ==> r in h.initial)
    && (row.job.status.Completed? ==> row.job.targets == [])
    && CountsOk(row, h, plan, pos)
    && CoverageOk(row, h, plan, pos)
    && TextsOk(h)
    && Recorded(h, plan, pos)
    && AsksOk(row, h, plan, pos)
    && AttemptsOk(row, h)
  }

  ghost predicate HolderOk(c: Cell, h: Holder, clock: int) {
    && c.row.job == h.job && Open(h.job.status)
    && c.row.lockedAt == Some(h.since) && h.since <= clock
    && h.pos < |h.plan| && h.budget in c.history.budgets
    && PlanOk(h.job, h.budget, h.plan)
    && JobOk(c.row, c.history, h.plan, h.pos)
  }

  /** Lease safety: a job has at most one live holder. */
  ghost predicate AtMostOneHolder(c: Cell) {
    forall t, u :: t in c.holders && u in c.holders ==> t == u
  }

  ghost predicate CellOk(c: Cell, clock: int) {
    && AtMostOneHolder(c)
    && (forall t :: t in c.holders ==> HolderOk(c, c.holders[t], clock))
    && (c.holders == map[] ==> JobOk(c.row, c.history, [], 0))
  }

  ghost predicate Inv(s: State) {
    && (forall id :: id in s.jobs ==> id < s.nextId)
    && (forall id :: id in s.jobs ==> CellOk(s.jobs[id], s.clock))
  }

  ghost predicate OneRecoveryPerEvent(s: State) {
    forall a, b :: a in s.jobs && b in s.jobs && s.jobs[a].row.job.eventId == s.jobs[b].row.job.eventId ==> a == b
  }

  // ---- One effect, one job ----------------------------------------------------------

  lemma PostedMore(plan: seq<Effect>, pos: nat, chat: string)
    requires pos < |plan|
    ensures Posted(plan, pos + 1, chat)
            <==> Posted(plan, pos, chat) || (plan[pos].Post? && plan[pos].ref.chatId == chat)
    ensures DroppedNow(plan, pos + 1, chat)
            <==> DroppedNow(plan, pos, chat) || (plan[pos].Drop? && plan[pos].ref.chatId == chat)
  {
    if plan[pos].Post? && plan[pos].ref.chatId == chat {
      assert Posted(plan, pos + 1, chat);
    }
    if plan[pos].Drop? && plan[pos].ref.chatId == chat {
      assert DroppedNow(plan, pos + 1, chat);
    }
  }

  /** A message is posted to once in a plan, and never both posted to and dropped. */
  lemma NotServedBefore(job: Job, budget: int, plan: seq<Effect>, pos: nat)
    requires PlanOk(job, budget, plan) && pos < |plan| - 1
    ensures plan[pos].Post? ==> !Posted(plan, pos, plan[pos].ref.chatId) && !DroppedNow(plan, pos, plan[pos].ref.chatId)
    ensures plan[pos].Drop? ==> !Posted(plan, pos, plan[pos].ref.chatId)
  {
    assert forall i :: 0 <= i < |plan| - 1 ==> plan[..|plan| - 1][i] == plan[i];
  }

  lemma EffectKeepsCounts(row: Row, h: History, budget: int, plan: seq<Effect>, pos: nat)
    requires JobOk(row, h, plan, pos) && PlanOk(row.job, budget, plan)
    requires pos < |plan| && !plan[pos].Write?
    ensures CountsOk(row, Happened(h, plan[pos]), plan, pos + 1)
  {
    var e := plan[pos];
    assert pos < |plan| - 1 && e == plan[..|plan| - 1][pos];
    forall r | r in h.initial
      ensures Happened(h, e).videos[r.chatId]
              <= h.faults + if Waiting(row, r) && !Posted(plan, pos + 1, r.chatId) then 0 else 1
    {
      PostedMore(plan, pos, r.chatId);
      if e.Post? && e.ref.chatId == r.chatId {
        SameChatSameRef(h.initial, r, e.ref);
        NotServedBefore(row.job, budget, plan, pos);
      }
    }
  }

  lemma EffectKeepsCoverage(row: Row, h: History, budget: int, plan: seq<Effect>, pos: nat)
    requires JobOk(row, h, plan, pos) && PlanOk(row.job, budget, plan)
    requires pos < |plan| && !plan[pos].Write?
    ensures CoverageOk(row, Happened(h, plan[pos]), plan, pos + 1)
  {
    var e := plan[pos];
    var h' := Happened(h, e);
    assert pos < |plan| - 1 && e == plan[..|plan| - 1][pos];
    forall r | r in h.initial && h.faults == 0
      ensures !(r.chatId in h'.videos && r.chatId in h'.dropped)
      ensures Waiting(row, r) && r.chatId in h'.videos ==> Posted(plan, pos + 1, r.chatId)
      ensures Waiting(row, r) && r.chatId in h'.dropped ==> DroppedNow(plan, pos + 1, r.chatId)
    {
      PostedMore(plan, pos, r.chatId);
      if !e.Ask? && e.ref.chatId == r.chatId {
        SameChatSameRef(h.initial, r, e.ref);
        NotServedBefore(row.job, budget, plan, pos);
      }
    }
  }

  lemma EffectKeepsTexts(row: Row, h: History, budget: int, plan: seq<Effect>, pos: nat)
    requires JobOk(row, h, plan, pos) && PlanOk(row.job, budget, plan)
    requires pos < |plan| && !plan[pos].Write?
    ensures TextsOk(Happened(h, plan[pos]))
  {
    var e := plan[pos];
    assert pos < |plan| - 1 && e == plan[..|plan| - 1][pos];
    if e.Erase? {
      assert plan[..|plan| - 1][pos - 1] == plan[pos - 1] == Post(e.ref);
    }
    OneEffectKeepsTexts(h, e);
  }

  lemma OneEffectKeepsTexts(h: History, e: Effect)
    requires DistinctChats(h.initial) && TextsOk(h) && !e.Write?
    requires !e.Ask? ==> e.ref in h.initial
    requires e.Erase? ==> (e.ref.chatId, FitCaption(e.ref.caption)) in h.captions
    ensures TextsOk(Happened(h, e))
  {
    var h' := Happened(h, e);
    forall r | r in h.initial
      ensures r.chatId in h'.texts || (r.chatId, FitCaption(r.caption)) in h'.captions
    {
      if e.Erase? && e.ref.chatId == r.chatId {
        SameChatSameRef(h.initial, r, e.ref);
      }
    }
    forall v | v in h'.captions
      ensures exists r :: r in h.initial && v == (r.chatId, FitCaption(r.caption))
    {
      if v !in h.captions {
        assert e.ref in h.initial && v == (e.ref.chatId, FitCaption(e.ref.caption));
      }
    }
  }

  lemma EffectKeepsRecorded(h: History, plan: seq<Effect>, pos: nat)
    requires Recorded(h, plan, pos) && pos < |plan| && !plan[pos].Write?
    ensures Recorded(Happened(h, plan[pos]), plan, pos + 1)
  {}

  lemma EffectKeepsAsks(row: Row, h: History, budget: int, plan: seq<Effect>, pos: nat)
    requires JobOk(row, h, plan, pos) && PlanOk(row.job, budget, plan)
    requires pos < |plan| && !plan[pos].Write? && Open(row.job.status)
    ensures AsksOk(row, Happened(h, plan[pos]), plan, pos + 1)
  {
    var e := plan[pos];
    assert pos < |plan| - 1 && e == plan[..|plan| - 1][pos];
    if e.Ask? {
      assert pos == 0;
      if MustNotRepeat(e) {
        assert AskedNow(plan, pos + 1);
      }
    } else if AskedNow(plan, pos) {
      var i :| 0 <= i < pos && MustNotRepeat(plan[i]);
      assert AskedNow(plan, pos + 1);
    }
  }

  lemma EffectKeepsJob(row: Row, h: History, budget: int, plan: seq<Effect>, pos: nat)
    requires JobOk(row, h, plan, pos) && PlanOk(row.job, budget, plan)
    requires pos < |plan| && !plan[pos].Write? && Open(row.job.status)
    ensures JobOk(row, Happened(h, plan[pos]), plan, pos + 1)
  {
    EffectKeepsCounts(row, h, budget, plan, pos);
    EffectKeepsCoverage(row, h, budget, plan, pos);
    EffectKeepsTexts(row, h, budget, plan, pos);
    EffectKeepsRecorded(h, plan, pos);
    EffectKeepsAsks(row, h, budget, plan, pos);
  }

  /** A crash or a lost write: the fault pays for what the step may have done. */
  lemma FaultKeepsJob(row: Row, h: History, plan: seq<Effect>, pos: nat, thrown: bool)
    requires JobOk(row, h, plan, pos)
    ensures JobOk(row, Faulty(h, thrown), [], 0)
  {
    assert forall c :: !Posted([], 0, c);
  }

  /** `WriteOk`, in terms of the first `pos` effects of a plan. */
  ghost predicate CleanWrite(job: Job, budget: int, plan: seq<Effect>, pos: nat, cmd: WriteCmd) {
    && DistinctChats(TargetsAfter(job, cmd))
    && (forall r :: r in TargetsAfter(job, cmd) <==>
          r in job.targets && !Posted(plan, pos, r.chatId) && !DroppedNow(plan, pos, r.chatId))
    && (cmd.Reschedule? ==> Open(cmd.status) && job.attempts + 1 < budget)
    && (cmd.Reschedule? && AskedNow(plan, pos) ==> cmd.requested)
    && (cmd.Finish? ==> !Open(cmd.status))
    && (cmd.status.Completed? ==> TargetsAfter(job, cmd) == [])
  }

  lemma PrefixServes(plan: seq<Effect>, pos: nat, c: string)
    requires pos <= |plan|
    ensures Posted(plan[..pos], |plan[..pos]|, c) <==> Posted(plan, pos, c)
    ensures DroppedNow(plan[..pos], |plan[..pos]|, c) <==> DroppedNow(plan, pos, c)
  {
    var effects := plan[..pos];
    if Posted(plan, pos, c) {
      var i :| 0 <= i < pos && plan[i].Post? && plan[i].ref.chatId == c;
      assert effects[i] == plan[i];
    }
    if DroppedNow(plan, pos, c) {
      var i :| 0 <= i < pos && plan[i].Drop? && plan[i].ref.chatId == c;
      assert effects[i] == plan[i];
    }
  }

  lemma PrefixAsks(plan: seq<Effect>, pos: nat)
    requires pos <= |plan| && AskedNow(plan, pos)
    ensures AskedNow(plan[..pos], |plan[..pos]|)
  {
    var i :| 0 <= i < pos && MustNotRepeat(plan[i]);
    assert plan[..pos][i] == plan[i];
  }

  lemma LastIsTheWrite(job: Job, budget: int, plan: seq<Effect>, pos: nat)
    requires PlanOk(job, budget, plan) && pos < |plan| && plan[pos].Write?
    ensures pos == |plan| - 1
  {
    assert forall i :: 0 <= i < |plan| - 1 ==> plan[..|plan| - 1][i] == plan[i];
  }

  lemma WriteIsClean(job: Job, budget: int, plan: seq<Effect>, pos: nat)
    requires pos < |plan| && plan[pos].Write? && WriteOk(job, budget, plan[..pos], plan[pos].cmd)
    ensures CleanWrite(job, budget, plan, pos, plan[pos].cmd)
  {
    forall c
      ensures Posted(plan[..pos], |plan[..pos]|, c) <==> Posted(plan, pos, c)
      ensures DroppedNow(plan[..pos], |plan[..pos]|, c) <==> DroppedNow(plan, pos, c)
    {
      PrefixServes(plan, pos, c);
    }
    if AskedNow(plan, pos) {
      PrefixAsks(plan, pos);
    }
    assert forall r :: Served(plan[..pos], r) <==> Posted(plan, pos, r.chatId) || DroppedNow(plan, pos, r.chatId);
  }

  lemma ThrownWriteKeepsJob(row: Row, h: History, plan: seq<Effect>, pos: nat, clock: int)
    requires JobOk(row, h, plan, pos) && Open(row.job.status)
    requires pos < |plan| && plan[pos].Write?
    requires plan[pos].cmd.Reschedule? && plan[pos].cmd.status == row.job.status && plan[pos].cmd.targets.None?
    ensures JobOk(Applied(row, plan[pos].cmd, clock), Landed(h, true), [], 0)
  {
    assert forall c :: !Posted([], 0, c);
  }

  lemma CleanWriteKeepsJob(row: Row, h: History, budget: int, plan: seq<Effect>, pos: nat, clock: int)
    requires JobOk(row, h, plan, pos) && Open(row.job.status) && budget in h.budgets
    requires pos < |plan| && plan[pos].Write?
    requires CleanWrite(row.job, budget, plan, pos, plan[pos].cmd)
    ensures JobOk(Applied(row, plan[pos].cmd, clock), Landed(h, false), [], 0)
  {
    assert forall c :: !Posted([], 0, c) && !DroppedNow([], 0, c);
    forall r | r in h.initial && Posted(plan, pos, r.chatId)
      ensures r.chatId in h.videos
    {
    }
  }

  /** The write of a step lands. */
  lemma WriteKeepsJob(row: Row, h: History, budget: int, plan: seq<Effect>, pos: nat, clock: int)
    requires JobOk(row, h, plan, pos) && PlanOk(row.job, budget, plan) && Open(row.job.status) && budget in h.budgets
    requires pos < |plan| && plan[pos].Write?
    ensures JobOk(Applied(row, plan[pos].cmd, clock), Landed(h, plan[pos].thrown), [], 0)
  {
    LastIsTheWrite(row.job, budget, plan, pos);
    if plan[pos].thrown {
      ThrownWriteKeepsJob(row, h, plan, pos, clock);
    } else {
      WriteIsClean(row.job, budget, plan, pos);
      CleanWriteKeepsJob(row, h, budget, plan, pos, clock);
    }
  }

  // ---- Every action keeps the invariant ------------------------------------------------

  /** Claiming a row changes nothing of its job, and nothing is done yet. */
  lemma ClaimKeepsJob(row: Row, h: History, plan: seq<Effect>, now: int, budget: int)
    requires JobOk(row, h, [], 0)
    ensures JobOk(Lock(row, now), h.(budgets := h.budgets + {budget}), plan, 0)
    ensures JobOk(Lock(row, now), h, [], 0)
  {
    assert forall c :: !Posted(plan, 0, c) && !Posted([], 0, c);
    assert !AskedNow(plan, 0) && !AskedNow([], 0);
  }

  lemma NewJobOk(row: Row, targets: seq<Ref>)
    requires DistinctChats(targets) && row.job.targets == targets && row.job.status == PendingRecheck
             && row.job.attempts == 0
    ensures JobOk(row, NewHistory(targets), [], 0)
  {
    assert forall c :: !Posted([], 0, c);
  }

  /** The lease at work: a claimable row has no live holder. */
  lemma ClaimableIsFree(c: Cell, now: int, clock: int)
    requires CellOk(c, clock) && TimelyCell(c, clock) && now <= clock && Claimable(c.row, now)
    ensures c.holders == map[]
  {
    if t :| t in c.holders {
      assert false;
    }
  }

  lemma ClaimUnheardKeeps(c: Cell, now: int, clock: int)
    requires CellOk(c, clock) && TimelyCell(c, clock) && now <= clock && Claimable(c.row, now)
    ensures CellOk(c.(row := Lock(c.row, now)), clock)
  {
    ClaimableIsFree(c, now, clock);
    ClaimKeepsJob(c.row, c.history, [], now, 0);
  }

  lemma ClaimKeeps(c: Cell, token: nat, now: int, cfg: Cfg, env: Env, clock: int)
    requires CellOk(c, clock) && TimelyCell(c, clock) && now <= clock && Claimable(c.row, now)
    ensures CellOk(Claimed(c, token, now, cfg, env), clock)
  {
    ClaimableIsFree(c, now, clock);
    var plan := Plan(c.row.job, cfg, env);
    PlanKeepsPlan(c.row.job, cfg, env);
    ClaimKeepsJob(c.row, c.history, plan, now, cfg.maxAttempts);
  }

  lemma LastHolderLeaves(c: Cell, token: nat)
    requires AtMostOneHolder(c) && token in c.holders
    ensures c.holders - {token} == map[]
  {}

  lemma CrashKeeps(c: Cell, token: nat, clock: int)
    requires CellOk(c, clock) && token in c.holders
    ensures CellOk(Crashed(c, token), clock)
  {
    var h := c.holders[token];
    assert HolderOk(c, h, clock);
    LastHolderLeaves(c, token);
    FaultKeepsJob(c.row, c.history, h.plan, h.pos, false);
  }

  lemma WriteKeeps(c: Cell, token: nat, lands: bool, clock: int)
    requires CellOk(c, clock) && token in c.holders
    requires var h := c.holders[token]; h.pos < |h.plan| && h.plan[h.pos].Write?
    ensures CellOk(Advanced(c, token, lands, clock), clock)
  {
    var h := c.holders[token];
    assert HolderOk(c, h, clock);
    LastHolderLeaves(c, token);
    if lands {
      WriteKeepsJob(c.row, c.history, h.budget, h.plan, h.pos, clock);
    } else {
      FaultKeepsJob(c.row, c.history, h.plan, h.pos, h.plan[h.pos].thrown);
    }
  }

  lemma WriteIsLast(job: Job, budget: int, plan: seq<Effect>, pos: nat)
    requires PlanOk(job, budget, plan) && pos < |plan| && !plan[pos].Write?
    ensures pos + 1 < |plan|
  {}

  lemma EffectKeeps(c: Cell, token: nat, lands: bool, clock: int)
    requires CellOk(c, clock) && token in c.holders
    requires var h := c.holders[token]; h.pos < |h.plan| && !h.plan[h.pos].Write?
    ensures CellOk(Advanced(c, token, lands, clock), clock)
  {
    hide JobOk, PlanOk;
    var h := c.holders[token];
    assert HolderOk(c, h, clock);
    EffectKeepsJob(c.row, c.history, h.budget, h.plan, h.pos);
    WriteIsLast(h.job, h.budget, h.plan, h.pos);
    var c' := Advanced(c, token, lands, clock);
    assert c'.holders.Keys == c.holders.Keys;
    assert HolderOk(c', c'.holders[token], clock);
  }

  lemma OneJobChanges(s: State, s': State, id: nat)
    requires Inv(s) && id < s'.nextId && s.nextId <= s'.nextId && s'.clock == s.clock
    requires id in s'.jobs && s'.jobs == s.jobs[id := s'.jobs[id]] && CellOk(s'.jobs[id], s.clock)
    ensures Inv(s')
  {}

  lemma LaterIsFine(c: Cell, clock: int, later: int)
    requires CellOk(c, clock) && clock <= later
    ensures CellOk(c, later)
  {}

  lemma ActionKeeps(s: State, a: Action)
    requires Inv(s) && Timely(s) && Enabled(s, a)
    ensures Inv(Apply(s, a))
  {
    match a
    case Enqueue(eventId, vehicleId, raw, targets, nextCheckAt) =>
      NewJobOk(NewRow(eventId, vehicleId, raw, targets, nextCheckAt), targets);
      OneJobChanges(s, Apply(s, a), s.nextId);
    case Claim(token, id, now, cfg, env) =>
      ClaimKeeps(s.jobs[id], token, now, cfg, env, s.clock);
      OneJobChanges(s, Apply(s, a), id);
    case ClaimUnheard(id, now) =>
      ClaimUnheardKeeps(s.jobs[id], now, s.clock);
      OneJobChanges(s, Apply(s, a), id);
    case Advance(id, token, lands) =>
      var h := s.jobs[id].holders[token];
      if h.plan[h.pos].Write? {
        WriteKeeps(s.jobs[id], token, lands, s.clock);
      } else {
        EffectKeeps(s.jobs[id], token, lands, s.clock);
      }
      OneJobChanges(s, Apply(s, a), id);
    case Crash(id, token) =>
      CrashKeeps(s.jobs[id], token, s.clock);
      OneJobChanges(s, Apply(s, a), id);
    case Elapse(ms) =>
      forall id | id in s.jobs
        ensures CellOk(s.jobs[id], s.clock + ms)
      {
        LaterIsFine(s.jobs[id], s.clock, s.clock + ms);
      }
  }

  lemma {:induction false} RunKeeps(states: seq<State>, actions: seq<Action>, n: nat)
    requires IsTimelyRun(states, actions) && n < |states|
    ensures Inv(states[n])
  {
    if n > 0 {
      RunKeeps(states, actions, n - 1);
      ActionKeeps(states[n - 1], actions[n - 1]);
    }
  }
}
