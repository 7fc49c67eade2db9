/**
  What every step keeps to, whatever the settings and whatever answers it meets.
  The runs of `RecoveryRuns` need nothing else about a step.
*/
module RecoveryPlan {
  import opened CameraMedia
  import opened RecoveryTypes
  import opened VideoBackfill
  import opened RecoveryWorker

  /** Among the first `n` effects of the plan there is a video for this chat. */
  ghost predicate Posted(plan: seq<Effect>, n: nat, chat: string) {
    exists i :: 0 <= i < n && i < |plan| && plan[i].Post? && plan[i].ref.chatId == chat
  }

  ghost predicate DroppedNow(plan: seq<Effect>, n: nat, chat: string) {
    exists i :: 0 <= i < n && i < |plan| && plan[i].Drop? && plan[i].ref.chatId == chat
  }

  /** A request that may have reached Samsara and brought no media back at once. */
  predicate MustNotRepeat(e: Effect) {
    e.Ask? && !e.answer.Refused? && !HasUrls(AnswerUrls(e.answer))
  }

  /** The step has given this message its video, or has been told never to. */
  ghost predicate Served(effects: seq<Effect>, r: Ref) {
    Posted(effects, |effects|, r.chatId) || DroppedNow(effects, |effects|, r.chatId)
  }

  ghost predicate AskedNow(plan: seq<Effect>, n: nat) {
    exists i :: 0 <= i < n && i < |plan| && MustNotRepeat(plan[i])
  }

  /** The targets of the row once the command has landed. */
  function TargetsAfter(job: Job, cmd: WriteCmd): seq<Ref> {
    if cmd.targets.Some? then cmd.targets.value else job.targets
  }

  /** The outside effects of a step, without its write. */
  ghost predicate EffectsOk(job: Job, effects: seq<Effect>) {
    && (forall i :: 0 <= i < |effects| ==> !effects[i].Write?)
    && (forall i :: 0 <= i < |effects| && !effects[i].Ask? ==> effects[i].ref in job.targets)
    && (forall i, j :: 0 <= i < j < |effects| && effects[i].Post? && effects[j].Post?
          ==> effects[i].ref.chatId != effects[j].ref.chatId)
    && (forall i, j :: 0 <= i < |effects| && 0 <= j < |effects| && effects[i].Post? && effects[j].Drop?
          ==> effects[i].ref.chatId != effects[j].ref.chatId)
    && (forall i :: 0 <= i < |effects| && effects[i].Erase? ==> i > 0 && effects[i - 1] == Post(effects[i].ref))
    && (forall i :: 0 <= i < |effects| && effects[i].Ask?
          ==> i == 0 && !Asked(job) && Covers(effects[i].window, job.rawEvent))
  }

  /**
    The closing write of a step that did not throw: exactly the messages neither
    posted to nor dropped stay, a request that must not be repeated is recorded,
    and the job goes on only while the budget lasts.
  */
  ghost predicate WriteOk(job: Job, budget: int, effects: seq<Effect>, cmd: WriteCmd) {
    var after := TargetsAfter(job, cmd);
    && DistinctChats(after)
    && (forall r :: r in after <==> r in job.targets && !Served(effects, r))
    && (cmd.Reschedule? ==> Open(cmd.status) && job.attempts + 1 < budget)
    && (cmd.Reschedule? && AskedNow(effects, |effects|) ==> cmd.requested)
    && (cmd.Reschedule? && cmd.retrievalId.Some? ==> AskedNow(effects, |effects|))
    && (cmd.Finish? ==> !Open(cmd.status))
    && (cmd.status.Completed? ==> after == [])
  }

  ghost predicate PlanOk(job: Job, budget: int, plan: seq<Effect>) {
    && |plan| > 0
    && var last := |plan| - 1;
       && plan[last].Write?
       && EffectsOk(job, plan[..last])
       && (if plan[last].thrown
           then plan[last].cmd.Reschedule? && plan[last].cmd.status == job.status
                && plan[last].cmd.targets.None? && plan[last].cmd.retrievalId.None?
           else WriteOk(job, budget, plan[..last], plan[last].cmd))
  }

  // ---- Lists of messages ------------------------------------------------------

  lemma {:induction false} SortedKeepsDistinct(targets: seq<Ref>, answer: Ref -> TargetAnswer, d: Disposition)
    requires DistinctChats(targets)
    ensures DistinctChats(Sorted(targets, answer, d))
  {
    if targets != [] {
      var init := targets[..|targets| - 1];
      assert targets == init + [targets[|targets| - 1]];
      SortedKeepsDistinct(init, answer, d);
      assert forall r :: r in init ==> r.chatId != targets[|targets| - 1].chatId;
      assert forall r :: r in Sorted(init, answer, d) ==> r in init;
    }
  }

  lemma {:induction false} MissedKeepsDistinct(targets: seq<Ref>, urls: Urls, answer: Ref -> TargetAnswer)
    requires DistinctChats(targets)
    ensures DistinctChats(Missed(targets, urls, answer))
  {
    if targets != [] {
      var init := targets[..|targets| - 1];
      assert targets == init + [targets[|targets| - 1]];
      MissedKeepsDistinct(init, urls, answer);
      assert forall r :: r in init ==> r.chatId != targets[|targets| - 1].chatId;
      assert forall r :: r in Missed(init, urls, answer) ==> r in init;
    }
  }

  lemma SameChatSameRef(targets: seq<Ref>, a: Ref, b: Ref)
    requires DistinctChats(targets) && a in targets && b in targets && a.chatId == b.chatId
    ensures a == b
  {}

  lemma JoinKeepsDistinct(targets: seq<Ref>, a: seq<Ref>, b: seq<Ref>)
    requires DistinctChats(targets) && DistinctChats(a) && DistinctChats(b)
    requires forall r :: r in a ==> r in targets && r !in b
    requires forall r :: r in b ==> r in targets
    ensures DistinctChats(a + b)
  {
    forall i, j | 0 <= i < |a| && 0 <= j < |b|
      ensures a[i].chatId != b[j].chatId
    {
      assert a[i] in a && b[j] in b;
      if a[i].chatId == b[j].chatId {
        SameChatSameRef(targets, a[i], b[j]);
      }
    }
  }

  /** Bot calls on messages that get their video, each message once, each deletion right after its video. */
  ghost predicate CallsOk(targets: seq<Ref>, urls: Urls, answer: Ref -> TargetAnswer, calls: seq<Effect>) {
    && (forall i :: 0 <= i < |calls| ==> calls[i].Post? || calls[i].Erase?)
    && (forall i :: 0 <= i < |calls| ==> calls[i].ref in targets && GetsVideo(calls[i].ref, urls, answer(calls[i].ref)))
    && (forall i, j :: 0 <= i < j < |calls| && calls[i].Post? && calls[j].Post?
          ==> calls[i].ref.chatId != calls[j].ref.chatId)
    && (forall i :: 0 <= i < |calls| && calls[i].Erase? ==> i > 0 && calls[i - 1] == Post(calls[i].ref))
  }

  lemma OneFoldIn(targets: seq<Ref>, urls: Urls, answer: Ref -> TargetAnswer, r: Ref)
    requires r in targets
    ensures var mine := FoldIn(r, urls, answer(r));
      && CallsOk(targets, urls, answer, mine)
      && (forall i :: 0 <= i < |mine| ==> mine[i].ref == r)
      && (GetsVideo(r, urls, answer(r)) ==> Post(r) in mine)
  {
    if GetsVideo(r, urls, answer(r)) {
      assert FoldIn(r, urls, answer(r))[0] == Post(r);
    }
  }

  lemma MoreTargets(init: seq<Ref>, last: Ref, urls: Urls, answer: Ref -> TargetAnswer, calls: seq<Effect>)
    requires CallsOk(init, urls, answer, calls)
    ensures CallsOk(init + [last], urls, answer, calls)
  {}

  /** The bot calls of a fold-in: one video per message that gets one, each deletion right after its video. */
  lemma {:induction false} FoldInAllFacts(targets: seq<Ref>, urls: Urls, answer: Ref -> TargetAnswer)
    requires DistinctChats(targets)
    ensures CallsOk(targets, urls, answer, FoldInAll(targets, urls, answer))
    ensures forall r :: r in targets && GetsVideo(r, urls, answer(r)) ==> Post(r) in FoldInAll(targets, urls, answer)
  {
    if targets != [] {
      var init, last := targets[..|targets| - 1], targets[|targets| - 1];
      assert targets == init + [last];
      FoldInAllFacts(init, urls, answer);
      var before, mine := FoldInAll(init, urls, answer), FoldIn(last, urls, answer(last));
      assert forall i :: 0 <= i < |before| ==> before[i].ref in init;
      MoreTargets(init, last, urls, answer, before);
      OneFoldIn(targets, urls, answer, last);
      assert forall r :: r in init ==> r.chatId != last.chatId;
      CallsJoin(targets, urls, answer, before, mine);
    }
  }

  lemma CallsJoin(targets: seq<Ref>, urls: Urls, answer: Ref -> TargetAnswer, before: seq<Effect>, mine: seq<Effect>)
    requires CallsOk(targets, urls, answer, before) && CallsOk(targets, urls, answer, mine)
    requires forall i, j :: 0 <= i < |before| && 0 <= j < |mine| ==> before[i].ref.chatId != mine[j].ref.chatId
    ensures CallsOk(targets, urls, answer, before + mine)
  {
    var calls := before + mine;
    forall i | 0 <= i < |calls| && calls[i].Erase?
      ensures i > 0 && calls[i - 1] == Post(calls[i].ref)
    {
      if i >= |before| {
        assert calls[i] == mine[i - |before|];
        assert calls[i - 1] == mine[i - |before| - 1];
      }
    }
  }

  // ---- The step ------------------------------------------------------------------

  /** Somebody is to be sent to, and a downloader is there. */
  predicate Folding(job: Job, env: Env) {
    Sorted(job.targets, env.answer, Send) != [] && env.downloader
  }

  function CallsMade(job: Job, env: Env, urls: Urls): seq<Effect> {
    if Folding(job, env) then FoldInAll(Sorted(job.targets, env.answer, Send), urls, env.answer) else []
  }

  lemma DeliveryShape(job: Job, env: Env, urls: Urls)
    requires DistinctChats(job.targets)
    ensures var (effects, remaining) := Delivery(job, env, urls);
            var send := Sorted(job.targets, env.answer, Send);
            var calls := CallsMade(job, env, urls);
      && effects == DropAll(Sorted(job.targets, env.answer, Dropped)) + calls
      && CallsOk(send, urls, env.answer, calls)
      && (Folding(job, env) ==> forall q :: q in send && GetsVideo(q, urls, env.answer(q)) ==> Post(q) in calls)
      && DistinctChats(remaining)
  {
    var send := Sorted(job.targets, env.answer, Send);
    var held := Sorted(job.targets, env.answer, Held);
    SortedKeepsDistinct(job.targets, env.answer, Send);
    SortedKeepsDistinct(job.targets, env.answer, Held);
    if Folding(job, env) {
      FoldInAllFacts(send, urls, env.answer);
      MissedKeepsDistinct(send, urls, env.answer);
      JoinKeepsDistinct(job.targets, Missed(send, urls, env.answer), held);
    } else {
      JoinKeepsDistinct(job.targets, send, held);
      assert [] + held == held;
    }
  }

  /** A message stays on the job exactly when this delivery did not serve it. */
  lemma DeliveryRemaining(job: Job, env: Env, urls: Urls, r: Ref)
    requires DistinctChats(job.targets)
    ensures r in Delivery(job, env, urls).1 <==> r in job.targets && !Served(Delivery(job, env, urls).0, r)
  {
    var send := Sorted(job.targets, env.answer, Send);
    var calls := CallsMade(job, env, urls);
    DeliveryShape(job, env, urls);
    if r in job.targets {
      DeliveryDrops(job, env, urls, send, calls, r);
      DeliveryPosts(job.targets, urls, env.answer, DropAll(Sorted(job.targets, env.answer, Dropped)), send, calls,
                    Folding(job, env), r);
    }
  }

  /** What `deliverVideo` does is in order, and what it leaves is exactly what it did not serve. */
  lemma DeliveryFacts(job: Job, env: Env, urls: Urls)
    requires DistinctChats(job.targets)
    ensures var (effects, remaining) := Delivery(job, env, urls);
      && EffectsOk(job, effects)
      && DistinctChats(remaining)
      && (forall i :: 0 <= i < |effects| ==> !effects[i].Ask?)
      && (forall r :: r in remaining <==> r in job.targets && !Served(effects, r))
  {
    DeliveryShape(job, env, urls);
    DeliveryEffects(job, env, urls, Sorted(job.targets, env.answer, Dropped), Sorted(job.targets, env.answer, Send),
                    CallsMade(job, env, urls));
    forall r
      ensures r in Delivery(job, env, urls).1 <==> r in job.targets && !Served(Delivery(job, env, urls).0, r)
    {
      DeliveryRemaining(job, env, urls, r);
    }
  }

  /** Nobody is both dropped and posted to: the switch gives one answer. */
  lemma DroppedGetNothing(job: Job, env: Env, drop: Effect, call: Effect)
    requires DistinctChats(job.targets) && drop.Drop? && call.Post?
    requires drop.ref in Sorted(job.targets, env.answer, Dropped) && call.ref in Sorted(job.targets, env.answer, Send)
    ensures call.ref.chatId != drop.ref.chatId
  {
    if call.ref.chatId == drop.ref.chatId {
      SameChatSameRef(job.targets, call.ref, drop.ref);
    }
  }

  lemma ErasesStayBehind(drops: seq<Effect>, calls: seq<Effect>, targets: seq<Ref>, urls: Urls,
                         answer: Ref -> TargetAnswer,
                         i: nat)
    requires CallsOk(targets, urls, answer, calls) && forall k :: 0 <= k < |drops| ==> drops[k].Drop?
    requires i < |drops + calls| && (drops + calls)[i].Erase?
    ensures i > 0 && (drops + calls)[i - 1] == Post((drops + calls)[i].ref)
  {
    assert (drops + calls)[i] == calls[i - |drops|];
  }

  lemma DeliveryEffects(job: Job, env: Env, urls: Urls, dropped: seq<Ref>, send: seq<Ref>, calls: seq<Effect>)
    requires DistinctChats(job.targets)
    requires dropped == Sorted(job.targets, env.answer, Dropped) && send == Sorted(job.targets, env.answer, Send)
    requires CallsOk(send, urls, env.answer, calls)
    ensures EffectsOk(job, DropAll(dropped) + calls)
  {
    hide Sorted;
    var drops := DropAll(dropped);
    var effects := drops + calls;
    forall i, j | 0 <= i < |effects| && 0 <= j < |effects| && effects[i].Post? && effects[j].Drop?
      ensures effects[i].ref.chatId != effects[j].ref.chatId
    {
      DroppedGetNothing(job, env, effects[j], effects[i]);
    }
    forall i | 0 <= i < |effects| && effects[i].Erase?
      ensures i > 0 && effects[i - 1] == Post(effects[i].ref)
    {
      ErasesStayBehind(drops, calls, send, urls, env.answer, i);
    }
  }

  /** A waiting message is dropped according to its own switch ... */
  lemma DeliveryDrops(job: Job, env: Env, urls: Urls, send: seq<Ref>, calls: seq<Effect>, r: Ref)
    requires DistinctChats(job.targets) && r in job.targets && CallsOk(send, urls, env.answer, calls)
    ensures var dropped := Sorted(job.targets, env.answer, Dropped);
            var effects := DropAll(dropped) + calls;
            DroppedNow(effects, |effects|, r.chatId) <==> r in dropped
  {
    var dropped := Sorted(job.targets, env.answer, Dropped);
    var effects := DropAll(dropped) + calls;
    if r in dropped {
      var i :| 0 <= i < |dropped| && dropped[i] == r;
      assert effects[i] == Drop(r);
    }
    if DroppedNow(effects, |effects|, r.chatId) {
      var i :| 0 <= i < |effects| && effects[i].Drop? && effects[i].ref.chatId == r.chatId;
      assert effects[i].ref in dropped;
      SameChatSameRef(job.targets, r, effects[i].ref);
    }
  }

  /** ... and otherwise gets its video according to its own answers. */
  lemma DeliveryPosts(targets: seq<Ref>, urls: Urls, answer: Ref -> TargetAnswer, drops: seq<Effect>, send: seq<Ref>,
                      calls: seq<Effect>, folding: bool, r: Ref)
    requires DistinctChats(targets) && r in targets && CallsOk(send, urls, answer, calls)
    requires forall q :: q in send ==> q in targets
    requires if folding then forall q :: q in send && GetsVideo(q, urls, answer(q)) ==> Post(q) in calls
             else calls == []
    requires forall i :: 0 <= i < |drops| ==> drops[i].Drop?
    ensures var effects := drops + calls;
            Posted(effects, |effects|, r.chatId) <==> folding && r in send && GetsVideo(r, urls, answer(r))
  {
    var effects := drops + calls;
    if folding && r in send && GetsVideo(r, urls, answer(r)) {
      var i :| 0 <= i < |calls| && calls[i] == Post(r);
      assert effects[|drops| + i] == Post(r);
    }
    if Posted(effects, |effects|, r.chatId) {
      var i :| 0 <= i < |effects| && effects[i].Post? && effects[i].ref.chatId == r.chatId;
      assert effects[i] == calls[i - |drops|];
      SameChatSameRef(targets, r, effects[i].ref);
    }
  }

  /** A delivery, whether or not footage came with the request just made, ends in a write that fits it. */
  lemma DeliverKeepsPlan(job: Job, cfg: Cfg, env: Env, urls: Urls, asked: seq<Effect>)
    requires DistinctChats(job.targets) && job.targets != [] && HasUrls(urls)
    requires asked == []
             || (|asked| == 1 && asked[0].Ask? && !Asked(job) && Covers(asked[0].window, job.rawEvent)
                 && HasUrls(AnswerUrls(asked[0].answer)))
    ensures PlanOk(job, cfg.maxAttempts, asked + Deliver(job, cfg, env, urls))
  {
    hide EffectsOk, WriteOk, Delivery, AfterDelivery, Asked, Covers, AnswerUrls;
    DeliveryFacts(job, env, urls);
    var (effects, remaining) := Delivery(job, env, urls);
    var cmd := AfterDelivery(job, cfg, remaining);
    var plan := asked + Deliver(job, cfg, env, urls);
    assert plan == (asked + effects) + [Write(cmd, false)];
    assert plan[..|plan| - 1] == asked + effects;
    AskFirst(job, asked, effects);
    WriteFits(job, cfg, asked, effects, remaining);
  }

  lemma AskFirst(job: Job, asked: seq<Effect>, effects: seq<Effect>)
    requires asked == [] || (|asked| == 1 && asked[0].Ask? && !Asked(job) && Covers(asked[0].window, job.rawEvent))
    requires EffectsOk(job, effects) && forall i :: 0 <= i < |effects| ==> !effects[i].Ask?
    ensures EffectsOk(job, asked + effects)
  {
    var all := asked + effects;
    forall i | 0 <= i < |all| && all[i].Erase?
      ensures i > 0 && all[i - 1] == Post(all[i].ref)
    {
      assert all[i] == effects[i - |asked|];
    }
  }

  lemma WriteFits(job: Job, cfg: Cfg, asked: seq<Effect>, effects: seq<Effect>, remaining: seq<Ref>)
    requires asked == [] || (|asked| == 1 && asked[0].Ask? && HasUrls(AnswerUrls(asked[0].answer)))
    requires DistinctChats(remaining)
    requires forall r :: r in remaining <==> r in job.targets && !Served(effects, r)
    requires forall i :: 0 <= i < |effects| ==> !effects[i].Ask?
    ensures WriteOk(job, cfg.maxAttempts, asked + effects, AfterDelivery(job, cfg, remaining))
  {
    forall r
      ensures Served(asked + effects, r) <==> Served(effects, r)
    {
      AskServesNobody(asked, effects, r);
    }
    assert TargetsAfter(job, AfterDelivery(job, cfg, remaining)) == remaining;
  }

  lemma AskServesNobody(asked: seq<Effect>, effects: seq<Effect>, r: Ref)
    requires |asked| <= 1 && (asked == [] || asked[0].Ask?)
    ensures Served(asked + effects, r) <==> Served(effects, r)
  {
    var all := asked + effects;
    if Posted(effects, |effects|, r.chatId) {
      var i :| 0 <= i < |effects| && effects[i].Post? && effects[i].ref.chatId == r.chatId;
      assert all[|asked| + i] == effects[i];
    }
    if DroppedNow(effects, |effects|, r.chatId) {
      var i :| 0 <= i < |effects| && effects[i].Drop? && effects[i].ref.chatId == r.chatId;
      assert all[|asked| + i] == effects[i];
    }
  }

  /**
    Every step keeps to its plan: no message twice, survivors written exactly, no repeated
    request, budget respected.
  */
  lemma StepKeepsPlan(job: Job, cfg: Cfg, env: Env)
    requires DistinctChats(job.targets)
    ensures PlanOk(job, cfg.maxAttempts, Step(job, cfg, env)) && !Step(job, cfg, env)[|Step(job, cfg, env)| - 1].thrown
  {
    hide Look, AnswerUrls;
    var step := Step(job, cfg, env);
    if job.targets == [] {
      assert step[..0] == [];
    } else if HasUrls(Look(job, cfg, env)) {
      DeliverKeepsPlan(job, cfg, env, Look(job, cfg, env), []);
      assert [] + step == step;
    } else if !AsksNow(job, cfg, env) {
      assert step[..0] == [];
    } else {
      WindowHoldsTheEvent(job.rawEvent.value, cfg.beforeSeconds, cfg.afterSeconds);
      var asked := [Ask(WindowFor(job, cfg).value, env.ask)];
      if HasUrls(AnswerUrls(env.ask)) {
        DeliverKeepsPlan(job, cfg, env, AnswerUrls(env.ask), asked);
      } else {
        assert step[..1] == asked;
        assert MustNotRepeat(asked[0]) <==> !env.ask.Refused?;
      }
    }
  }

  /** The same when something throws on the way and the catch writes instead. */
  lemma PlanKeepsPlan(job: Job, cfg: Cfg, env: Env)
    requires DistinctChats(job.targets)
    ensures PlanOk(job, cfg.maxAttempts, Plan(job, cfg, env))
  {
    hide Step;
    StepKeepsPlan(job, cfg, env);
    var step, plan := Step(job, cfg, env), Plan(job, cfg, env);
    if plan != step {
      var n := env.throwAfter.value;
      var effects := step[..|step| - 1];
      assert plan[..|plan| - 1] == effects[..n];
    }
  }
}
