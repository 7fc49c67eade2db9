/**
  What one step of a recovery does for whom, in terms of what it meets: where footage
  may be found and when it is asked for, whom the driver switches hold back, who gets
  the video, and how the job goes on.
*/
module RecoverySteps {
  import opened Wrappers
  import opened CameraMedia
  import opened RecoveryTypes
  import opened VideoBackfill
  import opened RecoveryWorker
  import opened RecoveryPlan

  // ---- What a step meets -----------------------------------------------------------------

  /** The camera's listing needs a window: the stored one and the job's vehicle, or one around the event. */
  ghost predicate HasListing(job: Job, cfg: Cfg) {
    if job.windowStart.Some? && job.windowEnd.Some? then job.vehicleId.Some? && job.vehicleId.value != ""
    else BuildRetrievalWindow(job.rawEvent, cfg.beforeSeconds, cfg.afterSeconds).Some?
  }

  /** One of the three reads brings a clip: the event, the retrieval the job owns, the camera's listing. */
  ghost predicate AReadBrings(job: Job, cfg: Cfg, env: Env) {
    || HasUrls(env.refetch)
    || (job.retrievalId.Some? && HasUrls(env.byId))
    || (HasListing(job, cfg) && HasUrls(env.listed))
  }

  /** These are the links of the first read, in that order, that brings any. */
  ghost predicate ReadBrings(job: Job, cfg: Cfg, env: Env, urls: Urls) {
    && HasUrls(urls)
    && (HasUrls(env.refetch) ==> urls == env.refetch)
    && (!HasUrls(env.refetch) && job.retrievalId.Some? && HasUrls(env.byId) ==> urls == env.byId)
    && (!HasUrls(env.refetch) && !(job.retrievalId.Some? && HasUrls(env.byId)) ==>
          HasListing(job, cfg) && urls == env.listed)
  }

  /** Footage may be asked for: it is switched on, nobody has asked, and the event says for which seconds. */
  ghost predicate MayAsk(job: Job, cfg: Cfg) {
    && cfg.retrievalEnabled && job.retrievalId.None? && job.requestedAt.None?
    && BuildRetrievalWindow(job.rawEvent, cfg.beforeSeconds, cfg.afterSeconds).Some?
  }

  /** The step has footage: a read brought it, or the answer to a request did. */
  ghost predicate Footage(job: Job, cfg: Cfg, env: Env, urls: Urls) {
    || ReadBrings(job, cfg, env, urls)
    || (!AReadBrings(job, cfg, env) && MayAsk(job, cfg) && env.ask.Accepted? && HasUrls(urls) && urls == env.ask.urls)
  }

  ghost predicate NoFootage(job: Job, cfg: Cfg, env: Env) {
    !AReadBrings(job, cfg, env) && !(MayAsk(job, cfg) && env.ask.Accepted? && HasUrls(env.ask.urls))
  }

  ghost predicate IsOff(r: Ref, env: Env) {
    r.botKind.DriverBot? && env.answer(r).switch.SwitchOff?
  }

  ghost predicate IsUnreadable(r: Ref, env: Env) {
    r.botKind.DriverBot? && env.answer(r).switch.SwitchUnreadable?
  }

  /** Telegram takes the clip in one of the forms in which it is offered. */
  ghost predicate Takes(urls: Urls, answer: TargetAnswer) {
    (urls.forward.Some? && urls.inward.Some? && answer.dual) || answer.single
  }

  /** A message that is to be sent to, and whose chat takes the clip. */
  ghost predicate IsServed(r: Ref, env: Env, urls: Urls) {
    env.downloader && !IsOff(r, env) && !IsUnreadable(r, env) && env.answer(r).botReady && Takes(urls, env.answer(r))
  }

  // ---- Where footage is found ---------------------------------------------------------------

  lemma LookBrings(job: Job, cfg: Cfg, env: Env)
    ensures HasUrls(Look(job, cfg, env)) <==> AReadBrings(job, cfg, env)
    ensures HasUrls(Look(job, cfg, env)) ==> ReadBrings(job, cfg, env, Look(job, cfg, env))
    ensures forall urls :: ReadBrings(job, cfg, env, urls) ==> urls == Look(job, cfg, env)
    ensures AsksNow(job, cfg, env) <==> !AReadBrings(job, cfg, env) && MayAsk(job, cfg)
  {}

  lemma DeliverHasNoAsk(job: Job, cfg: Cfg, env: Env, urls: Urls)
    ensures forall e :: e in Deliver(job, cfg, env, urls) ==> !e.Ask?
  {
    forall e | e in Deliver(job, cfg, env, urls)
      ensures !e.Ask?
    {
      FoldInAllHas(Sorted(job.targets, env.answer, Send), urls, env.answer, e);
    }
  }

  /**
    Footage is asked for exactly when there is somebody to serve, none of the three reads
    brought any, and it may be asked for; and then for the event's window, before
    anything else.
  */
  lemma AsksExactlyWhen(job: Job, cfg: Cfg, env: Env)
    ensures var step := Step(job, cfg, env);
      && ((exists e :: e in step && e.Ask?) <==>
            job.targets != [] && !AReadBrings(job, cfg, env) && MayAsk(job, cfg))
      && (forall e :: e in step && e.Ask? ==>
            e == step[0] == Ask(BuildRetrievalWindow(job.rawEvent, cfg.beforeSeconds, cfg.afterSeconds).value, env.ask))
  {
    hide Look, Deliver;
    LookBrings(job, cfg, env);
    DeliverHasNoAsk(job, cfg, env, Look(job, cfg, env));
    DeliverHasNoAsk(job, cfg, env, AnswerUrls(env.ask));
    var step := Step(job, cfg, env);
    if job.targets != [] && AsksNow(job, cfg, env) {
      assert step[0] in step;
    }
  }

  // ---- Whom a delivery serves ----------------------------------------------------------------

  /** What a fold-in does to one message. */
  ghost predicate FoldsIn(e: Effect, targets: seq<Ref>, urls: Urls, answer: Ref -> TargetAnswer) {
    && (e.Post? || e.Erase?) && e.ref in targets && GetsVideo(e.ref, urls, answer(e.ref))
    && (e.Erase? ==> e.ref.messageId.Some? && answer(e.ref).erase)
  }

  lemma {:induction false} FoldInAllHas(targets: seq<Ref>, urls: Urls, answer: Ref -> TargetAnswer, e: Effect)
    ensures e in FoldInAll(targets, urls, answer) <==> FoldsIn(e, targets, urls, answer)
  {
    if targets != [] {
      var init, last := targets[..|targets| - 1], targets[|targets| - 1];
      assert targets == init + [last];
      FoldInAllHas(init, urls, answer, e);
    }
  }

  lemma DropAllHas(refs: seq<Ref>, e: Effect)
    ensures e in DropAll(refs) <==> e.Drop? && e.ref in refs
  {
    if e.Drop? && e.ref in refs {
      var i :| 0 <= i < |refs| && refs[i] == e.ref;
      assert DropAll(refs)[i] == e;
    }
  }

  /** Of every message a delivery meets, by its own switch and its own chat's answers. */
  lemma DeliveryServes(job: Job, env: Env, urls: Urls, r: Ref)
    requires HasUrls(urls)
    ensures var (effects, remaining) := Delivery(job, env, urls);
      && (Drop(r) in effects <==> r in job.targets && IsOff(r, env))
      && (Post(r) in effects <==> r in job.targets && IsServed(r, env, urls))
      && (Erase(r) in effects <==>
            r in job.targets && IsServed(r, env, urls) && r.messageId.Some? && env.answer(r).erase)
      && (r in remaining <==> r in job.targets && !IsOff(r, env) && !IsServed(r, env, urls))
  {
    var send := Sorted(job.targets, env.answer, Send);
    var dropped := Sorted(job.targets, env.answer, Dropped);
    FoldInAllHas(send, urls, env.answer, Post(r));
    FoldInAllHas(send, urls, env.answer, Erase(r));
    FoldInAllHas(send, urls, env.answer, Drop(r));
    DropAllHas(dropped, Post(r));
    DropAllHas(dropped, Erase(r));
    DropAllHas(dropped, Drop(r));
  }

  /**
    A step with footage, message by message. A driver's group switched off is dropped and
    waits no more; one whose switch cannot be read, and whoever the clip cannot be sent
    to, goes on waiting; everybody else has the clip, and loses the text if it can be
    deleted. Nobody but a driver's group switched off is ever dropped.
  */
  lemma StepServes(job: Job, cfg: Cfg, env: Env, urls: Urls, r: Ref)
    requires job.targets != [] && Footage(job, cfg, env, urls)
    ensures var step := Step(job, cfg, env);
      && (Drop(r) in step <==> r in job.targets && IsOff(r, env))
      && (Post(r) in step <==> r in job.targets && IsServed(r, env, urls))
      && (Erase(r) in step <==> Post(r) in step && r.messageId.Some? && env.answer(r).erase)
      && step[|step| - 1].Write?
      && (r in TargetsAfter(job, step[|step| - 1].cmd) <==>
            r in job.targets && !IsOff(r, env) && !IsServed(r, env, urls))
  {
    hide Look, Delivery;
    LookBrings(job, cfg, env);
    DeliveryServes(job, env, urls, r);
  }

  /** A step without footage touches nobody, and everybody goes on waiting. */
  lemma NoFootageNobodyTouched(job: Job, cfg: Cfg, env: Env)
    requires job.targets != [] && NoFootage(job, cfg, env)
    ensures var step := Step(job, cfg, env);
      && (forall e :: e in step ==> e.Ask? || e.Write?)
      && step[|step| - 1].Write? && TargetsAfter(job, step[|step| - 1].cmd) == job.targets
  {
    hide Look;
    LookBrings(job, cfg, env);
  }

  // ---- How the job goes on --------------------------------------------------------------------

  /** This was the last attempt the budget allows. */
  ghost predicate IsLastAttempt(job: Job, cfg: Cfg) {
    job.attempts >= cfg.maxAttempts - 1
  }

  /**
    How a step leaves its job. It is completed exactly when nobody waits any more;
    otherwise it goes on, after the settings' interval, until its last attempt, and
    then ends as failed if there was footage and as without video if there was none. A
    request is recorded with its window and, if Samsara named one, its id.
  */
  lemma StepEnds(job: Job, cfg: Cfg, env: Env)
    ensures var step := Step(job, cfg, env);
      && step != [] && step[|step| - 1].Write? && !step[|step| - 1].thrown
      && var cmd := step[|step| - 1].cmd;
         var asked := step[0].Ask?;
         var found := job.targets != [] && !NoFootage(job, cfg, env);
      && (cmd.status.Completed? <==> TargetsAfter(job, cmd) == [])
      && (cmd.Reschedule? <==> TargetsAfter(job, cmd) != [] && !IsLastAttempt(job, cfg))
      && (!cmd.status.Completed? ==>
            && (cmd.Finish? ==> cmd.status == if found then Failed else NoVideo)
            && (cmd.Reschedule? ==>
                  && cmd.delaySeconds == cfg.retrySeconds
                  && cmd.status == (if found then VideoAvailable
                                    else if asked || job.retrievalId.Some? then PendingRetrieval else PendingRecheck)
                  && (cmd.requested <==> asked && !found && !env.ask.Refused?)
                  && (cmd.retrievalId == if asked && !found && env.ask.Accepted? then env.ask.id else None)
                  && (if asked && !found
                      then cmd.windowStart == Some(step[0].window.startMs)
                           && cmd.windowEnd == Some(step[0].window.endMs)
                      else cmd.windowStart.None? && cmd.windowEnd.None?)))
  {
    hide Look, Delivery;
    LookBrings(job, cfg, env);
    if job.targets != [] {
      DeliverEnds(job, cfg, env, Look(job, cfg, env));
      DeliverEnds(job, cfg, env, AnswerUrls(env.ask));
    }
  }

  lemma DeliverEnds(job: Job, cfg: Cfg, env: Env, urls: Urls)
    ensures var calls := Deliver(job, cfg, env, urls);
      && calls != [] && calls[|calls| - 1] == Write(AfterDelivery(job, cfg, Delivery(job, env, urls).1), false)
      && !calls[0].Ask?
  {
    DeliverHasNoAsk(job, cfg, env, urls);
    assert Deliver(job, cfg, env, urls)[0] in Deliver(job, cfg, env, urls);
  }

  /** A step that throws keeps what it has done so far, and goes on after the same interval, as it was. */
  lemma ThrownStepWaitsAsItWas(job: Job, cfg: Cfg, env: Env)
    ensures Plan(job, cfg, env) != []
    ensures var plan, step := Plan(job, cfg, env), Step(job, cfg, env);
            var last := plan[|plan| - 1];
      && plan[..|plan| - 1] <= step
      && (env.throwAfter.None? ==> plan == step)
      && (last.Write? && last.thrown ==>
            && last.cmd.Reschedule? && last.cmd.status == job.status && last.cmd.delaySeconds == cfg.retrySeconds
            && TargetsAfter(job, last.cmd) == job.targets && !last.cmd.requested && last.cmd.retrievalId.None?)
  {
    StepEnds(job, cfg, env);
    hide Step;
    var plan, step := Plan(job, cfg, env), Step(job, cfg, env);
    if env.throwAfter.Some? && env.throwAfter.value < |step| {
      assert plan[..|plan| - 1] == step[..env.throwAfter.value];
    }
  }

  /** A driver's group dropped was switched off, and nobody is posted to whose switch is off or cannot be read. */
  lemma SwitchDecides(job: Job, cfg: Cfg, env: Env, e: Effect)
    requires e in Plan(job, cfg, env)
    ensures e.Drop? ==> e.ref in job.targets && IsOff(e.ref, env)
    ensures e.Post? ==> e.ref in job.targets && !IsOff(e.ref, env) && !IsUnreadable(e.ref, env)
  {
    hide Step;
    if e.Drop? || e.Post? {
      assert e in Step(job, cfg, env);
      StepServesIt(job, cfg, env, e);
    }
  }

  lemma StepServesIt(job: Job, cfg: Cfg, env: Env, e: Effect)
    requires e in Step(job, cfg, env) && (e.Drop? || e.Post?)
    ensures e.ref in job.targets
    ensures if e.Drop? then IsOff(e.ref, env) else !IsOff(e.ref, env) && !IsUnreadable(e.ref, env)
  {
    hide Look, Delivery, AnswerUrls;
    if NoFootage(job, cfg, env) {
      if job.targets != [] {
        NoFootageNobodyTouched(job, cfg, env);
      }
    } else if AReadBrings(job, cfg, env) {
      LookBrings(job, cfg, env);
      StepServes(job, cfg, env, Look(job, cfg, env), e.ref);
    } else {
      StepServes(job, cfg, env, env.ask.urls, e.ref);
    }
  }
}
