/** What the queue and the dedup sets keep in every interleaving of poll steps and queue steps. */
module AlertQueueTheorems {
  import opened AlertQueue

  // ---- Where every pending event is ------------------------------------------------------

  function InFlight(loops: seq<Loop>): multiset<string> {
    if loops == [] || loops[0].Waiting? then multiset{} else multiset{loops[0].id}
  }

  function InTransform(polling: Poll): multiset<string> {
    if polling.Transforming? then multiset{polling.id} else multiset{}
  }

  function Places(s: State): multiset<string> {
    multiset(s.queue) + InFlight(s.loops) + InTransform(s.polling) + multiset(s.dropped) + multiset(s.leaked)
  }

  /**
    Every pending event is in exactly one place, once; `extra` is what is being
    moved. And every event picked up is still pending or has ended.
  */
  ghost predicate Accounted(s: State, extra: multiset<string>) {
    && multiset(s.pending) == Places(s) + extra
    && multiset(s.picked) == Places(s) + extra + s.ended
  }

  /** One run of the queue at most, exactly while the flag says so; an idle queue is empty. */
  ghost predicate OneLoop(s: State) {
    && |s.loops| <= 1
    && (s.isProcessing <==> s.loops != [])
    && (!s.isProcessing ==> s.queue == [])
  }

  ghost predicate Fresh(s: State) {
    && (forall id :: id in s.pending ==> id !in s.seen)
    && (s.polling.Checking? ==> s.polling.id !in s.pending && s.polling.id !in s.seen)
  }

  /** `a` is `b` with some elements left out; `at` says where each one is in `b`. */
  ghost predicate Embeds(a: seq<string>, b: seq<string>, at: seq<nat>) {
    && |at| == |a|
    && (forall i :: 0 <= i < |a| ==> at[i] < |b| && a[i] == b[at[i]])
    && (forall i, j :: 0 <= i < j < |a| ==> at[i] < at[j])
  }

  ghost predicate Subsequence(a: seq<string>, b: seq<string>) {
    exists at: seq<nat> :: Embeds(a, b, at)
  }

  /** The events picked up, but for the one being transformed. */
  function Handed(s: State): seq<string> {
    if s.polling.Transforming? && s.picked != [] then s.picked[..|s.picked| - 1] else s.picked
  }

  /** Alerts are broadcast in the order in which their events were picked up. */
  ghost predicate Ordered(s: State) {
    && (s.polling.Transforming? ==> s.picked != [] && s.picked[|s.picked| - 1] == s.polling.id)
    && Subsequence(s.started + s.queue, Handed(s))
  }

  ghost predicate Bounded(cfg: Config, s: State) {
    && (cfg.maxQueue > 0 ==> |s.queue| <= cfg.maxQueue && s.droppedCount == |s.dropped|)
    && (cfg.releases ==> s.leaked == {})
  }

  ghost predicate Inv(cfg: Config, s: State) {
    OneLoop(s) && Accounted(s, multiset{}) && Fresh(s) && Ordered(s) && Bounded(cfg, s)
  }

  // ---- Sequences and sets ------------------------------------------------------------------

  lemma BothGrow(a: seq<string>, b: seq<string>, id: string)
    requires Subsequence(a, b)
    ensures Subsequence(a + [id], b + [id]) && Subsequence(a, b + [id])
  {
    var at: seq<nat> :| Embeds(a, b, at);
    assert Embeds(a + [id], b + [id], at + [|b|]);
    assert Embeds(a, b + [id], at);
  }

  lemma OneLeftOut(a: seq<string>, b: seq<string>, k: nat)
    requires Subsequence(a, b) && k < |a|
    ensures Subsequence(a[..k] + a[k + 1..], b)
  {
    var at: seq<nat> :| Embeds(a, b, at);
    assert Embeds(a[..k] + a[k + 1..], b, at[..k] + at[k + 1..]);
  }

  lemma HeadOut(queue: seq<string>)
    requires queue != []
    ensures multiset(queue) == multiset{queue[0]} + multiset(queue[1..])
  {
    assert queue == [queue[0]] + queue[1..];
  }

  lemma SetGrows(s: set<string>, id: string)
    requires id !in s
    ensures multiset(s + {id}) == multiset(s) + multiset{id}
  {}

  lemma SetShrinks(s: set<string>, id: string)
    ensures multiset(s - {id}) == multiset(s) - multiset{id}
  {}

  // ---- The moves ---------------------------------------------------------------------------

  lemma ReleaseAccounts(s: State, extra: multiset<string>, id: string)
    requires Accounted(s, extra + multiset{id})
    ensures Accounted(Release(s, id), extra)
  {
    SetShrinks(s.pending, id);
    assert id in multiset(s.pending);
    assert extra + multiset{id} - multiset{id} == extra;
  }

  lemma HeadLeftOut(s: State, base: seq<string>)
    requires s.queue != [] && Subsequence(s.started + s.queue, base)
    ensures Subsequence(s.started + s.queue[1..], base)
  {
    OneLeftOut(s.started + s.queue, base, |s.started|);
    assert (s.started + s.queue)[..|s.started|] == s.started;
    assert (s.started + s.queue)[|s.started| + 1..] == s.queue[1..];
  }

  /** The oldest alert leaves the queue and is broadcast. */
  lemma SendKeeps(s: State, extra: multiset<string>, base: seq<string>)
    requires |s.loops| == 1 && s.loops[0].Waiting? && s.queue != []
    requires Accounted(s, extra) && Subsequence(s.started + s.queue, base)
    ensures var id := s.queue[0];
            var s' := s.(isProcessing := true, queue := s.queue[1..], loops := [Sending(id)],
                started := s.started + [id]);
            Accounted(s', extra) && Subsequence(s'.started + s'.queue, base)
  {
    HeadOut(s.queue);
    assert (s.started + [s.queue[0]]) + s.queue[1..] == s.started + s.queue;
  }

  /** It leaves the queue and is released, because nothing is wired to broadcast with. */
  lemma SkipKeeps(s: State, extra: multiset<string>, base: seq<string>)
    requires |s.loops| == 1 && s.loops[0].Waiting? && s.queue != []
    requires Accounted(s, extra) && Subsequence(s.started + s.queue, base)
    ensures var s' := Release(s.(isProcessing := true, queue := s.queue[1..], loops := [Waiting]), s.queue[0]);
            Accounted(s', extra) && Subsequence(s'.started + s'.queue, base)
  {
    HeadOut(s.queue);
    HeadLeftOut(s, base);
    var taken := s.(isProcessing := true, queue := s.queue[1..], loops := [Waiting]);
    assert Places(taken) + multiset{s.queue[0]} == Places(s);
    ReleaseAccounts(taken, extra, s.queue[0]);
  }

  lemma TurnKeeps(cfg: Config, s: State, extra: multiset<string>, base: seq<string>)
    requires |s.loops| == 1 && s.loops[0].Waiting? && Accounted(s, extra) && Subsequence(s.started + s.queue, base)
    ensures var s' := Turn(cfg, s, 0);
      && OneLoop(s') && Accounted(s', extra) && Subsequence(s'.started + s'.queue, base)
      && s'.pending <= s.pending
      && |s'.queue| == (if s.queue == [] then 0 else |s.queue| - 1)
  {
    if s.queue != [] {
      assert s.loops[0 := Sending(s.queue[0])] == [Sending(s.queue[0])];
      assert s.loops[0 := Waiting] == [Waiting];
      if cfg.wired {
        SendKeeps(s, extra, base);
      } else {
        SkipKeeps(s, extra, base);
      }
    }
  }

  lemma DropKeeps(s: State, extra: multiset<string>, base: seq<string>)
    requires s.queue != [] && Accounted(s, extra) && Subsequence(s.started + s.queue, base)
    ensures var s' := DropOldest(s);
      && Accounted(s', extra) && Subsequence(s'.started + s'.queue, base)
      && |s'.dropped| == |s.dropped| + 1
  {
    var id := s.queue[0];
    HeadOut(s.queue);
    assert id !in s.dropped by {
      assert multiset(s.pending)[id] <= 1;
      assert multiset(s.queue)[id] >= 1;
    }
    SetGrows(s.dropped, id);
    HeadLeftOut(s, base);
  }

  lemma PushKeeps(s: State, base: seq<string>, id: string)
    requires Accounted(s, multiset{id}) && Subsequence(s.started + s.queue, base)
    ensures var s' := s.(queue := s.queue + [id]);
            Accounted(s', multiset{}) && Subsequence(s'.started + s'.queue, base + [id])
  {
    BothGrow(s.started + s.queue, base, id);
    assert s.started + (s.queue + [id]) == (s.started + s.queue) + [id];
  }

  lemma RoomKeeps(cfg: Config, s: State, extra: multiset<string>, base: seq<string>)
    requires Accounted(s, extra) && Subsequence(s.started + s.queue, base) && Bounded(cfg, s)
    ensures var s' := if |s.queue| >= cfg.maxQueue then DropOldest(s) else s;
      && Accounted(s', extra) && Subsequence(s'.started + s'.queue, base) && Bounded(cfg, s')
      && (cfg.maxQueue > 0 ==> |s'.queue| < cfg.maxQueue)
      && s'.loops == s.loops && s'.isProcessing == s.isProcessing && s'.pending == s.pending
  {
    if |s.queue| >= cfg.maxQueue && s.queue != [] {
      DropKeeps(s, extra, base);
    }
  }

  /** Once there is room, the alert joins the queue, and the queue is started if it was idle. */
  lemma JoinKeeps(cfg: Config, s: State, base: seq<string>, id: string)
    requires OneLoop(s) && Accounted(s, multiset{id}) && Subsequence(s.started + s.queue, base) && Bounded(cfg, s)
    requires cfg.maxQueue > 0 ==> |s.queue| < cfg.maxQueue
    ensures var pushed := s.(queue := s.queue + [id]);
            var s' := if pushed.isProcessing then pushed
                      else Turn(cfg, pushed.(loops := pushed.loops + [Waiting]), |pushed.loops|);
      && OneLoop(s') && Accounted(s', multiset{}) && Subsequence(s'.started + s'.queue, base + [id])
      && Bounded(cfg, s') && s'.pending <= s.pending
  {
    PushKeeps(s, base, id);
    var pushed := s.(queue := s.queue + [id]);
    if !pushed.isProcessing {
      var waiting := pushed.(loops := pushed.loops + [Waiting]);
      assert Places(waiting) == Places(pushed);
      TurnKeeps(cfg, waiting, multiset{}, base + [id]);
      TurnTouches(cfg, waiting, 0);
    }
  }

  lemma QueuedKeeps(cfg: Config, s: State, base: seq<string>, id: string)
    requires OneLoop(s) && Accounted(s, multiset{id}) && Subsequence(s.started + s.queue, base) && Bounded(cfg, s)
    ensures var s' := Queued(cfg, s, id);
      && OneLoop(s') && Accounted(s', multiset{}) && Subsequence(s'.started + s'.queue, base + [id])
      && Bounded(cfg, s') && s'.pending <= s.pending
  {
    hide Accounted, Turn;
    RoomKeeps(cfg, s, multiset{id}, base);
    var room := if |s.queue| >= cfg.maxQueue then DropOldest(s) else s;
    JoinKeeps(cfg, room, base, id);
  }

  // ---- Every step --------------------------------------------------------------------------

  lemma LookKeeps(cfg: Config, s: State, id: string)
    requires Inv(cfg, s) && Enabled(s, Look(id))
    ensures Inv(cfg, Next(cfg, s, Look(id)))
  {}

  lemma PickAccounts(s: State, id: string)
    requires Accounted(s, multiset{}) && id !in s.pending && s.polling == Checking(id)
    ensures Accounted(s.(pending := s.pending + {id}, picked := s.picked + [id], polling := Transforming(id)),
                      multiset{})
  {
    SetGrows(s.pending, id);
  }

  lemma LookedUpKeeps(cfg: Config, s: State, processed: bool)
    requires Inv(cfg, s) && Enabled(s, LookedUp(processed))
    ensures Inv(cfg, Next(cfg, s, LookedUp(processed)))
  {
    var s' := Next(cfg, s, LookedUp(processed));
    if !processed {
      PickAccounts(s, s.polling.id);
      assert Handed(s') == s.picked;
    } else {
      assert Places(s') == Places(s);
    }
  }

  lemma HandedOver(s: State)
    requires Ordered(s) && s.polling.Transforming? && Accounted(s, multiset{})
    ensures var free := s.(polling := Ready);
            s.picked == Handed(s) + [s.polling.id] && Accounted(free, multiset{s.polling.id}) && Ordered(free)
  {
    var free := s.(polling := Ready);
    assert Places(free) + multiset{s.polling.id} == Places(s);
    BothGrow(s.started + s.queue, Handed(s), s.polling.id);
  }

  lemma HandedKeeps(cfg: Config, s: State, base: seq<string>, id: string)
    requires OneLoop(s) && Accounted(s, multiset{id}) && Fresh(s) && Bounded(cfg, s) && s.polling.Ready?
    requires s.picked == base + [id] && Subsequence(s.started + s.queue, base)
    ensures Inv(cfg, Queued(cfg, s, id))
  {
    QueuedKeeps(cfg, s, base, id);
    QueuedTouches(cfg, s, id);
  }

  lemma TransformedKeeps(cfg: Config, s: State, ok: bool)
    requires Inv(cfg, s) && Enabled(s, Transformed(ok))
    ensures Inv(cfg, Next(cfg, s, Transformed(ok)))
  {
    hide Queued, Places;
    var id := s.polling.id;
    var free := s.(polling := Ready);
    HandedOver(s);
    if ok {
      HandedKeeps(cfg, free, Handed(s), id);
    } else if cfg.releases {
      ReleaseAccounts(free, multiset{}, id);
    } else {
      LeakAccounts(free, id);
    }
  }

  lemma LeakAccounts(s: State, id: string)
    requires Accounted(s, multiset{id})
    ensures Accounted(s.(leaked := s.leaked + {id}), multiset{})
  {
    assert id !in s.leaked by {
      assert multiset(s.pending)[id] <= 1;
    }
    SetGrows(s.leaked, id);
  }

  lemma QueuedTouches(cfg: Config, s: State, id: string)
    ensures var s' := Queued(cfg, s, id); s'.seen == s.seen && s'.polling == s.polling && s'.picked == s.picked
  {}

  /** What a step of the queue leaves alone, and what it may do. */
  lemma QueueStepKeeps(cfg: Config, s: State, s': State)
    requires Inv(cfg, s) && OneLoop(s') && Accounted(s', multiset{})
    requires s'.polling == s.polling && s'.picked == s.picked
    requires s'.dropped == s.dropped && s'.droppedCount == s.droppedCount && s'.leaked == s.leaked
    requires Subsequence(s'.started + s'.queue, Handed(s)) && |s'.queue| <= |s.queue| && s'.pending <= s.pending
    requires forall id :: id in s'.seen ==> id in s.seen || (id in s.pending && id !in s'.pending)
    ensures Inv(cfg, s')
  {}

  lemma LandingAccounts(s: State, id: string)
    requires Accounted(s, multiset{}) && |s.loops| == 1 && !s.loops[0].Waiting? && s.loops[0].id == id
    ensures id in s.pending && Accounted(Release(s.(loops := [Waiting]), id), multiset{})
  {
    var idle := s.(loops := [Waiting]);
    assert Places(idle) + multiset{id} == Places(s);
    assert id in multiset(s.pending);
    ReleaseAccounts(idle, multiset{}, id);
  }

  lemma BroadcastKeeps(cfg: Config, s: State, i: nat, ok: bool)
    requires Inv(cfg, s) && Enabled(s, Broadcast(i, ok))
    ensures Inv(cfg, Next(cfg, s, Broadcast(i, ok)))
  {
    var id, s' := s.loops[i].id, Next(cfg, s, Broadcast(i, ok));
    if ok {
      assert s.loops[i := Marking(id)] == [Marking(id)];
      assert Places(s') == Places(s);
    } else {
      assert s.loops[i := Waiting] == [Waiting];
      LandingAccounts(s, id);
    }
    QueueStepKeeps(cfg, s, s');
  }

  lemma MarkedKeeps(cfg: Config, s: State, i: nat)
    requires Inv(cfg, s) && Enabled(s, Marked(i))
    ensures Inv(cfg, Next(cfg, s, Marked(i)))
  {
    var id := s.loops[i].id;
    assert s.loops[i := Waiting] == [Waiting];
    LandingAccounts(s, id);
    SeenIsKnown(s.seen, id, cfg.maxSeen);
    QueueStepKeeps(cfg, s, Next(cfg, s, Marked(i)));
  }

  lemma SeenIsKnown(seen: seq<string>, id: string, maxSeen: nat)
    ensures forall other :: other in Evict(Add(seen, id), maxSeen) ==> other in seen || other == id
  {}

  lemma TurnTouches(cfg: Config, s: State, i: nat)
    requires i < |s.loops|
    ensures var s' := Turn(cfg, s, i);
      && s'.seen == s.seen && s'.polling == s.polling && s'.picked == s.picked
      && s'.dropped == s.dropped && s'.droppedCount == s.droppedCount && s'.leaked == s.leaked
  {}

  lemma TimerKeeps(cfg: Config, s: State, i: nat)
    requires Inv(cfg, s) && Enabled(s, Timer(i))
    ensures Inv(cfg, Next(cfg, s, Timer(i)))
  {
    TurnKeeps(cfg, s, multiset{}, Handed(s));
    TurnTouches(cfg, s, i);
    QueueStepKeeps(cfg, s, Turn(cfg, s, i));
  }

  lemma StepKeeps(cfg: Config, s: State, a: Action)
    requires Inv(cfg, s) && Enabled(s, a)
    ensures Inv(cfg, Next(cfg, s, a))
  {
    match a
    case Look(id) => LookKeeps(cfg, s, id);
    case LookedUp(processed) => LookedUpKeeps(cfg, s, processed);
    case Transformed(ok) => TransformedKeeps(cfg, s, ok);
    case Broadcast(i, ok) => BroadcastKeeps(cfg, s, i, ok);
    case Marked(i) => MarkedKeeps(cfg, s, i);
    case Timer(i) => TimerKeeps(cfg, s, i);
  }

  // ---- Over every interleaving ----------------------------------------------------------------

  ghost predicate IsRun(cfg: Config, states: seq<State>, actions: seq<Action>) {
    && |states| == |actions| + 1
    && states[0] == EMPTY
    && (forall i :: 0 <= i < |actions| ==>
          Enabled(states[i], actions[i]) && states[i + 1] == Next(cfg, states[i], actions[i]))
  }

  lemma NothingYet(cfg: Config)
    ensures Inv(cfg, EMPTY)
  {
    assert Embeds([], [], []);
    assert EMPTY.started + EMPTY.queue == [];
  }

  lemma {:induction false} RunKeeps(cfg: Config, states: seq<State>, actions: seq<Action>, n: nat)
    requires IsRun(cfg, states, actions) && n < |states|
    ensures Inv(cfg, states[n])
  {
    hide Next, Enabled;
    hide Inv;
    if n == 0 {
      NothingYet(cfg);
    } else {
      RunKeeps(cfg, states, actions, n - 1);
      StepKeeps(cfg, states[n - 1], actions[n - 1]);
    }
  }

  /**
    In every interleaving: at most one run of the queue and so one alert in flight,
    exactly while the flag says so; a queue within its limit; nothing pending that
    was already seen; alerts broadcast in pick-up order.
  */
  lemma QueueIsInOrder(cfg: Config, states: seq<State>, actions: seq<Action>, n: nat)
    requires IsRun(cfg, states, actions) && n < |states|
    ensures var s := states[n];
      && |s.loops| <= 1 && (s.isProcessing <==> |s.loops| == 1)
      && (s.queue != [] ==> s.isProcessing)
      && (cfg.maxQueue > 0 ==> |s.queue| <= cfg.maxQueue && s.droppedCount == |s.dropped|)
      && (forall id :: id in s.pending ==> id !in s.seen)
      && Subsequence(s.started + s.queue, s.picked)
  {
    RunKeeps(cfg, states, actions, n);
    var s := states[n];
    if s.polling.Transforming? {
      var last := |s.picked| - 1;
      BothGrow(s.started + s.queue, s.picked[..last], s.picked[last]);
      assert s.picked == s.picked[..last] + [s.picked[last]];
    }
  }

  /**
    A pending event is queued, in flight, being transformed, dropped by the overflow
    or left behind by a failed transform - one of the five, once, and nothing else is
    pending. The speeding poller leaves none behind. Every event picked up is still
    pending or has ended.
  */
  lemma EveryEventIsSomewhere(cfg: Config, states: seq<State>, actions: seq<Action>, n: nat)
    requires IsRun(cfg, states, actions) && n < |states|
    ensures var s := states[n];
      && multiset(s.pending) == multiset(s.queue) + InFlight(s.loops) + InTransform(s.polling)
                                + multiset(s.dropped) + multiset(s.leaked)
      && multiset(s.picked) == multiset(s.pending) + s.ended
      && (cfg.releases ==> s.leaked == {})
      && (forall i, j :: 0 <= i < j < |s.queue| ==> s.queue[i] != s.queue[j])
  {
    RunKeeps(cfg, states, actions, n);
    var s := states[n];
    forall i, j | 0 <= i < j < |s.queue|
      ensures s.queue[i] != s.queue[j]
    {
      assert multiset(s.pending)[s.queue[i]] <= 1;
      if s.queue[i] == s.queue[j] {
        TwiceInQueue(s.queue, i, j);
        assert false;
      }
    }
  }

  lemma TwiceInQueue(queue: seq<string>, i: nat, j: nat)
    requires i < j < |queue| && queue[i] == queue[j]
    ensures multiset(queue)[queue[i]] >= 2
  {
    assert queue == queue[..j] + [queue[j]] + queue[j + 1..];
    assert queue[..j][i] == queue[j];
    assert queue[i] in multiset(queue[..j]);
  }

  // ---- What an overflow costs -----------------------------------------------------------------

  /** Dropped, or left behind. */
  ghost predicate Stuck(s: State, id: string) {
    id in s.dropped || id in s.leaked
  }

  lemma StuckIsPending(s: State, id: string)
    requires Accounted(s, multiset{}) && Stuck(s, id)
    ensures id in s.pending
    ensures id !in s.queue && id !in InFlight(s.loops) && id !in InTransform(s.polling)
  {
    assert multiset(s.pending)[id] == 1;
    assert id in s.queue ==> id in multiset(s.queue);
  }

  /** Nothing happens to the event any more: it stays stuck, is not picked up and not broadcast. */
  ghost predicate StillStuck(s: State, s': State, id: string) {
    && Stuck(s', id)
    && multiset(s'.picked)[id] == multiset(s.picked)[id]
    && multiset(s'.started)[id] == multiset(s.started)[id]
  }

  lemma StuckAtTurn(cfg: Config, s: State, i: nat, id: string)
    requires i < |s.loops| && Stuck(s, id) && id !in s.queue
    ensures StillStuck(s, Turn(cfg, s, i), id)
  {}

  lemma StuckAtQueue(cfg: Config, s: State, added: string, id: string)
    requires Stuck(s, id) && id !in s.queue && id != added
    ensures StillStuck(s, Queued(cfg, s, added), id)
  {
    var room := if |s.queue| >= cfg.maxQueue then DropOldest(s) else s;
    var pushed := room.(queue := room.queue + [added]);
    if !pushed.isProcessing {
      StuckAtTurn(cfg, pushed.(loops := pushed.loops + [Waiting]), |pushed.loops|, id);
    }
  }

  lemma StuckStays(cfg: Config, s: State, a: Action, id: string)
    requires Inv(cfg, s) && Enabled(s, a) && Stuck(s, id)
    ensures StillStuck(s, Next(cfg, s, a), id)
  {
    hide Turn, Queued, Accounted, Ordered;
    StuckIsPending(s, id);
    match a
    case Transformed(ok) =>
      if ok {
        StuckAtQueue(cfg, s.(polling := Ready), s.polling.id, id);
      }
    case Timer(i) => StuckAtTurn(cfg, s, i, id);
    case _ =>
  }

  lemma StuckChain(a: State, b: State, c: State, id: string)
    requires StillStuck(a, b, id) && StillStuck(b, c, id)
    ensures StillStuck(a, c, id)
  {}

  lemma {:induction false} StillStuckLater(cfg: Config, states: seq<State>, actions: seq<Action>, i: nat, n: nat,
                                           id: string)
    requires IsRun(cfg, states, actions) && i <= n < |states| && Stuck(states[i], id)
    ensures StillStuck(states[i], states[n], id)
    decreases n
  {
    hide Next, Inv, Enabled;
    if i < n {
      StillStuckLater(cfg, states, actions, i, n - 1, id);
      RunKeeps(cfg, states, actions, n - 1);
      StuckStays(cfg, states[n - 1], actions[n - 1], id);
      StuckChain(states[i], states[n - 1], states[n], id);
    }
  }

  /**
    An alert pushed out of a full queue is gone for this process: its event stays
    pending, so it is never picked up nor broadcast again before a restart. The same
    goes for an event whose transform failed without a release.
  */
  lemma StuckForGood(cfg: Config, states: seq<State>, actions: seq<Action>, i: nat, n: nat, id: string)
    requires IsRun(cfg, states, actions) && i <= n < |states| && Stuck(states[i], id)
    ensures Stuck(states[n], id) && id in states[n].pending
    ensures multiset(states[n].picked)[id] == multiset(states[i].picked)[id]
    ensures multiset(states[n].started)[id] == multiset(states[i].started)[id]
  {
    StillStuckLater(cfg, states, actions, i, n, id);
    RunKeeps(cfg, states, actions, n);
    StuckIsPending(states[n], id);
  }
}
