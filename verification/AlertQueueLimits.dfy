/**
  When an event is lost to the pollers' queue, exactly: more events pending at once
  than the queue can hold, or a failed transform in a poller that does not release.
*/
module AlertQueueLimits {
  import opened AlertQueue
  import opened AlertQueueTheorems

  ghost predicate PendingAtMost(states: seq<State>, m: nat) {
    forall i :: 0 <= i < |states| ==> |states[i].pending| <= m
  }

  /** How many alerts can wait; a limit of zero still lets one wait. */
  function Capacity(cfg: Config): nat {
    if cfg.maxQueue == 0 then 1 else cfg.maxQueue
  }

  // ---- Nothing is dropped without more pending than can wait -----------------------------

  lemma PendingCount(s: State)
    requires Accounted(s, multiset{})
    ensures |s.pending| == |s.queue| + |InFlight(s.loops)| + |InTransform(s.polling)| + |s.dropped| + |s.leaked|
  {
    assert |multiset(s.pending)| == |Places(s)|;
  }

  lemma StepDropsNothing(cfg: Config, s: State, a: Action)
    requires Inv(cfg, s) && Enabled(s, a) && |s.pending| <= Capacity(cfg)
    ensures Next(cfg, s, a).dropped == s.dropped
  {
    hide Queued, Turn, Inv;
    match a
    case Transformed(ok) =>
      if ok {
        RoomInQueue(cfg, s);
        QueuedDropsNothing(cfg, s.(polling := Ready), s.polling.id);
      }
    case Timer(i) => TurnTouches(cfg, s, i);
    case _ =>
  }

  lemma RoomInQueue(cfg: Config, s: State)
    requires Inv(cfg, s) && s.polling.Transforming? && |s.pending| <= Capacity(cfg)
    ensures |s.queue| < Capacity(cfg)
  {
    PendingCount(s);
  }

  lemma QueuedDropsNothing(cfg: Config, s: State, id: string)
    requires |s.queue| < Capacity(cfg)
    ensures Queued(cfg, s, id).dropped == s.dropped
  {
    hide Turn;
    var room := if |s.queue| >= cfg.maxQueue then DropOldest(s) else s;
    var pushed := room.(queue := room.queue + [id]);
    if !pushed.isProcessing {
      TurnTouches(cfg, pushed.(loops := pushed.loops + [Waiting]), |pushed.loops|);
    }
  }

  lemma {:induction false} NothingDropped(cfg: Config, states: seq<State>, actions: seq<Action>, n: nat)
    requires IsRun(cfg, states, actions) && PendingAtMost(states, Capacity(cfg)) && n < |states|
    ensures states[n].dropped == {}
  {
    hide Inv, Next, Enabled;
    if n > 0 {
      NothingDropped(cfg, states, actions, n - 1);
      RunKeeps(cfg, states, actions, n - 1);
      StepDropsNothing(cfg, states[n - 1], actions[n - 1]);
    }
  }

  // ---- Runs that lose an event -------------------------------------------------------------

  /** A run under construction, at the moment in state `s`. */
  ghost predicate Reaches(cfg: Config, states: seq<State>, actions: seq<Action>, m: nat, s: State) {
    IsRun(cfg, states, actions) && PendingAtMost(states, m) && states[|states| - 1] == s
  }

  lemma Extended(cfg: Config, states: seq<State>, actions: seq<Action>, m: nat, s: State, a: Action)
    returns (states': seq<State>, actions': seq<Action>, s': State)
    requires Reaches(cfg, states, actions, m, s) && Enabled(s, a) && |Next(cfg, s, a).pending| <= m
    ensures s' == Next(cfg, s, a) && Reaches(cfg, states', actions', m, s')
  {
    hide Next, Enabled;
    s' := Next(cfg, s, a);
    states', actions' := states + [s'], actions + [a];
    assert forall i :: 0 <= i < |states| ==> states'[i] == states[i];
  }

  /** Ids of different lengths. */
  function Name(n: nat): (id: string)
    ensures |id| == n + 1
  {
    seq(n + 1, _ => 'e')
  }

  /** A queue between two alerts: `n` wait for the timer, nothing else is pending, nothing was seen. */
  ghost predicate Filled(s: State, n: nat) {
    && s.polling.Ready? && s.isProcessing && s.loops == [Waiting] && |s.queue| == n
    && s.seen == [] && s.dropped == {} && s.leaked == {}
    && forall id :: id in s.pending ==> |id| <= n + 1
  }

  /** The next event is picked up: its transform is under way. */
  lemma PicksUp(cfg: Config, states: seq<State>, actions: seq<Action>, m: nat, s: State, id: string)
    returns (states': seq<State>, actions': seq<Action>, s': State)
    requires Reaches(cfg, states, actions, m, s) && s.polling.Ready? && id != "" && id !in s.seen && id !in s.pending
    requires |s.pending| < m
    ensures Reaches(cfg, states', actions', m, s')
    ensures s' == s.(pending := s.pending + {id}, picked := s.picked + [id], polling := Transforming(id))
  {
    hide Reaches;
    states', actions', s' := Extended(cfg, states, actions, m, s, Look(id));
    states', actions', s' := Extended(cfg, states', actions', m, s', LookedUp(false));
  }

  lemma ReachedIsAccounted(cfg: Config, states: seq<State>, actions: seq<Action>, m: nat, s: State)
    requires Reaches(cfg, states, actions, m, s)
    ensures Accounted(s, multiset{}) && |s.pending| <= m
  {
    hide Next, Enabled;
    RunKeeps(cfg, states, actions, |states| - 1);
  }

  /** One alert has come and gone, in vain, and its timer runs. */
  lemma Started(cfg: Config, m: nat) returns (states: seq<State>, actions: seq<Action>, s: State)
    requires m > 0
    ensures Reaches(cfg, states, actions, m, s) && Filled(s, 0)
  {
    states, actions, s := [EMPTY], [], EMPTY;
    states, actions, s := PicksUp(cfg, states, actions, m, s, Name(0));
    assert s.pending == {Name(0)};
    hide Reaches;
    states, actions, s := Extended(cfg, states, actions, m, s, Transformed(true));
    if cfg.wired {
      states, actions, s := Extended(cfg, states, actions, m, s, Broadcast(0, false));
    }
  }

  /** The alert is queued: it waits with the others, or pushes the oldest out. */
  lemma Joins(cfg: Config, s: State, n: nat)
    requires Filled(s, n) && Name(n + 1) !in s.pending
    ensures var id := Name(n + 1);
            var t := s.(pending := s.pending + {id}, picked := s.picked + [id], polling := Transforming(id));
            var s' := Next(cfg, t, Transformed(true));
      && s'.pending == t.pending
      && (n < Capacity(cfg) ==> Filled(s', n + 1))
      && (n == Capacity(cfg) ==> s'.dropped == {s.queue[0]})
  {}

  lemma OneMoreWaits(cfg: Config, states: seq<State>, actions: seq<Action>, m: nat, s: State, n: nat)
    returns (states': seq<State>, actions': seq<Action>, s': State)
    requires Reaches(cfg, states, actions, m, s) && Filled(s, n) && n < m
    ensures Reaches(cfg, states', actions', m, s')
    ensures n < Capacity(cfg) ==> Filled(s', n + 1)
    ensures n == Capacity(cfg) ==> s'.dropped != {}
  {
    ReachedIsAccounted(cfg, states, actions, m, s);
    PendingCount(s);
    hide Reaches, Accounted, Next;
    states', actions', s' := PicksUp(cfg, states, actions, m, s, Name(n + 1));
    Joins(cfg, s, n);
    states', actions', s' := Extended(cfg, states', actions', m, s', Transformed(true));
  }

  lemma {:induction false} Fills(cfg: Config, m: nat, n: nat)
    returns (states: seq<State>, actions: seq<Action>, s: State)
    requires n <= Capacity(cfg) && n <= m && m > 0
    ensures Reaches(cfg, states, actions, m, s) && Filled(s, n)
  {
    hide Reaches, Filled;
    if n == 0 {
      states, actions, s := Started(cfg, m);
    } else {
      states, actions, s := Fills(cfg, m, n - 1);
      states, actions, s := OneMoreWaits(cfg, states, actions, m, s, n - 1);
    }
  }

  /** One event more than can wait, and the oldest alert is pushed out. */
  lemma Overflows(cfg: Config, m: nat) returns (states: seq<State>, actions: seq<Action>)
    requires m > Capacity(cfg)
    ensures IsRun(cfg, states, actions) && PendingAtMost(states, m) && states[|states| - 1].dropped != {}
  {
    var s;
    states, actions, s := Fills(cfg, m, Capacity(cfg));
    states, actions, s := OneMoreWaits(cfg, states, actions, m, s, Capacity(cfg));
  }

  /** A poller that does not release, and the first transform fails. */
  lemma LeavesBehind(cfg: Config, m: nat) returns (states: seq<State>, actions: seq<Action>)
    requires !cfg.releases && m > 0
    ensures IsRun(cfg, states, actions) && PendingAtMost(states, m) && states[|states| - 1].leaked == {Name(0)}
  {
    var s;
    states, actions, s := PicksUp(cfg, [EMPTY], [], m, EMPTY, Name(0));
    assert s.pending == {Name(0)};
    states, actions, s := Extended(cfg, states, actions, m, s, Transformed(false));
  }

  // ---- Exactly -------------------------------------------------------------------------------

  ghost predicate NeverDrops(cfg: Config, m: nat) {
    forall states: seq<State>, actions: seq<Action> :: IsRun(cfg, states, actions) && PendingAtMost(states, m)
      ==> states[|states| - 1].dropped == {}
  }

  ghost predicate NobodyStuck(s: State) {
    forall id :: !Stuck(s, id)
  }

  ghost predicate NeverLoses(cfg: Config, m: nat) {
    forall states: seq<State>, actions: seq<Action> :: IsRun(cfg, states, actions) && PendingAtMost(states, m)
      ==> NobodyStuck(states[|states| - 1])
  }

  /**
    No alert is ever pushed out of the queue exactly if no more events are pending at
    once than can wait in it - the alert in flight and the one being transformed included.
  */
  lemma DropsOnlyOverCapacity(cfg: Config, m: nat)
    ensures NeverDrops(cfg, m) <==> m <= Capacity(cfg)
  {
    if m <= Capacity(cfg) {
      forall states: seq<State>, actions: seq<Action> | IsRun(cfg, states, actions) && PendingAtMost(states, m)
        ensures states[|states| - 1].dropped == {}
      {
        NothingDropped(cfg, states, actions, |states| - 1);
      }
    } else {
      var states, actions := Overflows(cfg, m);
    }
  }

  /**
    No event is ever lost before a restart exactly if, besides, a failed transform
    releases its event - as it does in the speeding poller, and not in the other one.
  */
  lemma LosesOnlyOverCapacity(cfg: Config, m: nat)
    ensures NeverLoses(cfg, m) <==> m == 0 || (m <= Capacity(cfg) && cfg.releases)
  {
    if m == 0 || (m <= Capacity(cfg) && cfg.releases) {
      forall states: seq<State>, actions: seq<Action> | IsRun(cfg, states, actions) && PendingAtMost(states, m)
        ensures NobodyStuck(states[|states| - 1])
      {
        var n := |states| - 1;
        NothingDropped(cfg, states, actions, n);
        RunKeeps(cfg, states, actions, n);
        PendingCount(states[n]);
      }
    } else if m > Capacity(cfg) {
      var states, actions := Overflows(cfg, m);
      var id :| id in states[|states| - 1].dropped;
      assert Stuck(states[|states| - 1], id);
    } else {
      var states, actions := LeavesBehind(cfg, m);
      assert Stuck(states[|states| - 1], Name(0));
    }
  }
}
