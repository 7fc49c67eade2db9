/**
  Exactly how long an event that was delivered is sure to be remembered: events found
  processed crowd it out too, but only a later mark lets the oldest go.
*/
module AlertQueueForgets {
  import opened AlertQueue
  import opened AlertQueueTheorems
  import opened AlertQueueMemory

  // ---- Counting ----------------------------------------------------------------------------

  lemma {:induction false} SliceCounts(actions: seq<Action>, i: nat, n: nat)
    requires i + n <= |actions|
    ensures Found(actions, i + n) == Found(actions, i) + Found(actions[i..], n)
    ensures Marks(actions, i + n) == Marks(actions, i) + Marks(actions[i..], n)
  {
    if n > 0 {
      SliceCounts(actions, i, n - 1);
    }
  }

  // ---- A run that forgets ------------------------------------------------------------------

  /** A run under construction, at the moment in state `s`. */
  ghost predicate Reaches(cfg: Config, states: seq<State>, actions: seq<Action>, s: State, found: nat, marks: nat) {
    && IsRun(cfg, states, actions) && states[|states| - 1] == s
    && Found(actions, |actions|) == found && Marks(actions, |actions|) == marks
  }

  lemma Extended(cfg: Config, states: seq<State>, actions: seq<Action>, s: State, found: nat, marks: nat, a: Action)
    returns (states': seq<State>, actions': seq<Action>, s': State)
    requires Reaches(cfg, states, actions, s, found, marks) && Enabled(s, a)
    ensures s' == Next(cfg, s, a) && states' == states + [s'] && actions' == actions + [a]
    ensures Reaches(cfg, states', actions', s', found + (if FindsProcessed(a) then 1 else 0),
                    marks + if a.Marked? then 1 else 0)
  {
    hide Next, Enabled;
    s' := Next(cfg, s, a);
    states', actions' := states + [s'], actions + [a];
    PrefixCounts(actions, actions', |actions|);
    assert forall i :: 0 <= i < |states| ==> states'[i] == states[i];
  }

  /** Ids of different lengths. */
  function Name(n: nat): (id: string)
    ensures |id| == n + 1
  {
    seq(n + 1, _ => 'e')
  }

  /** Nothing waits and nothing is under way. */
  ghost predicate AtRest(s: State) {
    && s.polling.Ready? && s.queue == [] && s.pending == {}
    && ((s.loops == [] && !s.isProcessing) || (s.loops == [Waiting] && s.isProcessing))
  }

  /** The queue takes the alert up at once, or when its timer comes. */
  lemma FirstIsTaken(cfg: Config, s: State, id: string)
    requires cfg.wired && s.queue == [] && s.polling.Ready?
    requires (s.loops == [] && !s.isProcessing) || (s.loops == [Waiting] && s.isProcessing)
    ensures var q := Queued(cfg, s, id);
      && q.seen == s.seen && q.pending == s.pending && q.polling.Ready?
      && (s.loops == [] ==> q.loops == [Sending(id)] && q.queue == [] && q.isProcessing)
      && (s.loops != [] ==> q.loops == [Waiting] && q.queue == [id])
  {}

  lemma IsQueued(cfg: Config, states: seq<State>, actions: seq<Action>, s: State, found: nat, marks: nat, id: string)
    returns (states': seq<State>, actions': seq<Action>, s': State)
    requires Reaches(cfg, states, actions, s, found, marks) && AtRest(s) && cfg.wired && id != "" && id !in s.seen
    ensures Reaches(cfg, states', actions', s', found, marks) && states <= states' && actions <= actions'
    ensures s'.polling.Ready? && s'.pending == {id} && s'.seen == s.seen
    ensures || (s'.loops == [Sending(id)] && s'.queue == [] && s'.isProcessing)
            || (s'.loops == [Waiting] && s'.queue == [id])
  {
    hide Reaches, Queued;
    states', actions', s' := Extended(cfg, states, actions, s, found, marks, Look(id));
    states', actions', s' := Extended(cfg, states', actions', s', found, marks, LookedUp(false));
    FirstIsTaken(cfg, s'.(polling := Ready), id);
    states', actions', s' := Extended(cfg, states', actions', s', found, marks, Transformed(true));
  }

  /** A new event is looked up, queued and broadcast: it is just being marked. */
  lemma IsDelivered(cfg: Config, states: seq<State>, actions: seq<Action>, s: State, found: nat, marks: nat,
                    id: string)
    returns (states': seq<State>, actions': seq<Action>, s': State)
    requires Reaches(cfg, states, actions, s, found, marks) && AtRest(s) && cfg.wired && id != "" && id !in s.seen
    ensures Reaches(cfg, states', actions', s', found, marks) && states <= states' && actions <= actions'
    ensures s'.polling.Ready? && s'.queue == [] && s'.pending == {id} && s'.isProcessing
    ensures s'.loops == [Marking(id)] && s'.seen == s.seen
  {
    hide Reaches;
    states', actions', s' := IsQueued(cfg, states, actions, s, found, marks, id);
    if s'.queue != [] {
      states', actions', s' := Extended(cfg, states', actions', s', found, marks, Timer(0));
    }
    states', actions', s' := Extended(cfg, states', actions', s', found, marks, Broadcast(0, true));
  }

  lemma IsFoundProcessed(cfg: Config, states: seq<State>, actions: seq<Action>, s: State, found: nat, marks: nat,
                         id: string)
    returns (states': seq<State>, actions': seq<Action>, s': State)
    requires Reaches(cfg, states, actions, s, found, marks) && AtRest(s) && id != "" && id !in s.seen
    ensures Reaches(cfg, states', actions', s', found + 1, marks) && states <= states' && actions <= actions'
    ensures AtRest(s') && s'.seen == s.seen + [id]
  {
    hide Reaches;
    states', actions', s' := Extended(cfg, states, actions, s, found, marks, Look(id));
    states', actions', s' := Extended(cfg, states', actions', s', found, marks, LookedUp(true));
  }

  /** The first event has been marked at step `at`; the others seen are `n` found processed since. */
  ghost predicate IsCrowded(cfg: Config, states: seq<State>, actions: seq<Action>, s: State, at: nat, n: nat) {
    && Reaches(cfg, states, actions, s, n, 1) && AtRest(s)
    && at < |actions| && actions[at] == Marked(0) && states[at].loops == [Marking(Name(0))]
    && Found(actions, at + 1) == 0 && Marks(actions, at + 1) == 1
    && |s.seen| == n + 1 && s.seen[0] == Name(0)
    && (forall k :: 0 <= k <= n ==> |s.seen[k]| == k + 1)
  }

  lemma FirstMarked(cfg: Config) returns (states: seq<State>, actions: seq<Action>, s: State, at: nat)
    requires cfg.wired
    ensures Reaches(cfg, states, actions, s, 0, 1) && AtRest(s)
    ensures at == |actions| - 1 && actions[at] == Marked(0) && states[at].loops == [Marking(Name(0))]
    ensures s.seen == if cfg.maxSeen > 0 then [Name(0)] else []
  {
    states, actions, s := [EMPTY], [], EMPTY;
    states, actions, s := IsDelivered(cfg, states, actions, s, 0, 0, Name(0));
    at := |actions|;
    states, actions, s := Extended(cfg, states, actions, s, 0, 0, Marked(0));
  }

  lemma {:induction false} Crowds(cfg: Config, n: nat)
    returns (states: seq<State>, actions: seq<Action>, s: State, at: nat)
    requires cfg.wired && cfg.maxSeen > 0
    ensures IsCrowded(cfg, states, actions, s, at, n)
  {
    if n == 0 {
      states, actions, s, at := FirstMarked(cfg);
    } else {
      states, actions, s, at := Crowds(cfg, n - 1);
      var before, done := states, actions;
      assert Name(n) !in s.seen;
      states, actions, s := IsFoundProcessed(cfg, states, actions, s, n - 1, 1, Name(n));
      PrefixCounts(done, actions, at + 1);
      assert states[at] == before[at];
    }
  }

  // ---- Exactly ---------------------------------------------------------------------------------

  /** Since step `at`, no more than so many events have been dealt with, so many of them marked. */
  ghost predicate FewSince(actions: seq<Action>, at: nat, others: nat, marks: nat)
    requires at <= |actions|
  {
    && Marks(actions, |actions|) - Marks(actions, at) <= marks
    && Found(actions, |actions|) + Marks(actions, |actions|) - Found(actions, at) - Marks(actions, at) <= others
  }

  /** The event marked at step `at` is still remembered at the end. */
  ghost predicate Remembers(states: seq<State>, actions: seq<Action>, at: nat)
    requires at < |actions| < |states| && Enabled(states[at], actions[at]) && actions[at].Marked?
  {
    states[at].loops[actions[at].loop].id in states[|states| - 1].seen
  }

  ghost predicate SurelyRemembers(cfg: Config, others: nat, marks: nat) {
    forall states: seq<State>, actions: seq<Action>, at: nat ::
      IsRun(cfg, states, actions) && at < |actions| && actions[at].Marked? && FewSince(actions, at + 1, others, marks)
      ==> Remembers(states, actions, at)
  }

  lemma TailIsStretch(cfg: Config, states: seq<State>, actions: seq<Action>, at: nat)
    requires IsRun(cfg, states, actions) && at <= |actions|
    ensures IsStretch(cfg, states[at..], actions[at..])
  {
    hide Inv, Next, Enabled;
    RunKeeps(cfg, states, actions, at);
  }

  lemma TailCounts(cfg: Config, actions: seq<Action>, at: nat, others: nat, marks: nat)
    requires at < |actions| && actions[at].Marked? && FewSince(actions, at + 1, others, marks)
    requires cfg.maxSeen > 0 && (others < cfg.maxSeen || marks == 0)
    ensures StillRemembers(cfg, actions[at..], |actions| - at)
  {
    SliceCounts(actions, at, |actions| - at);
    assert Found(actions, at + 1) == Found(actions, at) && Marks(actions, at + 1) == Marks(actions, at) + 1;
  }

  lemma FewAreRemembered(cfg: Config, states: seq<State>, actions: seq<Action>, at: nat, others: nat, marks: nat)
    requires IsRun(cfg, states, actions) && at < |actions| && actions[at].Marked?
    requires FewSince(actions, at + 1, others, marks) && cfg.maxSeen > 0 && (others < cfg.maxSeen || marks == 0)
    ensures Remembers(states, actions, at)
  {
    hide IsStretch, Next, StillRemembers, FewSince, Found, Marks, Inv, IsAt;
    TailIsStretch(cfg, states, actions, at);
    TailCounts(cfg, actions, at, others, marks);
    var tail, rest := states[at..], actions[at..];
    assert tail[0] == states[at] && rest[0] == actions[at] && tail[|rest|] == states[|states| - 1];
    var p := MarkedIsRemembered(cfg, tail, rest, |rest|);
    StillSeen(tail[|rest|], tail[0].loops[rest[0].loop].id, p, Found(rest, |rest|) + Marks(rest, |rest|) - 1);
  }

  lemma StillSeen(s: State, id: string, p: nat, others: int)
    requires IsAt(s, id, p, others)
    ensures id in s.seen
  {}

  lemma Forgets(cfg: Config, others: nat, marks: nat) returns (states: seq<State>, actions: seq<Action>, at: nat)
    requires cfg.wired && marks <= others && (cfg.maxSeen == 0 || (others >= cfg.maxSeen && marks > 0))
    ensures IsRun(cfg, states, actions) && at < |actions| && actions[at].Marked?
    ensures FewSince(actions, at + 1, others, marks) && !Remembers(states, actions, at)
  {
    var s;
    if cfg.maxSeen == 0 {
      states, actions, s, at := FirstMarked(cfg);
    } else {
      var n := cfg.maxSeen - 1;
      states, actions, s, at := Crowds(cfg, n);
      var before, done, seen := states, actions, s.seen;
      states, actions, s := IsDelivered(cfg, states, actions, s, n, 1, Name(n + 1));
      states, actions, s := Extended(cfg, states, actions, s, n, 1, Marked(0));
      PrefixCounts(done, actions, at + 1);
      assert states[at] == before[at] && actions[at] == done[at];
      assert s.seen == seen[1..] + [Name(n + 1)];
    }
  }

  /**
    An event that was delivered is sure to be remembered exactly until as many others as
    the limit have been dealt with - delivered, or found processed - and one of them
    delivered. One delivery alone is enough to forget it, after enough found processed.
  */
  lemma RemembersExactly(cfg: Config, others: nat, marks: nat)
    requires cfg.wired && marks <= others
    ensures SurelyRemembers(cfg, others, marks) <==> cfg.maxSeen > 0 && (others < cfg.maxSeen || marks == 0)
  {
    if cfg.maxSeen > 0 && (others < cfg.maxSeen || marks == 0) {
      forall states: seq<State>, actions: seq<Action>, at: nat |
        IsRun(cfg, states, actions) && at < |actions| && actions[at].Marked? && FewSince(actions, at + 1, others, marks)
        ensures Remembers(states, actions, at)
      {
        FewAreRemembered(cfg, states, actions, at, others, marks);
      }
    } else {
      var states, actions, at := Forgets(cfg, others, marks);
      assert !Remembers(states, actions, at);
    }
  }
}
