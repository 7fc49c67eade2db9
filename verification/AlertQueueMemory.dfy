/**
  How long the pollers remember an event they have dealt with: `SEEN_IDS` keeps the
  latest, and nothing it holds is picked up, whatever marks are lost and lookups fail.
*/
module AlertQueueMemory {
  import opened AlertQueue
  import opened AlertQueueTheorems

  /** The poll learns from the table that an event was processed. */
  predicate FindsProcessed(a: Action) {
    a.LookedUp? && a.processed
  }

  /** The event that a step puts among the seen ones: just delivered, or found processed. */
  function Learned(s: State, a: Action): seq<string>
    requires Enabled(s, a)
  {
    if FindsProcessed(a) then [s.polling.id]
    else if a.Marked? then [s.loops[a.loop].id]
    else []
  }

  /** A stretch of one process, from any state it can be in. */
  ghost predicate IsStretch(cfg: Config, states: seq<State>, actions: seq<Action>) {
    && |states| == |actions| + 1
    && Inv(cfg, states[0])
    && (forall i :: 0 <= i < |actions| ==>
          Enabled(states[i], actions[i]) && states[i + 1] == Next(cfg, states[i], actions[i]))
  }

  lemma {:induction false} StretchKeeps(cfg: Config, states: seq<State>, actions: seq<Action>, n: nat)
    requires IsStretch(cfg, states, actions) && n < |states|
    ensures Inv(cfg, states[n])
  {
    hide Inv, Next, Enabled;
    if n > 0 {
      StretchKeeps(cfg, states, actions, n - 1);
      StepKeeps(cfg, states[n - 1], actions[n - 1]);
    }
  }

  // ---- The oldest goes first --------------------------------------------------------------

  /** Every event dealt with during the first `n` steps, in order. */
  function Log(states: seq<State>, actions: seq<Action>, n: nat): seq<string>
    requires n <= |actions| <= |states| && forall i :: 0 <= i < n ==> Enabled(states[i], actions[i])
  {
    if n == 0 then [] else Log(states, actions, n - 1) + Learned(states[n - 1], actions[n - 1])
  }

  /** How many of the first `n` steps found an event processed. */
  function Found(actions: seq<Action>, n: nat): nat
    requires n <= |actions|
  {
    if n == 0 then 0 else Found(actions, n - 1) + if FindsProcessed(actions[n - 1]) then 1 else 0
  }

  function Marks(actions: seq<Action>, n: nat): nat
    requires n <= |actions|
  {
    if n == 0 then 0 else Marks(actions, n - 1) + if actions[n - 1].Marked? then 1 else 0
  }

  lemma {:induction false} PrefixCounts(actions: seq<Action>, more: seq<Action>, n: nat)
    requires actions <= more && n <= |actions|
    ensures Found(more, n) == Found(actions, n) && Marks(more, n) == Marks(actions, n)
  {
    if n > 0 {
      PrefixCounts(actions, more, n - 1);
    }
  }

  lemma LearnedIsNew(cfg: Config, s: State, a: Action)
    requires Inv(cfg, s) && Enabled(s, a)
    ensures forall id :: id in Learned(s, a) ==> id !in s.seen
  {
    hide Ordered, Bounded;
    if a.Marked? {
      LandingAccounts(s, s.loops[a.loop].id);
    }
  }

  /** One step of the seen events: what is learned comes last, and only after a mark does the oldest go. */
  lemma StepSees(cfg: Config, s: State, a: Action)
    requires Inv(cfg, s) && Enabled(s, a)
    ensures var all := s.seen + Learned(s, a);
            Next(cfg, s, a).seen == if a.Marked? && |all| > cfg.maxSeen then all[1..] else all
  {
    hide Queued, Turn, Accounted, Ordered, Bounded;
    LearnedIsNew(cfg, s, a);
    match a
    case Transformed(ok) =>
      if ok {
        QueuedTouches(cfg, s.(polling := Ready), s.polling.id);
      }
    case Timer(i) => TurnTouches(cfg, s, i);
    case _ =>
  }

  ghost predicate IsEndOf(end: seq<string>, whole: seq<string>) {
    |end| <= |whole| && whole[|whole| - |end|..] == end
  }

  lemma EndGrows(end: seq<string>, whole: seq<string>, more: seq<string>)
    requires IsEndOf(end, whole)
    ensures IsEndOf(end + more, whole + more)
    ensures end + more != [] ==> IsEndOf((end + more)[1..], whole + more)
  {
    var all, after := whole + more, end + more;
    assert all[|all| - |after|..] == after;
    if after != [] {
      assert all[|all| - |after| + 1..] == after[1..];
    }
  }

  lemma NothingSeen(cfg: Config)
    ensures IsLatest(cfg, EMPTY.seen, [], 0)
  {}

  /** What is seen after `log` has been dealt with, `found` of it found processed. */
  ghost predicate IsLatest(cfg: Config, seen: seq<string>, log: seq<string>, found: nat) {
    && IsEndOf(seen, log)
    && |seen| >= (if |log| < cfg.maxSeen then |log| else cfg.maxSeen)
    && |seen| <= cfg.maxSeen + found
  }

  lemma StepLatest(cfg: Config, s: State, a: Action, log: seq<string>, found: nat)
    requires Inv(cfg, s) && Enabled(s, a) && IsLatest(cfg, s.seen, log, found)
    ensures IsLatest(cfg, Next(cfg, s, a).seen, log + Learned(s, a), found + if FindsProcessed(a) then 1 else 0)
  {
    StepSees(cfg, s, a);
    LearnsOne(s, a);
    hide *;
    LatestGrows(cfg, s.seen, log, Learned(s, a), found, FindsProcessed(a), a.Marked?);
  }

  lemma LearnsOne(s: State, a: Action)
    requires Enabled(s, a)
    ensures |Learned(s, a)| == if FindsProcessed(a) || a.Marked? then 1 else 0
    ensures !(FindsProcessed(a) && a.Marked?)
  {}

  lemma LatestGrows(cfg: Config, seen: seq<string>, log: seq<string>, more: seq<string>, found: nat, finds: bool,
                    marks: bool)
    requires IsLatest(cfg, seen, log, found) && !(finds && marks) && |more| == if finds || marks then 1 else 0
    ensures var all := seen + more;
            IsLatest(cfg, if marks && |all| > cfg.maxSeen then all[1..] else all, log + more,
                     found + if finds then 1 else 0)
  {
    hide IsEndOf;
    EndGrows(seen, log, more);
  }

  /**
    The seen events are the latest of those dealt with, in order: the oldest is what
    goes. They are never fewer than the limit allows for, and exceed it only by the
    events found processed, for whom nothing makes room.
  */
  lemma {:induction false} SeenSoFar(cfg: Config, states: seq<State>, actions: seq<Action>, n: nat)
    requires IsRun(cfg, states, actions) && n <= |actions|
    ensures IsLatest(cfg, states[n].seen, Log(states, actions, n), Found(actions, n))
    ensures |Log(states, actions, n)| == Found(actions, n) + Marks(actions, n)
  {
    hide Next, Inv, Enabled, IsLatest;
    if n == 0 {
      NothingSeen(cfg);
    } else {
      SeenSoFar(cfg, states, actions, n - 1);
      RunKeeps(cfg, states, actions, n - 1);
      StepLatest(cfg, states[n - 1], actions[n - 1], Log(states, actions, n - 1), Found(actions, n - 1));
    }
  }

  // ---- What is remembered -----------------------------------------------------------------

  /** A seen event is passed over. */
  lemma LookPassesOver(cfg: Config, s: State, id: string)
    requires Enabled(s, Look(id)) && id in s.seen
    ensures Next(cfg, s, Look(id)) == s
  {}

  /** After its mark an event is the latest seen; `others` have been dealt with since, and `p` is its place. */
  ghost predicate IsAt(s: State, id: string, p: nat, others: int) {
    p < |s.seen| && s.seen[p] == id && |s.seen| - 1 - p <= others
  }

  lemma MarkRemembers(cfg: Config, s: State, i: nat) returns (p: nat)
    requires Inv(cfg, s) && Enabled(s, Marked(i)) && cfg.maxSeen > 0
    ensures IsAt(Next(cfg, s, Marked(i)), s.loops[i].id, p, 0)
  {
    StepSees(cfg, s, Marked(i));
    p := |Next(cfg, s, Marked(i)).seen| - 1;
  }

  lemma StepRemembers(cfg: Config, s: State, a: Action, id: string, p: nat, others: nat) returns (p': nat)
    requires Inv(cfg, s) && Enabled(s, a) && IsAt(s, id, p, others)
    requires a.Marked? ==> others + 1 < cfg.maxSeen
    ensures IsAt(Next(cfg, s, a), id, p', others + |Learned(s, a)|)
  {
    hide Inv, Next;
    StepSees(cfg, s, a);
    var all := s.seen + Learned(s, a);
    p' := if a.Marked? && |all| > cfg.maxSeen then p - 1 else p;
  }

  /** Fewer other events than the limit have been dealt with since the first step, or none of them was a mark. */
  predicate StillRemembers(cfg: Config, actions: seq<Action>, n: nat)
    requires n <= |actions|
  {
    cfg.maxSeen > 0 && (Found(actions, n) + Marks(actions, n) <= cfg.maxSeen || Marks(actions, n) <= 1)
  }

  lemma {:induction false} MarkedIsRemembered(cfg: Config, states: seq<State>, actions: seq<Action>, n: nat)
    returns (p: nat)
    requires IsStretch(cfg, states, actions) && 0 < n <= |actions| && actions[0].Marked?
    requires StillRemembers(cfg, actions, n)
    ensures IsAt(states[n], states[0].loops[actions[0].loop].id, p, Found(actions, n) + Marks(actions, n) - 1)
  {
    hide Inv, Next, IsAt;
    if n == 1 {
      assert Found(actions, 0) == 0 && Marks(actions, 0) == 0;
      p := MarkRemembers(cfg, states[0], actions[0].loop);
    } else {
      FirstIsAMark(actions, n - 1);
      p := MarkedIsRemembered(cfg, states, actions, n - 1);
      StretchKeeps(cfg, states, actions, n - 1);
      p := StepRemembers(cfg, states[n - 1], actions[n - 1], states[0].loops[actions[0].loop].id, p,
                         Found(actions, n - 1) + Marks(actions, n - 1) - 1);
    }
  }

  lemma {:induction false} FirstIsAMark(actions: seq<Action>, n: nat)
    requires 0 < n <= |actions| && actions[0].Marked?
    ensures Marks(actions, n) >= 1
  {
    if n > 1 {
      FirstIsAMark(actions, n - 1);
    } else {
      assert Marks(actions, 0) == 0;
    }
  }

  lemma {:induction false} SoonerRemembers(cfg: Config, actions: seq<Action>, k: nat, n: nat)
    requires k <= n <= |actions| && StillRemembers(cfg, actions, n)
    ensures StillRemembers(cfg, actions, k)
  {
    if k < n {
      SoonerRemembers(cfg, actions, k, n - 1);
    }
  }

  /** While it is seen, an event is neither picked up nor broadcast. */
  lemma StepLeavesAlone(cfg: Config, s: State, a: Action, id: string)
    requires Inv(cfg, s) && Enabled(s, a) && id in s.seen
    ensures var s' := Next(cfg, s, a);
      && multiset(s'.picked)[id] == multiset(s.picked)[id]
      && multiset(s'.started)[id] == multiset(s.started)[id]
  {
    hide Queued, Turn, Inv;
    SeenIsNowhere(cfg, s, id);
    match a
    case Transformed(ok) =>
      if ok {
        QueuedLeavesAlone(cfg, s.(polling := Ready), s.polling.id, id);
      }
    case Timer(i) => TurnLeavesAlone(cfg, s, i, id);
    case _ =>
  }

  lemma SeenIsNowhere(cfg: Config, s: State, id: string)
    requires Inv(cfg, s) && id in s.seen
    ensures id !in s.queue && (!s.polling.Ready? ==> s.polling.id != id)
  {
    assert id !in multiset(s.pending);
    assert id !in Places(s);
  }

  lemma TurnLeavesAlone(cfg: Config, s: State, i: nat, id: string)
    requires i < |s.loops| && id !in s.queue
    ensures var s' := Turn(cfg, s, i); s'.picked == s.picked && multiset(s'.started)[id] == multiset(s.started)[id]
  {}

  lemma QueuedLeavesAlone(cfg: Config, s: State, added: string, id: string)
    requires id !in s.queue && id != added
    ensures var s' := Queued(cfg, s, added);
            s'.picked == s.picked && multiset(s'.started)[id] == multiset(s.started)[id]
  {
    hide Turn;
    var room := if |s.queue| >= cfg.maxQueue then DropOldest(s) else s;
    var pushed := room.(queue := room.queue + [added]);
    if !pushed.isProcessing {
      TurnLeavesAlone(cfg, pushed.(loops := pushed.loops + [Waiting]), |pushed.loops|, id);
    }
  }

  /**
    Within one process an event that has been delivered is left alone - not looked up,
    not picked up, not broadcast - until as many others as the limit have been dealt
    with, and one of them marked; even if its own mark was lost and lookups fail.
  */
  lemma {:induction false} MarkedIsLeftAlone(cfg: Config, states: seq<State>, actions: seq<Action>, n: nat)
    requires IsStretch(cfg, states, actions) && 0 < n <= |actions| && actions[0].Marked?
    requires StillRemembers(cfg, actions, n)
    ensures var id := states[0].loops[actions[0].loop].id;
      && id in states[n].seen
      && (n < |actions| && actions[n] == Look(id) ==> states[n + 1] == states[n])
      && multiset(states[n].picked)[id] == multiset(states[1].picked)[id]
      && multiset(states[n].started)[id] == multiset(states[1].started)[id]
  {
    hide Inv, Next;
    var id := states[0].loops[actions[0].loop].id;
    var p := MarkedIsRemembered(cfg, states, actions, n);
    if n < |actions| && actions[n] == Look(id) {
      LookPassesOver(cfg, states[n], id);
    }
    if n > 1 {
      SoonerRemembers(cfg, actions, n - 1, n);
      MarkedIsLeftAlone(cfg, states, actions, n - 1);
      StretchKeeps(cfg, states, actions, n - 1);
      StepLeavesAlone(cfg, states[n - 1], actions[n - 1], id);
    }
  }
}
