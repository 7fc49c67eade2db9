/**
  The pollers' queue when polls may overlap (`SAMSARA_PREVENT_POLL_OVERLAP=false`): any
  number of them are suspended in the lookup or the transform of an event, and share
  the queue and the dedup sets.
*/
module AlertQueueOverlap {
  import opened AlertQueue
  import opened AlertQueueTheorems

  /** The shared state, in which no poll is under way, and where each poll is suspended. */
  datatype Shared = Shared(queue: State, polls: map<nat, Poll>)

  const IDLE := Shared(EMPTY, map[])

  datatype Doing =
    | OfPoll(poll: nat, a: Action)
    | OfQueue(a: Action)

  /** What one of the polls sees. */
  function Seen(s: Shared, poll: nat): State {
    s.queue.(polling := if poll in s.polls then s.polls[poll] else Ready)
  }

  predicate CanDo(s: Shared, d: Doing) {
    match d
    case OfPoll(poll, a) => (a.Look? || a.LookedUp? || a.Transformed?) && Enabled(Seen(s, poll), a)
    case OfQueue(a) => (a.Broadcast? || a.Marked? || a.Timer?) && Enabled(s.queue, a)
  }

  function Done(cfg: Config, s: Shared, d: Doing): Shared
    requires CanDo(s, d)
  {
    match d
    case OfPoll(poll, a) =>
      var after := Next(cfg, Seen(s, poll), a);
      Shared(after.(polling := Ready),
             if after.polling.Ready? then s.polls - {poll} else s.polls[poll := after.polling])
    case OfQueue(a) => s.(queue := Next(cfg, s.queue, a))
  }

  ghost predicate IsSharedRun(cfg: Config, states: seq<Shared>, doings: seq<Doing>) {
    && |states| == |doings| + 1
    && states[0] == IDLE
    && (forall i :: 0 <= i < |doings| ==>
          CanDo(states[i], doings[i]) && states[i + 1] == Done(cfg, states[i], doings[i]))
  }

  /** No more than `k` polls are ever suspended in an event at once. */
  ghost predicate PollsAtMost(states: seq<Shared>, k: nat) {
    forall i :: 0 <= i < |states| ==> |states[i].polls| <= k
  }

  /** Nothing waits or is broadcast twice. */
  ghost predicate OnlyOnce(s: State) {
    forall id :: (multiset(s.queue) + InFlight(s.loops))[id] <= 1
  }

  // ---- One poll at a time ------------------------------------------------------------------

  /** What one poll at a time sees keeps the invariant of a single poller. */
  ghost predicate SoleInv(cfg: Config, s: Shared) {
    && s.queue.polling.Ready?
    && (forall poll :: poll in s.polls ==> Inv(cfg, Seen(s, poll)))
    && (s.polls == map[] ==> Inv(cfg, s.queue))
  }

  lemma Sole(polls: map<nat, Poll>, poll: nat)
    requires poll in polls && |polls| <= 1
    ensures polls == map[poll := polls[poll]]
  {
    assert forall other :: other in polls && other != poll ==> other in polls - {poll};
    assert (polls - {poll}).Keys == polls.Keys - {poll};
    assert |polls.Keys| == |polls| && |(polls - {poll}).Keys| == |polls - {poll}|;
  }

  lemma PollKeeps(cfg: Config, s: Shared, poll: nat, a: Action)
    requires SoleInv(cfg, s) && CanDo(s, OfPoll(poll, a)) && |s.polls| <= 1
    requires |Done(cfg, s, OfPoll(poll, a)).polls| <= 1
    ensures SoleInv(cfg, Done(cfg, s, OfPoll(poll, a)))
  {
    hide Inv, Queued;
    var s' := Done(cfg, s, OfPoll(poll, a));
    var seen, after := Seen(s, poll), Next(cfg, Seen(s, poll), a);
    if poll in s.polls {
      Sole(s.polls, poll);
      StepKeeps(cfg, seen, a);
      assert s'.polls == map[] || s'.polls == map[poll := after.polling];
      assert after == if s'.polls == map[] then s'.queue else Seen(s', poll);
    } else if after.polling.Ready? {
      assert s'.polls == s.polls && s' == s;
    } else {
      Sole(s'.polls, poll);
      assert s.polls == map[] by {
        assert forall other :: other in s.polls ==> other in s'.polls && other != poll;
      }
      assert seen == s.queue;
      StepKeeps(cfg, seen, a);
      assert after == Seen(s', poll);
    }
  }

  /** The queue goes on no matter where the poll is. */
  lemma QueueGoesOn(cfg: Config, s: State, polling: Poll, a: Action)
    requires Enabled(s, a) && (a.Broadcast? || a.Marked? || a.Timer?)
    ensures Next(cfg, s.(polling := polling), a) == Next(cfg, s, a).(polling := polling)
    ensures Next(cfg, s, a).polling == s.polling
  {}

  lemma QueueKeeps(cfg: Config, s: Shared, a: Action)
    requires SoleInv(cfg, s) && CanDo(s, OfQueue(a)) && |s.polls| <= 1
    ensures SoleInv(cfg, Done(cfg, s, OfQueue(a)))
  {
    hide Inv, Next;
    var s' := Done(cfg, s, OfQueue(a));
    QueueGoesOn(cfg, s.queue, Ready, a);
    if s.polls == map[] {
      StepKeeps(cfg, s.queue, a);
    }
    forall poll | poll in s'.polls
      ensures Inv(cfg, Seen(s', poll))
    {
      QueueGoesOn(cfg, s.queue, s.polls[poll], a);
      StepKeeps(cfg, Seen(s, poll), a);
    }
  }

  lemma {:induction false} SoleRunKeeps(cfg: Config, states: seq<Shared>, doings: seq<Doing>, n: nat)
    requires IsSharedRun(cfg, states, doings) && PollsAtMost(states, 1) && n < |states|
    ensures SoleInv(cfg, states[n])
  {
    hide SoleInv, CanDo, Done;
    if n == 0 {
      NothingYet(cfg);
      NobodyPolls(cfg);
    } else {
      SoleRunKeeps(cfg, states, doings, n - 1);
      assert |states[n - 1].polls| <= 1 && |states[n].polls| <= 1;
      match doings[n - 1]
      case OfPoll(poll, a) => PollKeeps(cfg, states[n - 1], poll, a);
      case OfQueue(a) => QueueKeeps(cfg, states[n - 1], a);
    }
  }

  lemma NobodyPolls(cfg: Config)
    requires Inv(cfg, EMPTY)
    ensures SoleInv(cfg, IDLE)
  {}

  lemma PlacesOnce(s: State)
    requires Accounted(s, multiset{})
    ensures OnlyOnce(s)
  {
    forall id
      ensures (multiset(s.queue) + InFlight(s.loops))[id] <= 1
    {
      assert multiset(s.pending)[id] <= 1;
      assert Places(s)[id] <= 1;
    }
  }

  lemma SoleIsOnce(cfg: Config, s: Shared)
    requires SoleInv(cfg, s)
    ensures OnlyOnce(s.queue)
  {
    if s.polls == map[] {
      PlacesOnce(s.queue);
    } else {
      var poll :| poll in s.polls;
      PlacesOnce(Seen(s, poll));
    }
  }

  // ---- Two polls ------------------------------------------------------------------------------

  /** A run under construction, at the moment in state `s`. */
  ghost predicate Reaches(cfg: Config, states: seq<Shared>, doings: seq<Doing>, s: Shared) {
    IsSharedRun(cfg, states, doings) && PollsAtMost(states, 2) && states[|states| - 1] == s
  }

  lemma Extended(cfg: Config, states: seq<Shared>, doings: seq<Doing>, s: Shared, d: Doing)
    returns (states': seq<Shared>, doings': seq<Doing>, s': Shared)
    requires Reaches(cfg, states, doings, s) && CanDo(s, d) && |Done(cfg, s, d).polls| <= 2
    ensures s' == Done(cfg, s, d) && Reaches(cfg, states', doings', s')
  {
    hide CanDo, Done;
    s' := Done(cfg, s, d);
    states', doings' := states + [s'], doings + [d];
    assert forall i :: 0 <= i < |states| ==> states'[i] == states[i];
  }

  const EVENT := "e"

  /** Both look the event up before either has picked it up, and both pick it up. */
  lemma BothPickUp(cfg: Config) returns (states: seq<Shared>, doings: seq<Doing>, s: Shared)
    ensures Reaches(cfg, states, doings, s)
    ensures s.polls == map[0 := Transforming(EVENT), 1 := Transforming(EVENT)]
    ensures s.queue == EMPTY.(pending := {EVENT}, picked := [EVENT, EVENT])
  {
    states, doings, s := [IDLE], [], IDLE;
    assert Reaches(cfg, states, doings, s);
    hide Reaches;
    states, doings, s := Extended(cfg, states, doings, s, OfPoll(0, Look(EVENT)));
    states, doings, s := Extended(cfg, states, doings, s, OfPoll(1, Look(EVENT)));
    states, doings, s := Extended(cfg, states, doings, s, OfPoll(0, LookedUp(false)));
    states, doings, s := Extended(cfg, states, doings, s, OfPoll(1, LookedUp(false)));
  }

  lemma BothQueue(cfg: Config) returns (states: seq<Shared>, doings: seq<Doing>, s: Shared)
    requires cfg.wired
    ensures Reaches(cfg, states, doings, s) && s.queue.loops == [Sending(EVENT)] && s.queue.queue == [EVENT]
  {
    states, doings, s := BothPickUp(cfg);
    hide Reaches;
    states, doings, s := Extended(cfg, states, doings, s, OfPoll(0, Transformed(true)));
    assert s.polls == map[1 := Transforming(EVENT)];
    states, doings, s := Extended(cfg, states, doings, s, OfPoll(1, Transformed(true)));
  }

  // ---- Exactly -------------------------------------------------------------------------------

  ghost predicate NeverTwice(cfg: Config, k: nat) {
    forall states: seq<Shared>, doings: seq<Doing> :: IsSharedRun(cfg, states, doings) && PollsAtMost(states, k)
      ==> OnlyOnce(states[|states| - 1].queue)
  }

  /** No event ever waits twice, or waits while it is broadcast - exactly if polls do not overlap. */
  lemma OnceOnlyWithoutOverlap(cfg: Config, k: nat)
    requires cfg.wired
    ensures NeverTwice(cfg, k) <==> k <= 1
  {
    if k <= 1 {
      forall states: seq<Shared>, doings: seq<Doing> | IsSharedRun(cfg, states, doings) && PollsAtMost(states, k)
        ensures OnlyOnce(states[|states| - 1].queue)
      {
        SoleRunKeeps(cfg, states, doings, |states| - 1);
        SoleIsOnce(cfg, states[|states| - 1]);
      }
    } else {
      var states, doings, s := BothQueue(cfg);
      assert (multiset(s.queue.queue) + InFlight(s.queue.loops))[EVENT] == 2;
    }
  }
}
