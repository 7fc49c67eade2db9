/** An event that was delivered is not delivered again by the same process while it is remembered. */
module EventMemory {
  import opened Wrappers
  import opened AlertQueue
  import opened AlertQueueTheorems
  import opened AlertQueueMemory
  import opened EventLife
  import opened Delivery

  /** What a happening other than a restart is to the poller. */
  function PollerAction(l: Life, h: Happening): Action
    requires CanHappen(l, h) && !h.Restart?
  {
    match h
    case Step(a) => a
    case Lookup(readOk) => LookedUp(readOk && l.poller.polling.id in l.processed)
    case Deliver(i, call) =>
      var ok := Returns(WorldOf(l, l.poller.loops[i].id), Try(call, None));
      Broadcast(i, ok)
    case Mark(i, _) => Marked(i)
  }

  /** From `i` to `n` the process does not restart. */
  ghost predicate OneProcess(cfg: Config, lives: seq<Life>, happenings: seq<Happening>, i: nat, n: nat) {
    && IsLife(cfg, lives, happenings) && i <= n <= |happenings|
    && forall k :: i <= k < n ==> !happenings[k].Restart?
  }

  function Pollers(lives: seq<Life>, i: nat, n: nat): seq<State>
    requires i <= n < |lives|
  {
    seq(n - i + 1, k requires 0 <= k <= n - i => lives[i + k].poller)
  }

  ghost function PollerActions(cfg: Config, lives: seq<Life>, happenings: seq<Happening>, i: nat, n: nat): seq<Action>
    requires OneProcess(cfg, lives, happenings, i, n)
  {
    seq(n - i, k requires 0 <= k < n - i => PollerAction(lives[i + k], happenings[i + k]))
  }

  lemma PollerSteps(cfg: Config, l: Life, h: Happening)
    requires CanHappen(l, h) && !h.Restart?
    ensures Enabled(l.poller, PollerAction(l, h)) && Then(cfg, l, h).poller == Next(cfg, l.poller, PollerAction(l, h))
  {
    hide Next, Returns, AfterAll;
  }

  lemma ProcessIsAStretch(cfg: Config, lives: seq<Life>, happenings: seq<Happening>, i: nat, n: nat)
    requires OneProcess(cfg, lives, happenings, i, n)
    ensures IsStretch(cfg, Pollers(lives, i, n), PollerActions(cfg, lives, happenings, i, n))
  {
    hide Inv, Next, Enabled, CanHappen, Then, PollerAction, EventOk;
    LifeKeeps(cfg, lives, happenings, i, "");
    var states, actions := Pollers(lives, i, n), PollerActions(cfg, lives, happenings, i, n);
    forall k | 0 <= k < |actions|
      ensures Enabled(states[k], actions[k]) && states[k + 1] == Next(cfg, states[k], actions[k])
    {
      PollerSteps(cfg, lives[i + k], happenings[i + k]);
      assert lives[i + k + 1] == Then(cfg, lives[i + k], happenings[i + k]);
    }
  }

  /** Nothing is delivered that is not pending, and nothing seen is. */
  lemma SeenIsNotDelivered(cfg: Config, l: Life, h: Happening, id: string)
    requires Inv(cfg, l.poller) && CanHappen(l, h) && !h.Restart? && id in l.poller.seen
    ensures var l' := Then(cfg, l, h); l'.completed[id] == l.completed[id] && TriesOf(l', id) == TriesOf(l, id)
  {
    hide Queued, Turn, Returns, AfterAll;
    if h.Deliver? {
      MarksIsPending(cfg, l.poller, l.poller.loops[h.loop].id);
    }
  }

  /**
    After the mark of an event, lost or not, the same process does not deliver it again -
    whatever lookups fail - until as many other events as the limit have been dealt with,
    and one of them marked.
  */
  lemma {:induction false} NotAgainInOneProcess(cfg: Config, lives: seq<Life>, happenings: seq<Happening>, i: nat,
                                                n: nat)
    requires OneProcess(cfg, lives, happenings, i, n) && i < n && happenings[i].Mark?
    requires StillRemembers(cfg, PollerActions(cfg, lives, happenings, i, n), n - i)
    ensures var id := lives[i].poller.loops[happenings[i].loop].id;
      && id in lives[n].poller.seen
      && lives[n].completed[id] == lives[i].completed[id] && TriesOf(lives[n], id) == TriesOf(lives[i], id)
    decreases n
  {
    hide Inv, Next, Then, EventOk, StillRemembers, CanHappen, IsStretch, PollerAction, Learned;
    FirstAction(cfg, lives, happenings, i, n);
    var id := lives[i].poller.loops[happenings[i].loop].id;
    var actions := PollerActions(cfg, lives, happenings, i, n);
    ProcessIsAStretch(cfg, lives, happenings, i, n);
    MarkedIsLeftAlone(cfg, Pollers(lives, i, n), actions, n - i);
    if n == i + 1 {
      MarkDeliversNobody(cfg, lives[i], happenings[i]);
    } else {
      var fewer := PollerActions(cfg, lives, happenings, i, n - 1);
      SoonerRemembers(cfg, actions, n - 1 - i, n - i);
      SameCounts(cfg, fewer, actions, n - 1 - i);
      NotAgainInOneProcess(cfg, lives, happenings, i, n - 1);
      LifeKeeps(cfg, lives, happenings, n - 1, id);
      SeenIsNotDelivered(cfg, lives[n - 1], happenings[n - 1], id);
    }
  }

  lemma FirstAction(cfg: Config, lives: seq<Life>, happenings: seq<Happening>, i: nat, n: nat)
    requires OneProcess(cfg, lives, happenings, i, n) && i < n && happenings[i].Mark?
    ensures PollerActions(cfg, lives, happenings, i, n)[0] == Marked(happenings[i].loop)
    ensures Enabled(lives[i].poller, Marked(happenings[i].loop))
  {
    assert PollerAction(lives[i], happenings[i]) == Marked(happenings[i].loop);
    assert lives[i + 0] == lives[i] && happenings[i + 0] == happenings[i];
  }

  lemma MarkDeliversNobody(cfg: Config, l: Life, h: Happening)
    requires CanHappen(l, h) && h.Mark?
    ensures Then(cfg, l, h).completed == l.completed && Then(cfg, l, h).tries == l.tries
  {}

  lemma SameCounts(cfg: Config, fewer: seq<Action>, actions: seq<Action>, n: nat)
    requires n <= |fewer| && fewer <= actions && StillRemembers(cfg, actions, n)
    ensures StillRemembers(cfg, fewer, n)
  {
    PrefixCounts(fewer, actions, n);
  }
}
