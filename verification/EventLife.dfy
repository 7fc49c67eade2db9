/**
  The whole life of an event, over any number of restarts: the poller's queue, the table
  of processed events, and the delivery that each broadcast is. The table may not be
  readable (a lookup then answers that the event is new) and a mark may be lost.
*/
module EventLife {
  import opened Wrappers
  import opened AlertQueue
  import opened AlertQueueTheorems
  import opened Delivery
  import opened DeliveryTheorems
  import opened DeliveryLimits

  datatype Life = Life(
    poller: State,
    processed: set<string>,            // the table
    tries: map<string, seq<Try>>,      // the deliveries of each event, those cut short by a restart included
    completed: multiset<string>,       // deliveries that returned
    lostMarks: multiset<string>,       // of these, how many were not marked
    missed: multiset<string>)          // lookups that failed and so missed a mark

  const BORN := Life(EMPTY, {}, map[], multiset{}, multiset{}, multiset{})

  datatype Happening =
    | Step(a: Action)                  // of the poll, of a transform, or of the timer
    | Lookup(readOk: bool)
    | Deliver(loop: nat, call: Call)
    | Mark(loop: nat, lands: bool)
    | Restart(dying: Try, lands: bool) // what became of the delivery or of the mark it cut short, if it did

  function TriesOf(l: Life, id: string): seq<Try> {
    if id in l.tries then l.tries[id] else []
  }

  /** What the deliveries of an event have come to. */
  function WorldOf(l: Life, id: string): World {
    AfterAll(UNTOUCHED, TriesOf(l, id))
  }

  predicate CanHappen(l: Life, h: Happening) {
    match h
    case Step(a) => Enabled(l.poller, a) && (a.Look? || a.Transformed? || a.Timer?)
    case Lookup(_) => l.poller.polling.Checking?
    case Deliver(i, _) => i < |l.poller.loops| && l.poller.loops[i].Sending?
    case Mark(i, _) => i < |l.poller.loops| && l.poller.loops[i].Marking?
    case Restart(dying, _) => Dies(dying)
  }

  function Tried(l: Life, id: string, t: Try): Life {
    l.(tries := l.tries[id := TriesOf(l, id) + [t]])
  }

  function MarkedAs(l: Life, id: string, lands: bool): Life {
    if lands then l.(processed := l.processed + {id}) else l.(lostMarks := l.lostMarks + multiset{id})
  }

  function Then(cfg: Config, l: Life, h: Happening): Life
    requires CanHappen(l, h)
  {
    match h
    case Step(a) => l.(poller := Next(cfg, l.poller, a))
    case Lookup(readOk) =>
      var id := l.poller.polling.id;
      l.(poller := Next(cfg, l.poller, LookedUp(readOk && id in l.processed)),
         missed := if !readOk && id in l.processed then l.missed + multiset{id} else l.missed)
    case Deliver(i, call) =>
      var id := l.poller.loops[i].id;
      var ok := Returns(WorldOf(l, id), Try(call, None));
      Tried(l, id, Try(call, None)).(poller := Next(cfg, l.poller, Broadcast(i, ok)),
                                     completed := if ok then l.completed + multiset{id} else l.completed)
    case Mark(i, lands) => MarkedAs(l, l.poller.loops[i].id, lands).(poller := Next(cfg, l.poller, Marked(i)))
    case Restart(dying, lands) =>
      var cut := if l.poller.loops == [] || l.poller.loops[0].Waiting? then l
                 else if l.poller.loops[0].Sending? then Tried(l, l.poller.loops[0].id, dying)
                 else MarkedAs(l, l.poller.loops[0].id, lands);
      cut.(poller := EMPTY)
  }

  ghost predicate IsLife(cfg: Config, lives: seq<Life>, happenings: seq<Happening>) {
    && |lives| == |happenings| + 1
    && lives[0] == BORN
    && (forall i :: 0 <= i < |happenings| ==>
          CanHappen(lives[i], happenings[i]) && lives[i + 1] == Then(cfg, lives[i], happenings[i]))
  }

  // ---- What every happening keeps ------------------------------------------------------------

  /** The event has been delivered and is just being marked. */
  predicate Marks(s: State, id: string) {
    s.loops != [] && s.loops[0] == Marking(id)
  }

  ghost predicate ReturnsAt(tries: seq<Try>, k: nat)
    requires k < |tries|
  {
    Returns(AfterAll(UNTOUCHED, tries[..k]), tries[k])
  }

  /** One of the deliveries has returned. */
  ghost predicate HasReturned(tries: seq<Try>) {
    exists k: nat :: k < |tries| && ReturnsAt(tries, k)
  }

  /**
    Each delivery that returned was paid for, by a fault or by the mark. While the event
    is under way again, all of them were paid for by faults.
  */
  ghost predicate EventOk(l: Life, id: string) {
    && l.completed[id] <= l.lostMarks[id] + l.missed[id]
                          + (if Marks(l.poller, id) || (id !in l.poller.pending && id in l.processed) then 1 else 0)
    && (Marks(l.poller, id) || id in l.processed ==> HasReturned(TriesOf(l, id)))
  }

  lemma MarksIsPending(cfg: Config, s: State, id: string)
    requires Inv(cfg, s) && s.loops != [] && !s.loops[0].Waiting? && s.loops[0].id == id
    ensures id in s.pending
  {
    assert id in InFlight(s.loops) && id in Places(s);
    assert id in multiset(s.pending);
  }

  lemma TurnReleasesOnly(cfg: Config, s: State, i: nat)
    requires i < |s.loops|
    ensures Turn(cfg, s, i).pending <= s.pending
  {}

  lemma QueuedReleasesOnly(cfg: Config, s: State, id: string)
    requires OneLoop(s)
    ensures var s' := Queued(cfg, s, id);
            s'.pending <= s.pending && forall other :: Marks(s', other) <==> Marks(s, other)
  {
    var room := if |s.queue| >= cfg.maxQueue then DropOldest(s) else s;
    var pushed := room.(queue := room.queue + [id]);
    if !pushed.isProcessing {
      TurnReleasesOnly(cfg, pushed.(loops := pushed.loops + [Waiting]), |pushed.loops|);
    }
  }

  /** The poll, the transform and the timer take no event up and bring none to its mark. */
  lemma StepReleasesOnly(cfg: Config, s: State, a: Action)
    requires OneLoop(s) && Enabled(s, a) && (a.Look? || a.Transformed? || a.Timer?)
    ensures var s' := Next(cfg, s, a);
            s'.pending <= s.pending && forall id :: Marks(s', id) <==> Marks(s, id)
  {
    hide Queued;
    match a
    case Transformed(ok) =>
      if ok {
        QueuedReleasesOnly(cfg, s.(polling := Ready), s.polling.id);
      }
    case Timer(i) => TurnReleasesOnly(cfg, s, i);
    case _ =>
  }

  lemma StillReturned(tries: seq<Try>, t: Try)
    requires HasReturned(tries)
    ensures HasReturned(tries + [t])
  {
    var k: nat :| k < |tries| && ReturnsAt(tries, k);
    assert (tries + [t])[..k] == tries[..k];
    assert ReturnsAt(tries + [t], k);
  }

  lemma NowReturned(tries: seq<Try>, t: Try)
    requires Returns(AfterAll(UNTOUCHED, tries), t)
    ensures HasReturned(tries + [t])
  {
    assert (tries + [t])[..|tries|] == tries;
    assert ReturnsAt(tries + [t], |tries|);
  }

  lemma LookupKeeps(cfg: Config, l: Life, readOk: bool, id: string)
    requires Inv(cfg, l.poller) && CanHappen(l, Lookup(readOk)) && EventOk(l, id)
    ensures EventOk(Then(cfg, l, Lookup(readOk)), id)
  {
    hide HasReturned;
    if Marks(l.poller, id) {
      MarksIsPending(cfg, l.poller, id);
    }
  }

  lemma DeliverKeeps(cfg: Config, l: Life, i: nat, call: Call, id: string)
    requires Inv(cfg, l.poller) && CanHappen(l, Deliver(i, call)) && EventOk(l, id)
    ensures EventOk(Then(cfg, l, Deliver(i, call)), id)
  {
    hide HasReturned, Returns, AfterAll, Inv;
    var tries, t := TriesOf(l, id), Try(call, None);
    OneLoopHere(cfg, l.poller);
    assert l.poller.loops == [l.poller.loops[0]];
    if id == l.poller.loops[i].id {
      MarksIsPending(cfg, l.poller, id);
      if HasReturned(tries) {
        StillReturned(tries, t);
      }
      if Returns(WorldOf(l, id), t) {
        NowReturned(tries, t);
      }
    }
  }

  lemma MarkKeeps(cfg: Config, l: Life, i: nat, lands: bool, id: string)
    requires Inv(cfg, l.poller) && CanHappen(l, Mark(i, lands)) && EventOk(l, id)
    ensures EventOk(Then(cfg, l, Mark(i, lands)), id)
  {
    hide HasReturned;
  }

  lemma RestartKeeps(cfg: Config, l: Life, dying: Try, lands: bool, id: string)
    requires Inv(cfg, l.poller) && EventOk(l, id) && Dies(dying)
    ensures EventOk(Then(cfg, l, Restart(dying, lands)), id)
  {
    hide HasReturned;
    if HasReturned(TriesOf(l, id)) {
      StillReturned(TriesOf(l, id), dying);
    }
  }

  lemma HappeningKeeps(cfg: Config, l: Life, h: Happening, id: string)
    requires Inv(cfg, l.poller) && CanHappen(l, h) && EventOk(l, id)
    ensures EventOk(Then(cfg, l, h), id)
  {
    hide HasReturned, Next, Inv;
    match h
    case Step(a) => OneLoopHere(cfg, l.poller); StepReleasesOnly(cfg, l.poller, a);
    case Lookup(readOk) => LookupKeeps(cfg, l, readOk, id);
    case Deliver(i, call) => DeliverKeeps(cfg, l, i, call, id);
    case Mark(i, lands) => MarkKeeps(cfg, l, i, lands, id);
    case Restart(dying, lands) => RestartKeeps(cfg, l, dying, lands, id);
  }

  lemma OneLoopHere(cfg: Config, s: State)
    requires Inv(cfg, s)
    ensures OneLoop(s)
  {}

  lemma PollerKeeps(cfg: Config, l: Life, h: Happening)
    requires Inv(cfg, l.poller) && CanHappen(l, h)
    ensures Inv(cfg, Then(cfg, l, h).poller)
  {
    hide Inv, Next;
    match h
    case Step(a) => StepKeeps(cfg, l.poller, a);
    case Lookup(readOk) => StepKeeps(cfg, l.poller, LookedUp(readOk && l.poller.polling.id in l.processed));
    case Deliver(i, call) =>
      StepKeeps(cfg, l.poller, Broadcast(i, Returns(WorldOf(l, l.poller.loops[i].id), Try(call, None))));
    case Mark(i, lands) => StepKeeps(cfg, l.poller, Marked(i));
    case Restart(_, _) => NothingYet(cfg);
  }

  lemma {:induction false} LifeKeeps(cfg: Config, lives: seq<Life>, happenings: seq<Happening>, n: nat, id: string)
    requires IsLife(cfg, lives, happenings) && n < |lives|
    ensures Inv(cfg, lives[n].poller) && EventOk(lives[n], id)
  {
    hide Inv, EventOk, Then, CanHappen;
    if n == 0 {
      NothingYet(cfg);
      BornOk(id);
    } else {
      LifeKeeps(cfg, lives, happenings, n - 1, id);
      PollerKeeps(cfg, lives[n - 1], happenings[n - 1]);
      HappeningKeeps(cfg, lives[n - 1], happenings[n - 1], id);
    }
  }

  lemma BornOk(id: string)
    ensures EventOk(BORN, id)
  {}

  // ---- The promises ----------------------------------------------------------------------------

  /**
    Over all restarts, the delivery of an event returns once, and once more for each
    mark that was lost and each lookup that missed a mark. Even so, each chat has the
    message once, and once more for each fault of the delivery's own ledger.
  */
  lemma DeliveredOncePerFault(cfg: Config, lives: seq<Life>, happenings: seq<Happening>, n: nat, id: string,
                              chat: string)
    requires IsLife(cfg, lives, happenings) && n < |lives|
    ensures var l, w := lives[n], WorldOf(lives[n], id);
      && l.completed[id] <= 1 + l.lostMarks[id] + l.missed[id]
      && (id !in l.processed && id !in l.poller.pending ==> l.completed[id] <= l.lostMarks[id] + l.missed[id])
      && w.sends[chat] <= 1 + w.failedReads + w.lost[chat]
  {
    LifeKeeps(cfg, lives, happenings, n, id);
    if Marks(lives[n].poller, id) {
      MarksIsPending(cfg, lives[n].poller, id);
    }
    AtMostOncePerFault(TriesOf(lives[n], id), chat);
  }

  lemma {:induction false} TriesSplit(w: World, tries: seq<Try>, k: nat)
    requires k < |tries|
    ensures AfterAll(w, tries) == AfterAll(After(AfterAll(w, tries[..k]), tries[k]), tries[k + 1..])
    decreases |tries|
  {
    hide After;
    var last := |tries| - 1;
    if k < last {
      TriesSplit(w, tries[..last], k);
      assert tries[..last][..k] == tries[..k];
      assert tries[..last][k + 1..] == tries[k + 1..][..last - k - 1];
    }
  }

  /**
    An event in the table was delivered: one of its deliveries returned, and everybody
    that one owed the alert has had it, or Telegram refused it for good.
  */
  lemma ProcessedMeansHandled(cfg: Config, lives: seq<Life>, happenings: seq<Happening>, n: nat, id: string)
    returns (k: nat)
    requires IsLife(cfg, lives, happenings) && n < |lives| && id in lives[n].processed
    ensures var tries, w := TriesOf(lives[n], id), WorldOf(lives[n], id);
      && k < |tries| && ReturnsAt(tries, k)
      && forall chat :: chat in Owed(tries[k].call) ==> chat in w.sends || chat in w.refused
  {
    hide Returns, After, Owed;
    LifeKeeps(cfg, lives, happenings, n, id);
    var tries := TriesOf(lives[n], id);
    k :| k < |tries| && ReturnsAt(tries, k);
    TriesSplit(UNTOUCHED, tries, k);
    forall chat | chat in Owed(tries[k].call)
      ensures chat in WorldOf(lives[n], id).sends || chat in WorldOf(lives[n], id).refused
    {
      CommittedMeansHandled(tries[..k], tries[k], tries[k + 1..], chat);
    }
  }

  /** In the table, and not under way: nothing more is done for it. */
  ghost predicate Over(l: Life, id: string) {
    id in l.processed && id !in l.poller.pending
  }

  ghost predicate NothingMore(l: Life, l': Life, id: string) {
    && Over(l', id) && l'.completed[id] == l.completed[id] && TriesOf(l', id) == TriesOf(l, id)
  }

  lemma OverStays(cfg: Config, l: Life, h: Happening, id: string)
    requires Inv(cfg, l.poller) && CanHappen(l, h) && Over(l, id)
    ensures var l' := Then(cfg, l, h);
            l.missed[id] <= l'.missed[id] && (l'.missed[id] == l.missed[id] ==> NothingMore(l, l', id))
  {
    hide Queued, Turn, Returns, AfterAll;
    match h
    case Step(a) => StepReleasesOnly(cfg, l.poller, a);
    case Deliver(i, _) => MarksIsPending(cfg, l.poller, l.poller.loops[i].id);
    case Restart(_, _) =>
      if l.poller.loops != [] && !l.poller.loops[0].Waiting? {
        MarksIsPending(cfg, l.poller, l.poller.loops[0].id);
      }
    case _ =>
  }

  lemma MissedGrows(cfg: Config, l: Life, h: Happening, id: string)
    requires CanHappen(l, h)
    ensures l.missed[id] <= Then(cfg, l, h).missed[id]
  {
    hide Next, Returns, AfterAll;
  }

  /**
    Once its mark has landed, an event is over: while no lookup misses the mark, it is not
    delivered again, whatever else happens and however often the process restarts.
  */
  lemma {:induction false} MarkedIsOver(cfg: Config, lives: seq<Life>, happenings: seq<Happening>, i: nat, n: nat,
                                        id: string)
    requires IsLife(cfg, lives, happenings) && i <= n < |lives| && Over(lives[i], id)
    ensures lives[i].missed[id] <= lives[n].missed[id]
    ensures lives[n].missed[id] == lives[i].missed[id] ==> NothingMore(lives[i], lives[n], id)
    decreases n
  {
    hide Inv, Then, CanHappen, EventOk;
    if i < n {
      MarkedIsOver(cfg, lives, happenings, i, n - 1, id);
      MissedGrows(cfg, lives[n - 1], happenings[n - 1], id);
      if lives[n - 1].missed[id] == lives[i].missed[id] {
        LifeKeeps(cfg, lives, happenings, n - 1, id);
        OverStays(cfg, lives[n - 1], happenings[n - 1], id);
      }
    }
  }

  /** A mark that lands ends its event. */
  lemma MarkEnds(cfg: Config, l: Life, i: nat)
    requires CanHappen(l, Mark(i, true))
    ensures Over(Then(cfg, l, Mark(i, true)), l.poller.loops[i].id)
  {}

  // ---- The bound is reached ----------------------------------------------------------------------

  ghost predicate Reaches(cfg: Config, lives: seq<Life>, happenings: seq<Happening>, l: Life) {
    IsLife(cfg, lives, happenings) && lives[|lives| - 1] == l
  }

  lemma Extended(cfg: Config, lives: seq<Life>, happenings: seq<Happening>, l: Life, h: Happening)
    returns (lives': seq<Life>, happenings': seq<Happening>, l': Life)
    requires Reaches(cfg, lives, happenings, l) && CanHappen(l, h)
    ensures l' == Then(cfg, l, h) && Reaches(cfg, lives', happenings', l')
  {
    hide Then, CanHappen;
    l' := Then(cfg, l, h);
    lives', happenings' := lives + [l'], happenings + [h];
  }

  lemma OneGroupReturns(w: World)
    ensures Returns(w, Try(OneGroup(true, true, None), None))
  {
    OneGroupCall(w, true, true, None);
  }

  const EVENT := "e"

  /** From a fresh start the event is picked up; its lookup fails. */
  lemma PicksUp(cfg: Config, lives: seq<Life>, happenings: seq<Happening>, l: Life)
    returns (lives': seq<Life>, happenings': seq<Happening>, l': Life)
    requires Reaches(cfg, lives, happenings, l) && l.poller == EMPTY && cfg.wired
    ensures Reaches(cfg, lives', happenings', l') && l'.poller.loops == [Sending(EVENT)]
    ensures l' == l.(poller := l'.poller,
                     missed := if EVENT in l.processed then l.missed + multiset{EVENT} else l.missed)
  {
    hide Reaches, Queued;
    lives', happenings', l' := Extended(cfg, lives, happenings, l, Step(Look(EVENT)));
    lives', happenings', l' := Extended(cfg, lives', happenings', l', Lookup(false));
    FirstIsSent(cfg, l'.poller.(polling := Ready));
    lives', happenings', l' := Extended(cfg, lives', happenings', l', Step(Transformed(true)));
  }

  lemma FirstIsSent(cfg: Config, s: State)
    requires cfg.wired && s.queue == [] && s.loops == [] && !s.isProcessing
    ensures Queued(cfg, s, EVENT).loops == [Sending(EVENT)]
  {}

  /** Then it is delivered and marked, or not; and the process restarts. */
  lemma RoundTrip(cfg: Config, lives: seq<Life>, happenings: seq<Happening>, l: Life, lands: bool)
    returns (lives': seq<Life>, happenings': seq<Happening>, l': Life)
    requires Reaches(cfg, lives, happenings, l) && l.poller == EMPTY && cfg.wired
    ensures Reaches(cfg, lives', happenings', l') && l'.poller == EMPTY
    ensures l'.completed[EVENT] == l.completed[EVENT] + 1
    ensures l'.missed[EVENT] == l.missed[EVENT] + if EVENT in l.processed then 1 else 0
    ensures l'.lostMarks[EVENT] == l.lostMarks[EVENT] + if lands then 0 else 1
    ensures EVENT in l'.processed <==> EVENT in l.processed || lands
  {
    hide Reaches, Returns, AfterAll;
    lives', happenings', l' := PicksUp(cfg, lives, happenings, l);
    OneGroupReturns(WorldOf(l', EVENT));
    lives', happenings', l' := Extended(cfg, lives', happenings', l', Deliver(0, OneGroup(true, true, None)));
    var dying := Try(OneGroup(true, true, None), Some(0));
    lives', happenings', l' := Extended(cfg, lives', happenings', l', Restart(dying, lands));
  }

  /** For all numbers of lost marks and missed lookups there is a life with one delivery more than both. */
  lemma {:induction false} EveryFaultCostsADelivery(cfg: Config, lostMarks: nat, missed: nat)
    returns (lives: seq<Life>, happenings: seq<Happening>, l: Life)
    requires cfg.wired
    ensures Reaches(cfg, lives, happenings, l) && l.poller == EMPTY && EVENT in l.processed
    ensures l.lostMarks[EVENT] == lostMarks && l.missed[EVENT] == missed
    ensures l.completed[EVENT] == 1 + lostMarks + missed
    decreases missed
  {
    hide Reaches;
    if missed > 0 {
      lives, happenings, l := EveryFaultCostsADelivery(cfg, lostMarks, missed - 1);
    } else {
      lives, happenings, l := LosesMarks(cfg, lostMarks);
    }
    lives, happenings, l := RoundTrip(cfg, lives, happenings, l, true);
  }

  lemma {:induction false} LosesMarks(cfg: Config, n: nat)
    returns (lives: seq<Life>, happenings: seq<Happening>, l: Life)
    requires cfg.wired
    ensures Reaches(cfg, lives, happenings, l) && l.poller == EMPTY && EVENT !in l.processed
    ensures l.completed[EVENT] == l.lostMarks[EVENT] == n && l.missed[EVENT] == 0
  {
    if n == 0 {
      lives, happenings, l := [BORN], [], BORN;
    } else {
      hide Reaches;
      lives, happenings, l := LosesMarks(cfg, n - 1);
      lives, happenings, l := RoundTrip(cfg, lives, happenings, l, false);
    }
  }
}
