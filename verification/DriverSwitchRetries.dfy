/**
  The driver switch over the retries of one event, each run ending when its own
  delivery returns. An unreadable switch costs extra calls: here is exactly when even
  those change nothing for anybody but the driver's group.
*/
module DriverSwitchRetries {
  import opened Wrappers
  import opened VideoBackfill
  import opened Delivery
  import opened DeliveryTheorems
  import opened DriverSwitch
  import opened RecoveryTypes

  /** The notification targets that get their turn before the process dies, if it does. */
  function Reach(t: Try): seq<string> {
    if Dies(t) && t.diesAfter.value <= |Targets(t.call)| then Targets(t.call)[..t.diesAfter.value] else Targets(t.call)
  }

  /** The call notifies this chat, and the ledger write at the chat's first turn lands. */
  ghost predicate LandsIn(call: Call, chat: string) {
    exists k: nat :: k < |Targets(call)| && FirstTurnLands(call, chat, k)
  }

  ghost predicate FirstTurnLands(call: Call, chat: string, k: nat)
    requires k < |Targets(call)|
  {
    Targets(call)[k] == chat && chat !in Targets(call)[..k] && call.attempt(k).lands
  }

  /** If the event can end with `m`, a later `j` reads the ledger and finds everybody it reaches on record there. */
  ghost predicate QuietAfter(m: Try, j: Try) {
    !Dies(m) ==> Reach(j) == [] || (j.call.readOk && forall chat :: chat in Reach(j) ==> LandsIn(m.call, chat))
  }

  /**
    The schedule of reads, writes and subscribers under which the switch never
    matters: after a call the event can end with, no retry fails to read the ledger,
    none has a new target, and no write of that call to a target of theirs was lost.
  */
  ghost predicate Quiet(tries: seq<Try>) {
    forall m, j :: 0 <= m < j < |tries| ==> QuietAfter(tries[m], tries[j])
  }

  // ---- When the schedule is quiet --------------------------------------------------------

  lemma SameRecordChain(a: World, b: World, c: World, drivers: set<string>)
    requires SameRecord(a, b, drivers) && SameRecord(b, c, drivers)
    ensures SameRecord(a, c, drivers)
  {
    forall t | t !in drivers
      ensures SameTrace(a, c, t)
    {
      assert SameTrace(a, b, t) && SameTrace(b, c, t);
    }
  }

  lemma SameRecordTurned(a: World, b: World, drivers: set<string>)
    requires SameRecord(a, b, drivers)
    ensures SameRecord(b, a, drivers)
  {
    forall t | t !in drivers
      ensures SameTrace(b, a, t)
    {
      assert SameTrace(a, b, t);
    }
  }

  lemma {:induction false} SettledVisitsDoNothing(w: World, call: Call, n: nat)
    requires n <= |Targets(call)| && forall t :: t in Targets(call)[..n] ==> t in w.mem
    ensures VisitFirst(w, call, n) == w
  {
    if n > 0 {
      assert Targets(call)[..n] == Targets(call)[..n - 1] + [Targets(call)[n - 1]];
      SettledVisitsDoNothing(w, call, n - 1);
    }
  }

  /** A retry that reads the ledger and finds everybody it reaches on record there. */
  ghost predicate FindsEverybody(w: World, t: Try) {
    Reach(t) == [] || (t.call.readOk && forall chat :: chat in Reach(t) ==> chat in w.table)
  }

  ghost predicate DriversApart(t: Try, drivers: set<string>) {
    && (t.call.driver.Some? ==> t.call.driver.value.chat in drivers)
    && (forall chat :: chat in Targets(t.call) ==> chat !in drivers)
  }

  lemma SilentRetry(w: World, t: Try, drivers: set<string>)
    requires DriversApart(t, drivers) && FindsEverybody(w, t)
    ensures SameRecord(After(w, t), w, drivers)
  {
    hide Visit;
    var begin := Begin(w, t.call.readOk);
    var n := |Reach(t)|;
    assert Reach(t) == Targets(t.call)[..n];
    SettledVisitsDoNothing(begin, t.call, n);
    assert SameRecord(begin, w, drivers);
    if n == |Targets(t.call)| {
      assert Notified(w, t.call) == begin;
      DriverPartChangesNothing(begin, t.call, drivers);
      OutsideIsRecorded(VisitDriver(begin, t.call), begin, drivers);
      SameRecordChain(After(w, t), begin, w, drivers);
    }
  }

  /** Retries that find everybody on record reach nobody but the driver's group. */
  lemma {:induction false} ExtraRetriesAreSilent(w: World, tries: seq<Try>, drivers: set<string>)
    requires forall i :: 0 <= i < |tries| ==> DriversApart(tries[i], drivers) && FindsEverybody(w, tries[i])
    ensures SameRecord(UntilCommit(w, tries), w, drivers)
    decreases |tries|
  {
    if tries != [] {
      SilentRetry(w, tries[0], drivers);
      var after := After(w, tries[0]);
      if !Returns(w, tries[0]) {
        forall i | 0 <= i < |tries[1..]|
          ensures DriversApart(tries[1..][i], drivers) && FindsEverybody(after, tries[1..][i])
        {
          StillFound(w, after, tries[i + 1], drivers);
        }
        ExtraRetriesAreSilent(after, tries[1..], drivers);
        SameRecordChain(UntilCommit(w, tries), after, w, drivers);
      }
    }
  }

  lemma StillFound(w: World, after: World, t: Try, drivers: set<string>)
    requires SameRecord(after, w, drivers) && DriversApart(t, drivers) && FindsEverybody(w, t)
    ensures FindsEverybody(after, t)
  {
    forall chat | chat in Reach(t)
      ensures chat in w.table ==> chat in after.table
    {
      assert chat in Targets(t.call);
      assert SameTrace(after, w, chat);
    }
  }

  lemma VisitKeepsRows(w: World, kind: BotKind, chat: string, caption: string, a: Attempt, t: string)
    ensures var w' := Visit(w, kind, chat, caption, a);
            (t in w.table ==> t in w'.table) && (w.pending ==> w'.pending)
  {}

  lemma {:induction false} RowsStay(w: World, call: Call, n: nat, m: nat, t: string)
    requires n <= m <= |Targets(call)|
    ensures t in VisitFirst(w, call, n).table ==> t in VisitFirst(w, call, m).table
    ensures VisitFirst(w, call, n).pending ==> VisitFirst(w, call, m).pending
    decreases m
  {
    hide Visit;
    if n < m {
      RowsStay(w, call, n, m - 1, t);
      VisitKeepsRows(VisitFirst(w, call, m - 1), NotificationBot, Targets(call)[m - 1], call.text, call.attempt(m - 1),
                     t);
    }
  }

  lemma VisitRecords(w: World, kind: BotKind, chat: string, caption: string, a: Attempt)
    requires chat !in w.mem && a.lands && chat in Visit(w, kind, chat, caption, a).mem
    ensures chat in Visit(w, kind, chat, caption, a).table
  {}

  /** A target settled at its first turn, whose write landed, is on record. */
  lemma FirstTurnRecords(w: World, call: Call, chat: string, k: nat)
    requires k < |Targets(call)| && FirstTurnLands(call, chat, k)
    requires chat in VisitFirst(Begin(w, call.readOk), call, k + 1).mem
    ensures chat in VisitFirst(Begin(w, call.readOk), call, k + 1).table
  {
    hide Visit;
    var begin := Begin(w, call.readOk);
    var before := VisitFirst(begin, call, k);
    RowsStay(begin, call, 0, k, chat);
    if chat in begin.mem {
      RowsStay(begin, call, 0, k + 1, chat);
    } else {
      OnlyTargetsAreSettled(begin, call, k, chat);
      VisitRecords(before, NotificationBot, chat, call.text, call.attempt(k));
    }
  }

  lemma DriverKeepsRows(w: World, call: Call, t: string)
    ensures t in w.table ==> t in VisitDriver(w, call).table
    ensures w.pending ==> VisitDriver(w, call).pending
  {
    if call.driver.Some? {
      var d := call.driver.value;
      VisitKeepsRows(w, DriverBot, d.chat, d.caption, d.attempt, t);
    }
  }

  /** When a call returns, whoever its first writes landed for is on record. */
  lemma ReturnRecords(w: World, t: Try, chat: string)
    requires Returns(w, t) && LandsIn(t.call, chat)
    ensures chat in After(w, t).table
  {
    hide Visit, VisitDriver;
    var call := t.call;
    var begin := Begin(w, call.readOk);
    var k: nat :| k < |Targets(call)| && FirstTurnLands(call, chat, k);
    DriverKeepsRows(Notified(w, call), call, chat);
    RowsStay(begin, call, k + 1, |Targets(call)|, chat);
    VisitsSettle(begin, call, k + 1, k);
    FirstTurnRecords(w, call, chat, k);
  }

  /** One run has returned: the other goes on only for the driver's sake. */
  lemma OtherRunGoesOn(a: World, b: World, s: Try, t: seq<Try>, drivers: set<string>)
    requires SameRecord(a, b, drivers) && t != [] && AlikeButDriver(s, t[0], drivers)
    requires forall i :: 0 <= i < |t| ==> DriversApart(t[i], drivers)
    requires Quiet(t) && Returns(a, s)
    ensures SameRecord(After(a, s), UntilCommit(b, t), drivers)
  {
    hide Returns;
    SameTry(a, b, s, t[0], drivers);
    OutsideIsRecorded(After(a, s), After(b, t[0]), drivers);
    if !Returns(b, t[0]) {
      var after := After(b, t[0]);
      forall i | 0 <= i < |t[1..]|
        ensures DriversApart(t[1..][i], drivers) && FindsEverybody(after, t[1..][i])
      {
        assert QuietAfter(t[0], t[i + 1]);
        LaterFindsEverybody(a, after, s, t[0], t[i + 1], drivers);
      }
      ExtraRetriesAreSilent(after, t[1..], drivers);
      SameRecordTurned(UntilCommit(b, t), after, drivers);
      SameRecordChain(After(a, s), after, UntilCommit(b, t), drivers);
    }
  }

  lemma LaterFindsEverybody(a: World, after: World, s: Try, t: Try, later: Try, drivers: set<string>)
    requires Returns(a, s) && AlikeButDriver(s, t, drivers) && QuietAfter(t, later) && DriversApart(later, drivers)
    requires SameRecord(After(a, s), after, drivers)
    ensures FindsEverybody(after, later)
  {
    SameTargetsButDriver(s.call, t.call);
    if Reach(later) != [] {
      forall chat | chat in Reach(later)
        ensures chat in after.table
      {
        var k: nat :| k < |Targets(t.call)| && FirstTurnLands(t.call, chat, k);
        assert FirstTurnLands(s.call, chat, k);
        ReturnRecords(a, s, chat);
        assert chat in Targets(later.call);
        assert SameTrace(After(a, s), after, chat);
      }
    }
  }

  lemma QuietTail(tries: seq<Try>)
    requires Quiet(tries) && tries != []
    ensures Quiet(tries[1..])
  {
    forall m, j | 0 <= m < j < |tries[1..]|
      ensures QuietAfter(tries[1..][m], tries[1..][j])
    {
      assert QuietAfter(tries[m + 1], tries[j + 1]);
    }
  }

  lemma AlikeTail(s: seq<Try>, t: seq<Try>, drivers: set<string>)
    requires AlikeRuns(s, t, drivers) && s != []
    ensures AlikeRuns(s[1..], t[1..], drivers)
  {}

  lemma AlikeApart(s: Try, t: Try, drivers: set<string>)
    requires AlikeButDriver(s, t, drivers)
    ensures DriversApart(s, drivers) && DriversApart(t, drivers) && AlikeButDriver(t, s, drivers)
    ensures Reach(s) == Reach(t)
  {
    SameTargetsButDriver(s.call, t.call);
  }

  lemma AlikeQuietAfter(s: Try, t: Try, s': Try, t': Try, drivers: set<string>)
    requires AlikeButDriver(s, t, drivers) && AlikeButDriver(s', t', drivers) && QuietAfter(s, s')
    ensures QuietAfter(t, t')
  {
    SameTargetsButDriver(s.call, t.call);
    AlikeApart(s', t', drivers);
    forall chat | LandsIn(s.call, chat)
      ensures LandsIn(t.call, chat)
    {
      var k: nat :| k < |Targets(s.call)| && FirstTurnLands(s.call, chat, k);
      assert FirstTurnLands(t.call, chat, k);
    }
  }

  /** On a quiet schedule, runs ending at their own commit differ in nothing but the driver's posts. */
  lemma {:induction false} RetriesTouchNobodyElse(a: World, b: World, s: seq<Try>, t: seq<Try>, drivers: set<string>)
    requires SameRecord(a, b, drivers) && AlikeRuns(s, t, drivers) && Quiet(s)
    ensures SameRecord(UntilCommit(a, s), UntilCommit(b, t), drivers)
    decreases |s|
  {
    hide Returns, After;
    if s != [] {
      forall i | 0 <= i < |s|
        ensures DriversApart(s[i], drivers) && DriversApart(t[i], drivers)
      {
        AlikeApart(s[i], t[i], drivers);
      }
      if Returns(a, s[0]) {
        assert Quiet(t) by {
          forall m, j | 0 <= m < j < |t|
            ensures QuietAfter(t[m], t[j])
          {
            AlikeQuietAfter(s[m], t[m], s[j], t[j], drivers);
          }
        }
        OtherRunGoesOn(a, b, s[0], t, drivers);
      } else if Returns(b, t[0]) {
        AlikeApart(s[0], t[0], drivers);
        SameRecordTurned(a, b, drivers);
        OtherRunGoesOn(b, a, t[0], s, drivers);
        SameRecordTurned(After(b, t[0]), UntilCommit(a, s), drivers);
      } else {
        SameTry(a, b, s[0], t[0], drivers);
        OutsideIsRecorded(After(a, s[0]), After(b, t[0]), drivers);
        QuietTail(s);
        AlikeTail(s, t, drivers);
        RetriesTouchNobodyElse(After(a, s[0]), After(b, t[0]), s[1..], t[1..], drivers);
      }
    }
  }

  // ---- When it is not ---------------------------------------------------------------------

  /** The same reads, targets, writes and deaths; Telegram's answers and the driver's part are free. */
  ghost predicate SameSchedule(a: Try, b: Try) {
    && a.diesAfter == b.diesAfter
    && a.call.readOk == b.call.readOk
    && a.call.subscribers == b.call.subscribers && a.call.forcedId == b.call.forcedId
    && forall k: nat :: a.call.attempt(k).lands == b.call.attempt(k).lands
  }

  ghost predicate OnSchedule(plan: seq<Try>, tries: seq<Try>) {
    |tries| == |plan| && forall i :: 0 <= i < |plan| ==> SameSchedule(plan[i], tries[i])
  }

  /** Two calls alike but for what the switch answers: the same driver's group, if any, bot, text and answers. */
  ghost predicate AlikeButSwitch(a: Try, b: Try) {
    && a.diesAfter == b.diesAfter
    && a.call == b.call.(driver := a.call.driver)
    && (a.call.driver.Some? <==> b.call.driver.Some?)
    && (a.call.driver.Some? ==>
          b.call.driver.value == a.call.driver.value.(switch := b.call.driver.value.switch))
  }

  ghost predicate SwitchedRuns(a: seq<Try>, b: seq<Try>, drivers: set<string>) {
    AlikeRuns(a, b, drivers) && forall i :: 0 <= i < |a| ==> AlikeButSwitch(a[i], b[i])
  }

  /** On this schedule, whatever Telegram answers, the switch makes no difference to anybody but the driver's group. */
  ghost predicate SwitchNeverMatters(plan: seq<Try>, drivers: set<string>) {
    forall s, t :: OnSchedule(plan, s) && SwitchedRuns(s, t, drivers) ==>
      SameRecord(UntilCommit(UNTOUCHED, s), UntilCommit(UNTOUCHED, t), drivers)
  }

  /** The try of the schedule in which every send meets this outcome, with this part of the driver. */
  function Answered(t: Try, outcome: Outcome, driver: Option<DriverTarget>): Try {
    t.(call := t.call.(attempt := (k: nat) => Attempt(outcome, t.call.attempt(k).lands), driver := driver))
  }

  /** Nobody can be reached but at try `m`, and from try `j` on. */
  function OutcomeAt(i: nat, m: nat, j: nat): Outcome {
    if i == m || i >= j then Sent(None) else Transient
  }

  function AnsweredRun(plan: seq<Try>, m: nat, j: nat, driver: Option<DriverTarget>): seq<Try> {
    seq(|plan|, i requires 0 <= i < |plan| => Answered(plan[i], OutcomeAt(i, m, j), driver))
  }

  function Switched(chat: string, switch: SwitchAnswer): Option<DriverTarget> {
    Some(DriverTarget(chat, true, switch, "", Attempt(Transient, true)))
  }

  function Unreadable(chat: string): Option<DriverTarget> {
    Switched(chat, SwitchUnreadable)
  }

  function Off(chat: string): Option<DriverTarget> {
    Switched(chat, SwitchOff)
  }

  ghost predicate Idle(driver: Option<DriverTarget>) {
    driver.Some? && (driver == Unreadable(driver.value.chat) || driver == Off(driver.value.chat))
  }

  lemma IdleDriver(w: World, call: Call)
    requires Idle(call.driver)
    ensures var w' := VisitDriver(w, call);
            w'.table == w.table && w'.tried == w.tried && (w.pending ==> w'.pending)
    ensures call.driver.value.switch.SwitchOff? ==> VisitDriver(w, call) == w
    ensures call.driver.value.switch.SwitchUnreadable? && call.driver.value.chat !in w.mem
            ==> VisitDriver(w, call).pending
  {}

  /** A try that meets only transient failures records nothing, and with an empty ledger it does not return. */
  lemma TransientTry(w: World, t: Try)
    requires Idle(t.call.driver) && forall k: nat :: t.call.attempt(k).outcome == Transient
    ensures After(w, t).table == w.table && (w.table == map[] ==> !Returns(w, t))
  {
    hide Visit, VisitDriver;
    var begin, n := Begin(w, t.call.readOk), |Reach(t)|;
    TransientTurns(begin, t.call, n);
    TransientTurns(begin, t.call, |Targets(t.call)|);
    IdleDriver(Notified(w, t.call), t.call);
  }

  // ---- A call in which everything goes through

  lemma SentTurn(w: World, kind: BotKind, chat: string, caption: string, a: Attempt, x: string)
    requires a.outcome.Sent?
    ensures var w' := Visit(w, kind, chat, caption, a);
      && w'.pending == w.pending
      && (x in w'.mem <==> x in w.mem || x == chat)
      && (x in w'.table <==> x in w.table || (x == chat && x !in w.mem && a.lands))
  {}

  lemma {:induction false} SentTurns(w: World, call: Call, n: nat, x: string)
    requires n <= |Targets(call)| && forall k: nat :: call.attempt(k).outcome == Sent(None)
    ensures var w' := VisitFirst(w, call, n);
      && w'.pending == w.pending
      && (x in w'.mem <==> x in w.mem || x in Targets(call)[..n])
      && (!LandsIn(call, x) && x !in w.table ==> x !in w'.table)
  {
    hide Visit, LandsIn;
    if n > 0 {
      var before, chat := VisitFirst(w, call, n - 1), Targets(call)[n - 1];
      assert Targets(call)[..n] == Targets(call)[..n - 1] + [chat];
      SentTurns(w, call, n - 1, x);
      SentTurn(before, NotificationBot, chat, call.text, call.attempt(n - 1), x);
      if x == chat && x !in before.mem && call.attempt(n - 1).lands {
        ItLands(call, x, n - 1);
      }
    }
  }

  lemma ItLands(call: Call, x: string, k: nat)
    requires k < |Targets(call)| && Targets(call)[k] == x && x !in Targets(call)[..k] && call.attempt(k).lands
    ensures LandsIn(call, x)
  {
    assert FirstTurnLands(call, x, k);
  }

  lemma SentTry(w: World, t: Try, x: string)
    requires !Dies(t) && Idle(t.call.driver) && forall k: nat :: t.call.attempt(k).outcome == Sent(None)
    ensures t.call.driver.value.switch.SwitchOff? ==> Returns(w, t)
    ensures !LandsIn(t.call, x) && x !in w.table ==> x !in After(w, t).table
  {
    hide Visit, VisitDriver, LandsIn;
    SentTurns(Begin(w, t.call.readOk), t.call, |Targets(t.call)|, x);
    IdleDriver(Notified(w, t.call), t.call);
  }

  // ---- A driver's group nobody can ask about

  lemma VisitLeavesOthers(w: World, kind: BotKind, chat: string, caption: string, a: Attempt, d: string)
    requires d != chat && d !in w.mem && d !in w.table
    ensures var w' := Visit(w, kind, chat, caption, a); d !in w'.mem && d !in w'.table
  {}

  lemma {:induction false} VisitsLeaveOthers(w: World, call: Call, n: nat, d: string)
    requires n <= |Targets(call)| && d !in Targets(call) && d !in w.mem && d !in w.table
    ensures var w' := VisitFirst(w, call, n); d !in w'.mem && d !in w'.table
  {
    hide Visit;
    if n > 0 {
      VisitsLeaveOthers(w, call, n - 1, d);
      VisitLeavesOthers(VisitFirst(w, call, n - 1), NotificationBot, Targets(call)[n - 1], call.text,
                        call.attempt(n - 1), d);
    }
  }

  lemma UnreadableTry(w: World, t: Try, d: string)
    requires t.call.driver == Unreadable(d) && d !in Targets(t.call) && d !in w.table
    ensures !Returns(w, t) && d !in After(w, t).table
  {
    hide Visit, VisitDriver;
    var begin := Begin(w, t.call.readOk);
    VisitsLeaveOthers(begin, t.call, |Reach(t)|, d);
    VisitsLeaveOthers(begin, t.call, |Targets(t.call)|, d);
    IdleDriver(Notified(w, t.call), t.call);
  }

  // ---- Attempts only add up

  lemma VisitAddsAttempts(w: World, kind: BotKind, chat: string, caption: string, a: Attempt, drivers: set<string>)
    requires chat !in drivers
    ensures |Outside(Visit(w, kind, chat, caption, a).tried, drivers)|
            == |Outside(w.tried, drivers)| + if chat in w.mem then 0 else 1
  {
    OutsideGrows(w.tried, chat, drivers);
  }

  lemma {:induction false} VisitsAddAttempts(w: World, call: Call, n: nat, drivers: set<string>)
    requires n <= |Targets(call)| && forall t :: t in Targets(call) ==> t !in drivers
    ensures |Outside(w.tried, drivers)| <= |Outside(VisitFirst(w, call, n).tried, drivers)|
  {
    hide Visit;
    if n > 0 {
      VisitsAddAttempts(w, call, n - 1, drivers);
      VisitAddsAttempts(VisitFirst(w, call, n - 1), NotificationBot, Targets(call)[n - 1], call.text,
                        call.attempt(n - 1), drivers);
    }
  }

  /** A target that is not settled is tried at its first turn. */
  lemma {:induction false} UnsettledIsTried(w: World, call: Call, n: nat, k: nat, drivers: set<string>)
    requires k < n <= |Targets(call)| && (forall t :: t in Targets(call) ==> t !in drivers)
    requires Targets(call)[k] !in w.mem && Targets(call)[k] !in Targets(call)[..k]
    ensures |Outside(w.tried, drivers)| < |Outside(VisitFirst(w, call, n).tried, drivers)|
  {
    hide Visit;
    var before, chat := VisitFirst(w, call, n - 1), Targets(call)[n - 1];
    VisitAddsAttempts(before, NotificationBot, chat, call.text, call.attempt(n - 1), drivers);
    if k < n - 1 {
      UnsettledIsTried(w, call, n - 1, k, drivers);
    } else {
      VisitsAddAttempts(w, call, n - 1, drivers);
      OnlyTargetsAreSettled(w, call, k, chat);
    }
  }

  lemma TryAddsAttempts(w: World, t: Try, drivers: set<string>)
    requires DriversApart(t, drivers) && Idle(t.call.driver)
    ensures |Outside(w.tried, drivers)| <= |Outside(After(w, t).tried, drivers)|
    ensures (exists x :: x in Reach(t) && x !in Begin(w, t.call.readOk).mem)
            ==> |Outside(w.tried, drivers)| < |Outside(After(w, t).tried, drivers)|
  {
    hide Visit, VisitDriver;
    var begin, n := Begin(w, t.call.readOk), |Reach(t)|;
    assert Reach(t) == Targets(t.call)[..n];
    VisitsAddAttempts(begin, t.call, n, drivers);
    IdleDriver(Notified(w, t.call), t.call);
    if x :| x in Reach(t) && x !in begin.mem {
      var i: nat :| i < n && Targets(t.call)[i] == x;
      var k := FirstTurn(Targets(t.call), x, i);
      UnsettledIsTried(begin, t.call, n, k, drivers);
    }
  }

  lemma {:induction false} SoonerTries(w: World, tries: seq<Try>, n: nat)
    requires n <= |tries| && forall i :: 0 <= i < n ==> !Returns(AfterAll(w, tries[..i]), tries[i])
    ensures UntilCommit(w, tries) == UntilCommit(AfterAll(w, tries[..n]), tries[n..])
  {
    hide Returns, After;
    if n == 0 {
      assert tries[0..] == tries;
    } else {
      SoonerTries(w, tries, n - 1);
      assert tries[n - 1..][0] == tries[n - 1] && tries[n - 1..][1..] == tries[n..];
      assert tries[..n][..n - 1] == tries[..n - 1];
    }
  }

  // ---- The two runs -----------------------------------------------------------------------

  /** The states of a run in which nobody can be reached but at try `m` and from try `j` on. */
  function Reached(plan: seq<Try>, m: nat, j: nat, driver: Option<DriverTarget>, n: nat): World
    requires n <= |plan|
  {
    AfterAll(UNTOUCHED, AnsweredRun(plan, m, j, driver)[..n])
  }

  lemma OneMoreReached(plan: seq<Try>, m: nat, j: nat, driver: Option<DriverTarget>, n: nat)
    requires n < |plan|
    ensures Reached(plan, m, j, driver, n + 1)
            == After(Reached(plan, m, j, driver, n), Answered(plan[n], OutcomeAt(n, m, j), driver))
  {
    var run := AnsweredRun(plan, m, j, driver);
    assert run[..n + 1][..n] == run[..n];
  }

  /** Up to try `m` nothing is recorded and nothing returns. */
  lemma {:induction false} NothingBefore(plan: seq<Try>, m: nat, j: nat, driver: Option<DriverTarget>, n: nat)
    requires n <= m < j < |plan| && Idle(driver)
    ensures Reached(plan, m, j, driver, n).table == map[]
    ensures n < m ==> !Returns(Reached(plan, m, j, driver, n), Answered(plan[n], OutcomeAt(n, m, j), driver))
  {
    hide Returns, After, Dies;
    if n > 0 {
      NothingBefore(plan, m, j, driver, n - 1);
      OneMoreReached(plan, m, j, driver, n - 1);
      TransientTry(Reached(plan, m, j, driver, n - 1), Answered(plan[n - 1], Transient, driver));
    }
    if n < m {
      TransientTry(Reached(plan, m, j, driver, n), Answered(plan[n], Transient, driver));
    }
  }

  /** Whoever's write is lost at try `m`, or who is no target of it, is not on record when try `j` comes. */
  lemma {:induction false} NotOnRecord(plan: seq<Try>, m: nat, j: nat, driver: Option<DriverTarget>, n: nat, x: string)
    requires m < n <= j < |plan| && Idle(driver) && !Dies(plan[m]) && !LandsIn(plan[m].call, x)
    ensures x !in Reached(plan, m, j, driver, n).table
  {
    hide Returns, After, LandsIn, Dies;
    OneMoreReached(plan, m, j, driver, n - 1);
    var t := Answered(plan[n - 1], OutcomeAt(n - 1, m, j), driver);
    if n == m + 1 {
      NothingBefore(plan, m, j, driver, m);
      AnsweredLands(plan[m], Sent(None), driver, x);
      SentTry(Reached(plan, m, j, driver, m), t, x);
    } else {
      NotOnRecord(plan, m, j, driver, n - 1, x);
      TransientTry(Reached(plan, m, j, driver, n - 1), t);
    }
  }

  lemma AnsweredLands(t: Try, outcome: Outcome, driver: Option<DriverTarget>, x: string)
    ensures var a := Answered(t, outcome, driver);
      && Targets(a.call) == Targets(t.call) && Dies(a) == Dies(t) && Reach(a) == Reach(t)
      && (LandsIn(a.call, x) ==> LandsIn(t.call, x))
  {
    var a := Answered(t, outcome, driver);
    if LandsIn(a.call, x) {
      var k: nat :| k < |Targets(a.call)| && FirstTurnLands(a.call, x, k);
      assert FirstTurnLands(t.call, x, k);
    }
  }

  /** With the switch unreadable throughout, nothing ever returns. */
  lemma {:induction false} NeverReturns(plan: seq<Try>, m: nat, j: nat, d: string, n: nat)
    requires n < |plan| && forall i :: 0 <= i < |plan| ==> d !in Targets(plan[i].call)
    ensures d !in Reached(plan, m, j, Unreadable(d), n).table
    ensures !Returns(Reached(plan, m, j, Unreadable(d), n), Answered(plan[n], OutcomeAt(n, m, j), Unreadable(d)))
  {
    hide Returns, After;
    if n > 0 {
      NeverReturns(plan, m, j, d, n - 1);
      OneMoreReached(plan, m, j, Unreadable(d), n - 1);
      UnreadableTry(Reached(plan, m, j, Unreadable(d), n - 1),
                    Answered(plan[n - 1], OutcomeAt(n - 1, m, j), Unreadable(d)), d);
    }
    UnreadableTry(Reached(plan, m, j, Unreadable(d), n), Answered(plan[n], OutcomeAt(n, m, j), Unreadable(d)), d);
  }

  /** Attempts on anybody but the driver's group add up from state to state. */
  lemma {:induction false} AttemptsAddUp(plan: seq<Try>, m: nat, j: nat, d: string, i: nat, n: nat,
                                         drivers: set<string>)
    requires i <= n <= |plan| && d in drivers
    requires forall k, x :: 0 <= k < |plan| && x in Targets(plan[k].call) ==> x !in drivers
    ensures |Outside(Reached(plan, m, j, Unreadable(d), i).tried, drivers)|
            <= |Outside(Reached(plan, m, j, Unreadable(d), n).tried, drivers)|
  {
    hide Returns, After;
    if i < n {
      AttemptsAddUp(plan, m, j, d, i, n - 1, drivers);
      OneMoreReached(plan, m, j, Unreadable(d), n - 1);
      TryAddsAttempts(Reached(plan, m, j, Unreadable(d), n - 1),
                      Answered(plan[n - 1], OutcomeAt(n - 1, m, j), Unreadable(d)), drivers);
    }
  }

  /** The run with the switch off throughout ends at try `m`. */
  lemma FirstRunEnds(plan: seq<Try>, m: nat, j: nat, d: string)
    requires m < j < |plan| && !Dies(plan[m])
    ensures UntilCommit(UNTOUCHED, AnsweredRun(plan, m, j, Off(d))) == Reached(plan, m, j, Off(d), m + 1)
  {
    hide Returns, After, Dies;
    var run := AnsweredRun(plan, m, j, Off(d));
    forall i | 0 <= i < m
      ensures !Returns(AfterAll(UNTOUCHED, run[..i]), run[i])
    {
      NothingBefore(plan, m, j, Off(d), i);
    }
    SoonerTries(UNTOUCHED, run, m);
    AnsweredLands(plan[m], Sent(None), Off(d), "");
    SentTry(Reached(plan, m, j, Off(d), m), run[m], "");
    OneMoreReached(plan, m, j, Off(d), m);
    assert run[m..][0] == run[m];
  }

  /** The run with an unreadable switch takes every try. */
  lemma SecondRunGoesOn(plan: seq<Try>, m: nat, j: nat, d: string)
    requires m < j < |plan| && forall i :: 0 <= i < |plan| ==> d !in Targets(plan[i].call)
    ensures UntilCommit(UNTOUCHED, AnsweredRun(plan, m, j, Unreadable(d))) == Reached(plan, m, j, Unreadable(d), |plan|)
  {
    hide Returns, After;
    var run := AnsweredRun(plan, m, j, Unreadable(d));
    forall i | 0 <= i < |plan|
      ensures !Returns(AfterAll(UNTOUCHED, run[..i]), run[i])
    {
      NeverReturns(plan, m, j, d, i);
    }
    SoonerTries(UNTOUCHED, run, |plan|);
  }

  lemma RunsAreAlike(plan: seq<Try>, m: nat, j: nat, d: string, drivers: set<string>)
    requires d in drivers && forall k, x :: 0 <= k < |plan| && x in Targets(plan[k].call) ==> x !in drivers
    ensures var s, t := AnsweredRun(plan, m, j, Off(d)), AnsweredRun(plan, m, j, Unreadable(d));
            OnSchedule(plan, s) && OnSchedule(plan, t) && SwitchedRuns(s, t, drivers)
  {
    var s, t := AnsweredRun(plan, m, j, Off(d)), AnsweredRun(plan, m, j, Unreadable(d));
    forall i | 0 <= i < |plan|
      ensures AlikeButDriver(s[i], t[i], drivers) && AlikeButSwitch(s[i], t[i])
    {
      assert Targets(s[i].call) == Targets(plan[i].call);
      assert s[i].call.attempt == t[i].call.attempt;
    }
  }

  /** Whom the noisy retry reaches without finding them on record. */
  lemma Unfound(m: Try, j: Try) returns (x: string)
    requires !QuietAfter(m, j)
    ensures !Dies(m) && x in Reach(j) && (!j.call.readOk || !LandsIn(m.call, x))
  {
    hide Dies, LandsIn;
    x := Reach(j)[0];
    if j.call.readOk {
      x :| x in Reach(j) && !LandsIn(m.call, x);
    }
  }

  /** At try `j` the second run tries somebody. */
  lemma SomebodyIsTried(plan: seq<Try>, m: nat, j: nat, d: string, x: string, drivers: set<string>)
    requires m < j < |plan| && d in drivers && !Dies(plan[m])
    requires x in Reach(plan[j]) && (!plan[j].call.readOk || !LandsIn(plan[m].call, x))
    requires forall y :: y in Targets(plan[j].call) ==> y !in drivers
    ensures |Outside(Reached(plan, m, j, Unreadable(d), j).tried, drivers)|
            < |Outside(Reached(plan, m, j, Unreadable(d), j + 1).tried, drivers)|
  {
    hide Returns, After, LandsIn, Dies, Reach, Reached, Outside;
    var w, t := Reached(plan, m, j, Unreadable(d), j), Answered(plan[j], Sent(None), Unreadable(d));
    AnsweredLands(plan[j], Sent(None), Unreadable(d), x);
    if plan[j].call.readOk {
      NotOnRecord(plan, m, j, Unreadable(d), j, x);
    }
    assert x in Reach(t) && x !in Begin(w, t.call.readOk).mem;
    TryAddsAttempts(w, t, drivers);
    OneMoreReached(plan, m, j, Unreadable(d), j);
  }

  /** The second run reaches somebody at try `j` whom the first had left alone since try `m`. */
  lemma SomebodyIsReachedAgain(plan: seq<Try>, m: nat, j: nat, d: string, drivers: set<string>)
    requires m < j < |plan| && !QuietAfter(plan[m], plan[j]) && d in drivers
    requires forall k, x :: 0 <= k < |plan| && x in Targets(plan[k].call) ==> x !in drivers
    ensures |Outside(Reached(plan, m, j, Unreadable(d), m + 1).tried, drivers)|
            < |Outside(Reached(plan, m, j, Unreadable(d), |plan|).tried, drivers)|
  {
    hide QuietAfter, LandsIn, Dies, Reach, Reached, Outside;
    var x := Unfound(plan[m], plan[j]);
    SomebodyIsTried(plan, m, j, d, x, drivers);
    AttemptsAddUp(plan, m, j, d, m + 1, j, drivers);
    AttemptsAddUp(plan, m, j, d, j + 1, |plan|, drivers);
  }

  lemma NoisyScheduleMatters(plan: seq<Try>, m: nat, j: nat, d: string, drivers: set<string>)
    requires m < j < |plan| && !QuietAfter(plan[m], plan[j]) && d in drivers
    requires forall k, x :: 0 <= k < |plan| && x in Targets(plan[k].call) ==> x !in drivers
    ensures !SwitchNeverMatters(plan, drivers)
  {
    hide Returns, After, LandsIn, Dies;
    var s, t := AnsweredRun(plan, m, j, Off(d)), AnsweredRun(plan, m, j, Unreadable(d));
    RunsAreAlike(plan, m, j, d, drivers);
    SwitchTouchesNobodyElse(UNTOUCHED, UNTOUCHED, s[..m + 1], t[..m + 1], drivers);
    NoisyMayReturn(plan[m], plan[j]);
    FirstRunEnds(plan, m, j, d);
    SecondRunGoesOn(plan, m, j, d);
    SomebodyIsReachedAgain(plan, m, j, d, drivers);
  }

  lemma NoisyMayReturn(m: Try, j: Try)
    requires !QuietAfter(m, j)
    ensures !Dies(m)
  {}

  lemma ScheduledQuiet(plan: seq<Try>, tries: seq<Try>)
    requires OnSchedule(plan, tries) && Quiet(plan)
    ensures Quiet(tries)
  {
    forall m, j | 0 <= m < j < |tries|
      ensures QuietAfter(tries[m], tries[j])
    {
      assert QuietAfter(plan[m], plan[j]);
      assert SameSchedule(plan[m], tries[m]) && SameSchedule(plan[j], tries[j]);
      assert Targets(plan[m].call) == Targets(tries[m].call) && Targets(plan[j].call) == Targets(tries[j].call);
      forall chat | LandsIn(plan[m].call, chat)
        ensures LandsIn(tries[m].call, chat)
      {
        var k: nat :| k < |Targets(plan[m].call)| && FirstTurnLands(plan[m].call, chat, k);
        assert FirstTurnLands(tries[m].call, chat, k);
      }
    }
  }

  /**
    Whatever Telegram answers, and to the same driver's group, the switch makes no
    difference to anybody else - exactly when the schedule of ledger reads, ledger
    writes and subscribers is quiet.
  */
  lemma SwitchMattersUnlessQuiet(plan: seq<Try>, drivers: set<string>)
    requires drivers != {}
    requires forall k, x :: 0 <= k < |plan| && x in Targets(plan[k].call) ==> x !in drivers
    ensures SwitchNeverMatters(plan, drivers) <==> Quiet(plan)
  {
    if Quiet(plan) {
      forall s, t | OnSchedule(plan, s) && SwitchedRuns(s, t, drivers)
        ensures SameRecord(UntilCommit(UNTOUCHED, s), UntilCommit(UNTOUCHED, t), drivers)
      {
        ScheduledQuiet(plan, s);
        RetriesTouchNobodyElse(UNTOUCHED, UNTOUCHED, s, t, drivers);
      }
    } else {
      var m, j :| 0 <= m < j < |plan| && !QuietAfter(plan[m], plan[j]);
      var d :| d in drivers;
      NoisyScheduleMatters(plan, m, j, d, drivers);
    }
  }
}
