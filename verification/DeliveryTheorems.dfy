/** What delivery promises over every sequence of retries, re-polls, restarts and faults. */
module DeliveryTheorems {
  import opened Wrappers
  import opened RecoveryTypes
  import opened VideoBackfill
  import opened DeliveryLedger
  import opened Delivery

  // ---- What every turn of a target keeps ------------------------------------------------

  function Credit(table: map<string, Standing>, t: string): nat {
    if t in table && table[t].Delivered? then 1 else 0
  }

  ghost predicate Justified(w: World, entries: map<string, Standing>, t: string) {
    t in entries ==> if entries[t].Delivered? then t in w.sends else t in w.refused
  }

  /** Between two calls: every message to `t` beyond the first was paid for by a fault. */
  ghost predicate ChatOk(w: World, t: string) {
    && w.sends[t] <= w.failedReads + w.lost[t] + Credit(w.table, t)
    && Justified(w, w.table, t)
    && (t in w.committed ==> t in w.sends || t in w.refused)
  }

  /** Within a call: while `t` is unsettled the ledger has nothing of it, or the failed read pays for its message. */
  ghost predicate ChatOkWithin(w: World, readOk: bool, t: string) {
    && ChatOk(w, t)
    && Justified(w, w.mem, t)
    && (t !in w.mem && readOk ==> t !in w.table)
    && (t !in w.mem && !readOk ==> w.sends[t] + 1 <= w.failedReads + w.lost[t] + Credit(w.table, t))
  }

  /** What `t` has is kept: a standing stays, `delivered` is never downgraded, no count goes down. */
  ghost predicate ChatFurther(w: World, w': World, t: string) {
    && Kept(w.table, w'.table, t)
    && w.sends[t] <= w'.sends[t] && w.lost[t] <= w'.lost[t] && w.failedReads <= w'.failedReads
    && (t in w.refused ==> t in w'.refused) && (t in w.committed ==> t in w'.committed)
  }

  ghost predicate Kept(before: map<string, Standing>, after: map<string, Standing>, t: string) {
    t in before ==> t in after && (before[t].Delivered? ==> after[t].Delivered?)
  }

  lemma OtherChatsKeep(w: World, readOk: bool, kind: BotKind, chat: string, caption: string, a: Attempt, t: string)
    requires ChatOkWithin(w, readOk, t) && t != chat
    ensures var w' := Visit(w, kind, chat, caption, a);
            ChatOkWithin(w', readOk, t) && ChatFurther(w, w', t) && Kept(w.mem, w'.mem, t)
  {}

  lemma VisitKeepsChat(w: World, readOk: bool, kind: BotKind, chat: string, caption: string, a: Attempt, t: string)
    requires ChatOkWithin(w, readOk, t)
    ensures var w' := Visit(w, kind, chat, caption, a);
            ChatOkWithin(w', readOk, t) && ChatFurther(w, w', t) && Kept(w.mem, w'.mem, t)
  {
    if t != chat {
      OtherChatsKeep(w, readOk, kind, chat, caption, a, t);
    }
  }

  lemma {:induction false} VisitsKeepChat(w: World, call: Call, n: nat, readOk: bool, t: string)
    requires ChatOkWithin(w, readOk, t) && n <= |Targets(call)|
    ensures var w' := VisitFirst(w, call, n);
            ChatOkWithin(w', readOk, t) && ChatFurther(w, w', t) && Kept(w.mem, w'.mem, t)
  {
    if n > 0 {
      VisitsKeepChat(w, call, n - 1, readOk, t);
      VisitKeepsChat(VisitFirst(w, call, n - 1), readOk, NotificationBot, Targets(call)[n - 1], call.text,
                     call.attempt(n - 1), t);
    }
  }

  lemma BeginKeepsChat(w: World, readOk: bool, t: string)
    requires ChatOk(w, t)
    ensures ChatOkWithin(Begin(w, readOk), readOk, t) && ChatFurther(w, Begin(w, readOk), t)
  {}

  lemma NotifiedKeepsChat(w: World, call: Call, n: nat, t: string)
    requires ChatOk(w, t) && n <= |Targets(call)|
    ensures var w' := VisitFirst(Begin(w, call.readOk), call, n);
            ChatOkWithin(w', call.readOk, t) && ChatFurther(w, w', t)
  {
    BeginKeepsChat(w, call.readOk, t);
    VisitsKeepChat(Begin(w, call.readOk), call, n, call.readOk, t);
  }

  lemma DriverKeepsChat(w: World, call: Call, t: string)
    requires ChatOkWithin(w, call.readOk, t)
    ensures ChatOkWithin(VisitDriver(w, call), call.readOk, t) && ChatFurther(w, VisitDriver(w, call), t)
  {
    if call.driver.Some? {
      var d := call.driver.value;
      VisitKeepsChat(w, call.readOk, DriverBot, d.chat, d.caption, d.attempt, t);
    }
  }

  lemma AfterKeepsChat(w: World, t: Try, chat: string)
    requires ChatOk(w, chat)
    ensures ChatOk(After(w, t), chat) && ChatFurther(w, After(w, t), chat)
  {
    if Dies(t) && t.diesAfter.value <= |Targets(t.call)| {
      NotifiedKeepsChat(w, t.call, t.diesAfter.value, chat);
    } else {
      NotifiedKeepsChat(w, t.call, |Targets(t.call)|, chat);
      DriverKeepsChat(Notified(w, t.call), t.call, chat);
      if Returns(w, t) {
        ReturnSettles(w, t.call);
      }
    }
  }

  // ---- The commit protocol -----------------------------------------------------------------

  lemma VisitSettles(w: World, kind: BotKind, chat: string, caption: string, a: Attempt)
    ensures var w' := Visit(w, kind, chat, caption, a);
      && (w.pending ==> w'.pending)
      && (!w'.pending ==> chat in w'.mem)
      && (forall t :: t in w.mem ==> t in w'.mem)
  {}

  /** A target left unsettled by its turn leaves the call pending. */
  lemma {:induction false} VisitsSettle(w: World, call: Call, n: nat, k: nat)
    requires k < n <= |Targets(call)| && !VisitFirst(w, call, n).pending
    ensures Targets(call)[k] in VisitFirst(w, call, n).mem
  {
    hide Visit;
    VisitSettles(VisitFirst(w, call, n - 1), NotificationBot, Targets(call)[n - 1], call.text, call.attempt(n - 1));
    if k < n - 1 {
      VisitsSettle(w, call, n - 1, k);
    }
  }

  /** `deliverEvent` returns normally only when everybody it owes the alert is settled. */
  lemma ReturnSettles(w: World, call: Call)
    requires !Complete(w, call).pending
    ensures forall t :: t in Owed(call) ==> t in Complete(w, call).mem
  {
    var before := Notified(w, call);
    if call.driver.Some? {
      var d := call.driver.value;
      VisitSettles(before, DriverBot, d.chat, d.caption, d.attempt);
    }
    forall t | t in Targets(call)
      ensures t in before.mem
    {
      var k: nat :| k < |Targets(call)| && Targets(call)[k] == t;
      VisitsSettle(Begin(w, call.readOk), call, |Targets(call)|, k);
    }
  }

  /** It owes the alert to each target once, the driver's group not being one of the subscribers. */
  ghost predicate Unambiguous(call: Call) {
    && (forall i, j :: 0 <= i < j < |Targets(call)| ==> Targets(call)[i] != Targets(call)[j])
    && (DriverChat(call).Some? ==> DriverChat(call).value !in Targets(call))
  }

  /** The same targets, with other answers from Telegram and the ledger. */
  ghost predicate SameTargets(a: Call, b: Call) {
    && a.subscribers == b.subscribers && a.forcedId == b.forcedId
    && a.driver.Some? == b.driver.Some?
    && (a.driver.Some? ==> a.driver.value.chat == b.driver.value.chat
                           && a.driver.value.botReady == b.driver.value.botReady
                           && a.driver.value.switch == b.driver.value.switch)
  }

  ghost predicate SomebodyWaits(w: World, call: Call) {
    exists t :: t in Owed(call) && t !in Complete(w, call).mem
  }

  lemma VisitPends(w: World, kind: BotKind, chat: string, caption: string, a: Attempt)
    requires !w.pending && Visit(w, kind, chat, caption, a).pending
    ensures chat !in Visit(w, kind, chat, caption, a).mem
  {}

  lemma VisitSettlesOnly(w: World, kind: BotKind, chat: string, caption: string, a: Attempt, t: string)
    requires t !in w.mem && t != chat
    ensures t !in Visit(w, kind, chat, caption, a).mem
  {}

  lemma {:induction false} PendingMeansUnsettled(w: World, call: Call, n: nat) returns (k: nat)
    requires Unambiguous(call) && !w.pending && n <= |Targets(call)| && VisitFirst(w, call, n).pending
    ensures k < n && Targets(call)[k] !in VisitFirst(w, call, n).mem
  {
    hide Visit;
    var before, chat := VisitFirst(w, call, n - 1), Targets(call)[n - 1];
    if before.pending {
      k := PendingMeansUnsettled(w, call, n - 1);
      VisitSettlesOnly(before, NotificationBot, chat, call.text, call.attempt(n - 1), Targets(call)[k]);
    } else {
      k := n - 1;
      VisitPends(before, NotificationBot, chat, call.text, call.attempt(n - 1));
    }
  }

  lemma UnambiguousThrowsForAReason(w: World, call: Call)
    requires Unambiguous(call) && Complete(w, call).pending
    ensures SomebodyWaits(w, call)
  {
    var targets := Targets(call);
    if Notified(w, call).pending {
      var k := PendingMeansUnsettled(Begin(w, call.readOk), call, |targets|);
      assert targets[k] in Owed(call);
      assert targets[k] !in Complete(w, call).mem;
    } else {
      assert call.driver.value.chat in Owed(call);
    }
  }

  /** The driver's group, when an unsettled one would be posted to. */
  function DriverChat(call: Call): Option<string> {
    if call.driver.Some? && call.driver.value.botReady && call.driver.value.switch.SwitchOn?
    then Some(call.driver.value.chat) else None
  }

  /** The first turn of a target that has another turn coming. */
  predicate Balks(targets: seq<string>, driver: Option<string>, k: nat)
    requires k < |targets|
  {
    targets[k] !in targets[..k] && (targets[k] in targets[k + 1..] || Some(targets[k]) == driver)
  }

  /** Answers by which every target is served in the end, though the first try at a doubled one fails. */
  function Stutter(call: Call): Call {
    var targets := Targets(call);
    var driver := DriverChat(call);
    call.(readOk := true,
          attempt := (k: nat) =>
            Attempt(if k < |targets| && Balks(targets, driver, k) then Transient else Sent(None), true),
          driver := if call.driver.None? then None
                    else Some(call.driver.value.(attempt := Attempt(Sent(None), true))))
  }

  ghost predicate Stutters(call: Call, driver: Option<string>) {
    forall k: nat :: k < |Targets(call)| ==>
      call.attempt(k).outcome == if Balks(Targets(call), driver, k) then Transient else Sent(None)
  }

  lemma OneStutter(w: World, call: Call, driver: Option<string>, n: nat, c: string)
    requires Stutters(call, driver) && n < |Targets(call)|
    ensures var before, after, t := VisitFirst(w, call, n), VisitFirst(w, call, n + 1), Targets(call)[n];
            c in after.mem <==> c in before.mem || (c == t && !Balks(Targets(call), driver, n))
  {}

  /** A target is settled once its turns are over. */
  lemma {:induction false} StutterSettles(w: World, call: Call, driver: Option<string>, n: nat, k: nat)
    requires Stutters(call, driver) && k < n <= |Targets(call)|
    ensures var targets := Targets(call);
            targets[k] in VisitFirst(w, call, n).mem || targets[k] in targets[n..] || Some(targets[k]) == driver
  {
    hide Visit, Stutters, Targets;
    var targets := Targets(call);
    OneStutter(w, call, driver, n - 1, targets[k]);
    if k < n - 1 {
      StutterSettles(w, call, driver, n - 1, k);
      TurnTaken(targets, n - 1, k);
    }
  }

  lemma TurnTaken(targets: seq<string>, n: nat, k: nat)
    requires k < n < |targets|
    ensures targets[k] in targets[n..] ==> targets[k] in targets[n + 1..] || targets[k] == targets[n]
    ensures targets[k] in targets[..n]
  {
    assert targets[n..] == [targets[n]] + targets[n + 1..];
    assert targets[..n][k] == targets[k];
  }

  lemma OneTurnPends(w: World, call: Call, driver: Option<string>, n: nat)
    requires Stutters(call, driver) && n < |Targets(call)|
    ensures VisitFirst(w, call, n).pending ==> VisitFirst(w, call, n + 1).pending
    ensures Targets(call)[n] !in VisitFirst(w, call, n).mem && Balks(Targets(call), driver, n)
            ==> VisitFirst(w, call, n + 1).pending
  {}

  lemma {:induction false} StutterIsPending(w: World, call: Call, driver: Option<string>, n: nat, k: nat)
    requires Stutters(call, driver) && k < n <= |Targets(call)|
    requires Balks(Targets(call), driver, k) && Targets(call)[k] !in w.mem
    ensures VisitFirst(w, call, n).pending
  {
    hide Visit, Stutters, Balks, Targets;
    OneTurnPends(w, call, driver, n - 1);
    if k < n - 1 {
      StutterIsPending(w, call, driver, n - 1, k);
    } else {
      BalksFirst(Targets(call), driver, k);
      OnlyTargetsAreSettled(w, call, k, Targets(call)[k]);
    }
  }

  lemma BalksFirst(targets: seq<string>, driver: Option<string>, k: nat)
    requires k < |targets| && Balks(targets, driver, k)
    ensures targets[k] !in targets[..k]
  {}

  lemma {:induction false} OnlyTargetsAreSettled(w: World, call: Call, n: nat, t: string)
    requires n <= |Targets(call)| && t !in w.mem && t !in Targets(call)[..n]
    ensures t !in VisitFirst(w, call, n).mem
  {
    hide Visit;
    if n > 0 {
      assert Targets(call)[..n] == Targets(call)[..n - 1] + [Targets(call)[n - 1]];
      OnlyTargetsAreSettled(w, call, n - 1, t);
      VisitSettlesOnly(VisitFirst(w, call, n - 1), NotificationBot, Targets(call)[n - 1], call.text,
                       call.attempt(n - 1), t);
    }
  }

  /** The first of a pair of equal targets. */
  lemma {:induction false} FirstDouble(targets: seq<string>, driver: Option<string>, i: nat, j: nat) returns (k: nat)
    requires i < j < |targets| && targets[i] == targets[j]
    ensures k < |targets| && Balks(targets, driver, k)
    decreases i
  {
    if targets[i] in targets[..i] {
      var h :| 0 <= h < i && targets[..i][h] == targets[i];
      k := FirstDouble(targets, driver, h, j);
    } else {
      assert targets[j] in targets[i + 1..] by {
        assert targets[i + 1..][j - i - 1] == targets[j];
      }
      k := i;
    }
  }

  lemma {:induction false} FirstTurn(targets: seq<string>, t: string, j: nat) returns (k: nat)
    requires j < |targets| && targets[j] == t
    ensures k <= j && targets[k] == t && t !in targets[..k]
    decreases j
  {
    k := j;
    if t in targets[..j] {
      var h :| 0 <= h < j && targets[..j][h] == t;
      k := FirstTurn(targets, t, h);
    }
  }

  lemma TransientTurn(w: World, kind: BotKind, chat: string, caption: string, lands: bool)
    ensures var w' := Visit(w, kind, chat, caption, Attempt(Transient, lands));
            w'.mem == w.mem && w'.table == w.table && (chat !in w.mem ==> w'.pending) && (w.pending ==> w'.pending)
  {}

  lemma {:induction false} TransientTurns(w: World, call: Call, n: nat)
    requires n <= |Targets(call)| && forall k: nat :: call.attempt(k).outcome == Transient
    ensures var w' := VisitFirst(w, call, n);
            w'.mem == w.mem && w'.table == w.table && (n > 0 && Targets(call)[n - 1] !in w.mem ==> w'.pending)
  {
    hide Visit;
    if n > 0 {
      TransientTurns(w, call, n - 1);
      TransientTurn(VisitFirst(w, call, n - 1), NotificationBot, Targets(call)[n - 1], call.text,
                    call.attempt(n - 1).lands);
    }
  }

  /** A first try at the same chats that serves only the driver's group. */
  function DriverOnly(call: Call, d: DriverTarget): Try {
    Try(call.(readOk := true, attempt := (k: nat) => Attempt(Transient, true),
              driver := Some(DriverTarget(d.chat, true, SwitchOn, d.caption, Attempt(Sent(None), true)))),
        None)
  }

  lemma DriverIsServed(call: Call, d: DriverTarget)
    ensures AfterAll(UNTOUCHED, [DriverOnly(call, d)]).table == map[d.chat := Delivered]
  {
    var t := DriverOnly(call, d);
    var begin := Begin(UNTOUCHED, true);
    TransientTurns(begin, t.call, |Targets(t.call)|);
    var w := Notified(UNTOUCHED, t.call);
    assert w.mem == map[] && w.table == map[];
    assert Complete(UNTOUCHED, t.call).table == map[d.chat := Delivered];
    assert [t][..0] == [];
  }

  /** After tries that served at most the driver's group, a call that throws although in the end nobody waits. */
  lemma AmbiguousCallThrowsForNothing(call: Call) returns (tries: seq<Try>, other: Call)
    requires !Unambiguous(call)
    ensures var w := AfterAll(UNTOUCHED, tries);
            SameTargets(call, other) && Complete(w, other).pending && !SomebodyWaits(w, other)
  {
    var targets := Targets(call);
    other := Stutter(call);
    tries := [];
    if call.driver.Some? && call.driver.value.chat !in targets {
      tries := [DriverOnly(call, call.driver.value)];
      DriverIsServed(call, call.driver.value);
    }
    StutteringCall(AfterAll(UNTOUCHED, tries), call);
  }

  lemma StutteringCall(w: World, call: Call)
    requires !Unambiguous(call)
    requires w.table == if call.driver.Some? && call.driver.value.chat !in Targets(call)
                        then map[call.driver.value.chat := Delivered] else map[]
    ensures var other := Stutter(call);
            SameTargets(call, other) && Complete(w, other).pending && !SomebodyWaits(w, other)
  {
    var targets, driver, other := Targets(call), DriverChat(call), Stutter(call);
    assert Targets(other) == targets && Stutters(other, driver);
    var k := SomebodyBalks(call);
    StutterIsPending(Begin(w, true), other, driver, |targets|, k);
    NothingUnsettles(Begin(w, true), other, |targets|);
    forall t | t in targets
      ensures t in Notified(w, other).mem || Some(t) == driver
    {
      EverybodyGetsATurn(w, other, driver, t);
    }
  }

  lemma EverybodyGetsATurn(w: World, call: Call, driver: Option<string>, t: string)
    requires Stutters(call, driver) && t in Targets(call)
    ensures t in Notified(w, call).mem || Some(t) == driver
  {
    var i: nat :| i < |Targets(call)| && Targets(call)[i] == t;
    StutterSettles(Begin(w, call.readOk), call, driver, |Targets(call)|, i);
  }

  lemma SomebodyBalks(call: Call) returns (k: nat)
    requires !Unambiguous(call)
    ensures k < |Targets(call)| && Balks(Targets(call), DriverChat(call), k)
    ensures call.driver.Some? && call.driver.value.chat !in Targets(call) ==> Targets(call)[k] != call.driver.value.chat
  {
    var targets, driver := Targets(call), DriverChat(call);
    if driver.Some? && driver.value in targets {
      var j: nat :| j < |targets| && targets[j] == driver.value;
      k := FirstTurn(targets, driver.value, j);
    } else {
      var i: nat, j: nat :| i < j < |targets| && targets[i] == targets[j];
      k := FirstDouble(targets, driver, i, j);
    }
  }

  lemma {:induction false} NothingUnsettles(w: World, call: Call, n: nat)
    requires n <= |Targets(call)|
    ensures forall t :: t in w.mem ==> t in VisitFirst(w, call, n).mem
  {
    if n > 0 {
      NothingUnsettles(w, call, n - 1);
    }
  }

  lemma SameTargetsUnambiguous(call: Call, other: Call)
    requires SameTargets(call, other) && Unambiguous(call)
    ensures Unambiguous(other)
  {
    assert Targets(other) == Targets(call);
  }

  /**
    Its retry error means that somebody is still waiting - exactly when no target
    is in the list twice and the driver's group is not also a subscriber. If one is,
    some tries lead to a call that throws for nobody; if none is, that holds even of
    worlds no tries lead to.
  */
  lemma ThrowsOnlyForAReason(call: Call)
    ensures (forall w: World, other: Call :: SameTargets(call, other) && Complete(w, other).pending
               ==> SomebodyWaits(w, other))
            <==> Unambiguous(call)
    ensures (forall tries: seq<Try>, other: Call ::
               SameTargets(call, other) && Complete(AfterAll(UNTOUCHED, tries), other).pending
               ==> SomebodyWaits(AfterAll(UNTOUCHED, tries), other))
            <==> Unambiguous(call)
  {
    hide Complete, Unambiguous, SameTargets, SomebodyWaits;
    if Unambiguous(call) {
      forall w: World, other: Call | SameTargets(call, other) && Complete(w, other).pending
        ensures SomebodyWaits(w, other)
      {
        SameTargetsUnambiguous(call, other);
        UnambiguousThrowsForAReason(w, other);
      }
    } else {
      var tries, other := AmbiguousCallThrowsForNothing(call);
    }
  }

  // ---- Over every sequence of retries, re-polls and restarts ------------------------------

  lemma {:induction false} RunKeepsChat(w: World, tries: seq<Try>, chat: string)
    requires ChatOk(w, chat)
    ensures ChatOk(AfterAll(w, tries), chat) && ChatFurther(w, AfterAll(w, tries), chat)
  {
    if tries != [] {
      var last := |tries| - 1;
      RunKeepsChat(w, tries[..last], chat);
      AfterKeepsChat(AfterAll(w, tries[..last]), tries[last], chat);
    }
  }

  /**
    A chat receives an event once, and at most once more for each ledger read that
    failed and each of its own ledger writes that was lost, a crash between a send
    and its write included. While the ledger does not list the chat as delivered,
    only faults have sent to it: with a ledger that works, exactly once or not at all.
  */
  lemma AtMostOncePerFault(tries: seq<Try>, chat: string)
    ensures var w := AfterAll(UNTOUCHED, tries);
      && w.sends[chat] <= 1 + w.failedReads + w.lost[chat]
      && (chat in w.table && w.table[chat].Delivered? ==> chat in w.sends)
      && (!(chat in w.table && w.table[chat].Delivered?) ==> w.sends[chat] <= w.failedReads + w.lost[chat])
  {
    RunKeepsChat(UNTOUCHED, tries, chat);
  }

  /** A row once in the ledger stays, `delivered` for good; and no call downgrades what it holds in memory. */
  lemma NeverDowngraded(tries: seq<Try>, more: seq<Try>, call: Call, n: nat, chat: string)
    requires n <= |Targets(call)|
    ensures var w := AfterAll(UNTOUCHED, tries);
      && Kept(w.table, AfterAll(w, more).table, chat)
      && Kept(VisitFirst(Begin(w, call.readOk), call, n).mem, Complete(w, call).mem, chat)
  {
    hide Visit, ChatOkWithin, ChatFurther;
    var w := AfterAll(UNTOUCHED, tries);
    RunKeepsChat(UNTOUCHED, tries, chat);
    RunKeepsChat(w, more, chat);
    BeginKeepsChat(w, call.readOk, chat);
    KeptFrom(Begin(w, call.readOk), call, n, |Targets(call)|, chat);
    NotifiedKeepsChat(w, call, |Targets(call)|, chat);
    if call.driver.Some? {
      var d := call.driver.value;
      VisitKeepsChat(Notified(w, call), call.readOk, DriverBot, d.chat, d.caption, d.attempt, chat);
    }
  }

  lemma {:induction false} KeptFrom(w: World, call: Call, n: nat, m: nat, chat: string)
    requires ChatOkWithin(w, call.readOk, chat) && n <= m <= |Targets(call)|
    ensures Kept(VisitFirst(w, call, n).mem, VisitFirst(w, call, m).mem, chat)
  {
    hide Visit, ChatOkWithin;
    if n < m {
      KeptFrom(w, call, n, m - 1, chat);
      VisitsKeepChat(w, call, m - 1, call.readOk, chat);
      VisitKeepsChat(VisitFirst(w, call, m - 1), call.readOk, NotificationBot, Targets(call)[m - 1], call.text,
                     call.attempt(m - 1), chat);
    }
  }

  /** Whoever a returned call owed the alert has had it, or Telegram has refused to take it; and so it remains. */
  lemma CommittedMeansHandled(tries: seq<Try>, t: Try, more: seq<Try>, chat: string)
    requires Returns(AfterAll(UNTOUCHED, tries), t) && chat in Owed(t.call)
    ensures var w := After(AfterAll(UNTOUCHED, tries), t);
            var later := AfterAll(w, more);
      && chat in w.mem
      && chat in later.committed
      && (chat in later.sends || chat in later.refused)
  {
    var w := AfterAll(UNTOUCHED, tries);
    RunKeepsChat(UNTOUCHED, tries, chat);
    AfterKeepsChat(w, t, chat);
    ReturnSettles(w, t.call);
    RunKeepsChat(After(w, t), more, chat);
  }

  // ---- Whom a call sends to ----------------------------------------------------------------

  /** Every subscriber is a notification target, in order, and the forced group too, once if it is a subscriber. */
  lemma EverybodyIsATarget(call: Call)
    ensures forall chat :: chat in Targets(call) <==> chat in call.subscribers || chat == call.forcedId
    ensures call.subscribers <= Targets(call)
    ensures |Targets(call)| == |call.subscribers| + if call.forcedId in call.subscribers then 0 else 1
  {}

  /**
    The driver's group is tried exactly when its bot is there, its switch answers on, and
    it is not settled. Switched off it costs nothing; unreadable it makes the call throw.
  */
  lemma SwitchRulesTheDriver(w: World, call: Call)
    ensures var before, after := Notified(w, call), Complete(w, call);
      && (call.driver.None? ==> after == before)
      && (call.driver.Some? ==>
            var d := call.driver.value;
            var unsettled := d.botReady && d.chat !in before.mem;
            && after.tried == before.tried + (if unsettled && d.switch == SwitchOn then [d.chat] else [])
            && (!unsettled || d.switch == SwitchOff ==> after == before)
            && (unsettled && d.switch == SwitchUnreadable ==> after == before.(pending := true)))
  {}

  // ---- The messages a call hands over -----------------------------------------------------

  /** The notification bot's message to the call's `k`-th target: the alert's text, with the id of the answer. */
  ghost predicate IsNotification(call: Call, r: Ref, k: nat) {
    && k < |Targets(call)| && r == Ref(NotificationBot, Targets(call)[k], r.messageId, call.text)
    && r.messageId.Some? && call.attempt(k).outcome == Sent(r.messageId)
  }

  /** The driver bot's message to the driver's group: the text made for the driver, with the id of the answer. */
  ghost predicate IsDriverMessage(call: Call, r: Ref) {
    && call.driver.Some?
    && var d := call.driver.value;
       && r == Ref(DriverBot, d.chat, r.messageId, d.caption)
       && r.messageId.Some? && d.attempt.outcome == Sent(r.messageId)
  }

  lemma {:induction false} NotificationsAreNoted(w: World, call: Call, n: nat, r: Ref)
    requires n <= |Targets(call)| && r in VisitFirst(Begin(w, call.readOk), call, n).refs
    ensures exists k: nat :: IsNotification(call, r, k)
  {
    if n > 0 {
      if r in VisitFirst(Begin(w, call.readOk), call, n - 1).refs {
        NotificationsAreNoted(w, call, n - 1, r);
      } else {
        assert IsNotification(call, r, n - 1);
      }
    }
  }

  /**
    A message handed over is the one its chat was sent: by the notification bot with the
    alert's text, or by the driver bot with the driver's, and under the id Telegram gave.
  */
  lemma RefsAreWhatWasSent(w: World, call: Call, r: Ref)
    requires r in Complete(w, call).refs
    ensures IsDriverMessage(call, r) || exists k: nat :: IsNotification(call, r, k)
  {
    hide VisitFirst, IsNotification;
    if r in Notified(w, call).refs {
      NotificationsAreNoted(w, call, |Targets(call)|, r);
    }
  }

  ghost predicate RefsSettled(w: World) {
    DistinctChats(w.refs) && forall r :: r in w.refs ==> r.chatId in w.mem
  }

  lemma VisitKeepsRefs(w: World, kind: BotKind, chat: string, caption: string, a: Attempt)
    requires RefsSettled(w)
    ensures RefsSettled(Visit(w, kind, chat, caption, a))
  {}

  lemma {:induction false} VisitsKeepRefs(w: World, call: Call, n: nat)
    requires RefsSettled(w) && n <= |Targets(call)|
    ensures RefsSettled(VisitFirst(w, call, n))
  {
    if n > 0 {
      VisitsKeepRefs(w, call, n - 1);
      VisitKeepsRefs(VisitFirst(w, call, n - 1), NotificationBot, Targets(call)[n - 1], call.text, call.attempt(n - 1));
    }
  }

  /** The messages a call returns name pairwise distinct chats: what a recovery starts from. */
  lemma RefsNameDistinctChats(w: World, call: Call)
    ensures DistinctChats(Complete(w, call).refs)
  {
    VisitsKeepRefs(Begin(w, call.readOk), call, |Targets(call)|);
    if call.driver.Some? {
      var d := call.driver.value;
      VisitKeepsRefs(Notified(w, call), DriverBot, d.chat, d.caption, d.attempt);
    }
  }
}
