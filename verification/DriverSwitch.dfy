/**
  Whatever the switch of a driver's group answers, and whatever becomes of the
  posts to that group, nobody else's alerts change (`src/broadcastDelivery.js`,
  `src/driverGroupSwitch.js`): a comparison of two runs that differ in nothing else.
*/
module DriverSwitch {
  import opened RecoveryTypes
  import opened DeliveryLedger
  import opened Delivery

  /** The attempts on chats that are not driver groups. */
  function Outside(tried: seq<string>, drivers: set<string>): seq<string> {
    if tried == [] then []
    else
      var last := |tried| - 1;
      Outside(tried[..last], drivers) + if tried[last] in drivers then [] else [tried[last]]
  }

  ghost predicate SameEntry(a: map<string, Standing>, b: map<string, Standing>, t: string) {
    (t in a <==> t in b) && (t in a ==> a[t] == b[t])
  }

  /** What is on record of a chat, and what has reached it. */
  ghost predicate SameTrace(a: World, b: World, t: string) {
    && SameEntry(a.table, b.table, t)
    && a.sends[t] == b.sends[t] && a.lost[t] == b.lost[t]
    && (t in a.refused <==> t in b.refused)
  }

  ghost predicate SameFor(a: World, b: World, t: string) {
    SameTrace(a, b, t) && SameEntry(a.mem, b.mem, t)
  }

  /**
    Two worlds nobody outside the driver groups can tell apart: the same attempts in
    the same order, the same messages and refusals, the same rows in the ledger.
  */
  ghost predicate SameRecord(a: World, b: World, drivers: set<string>) {
    && Outside(a.tried, drivers) == Outside(b.tried, drivers)
    && forall t :: t !in drivers ==> SameTrace(a, b, t)
  }

  /** In the memory of the call in progress, too. */
  ghost predicate SameOutside(a: World, b: World, drivers: set<string>) {
    && Outside(a.tried, drivers) == Outside(b.tried, drivers)
    && forall t :: t !in drivers ==> SameFor(a, b, t)
  }

  /** Two calls alike but for the driver's group: its switch, its bot, its answers, even which group it is. */
  ghost predicate AlikeButDriver(a: Try, b: Try, drivers: set<string>) {
    && a.call == b.call.(driver := a.call.driver)
    && a.diesAfter == b.diesAfter
    && (a.call.driver.Some? ==> a.call.driver.value.chat in drivers)
    && (b.call.driver.Some? ==> b.call.driver.value.chat in drivers)
    && (forall t :: t in Targets(a.call) ==> t !in drivers)
  }

  lemma OutsideGrows(tried: seq<string>, t: string, drivers: set<string>)
    ensures Outside(tried + [t], drivers) == Outside(tried, drivers) + if t in drivers then [] else [t]
  {
    assert (tried + [t])[..|tried|] == tried;
  }

  lemma OthersUntouched(w: World, kind: BotKind, chat: string, caption: string, a: Attempt, t: string)
    requires t != chat
    ensures SameFor(Visit(w, kind, chat, caption, a), w, t)
  {}

  lemma DriverTurnChangesNothing(w: World, kind: BotKind, chat: string, caption: string, a: Attempt,
                                 drivers: set<string>)
    requires chat in drivers
    ensures SameOutside(Visit(w, kind, chat, caption, a), w, drivers)
  {
    OutsideGrows(w.tried, chat, drivers);
    forall t | t !in drivers
      ensures SameFor(Visit(w, kind, chat, caption, a), w, t)
    {
      OthersUntouched(w, kind, chat, caption, a, t);
    }
  }

  /** What a turn does to the chat whose turn it is depends on nothing but what is known of that chat. */
  lemma OwnTurn(w: World, kind: BotKind, chat: string, caption: string, a: Attempt)
    ensures var w' := Visit(w, kind, chat, caption, a);
            var skip := chat in w.mem || a.outcome.Transient?;
            var standing := if a.outcome.Refused? then Permanent else Delivered;
      && w'.tried == w.tried + (if chat in w.mem then [] else [chat])
      && w'.mem == (if skip then w.mem else w.mem[chat := standing])
      && w'.table == (if skip || !a.lands then w.table else Upserted(w.table, chat, standing))
      && w'.sends[chat] == w.sends[chat] + (if skip || a.outcome.Refused? then 0 else 1)
      && w'.lost[chat] == w.lost[chat] + (if skip || a.outcome.Refused? || a.lands then 0 else 1)
      && (chat in w'.refused <==> chat in w.refused || (!skip && a.outcome.Refused?))
  {}

  lemma SameOwnTurn(a: World, b: World, kind: BotKind, chat: string, caption: string, att: Attempt)
    requires SameFor(a, b, chat)
    ensures SameFor(Visit(a, kind, chat, caption, att), Visit(b, kind, chat, caption, att), chat)
  {
    OwnTurn(a, kind, chat, caption, att);
    OwnTurn(b, kind, chat, caption, att);
  }

  lemma SameTried(a: World, b: World, kind: BotKind, chat: string, caption: string, att: Attempt, drivers: set<string>)
    requires Outside(a.tried, drivers) == Outside(b.tried, drivers) && SameFor(a, b, chat)
    ensures Outside(Visit(a, kind, chat, caption, att).tried, drivers)
            == Outside(Visit(b, kind, chat, caption, att).tried, drivers)
  {
    if chat !in a.mem {
      OwnTurn(a, kind, chat, caption, att);
      OwnTurn(b, kind, chat, caption, att);
      OutsideGrows(a.tried, chat, drivers);
      OutsideGrows(b.tried, chat, drivers);
    }
  }

  lemma SameTurn(a: World, b: World, kind: BotKind, chat: string, caption: string, att: Attempt, drivers: set<string>)
    requires SameOutside(a, b, drivers) && chat !in drivers
    ensures SameOutside(Visit(a, kind, chat, caption, att), Visit(b, kind, chat, caption, att), drivers)
  {
    assert SameFor(a, b, chat);
    SameTried(a, b, kind, chat, caption, att, drivers);
    forall t | t !in drivers
      ensures SameFor(Visit(a, kind, chat, caption, att), Visit(b, kind, chat, caption, att), t)
    {
      SameOthers(a, b, kind, chat, caption, att, t);
    }
  }

  lemma SameOthers(a: World, b: World, kind: BotKind, chat: string, caption: string, att: Attempt, t: string)
    requires SameFor(a, b, chat) && SameFor(a, b, t)
    ensures SameFor(Visit(a, kind, chat, caption, att), Visit(b, kind, chat, caption, att), t)
  {
    if t == chat {
      SameOwnTurn(a, b, kind, chat, caption, att);
    } else {
      OthersUntouched(a, kind, chat, caption, att, t);
      OthersUntouched(b, kind, chat, caption, att, t);
    }
  }

  lemma SameTargetsButDriver(c: Call, d: Call)
    requires c == d.(driver := c.driver)
    ensures Targets(c) == Targets(d) && c.text == d.text && c.attempt == d.attempt && c.readOk == d.readOk
  {}

  lemma {:induction false} SameVisits(a: World, b: World, c: Call, d: Call, n: nat, drivers: set<string>)
    requires SameOutside(a, b, drivers) && n <= |Targets(c)|
    requires Targets(c) == Targets(d) && c.text == d.text && c.attempt == d.attempt
    requires forall t :: t in Targets(c) ==> t !in drivers
    ensures SameOutside(VisitFirst(a, c, n), VisitFirst(b, d, n), drivers)
  {
    hide Visit;
    if n > 0 {
      SameVisits(a, b, c, d, n - 1, drivers);
      var chat := Targets(c)[n - 1];
      SameTurn(VisitFirst(a, c, n - 1), VisitFirst(b, d, n - 1), NotificationBot, chat, c.text, c.attempt(n - 1),
               drivers);
    }
  }

  lemma SameNotified(a: World, b: World, c: Call, d: Call, n: nat, drivers: set<string>)
    requires SameRecord(a, b, drivers) && c == d.(driver := c.driver) && n <= |Targets(c)|
    requires forall t :: t in Targets(c) ==> t !in drivers
    ensures SameOutside(VisitFirst(Begin(a, c.readOk), c, n), VisitFirst(Begin(b, d.readOk), d, n), drivers)
    ensures Targets(c) == Targets(d)
  {
    forall t | t !in drivers
      ensures SameFor(Begin(a, c.readOk), Begin(b, c.readOk), t)
    {
      assert SameTrace(a, b, t);
    }
    SameTargetsButDriver(c, d);
    SameVisits(Begin(a, c.readOk), Begin(b, d.readOk), c, d, n, drivers);
  }

  lemma SameOutsideChain(a: World, a0: World, b0: World, b: World, drivers: set<string>)
    requires SameOutside(a, a0, drivers) && SameOutside(a0, b0, drivers) && SameOutside(b, b0, drivers)
    ensures SameOutside(a, b, drivers)
  {
    forall t | t !in drivers
      ensures SameFor(a, b, t)
    {
      assert SameFor(a, a0, t) && SameFor(a0, b0, t) && SameFor(b, b0, t);
    }
  }

  lemma SameTry(a: World, b: World, s: Try, t: Try, drivers: set<string>)
    requires SameRecord(a, b, drivers) && AlikeButDriver(s, t, drivers)
    ensures SameOutside(After(a, s), After(b, t), drivers)
  {
    if Dies(s) && s.diesAfter.value <= |Targets(s.call)| {
      SameNotified(a, b, s.call, t.call, s.diesAfter.value, drivers);
    } else {
      SameNotified(a, b, s.call, t.call, |Targets(s.call)|, drivers);
      var a0, b0 := Notified(a, s.call), Notified(b, t.call);
      WholeTry(a, s, drivers);
      WholeTry(b, t, drivers);
      SameOutsideChain(After(a, s), a0, b0, After(b, t), drivers);
    }
  }

  lemma WholeTry(w: World, t: Try, drivers: set<string>)
    requires Dies(t) ==> t.diesAfter.value > |Targets(t.call)|
    requires t.call.driver.Some? ==> t.call.driver.value.chat in drivers
    ensures SameOutside(After(w, t), Notified(w, t.call), drivers)
  {
    DriverPartChangesNothing(Notified(w, t.call), t.call, drivers);
  }

  lemma DriverPartChangesNothing(w: World, call: Call, drivers: set<string>)
    requires call.driver.Some? ==> call.driver.value.chat in drivers
    ensures SameOutside(VisitDriver(w, call), w, drivers)
  {
    if call.driver.Some? {
      var d := call.driver.value;
      DriverTurnChangesNothing(w, DriverBot, d.chat, d.caption, d.attempt, drivers);
    }
  }

  lemma OutsideIsRecorded(a: World, b: World, drivers: set<string>)
    requires SameOutside(a, b, drivers)
    ensures SameRecord(a, b, drivers)
  {
    forall t | t !in drivers
      ensures SameTrace(a, b, t)
    {
      assert SameFor(a, b, t);
    }
  }

  ghost predicate AlikeRuns(a: seq<Try>, b: seq<Try>, drivers: set<string>) {
    |a| == |b| && forall i :: 0 <= i < |a| ==> AlikeButDriver(a[i], b[i], drivers)
  }

  /**
    Over the same calls, with any faults, every notification target sees the same
    attempts in the same order and ends with the same standing, whatever the switch
    answered and whatever happened to the driver's posts.
  */
  lemma {:induction false} SwitchTouchesNobodyElse(a: World, b: World, s: seq<Try>, t: seq<Try>, drivers: set<string>)
    requires SameOutside(a, b, drivers) && AlikeRuns(s, t, drivers)
    ensures SameOutside(AfterAll(a, s), AfterAll(b, t), drivers)
    decreases |s|
  {
    if s != [] {
      var last := |s| - 1;
      SwitchTouchesNobodyElse(a, b, s[..last], t[..last], drivers);
      OutsideIsRecorded(AfterAll(a, s[..last]), AfterAll(b, t[..last]), drivers);
      SameTry(AfterAll(a, s[..last]), AfterAll(b, t[..last]), s[last], t[last], drivers);
    }
  }
}
