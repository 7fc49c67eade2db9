/**
  From a delivered alert to its video recovery (`broadcast` of `index.js`): which chats
  a recovery is ever for, when the alert took several calls to deliver.
*/
module Broadcast {
  import opened Wrappers
  import opened CameraMedia
  import opened RecoveryTypes
  import opened RecoveryStore
  import opened RecoveryWorker
  import opened DeliveryLedger
  import opened Delivery

  /** Delivers the alert; if that returns, and no video went along, a recovery is recorded for what it sent. */
  method BroadcastAlert(ledger: Ledger, store: Store, eventId: string, call: Call, hadVideo: bool,
                        vehicleId: Option<string>, raw: Option<RawEvent>, ready: Readiness, delayMs: Option<int>,
                        initialDelaySeconds: int, now: int, lands: bool, ghost w: World)
    returns (threw: bool, enqueued: bool)
    requires w.table == ledger.TableOf(eventId) && store.Valid()
    modifies ledger, store
    ensures store.Valid()
    ensures threw == Complete(w, call).pending && ledger.TableOf(eventId) == Complete(w, call).table
    ensures enqueued <==> !threw && !hadVideo && eventId != "" && Complete(w, call).refs != []
                          && ready.settingsLoad && ready.recoveryEnabled && lands && !HasEvent(old(store.rows), eventId)
    ensures enqueued ==> old(store.nextId) in store.rows
                         && store.rows[old(store.nextId)].job.targets == Complete(w, call).refs
                         && store.rows - {old(store.nextId)} == old(store.rows)
    ensures !enqueued ==> store.rows == old(store.rows)
  {
    hide Complete;
    enqueued := false;
    var failed, refs, _, _ := DeliverEvent(ledger, eventId, call, w);
    threw := failed;
    if !threw && !hadVideo {
      enqueued := EnqueueVideoRecovery(store, eventId, vehicleId, raw, refs, ready, delayMs, initialDelaySeconds, now,
                                       lands);
    }
  }

  // ---- Whom a recovery is for --------------------------------------------------------------

  ghost predicate Named(refs: seq<Ref>, chat: string) {
    exists r :: r in refs && r.chatId == chat
  }

  predicate WithId(a: Attempt) {
    a.outcome.Sent? && a.outcome.messageId.Some?
  }

  /** At its `k`-th turn the call sends to this chat, and a message id comes back. */
  ghost predicate SentAt(w: World, call: Call, chat: string, k: nat) {
    && k < |Targets(call)| && Targets(call)[k] == chat && WithId(call.attempt(k))
    && VisitFirst(Begin(w, call.readOk), call, k).sends[chat]
       < VisitFirst(Begin(w, call.readOk), call, k + 1).sends[chat]
  }

  /** The chat is the driver's group, the call sends to it, and a message id comes back. */
  ghost predicate SentToDriver(w: World, call: Call, chat: string) {
    && call.driver.Some? && call.driver.value.chat == chat && WithId(call.driver.value.attempt)
    && Notified(w, call).sends[chat] < Complete(w, call).sends[chat]
  }

  lemma TurnNames(w: World, kind: BotKind, chat: string, caption: string, a: Attempt, x: string)
    ensures var w' := Visit(w, kind, chat, caption, a);
      && (Named(w'.refs, x) <==> Named(w.refs, x) || (x == chat && WithId(a) && w.sends[x] < w'.sends[x]))
      && (x != chat ==> w'.sends[x] == w.sends[x])
  {
    var w' := Visit(w, kind, chat, caption, a);
    if w'.refs != w.refs {
      assert w'.refs == w.refs + [Ref(kind, chat, a.outcome.messageId, caption)];
      assert w'.refs[|w.refs|].chatId == chat;
    }
    assert forall r :: r in w.refs ==> r in w'.refs;
  }

  lemma {:induction false} TurnsName(w: World, call: Call, n: nat, x: string)
    requires n <= |Targets(call)|
    ensures Named(VisitFirst(Begin(w, call.readOk), call, n).refs, x)
            <==> exists k: nat :: k < n && SentAt(w, call, x, k)
  {
    hide Visit, Named;
    if n == 0 {
      NobodyNamed(x);
    } else {
      TurnsName(w, call, n - 1, x);
      TurnNames(VisitFirst(Begin(w, call.readOk), call, n - 1), NotificationBot, Targets(call)[n - 1], call.text,
                call.attempt(n - 1), x);
      assert SentAt(w, call, x, n - 1) || !SentAt(w, call, x, n - 1);
    }
  }

  lemma NobodyNamed(x: string)
    ensures !Named([], x)
  {}

  /**
    A chat is a target of the recovery exactly when the call that returned sent the
    alert to it itself and a message id came back. What an earlier call sent, before
    it threw, is no target.
  */
  lemma RecoveryIsForThisCall(w: World, call: Call, chat: string)
    ensures Named(Complete(w, call).refs, chat)
            <==> (exists k: nat :: k < |Targets(call)| && SentAt(w, call, chat, k)) || SentToDriver(w, call, chat)
  {
    hide Visit, Named, SentAt;
    TurnsName(w, call, |Targets(call)|, chat);
    if call.driver.Some? {
      var d := call.driver.value;
      TurnNames(Notified(w, call), DriverBot, d.chat, d.caption, d.attempt, chat);
    }
  }

  lemma SettledTurn(w: World, kind: BotKind, chat: string, caption: string, a: Attempt, x: string)
    requires x in w.mem
    ensures var w' := Visit(w, kind, chat, caption, a); x in w'.mem && w'.sends[x] == w.sends[x]
  {}

  lemma {:induction false} SettledTurns(w: World, call: Call, n: nat, x: string)
    requires n <= |Targets(call)| && x in w.mem
    ensures x in VisitFirst(w, call, n).mem && VisitFirst(w, call, n).sends[x] == w.sends[x]
  {
    hide Visit;
    if n > 0 {
      SettledTurns(w, call, n - 1, x);
      SettledTurn(VisitFirst(w, call, n - 1), NotificationBot, Targets(call)[n - 1], call.text, call.attempt(n - 1), x);
    }
  }

  /**
    After any calls, a chat the ledger lists - because an earlier call served it and
    then threw - is no target of the recovery of the call that returns: it keeps its
    text, and never gets the video.
  */
  lemma EarlierChatsGetNoVideo(tries: seq<Try>, call: Call, chat: string)
    requires call.readOk && chat in AfterAll(UNTOUCHED, tries).table
    ensures !Named(Complete(AfterAll(UNTOUCHED, tries), call).refs, chat)
  {
    hide Visit, Named;
    var w := AfterAll(UNTOUCHED, tries);
    var begin := Begin(w, true);
    RecoveryIsForThisCall(w, call, chat);
    forall k: nat | k < |Targets(call)|
      ensures !SentAt(w, call, chat, k)
    {
      SettledTurns(begin, call, k, chat);
      SettledTurns(begin, call, k + 1, chat);
    }
    SettledTurns(begin, call, |Targets(call)|, chat);
  }

  lemma TurnAdds(w: World, kind: BotKind, chat: string, caption: string, a: Attempt, x: string)
    ensures w.sends[x] <= Visit(w, kind, chat, caption, a).sends[x]
  {}

  lemma {:induction false} TurnsAdd(w: World, call: Call, n: nat, m: nat, x: string)
    requires n <= m <= |Targets(call)|
    ensures VisitFirst(w, call, n).sends[x] <= VisitFirst(w, call, m).sends[x]
    decreases m
  {
    hide Visit;
    if n < m {
      TurnsAdd(w, call, n, m - 1, x);
      TurnAdds(VisitFirst(w, call, m - 1), NotificationBot, Targets(call)[m - 1], call.text, call.attempt(m - 1), x);
    }
  }

  lemma NamedWasSentTo(w: World, call: Call, chat: string)
    requires Named(Complete(w, call).refs, chat)
    ensures w.sends[chat] < Complete(w, call).sends[chat]
  {
    hide Visit, Named;
    var begin, n := Begin(w, call.readOk), |Targets(call)|;
    RecoveryIsForThisCall(w, call, chat);
    TurnsAdd(begin, call, 0, n, chat);
    if call.driver.Some? {
      var d := call.driver.value;
      TurnAdds(Notified(w, call), DriverBot, d.chat, d.caption, d.attempt, chat);
    }
    if k: nat :| k < n && SentAt(w, call, chat, k) {
      TurnsAdd(begin, call, 0, k, chat);
      TurnsAdd(begin, call, k + 1, n, chat);
    }
  }

  /** A call that returns without having sent anything leaves nothing to recover. */
  lemma NothingSentNothingRecovered(w: World, call: Call)
    requires forall chat :: Complete(w, call).sends[chat] == w.sends[chat]
    ensures Complete(w, call).refs == []
  {
    hide Complete;
    if Complete(w, call).refs != [] {
      assert Named(Complete(w, call).refs, Complete(w, call).refs[0].chatId);
      NamedWasSentTo(w, call, Complete(w, call).refs[0].chatId);
    }
  }
}
