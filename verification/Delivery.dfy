/**
  Delivery of one alert to every target (`src/broadcastDelivery.js`): the
  subscribers, the forced notifications group and the driver's own group, each
  tracked in the ledger. What Telegram and the database answer is an input.
*/
module Delivery {
  import opened Wrappers
  import opened RecoveryTypes
  import opened VideoBackfill
  import opened DeliveryLedger

  /** A send that goes through, one Telegram refuses for good, one worth another try. */
  datatype Outcome = Sent(messageId: Option<int>) | Refused | Transient

  /** One send, and whether the ledger write after it lands. */
  datatype Attempt = Attempt(outcome: Outcome, lands: bool)

  datatype DriverTarget = DriverTarget(chat: string, botReady: bool, switch: SwitchAnswer, caption: string,
                                       attempt: Attempt)

  /** One call of `deliverEvent`. No driver target means that the vehicle is not mapped to a group. */
  datatype Call = Call(readOk: bool, subscribers: seq<string>, forcedId: string, text: string,
                       attempt: nat -> Attempt, driver: Option<DriverTarget>)

  /** Everything about one event: what the code keeps and writes, and what has happened outside. */
  datatype World = World(
    mem: map<string, Standing>,     // `statuses` of the current call
    table: map<string, Standing>,   // the event's rows in the ledger
    pending: bool,                  // `transientPending` of the current call
    refs: seq<Ref>,                 // the messages sent by the current call
    tried: seq<string>,             // every send attempted, in order
    sends: multiset<string>,        // those that went through
    refused: set<string>,           // chats Telegram refused for good
    lost: multiset<string>,         // ledger writes of a send that did not land
    failedReads: nat,               // ledger reads that failed
    committed: set<string>)         // the targets owed by calls that returned

  const UNTOUCHED := World(map[], map[], false, [], [], multiset{}, {}, multiset{}, 0, {})

  function Targets(call: Call): seq<string> {
    if call.forcedId in call.subscribers then call.subscribers else call.subscribers + [call.forcedId]
  }

  function Begin(w: World, readOk: bool): World {
    w.(mem := if readOk then w.table else map[], failedReads := w.failedReads + if readOk then 0 else 1,
       pending := false, refs := [])
  }

  function RefFor(kind: BotKind, chat: string, messageId: Option<int>, caption: string): seq<Ref> {
    if messageId.Some? then [Ref(kind, chat, messageId, caption)] else []
  }

  /** One target's turn: nothing if it is settled, otherwise one attempt and what is recorded of it. */
  function Visit(w: World, kind: BotKind, chat: string, caption: string, a: Attempt): World {
    if chat in w.mem then w
    else match a.outcome
      case Sent(messageId) =>
        w.(mem := w.mem[chat := Delivered],
           table := if a.lands then Upserted(w.table, chat, Delivered) else w.table,
           lost := if a.lands then w.lost else w.lost + multiset{chat},
           refs := w.refs + RefFor(kind, chat, messageId, caption),
           tried := w.tried + [chat], sends := w.sends + multiset{chat})
      case Refused =>
        w.(mem := w.mem[chat := Permanent],
           table := if a.lands then Upserted(w.table, chat, Permanent) else w.table,
           tried := w.tried + [chat], refused := w.refused + {chat})
      case Transient =>
        w.(pending := true, tried := w.tried + [chat])
  }

  /** The first `n` notification targets. */
  function VisitFirst(w: World, call: Call, n: nat): World
    requires n <= |Targets(call)|
  {
    if n == 0 then w
    else Visit(VisitFirst(w, call, n - 1), NotificationBot, Targets(call)[n - 1], call.text, call.attempt(n - 1))
  }

  /** The driver group, unless it is settled, switched off, or its switch cannot be read. */
  function VisitDriver(w: World, call: Call): World {
    if call.driver.None? || !call.driver.value.botReady || call.driver.value.chat in w.mem then w
    else
      var d := call.driver.value;
      match d.switch
      case SwitchOff => w
      case SwitchUnreadable => w.(pending := true)
      case SwitchOn => Visit(w, DriverBot, d.chat, d.caption, d.attempt)
  }

  function Notified(w: World, call: Call): World {
    VisitFirst(Begin(w, call.readOk), call, |Targets(call)|)
  }

  function Complete(w: World, call: Call): World {
    VisitDriver(Notified(w, call), call)
  }

  /** The local state of a call, and the ledger, are what the world says they are. */
  ghost predicate Mirrors(now: World, w: World, table: map<string, Standing>, statuses: map<string, Standing>,
                          threw: bool, refs: seq<Ref>, tried: seq<string>) {
    && table == now.table && statuses == now.mem && threw == now.pending && refs == now.refs
    && w.tried + tried == now.tried
  }

  twostate predicate OnlyEventChanged(ledger: Ledger, eventId: string)
    reads ledger
  {
    forall other :: other != eventId ==> ledger.TableOf(other) == old(ledger.TableOf(other))
  }

  /** One send to a target that is not settled, and its record in memory and in the ledger. */
  method AttemptTarget(ledger: Ledger, eventId: string, kind: BotKind, chat: string, caption: string, a: Attempt,
                       statuses: map<string, Standing>, ghost w: World)
    returns (standing: map<string, Standing>, made: seq<Ref>, transient: bool)
    requires chat !in statuses && w.mem == statuses && w.table == ledger.TableOf(eventId)
    modifies ledger
    ensures var end := Visit(w, kind, chat, caption, a);
      && ledger.TableOf(eventId) == end.table
      && standing == end.mem
      && w.refs + made == end.refs
      && w.tried + [chat] == end.tried
      && end.pending == (w.pending || transient)
    ensures OnlyEventChanged(ledger, eventId)
  {
    standing, made, transient := statuses, [], false;
    match a.outcome {
      case Sent(messageId) =>
        if messageId.Some? {
          made := [Ref(kind, chat, messageId, caption)];
        }
        standing := standing[chat := Delivered];
        ledger.RecordEventDelivery(eventId, chat, Delivered, a.lands);
      case Refused =>
        standing := standing[chat := Permanent];
        ledger.RecordEventDelivery(eventId, chat, Permanent, a.lands);
      case Transient =>
        transient := true;
    }
  }

  /** Section 1 of `deliverEvent`: the subscribers, and the forced group unless it is one of them. */
  method NotifySubscribers(ledger: Ledger, eventId: string, call: Call, ghost w: World)
    returns (threw: bool, refs: seq<Ref>, tried: seq<string>, statuses: map<string, Standing>)
    requires w.table == ledger.TableOf(eventId)
    modifies ledger
    ensures Mirrors(Notified(w, call), w, ledger.TableOf(eventId), statuses, threw, refs, tried)
    ensures OnlyEventChanged(ledger, eventId)
  {
    statuses := GetTargetStatuses(ledger, eventId, call.readOk);
    threw, refs, tried := false, [], [];

    var targets := call.subscribers;
    if call.forcedId !in targets {
      targets := targets + [call.forcedId];
    }

    ghost var now := Begin(w, call.readOk);
    for i := 0 to |targets|
      invariant now == VisitFirst(Begin(w, call.readOk), call, i)
      invariant Mirrors(now, w, ledger.TableOf(eventId), statuses, threw, refs, tried)
      invariant OnlyEventChanged(ledger, eventId)
    {
      var chat := targets[i];
      if chat !in statuses {
        var standing, made, transient :=
          AttemptTarget(ledger, eventId, NotificationBot, chat, call.text, call.attempt(i), statuses, now);
        assert w.tried + (tried + [chat]) == (w.tried + tried) + [chat];
        statuses, refs, tried, threw := standing, refs + made, tried + [chat], threw || transient;
      }
      now := Visit(now, NotificationBot, chat, call.text, call.attempt(i));
    }
  }

  /**
    `deliverEvent`. Returns normally when nothing transient is left, and throws so
    that the poller tries the event again otherwise.
  */
  method DeliverEvent(ledger: Ledger, eventId: string, call: Call, ghost w: World)
    returns (threw: bool, refs: seq<Ref>, tried: seq<string>, statuses: map<string, Standing>)
    requires w.table == ledger.TableOf(eventId)
    modifies ledger
    ensures Mirrors(Complete(w, call), w, ledger.TableOf(eventId), statuses, threw, refs, tried)
    ensures OnlyEventChanged(ledger, eventId)
  {
    threw, refs, tried, statuses := NotifySubscribers(ledger, eventId, call, w);
    if call.driver.Some? && call.driver.value.botReady && call.driver.value.chat !in statuses {
      var d := call.driver.value;
      match d.switch {
        case SwitchOff =>
        case SwitchUnreadable =>
          threw := true;
        case SwitchOn =>
          var standing, made, transient :=
            AttemptTarget(ledger, eventId, DriverBot, d.chat, d.caption, d.attempt, statuses, Notified(w, call));
          statuses, refs, tried, threw := standing, refs + made, tried + [d.chat], threw || transient;
      }
    }
  }

  // ---- One send ------------------------------------------------------------------------

  datatype Form = MediaGroup | Video | TextOnly

  /** What one send meets: the links of the alert, their downloads, and what Telegram answers to each form. */
  datatype SendWay = SendWay(hasForward: bool, hasInward: bool, forwardLoads: bool, inwardLoads: bool, videoLoads: bool,
                             group: Outcome, video: Outcome, text: Outcome)

  predicate GroupTried(way: SendWay) {
    way.hasForward && way.hasInward && way.forwardLoads && way.inwardLoads
  }

  predicate VideoTried(way: SendWay) {
    way.hasForward && way.videoLoads && !(GroupTried(way) && way.group.Sent?)
  }

  /**
    `sendNotificationToTarget`: both cameras, then one, then the text. One message at
    most goes out, by the last form tried, and only the answer to the text is an error:
    a video refused for good is still followed by its text.
  */
  method SendNotificationToTarget(way: SendWay) returns (outcome: Outcome, tried: seq<Form>)
    ensures tried == (if GroupTried(way) then [MediaGroup] else []) + (if VideoTried(way) then [Video] else [])
                   + (if (GroupTried(way) && way.group.Sent?) || (VideoTried(way) && way.video.Sent?)
                       then [] else [TextOnly])
    ensures MediaGroup in tried <==> way.hasForward && way.hasInward && way.forwardLoads && way.inwardLoads
    ensures Video in tried <==> way.hasForward && way.videoLoads && !(MediaGroup in tried && way.group.Sent?)
    ensures outcome == match tried[|tried| - 1]
                       case MediaGroup => way.group case Video => way.video case TextOnly => way.text
    ensures forall i :: 0 <= i < |tried| - 1 ==>
              tried[i] != TextOnly && (tried[i] == MediaGroup ==> !way.group.Sent?)
              && (tried[i] == Video ==> !way.video.Sent?)
    ensures !outcome.Sent? ==> tried[|tried| - 1] == TextOnly
  {
    tried := [];
    if way.hasForward && way.hasInward && way.forwardLoads && way.inwardLoads {
      tried := tried + [MediaGroup];
      if way.group.Sent? {
        return way.group, tried;
      }
    }
    if way.hasForward && way.videoLoads {
      tried := tried + [Video];
      if way.video.Sent? {
        return way.video, tried;
      }
    }
    return way.text, tried + [TextOnly];
  }

  // ---- Retries, re-polls and crashes -------------------------------------------------

  /** One call, and after how many targets the process dies in it, if it does. */
  datatype Try = Try(call: Call, diesAfter: Option<nat>)

  predicate Dies(t: Try) {
    t.diesAfter.Some? && t.diesAfter.value <= |Targets(t.call)| + 1
  }

  /** The poller marks an event processed when, and only when, its delivery returns. */
  predicate Returns(w: World, t: Try) {
    !Dies(t) && !Complete(w, t.call).pending
  }

  /**
    Nobody may be left waiting when the call returns: every notification target, and a
    driver group not switched off.
  */
  function Owed(call: Call): set<string> {
    (set chat | chat in Targets(call))
    + if call.driver.Some? && call.driver.value.botReady && !call.driver.value.switch.SwitchOff?
      then {call.driver.value.chat} else {}
  }

  function After(w: World, t: Try): World {
    if Dies(t) && t.diesAfter.value <= |Targets(t.call)| then
      VisitFirst(Begin(w, t.call.readOk), t.call, t.diesAfter.value)
    else if Returns(w, t) then
      var end := Complete(w, t.call);
      end.(committed := end.committed + Owed(t.call))
    else Complete(w, t.call)
  }

  function AfterAll(w: World, tries: seq<Try>): World {
    if tries == [] then w else After(AfterAll(w, tries[..|tries| - 1]), tries[|tries| - 1])
  }

  /** The same, but the event is not picked up again once its delivery has returned. */
  function UntilCommit(w: World, tries: seq<Try>): World
    decreases |tries|
  {
    if tries == [] then w
    else if Returns(w, tries[0]) then After(w, tries[0])
    else UntilCommit(After(w, tries[0]), tries[1..])
  }
}
