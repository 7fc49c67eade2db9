/**
  The pollers' queue and its dedup sets (`src/poller.js`, `src/speedingPoller.js`).
  Every method is one stretch of code between two awaits, so methods of the poll
  and of the queue may follow each other in any order.
*/
module AlertQueue {
  import opened Wrappers

  /**
    `wired`: a function to broadcast with has been set. `releases`: a failed
    transform releases its event, as in the speeding poller only.
  */
  datatype Config = Config(maxQueue: nat, maxSeen: nat, wired: bool, releases: bool)

  /** Where a run of `processQueue` is suspended: in the broadcast, in the mark, or in the timer. */
  datatype Loop = Sending(id: string) | Marking(id: string) | Waiting

  /** Where the poll is suspended: nowhere, in the lookup of an event, in its transform. */
  datatype Poll = Ready | Checking(id: string) | Transforming(id: string)

  datatype State = State(
    queue: seq<string>, isProcessing: bool, seen: seq<string>, pending: set<string>, droppedCount: nat,
    loops: seq<Loop>, polling: Poll,
    picked: seq<string>,            // every event picked up, in order
    started: seq<string>,           // every alert whose broadcast was started, in order
    ended: multiset<string>,        // events delivered or released
    dropped: set<string>,           // events whose alert was pushed out of a full queue
    leaked: set<string>)            // events whose transform failed without a release

  const EMPTY := State([], false, [], {}, 0, [], Ready, [], [], multiset{}, {}, {})

  datatype Action =
    | Look(id: string)              // the poll comes to an event
    | LookedUp(processed: bool)     // the database says whether it was processed
    | Transformed(ok: bool)
    | Broadcast(loop: nat, ok: bool)
    | Marked(loop: nat)
    | Timer(loop: nat)

  /** A `Set` keeps its order of insertion. */
  function Add(seen: seq<string>, id: string): seq<string> {
    if id in seen then seen else seen + [id]
  }

  function Evict(seen: seq<string>, maxSeen: nat): seq<string> {
    if |seen| > maxSeen then seen[1..] else seen
  }

  function Without(loops: seq<Loop>, i: nat): seq<Loop>
    requires i < |loops|
  {
    loops[..i] + loops[i + 1..]
  }

  function Release(s: State, id: string): State {
    s.(pending := s.pending - {id}, ended := s.ended + multiset{id})
  }

  /** `processQueue`, run by loop `i`: the oldest alert, or the end of the loop. */
  function Turn(cfg: Config, s: State, i: nat): State
    requires i < |s.loops|
  {
    if s.queue == [] then s.(isProcessing := false, loops := Without(s.loops, i))
    else
      var id := s.queue[0];
      var taken := s.(isProcessing := true, queue := s.queue[1..]);
      if cfg.wired then taken.(loops := s.loops[i := Sending(id)], started := s.started + [id])
      else Release(taken.(loops := s.loops[i := Waiting]), id)
  }

  function DropOldest(s: State): State {
    var counted := s.(droppedCount := s.droppedCount + 1);
    if s.queue == [] then counted
    else counted.(queue := s.queue[1..], dropped := s.dropped + {s.queue[0]})
  }

  /** `queueAlert`: the oldest makes room, and the queue is started if nothing processes it. */
  function Queued(cfg: Config, s: State, id: string): State {
    var room := if |s.queue| >= cfg.maxQueue then DropOldest(s) else s;
    var pushed := room.(queue := room.queue + [id]);
    if pushed.isProcessing then pushed
    else Turn(cfg, pushed.(loops := pushed.loops + [Waiting]), |pushed.loops|)
  }

  predicate Enabled(s: State, a: Action) {
    match a
    case Look(id) => s.polling.Ready? && id != ""
    case LookedUp(_) => s.polling.Checking?
    case Transformed(_) => s.polling.Transforming?
    case Broadcast(i, _) => i < |s.loops| && s.loops[i].Sending?
    case Marked(i) => i < |s.loops| && s.loops[i].Marking?
    case Timer(i) => i < |s.loops| && s.loops[i].Waiting?
  }

  function Next(cfg: Config, s: State, a: Action): State
    requires Enabled(s, a)
  {
    match a
    case Look(id) =>
      if id in s.seen || id in s.pending then s else s.(polling := Checking(id))
    case LookedUp(processed) =>
      var id := s.polling.id;
      if processed then s.(seen := Add(s.seen, id), polling := Ready)
      else s.(pending := s.pending + {id}, picked := s.picked + [id], polling := Transforming(id))
    case Transformed(ok) =>
      var id := s.polling.id;
      var free := s.(polling := Ready);
      if ok then Queued(cfg, free, id)
      else if cfg.releases then Release(free, id)
      else free.(leaked := s.leaked + {id})
    case Broadcast(i, ok) =>
      var id := s.loops[i].id;
      if ok then s.(loops := s.loops[i := Marking(id)])
      else Release(s.(loops := s.loops[i := Waiting]), id)
    case Marked(i) =>
      var id := s.loops[i].id;
      var noted := Release(s.(loops := s.loops[i := Waiting]), id);
      noted.(seen := Evict(Add(s.seen, id), cfg.maxSeen))
    case Timer(i) => Turn(cfg, s, i)
  }

  // ---- The code -------------------------------------------------------------------------

  class Poller {
    const cfg: Config
    var queue: seq<string>
    var isProcessing: bool
    var seen: seq<string>
    var pending: set<string>
    var droppedCount: nat
    ghost var loops: seq<Loop>
    ghost var polling: Poll
    ghost var picked: seq<string>
    ghost var started: seq<string>
    ghost var ended: multiset<string>
    ghost var dropped: set<string>
    ghost var leaked: set<string>

    ghost function View(): State
      reads this
    {
      State(queue, isProcessing, seen, pending, droppedCount, loops, polling, picked, started, ended, dropped, leaked)
    }

    constructor (cfg: Config)
      ensures this.cfg == cfg && View() == EMPTY
    {
      this.cfg := cfg;
      queue, isProcessing, seen, pending, droppedCount := [], false, [], {}, 0;
      loops, polling, picked, started, ended, dropped, leaked := [], Ready, [], [], multiset{}, {}, {};
    }

    /** Answers with the event to look up, if it is not known already. */
    method LookAt(id: string) returns (lookUp: bool)
      requires Enabled(View(), Look(id))
      modifies this
      ensures View() == Next(cfg, old(View()), Look(id))
      ensures lookUp == polling.Checking?
    {
      lookUp := id !in seen && id !in pending;
      if lookUp {
        polling := Checking(id);
      }
    }

    method AfterLookup(id: string, processed: bool) returns (pick: bool)
      requires polling == Checking(id)
      modifies this
      ensures View() == Next(cfg, old(View()), LookedUp(processed))
      ensures pick == polling.Transforming?
    {
      pick := !processed;
      if processed {
        seen := Add(seen, id);
        polling := Ready;
      } else {
        pending := pending + {id};
        picked := picked + [id];
        polling := Transforming(id);
      }
    }

    method AfterTransform(id: string, ok: bool) returns (send: Option<string>)
      requires polling == Transforming(id)
      modifies this
      ensures View() == Next(cfg, old(View()), Transformed(ok))
      ensures send.Some? ==> loops != [] && loops[|loops| - 1] == Sending(send.value)
    {
      polling := Ready;
      send := None;
      if ok {
        send := QueueAlert(id);
      } else if cfg.releases {
        NoteEventDeliveryFailed(id);
      } else {
        leaked := leaked + {id};
      }
    }

    method QueueAlert(id: string) returns (send: Option<string>)
      modifies this
      ensures View() == Queued(cfg, old(View()), id)
      ensures send.Some? ==> loops != [] && loops[|loops| - 1] == Sending(send.value)
    {
      if |queue| >= cfg.maxQueue {
        DropOne();
      }
      queue := queue + [id];
      send := None;
      if !isProcessing {
        loops := loops + [Waiting];
        send := ProcessQueue(|loops| - 1);
      }
    }

    method DropOne()
      modifies this`queue, this`droppedCount, this`dropped
      ensures View() == DropOldest(old(View()))
    {
      if queue != [] {
        dropped := dropped + {queue[0]};
        queue := queue[1..];
      }
      droppedCount := droppedCount + 1;
    }

    /** Answers with the alert to broadcast, and otherwise ends or waits. */
    method ProcessQueue(ghost loop: nat) returns (send: Option<string>)
      requires loop < |loops|
      modifies this
      ensures View() == Turn(cfg, old(View()), loop)
      ensures send.Some? ==> loops == old(loops)[loop := Sending(send.value)]
    {
      send := None;
      if |queue| == 0 {
        isProcessing := false;
        loops := Without(loops, loop);
        return;
      }
      isProcessing := true;
      var id := queue[0];
      queue := queue[1..];
      if cfg.wired {
        loops := loops[loop := Sending(id)];
        started := started + [id];
        send := Some(id);
      } else {
        loops := loops[loop := Waiting];
        NoteEventDeliveryFailed(id);
      }
    }

    method AfterBroadcast(ghost loop: nat, id: string, ok: bool)
      requires loop < |loops| && loops[loop] == Sending(id)
      modifies this
      ensures View() == Next(cfg, old(View()), Broadcast(loop, ok))
    {
      if ok {
        loops := loops[loop := Marking(id)];
      } else {
        loops := loops[loop := Waiting];
        NoteEventDeliveryFailed(id);
      }
    }

    method NoteEventDelivered(ghost loop: nat, id: string)
      requires loop < |loops| && loops[loop] == Marking(id)
      modifies this
      ensures View() == Next(cfg, old(View()), Marked(loop))
    {
      seen := Add(seen, id);
      pending := pending - {id};
      if |seen| > cfg.maxSeen {
        seen := seen[1..];
      }
      loops := loops[loop := Waiting];
      ended := ended + multiset{id};
    }

    method NoteEventDeliveryFailed(id: string)
      modifies this`pending, this`ended
      ensures View() == Release(old(View()), id)
    {
      pending := pending - {id};
      ended := ended + multiset{id};
    }
  }
}
