/**
  The write-through cache of `samsara_poll_state` and the poll watermark kept
  beside it (`src/db.js`). A failed read answers with nothing; a failed write
  leaves the table as it was.
*/
module PollState {
  import opened Wrappers

  const POLL_WATERMARK_KEY := "last_successful_poll_end_time"

  /** The table, and what a process holds of it: `cache` by key, and the watermark. */
  datatype Db = Db(table: map<string, string>, cache: map<string, Option<string>>, watermark: Option<string>)

  datatype Op =
    | Get(key: string, readOk: bool)
    | Save(key: string, value: string, writeOk: bool)
    | GetWatermark(readOk: bool)
    | SaveWatermark(isoTime: string, writeOk: bool)
    | Restart

  /** An empty value counts as none. */
  function Lookup(table: map<string, string>, key: string): Option<string> {
    if key in table && table[key] != "" then Some(table[key]) else None
  }

  function GetAnswer(db: Db, key: string, readOk: bool): Option<string> {
    if key in db.cache then db.cache[key] else if readOk then Lookup(db.table, key) else None
  }

  function AfterGet(db: Db, key: string, readOk: bool): Db {
    if key !in db.cache && readOk then db.(cache := db.cache[key := Lookup(db.table, key)]) else db
  }

  function AfterSave(db: Db, key: string, value: string, writeOk: bool): Db {
    if value == "" || (key in db.cache && db.cache[key] == Some(value)) || !writeOk then db
    else db.(table := db.table[key := value], cache := db.cache[key := Some(value)])
  }

  function WatermarkAnswer(db: Db, readOk: bool): Option<string> {
    if db.watermark.Some? then db.watermark else GetAnswer(db, POLL_WATERMARK_KEY, readOk)
  }

  function After(db: Db, op: Op): Db {
    match op
    case Get(key, readOk) => AfterGet(db, key, readOk)
    case Save(key, value, writeOk) => AfterSave(db, key, value, writeOk)
    case GetWatermark(readOk) =>
      if db.watermark.Some? then db
      else AfterGet(db, POLL_WATERMARK_KEY, readOk).(watermark := GetAnswer(db, POLL_WATERMARK_KEY, readOk))
    case SaveWatermark(isoTime, writeOk) =>
      if isoTime == "" then db
      else AfterSave(db.(watermark := Some(isoTime)), POLL_WATERMARK_KEY, isoTime, writeOk)
    case Restart => Db(db.table, map[], None)
  }

  class PollStateStore {
    var table: map<string, string>
    var pollStateCache: map<string, Option<string>>
    var cachedPollWatermark: Option<string>

    function View(): Db
      reads this
    {
      Db(table, pollStateCache, cachedPollWatermark)
    }

    /** A process starts with what the table holds and knows nothing of it. */
    constructor (table: map<string, string>)
      ensures View() == Db(table, map[], None)
    {
      this.table, pollStateCache, cachedPollWatermark := table, map[], None;
    }

    method GetPollState(key: string, readOk: bool) returns (value: Option<string>)
      modifies this`pollStateCache
      ensures View() == AfterGet(old(View()), key, readOk)
      ensures value == GetAnswer(old(View()), key, readOk)
    {
      if key in pollStateCache {
        return pollStateCache[key];
      }
      if !readOk {
        return None;
      }
      value := Lookup(table, key);
      pollStateCache := pollStateCache[key := value];
    }

    method SavePollState(key: string, value: string, writeOk: bool)
      modifies this`table, this`pollStateCache
      ensures View() == AfterSave(old(View()), key, value, writeOk)
    {
      if value == "" {
        return;
      }
      if key in pollStateCache && pollStateCache[key] == Some(value) {
        return;
      }
      if writeOk {
        table := table[key := value];
        pollStateCache := pollStateCache[key := Some(value)];
      }
    }

    method GetPollWatermark(readOk: bool) returns (watermark: Option<string>)
      modifies this
      ensures View() == After(old(View()), GetWatermark(readOk))
      ensures watermark == WatermarkAnswer(old(View()), readOk)
    {
      if cachedPollWatermark.Some? {
        return cachedPollWatermark;
      }
      cachedPollWatermark := GetPollState(POLL_WATERMARK_KEY, readOk);
      watermark := cachedPollWatermark;
    }

    /** The poller moves on even when the write fails. */
    method SavePollWatermark(isoTime: string, writeOk: bool)
      modifies this
      ensures View() == After(old(View()), SaveWatermark(isoTime, writeOk))
    {
      if isoTime == "" {
        return;
      }
      cachedPollWatermark := Some(isoTime);
      SavePollState(POLL_WATERMARK_KEY, isoTime, writeOk);
    }
  }

  // ---- The cache cannot be told from no cache --------------------------------------------

  function Run(db: Db, ops: seq<Op>): Db {
    if ops == [] then db else After(Run(db, ops[..|ops| - 1]), ops[|ops| - 1])
  }

  /** Always write: what the table becomes without a cache. */
  function Uncached(table: map<string, string>, ops: seq<Op>): map<string, string> {
    if ops == [] then table
    else
      var before := Uncached(table, ops[..|ops| - 1]);
      match ops[|ops| - 1]
      case Save(key, value, writeOk) => if value != "" && writeOk then before[key := value] else before
      case SaveWatermark(isoTime, writeOk) =>
        if isoTime != "" && writeOk then before[POLL_WATERMARK_KEY := isoTime] else before
      case _ => before
  }

  /** What the cache holds is what the table holds. */
  ghost predicate Coherent(db: Db) {
    forall key :: key in db.cache ==> db.cache[key] == Lookup(db.table, key)
  }

  lemma {:induction false} CacheRefines(db: Db, ops: seq<Op>)
    requires Coherent(db)
    ensures Coherent(Run(db, ops)) && Run(db, ops).table == Uncached(db.table, ops)
  {
    if ops != [] {
      CacheRefines(db, ops[..|ops| - 1]);
    }
  }

  /**
    After any operations with any failures, the table is what it would be without
    the cache, and a read answers what a read of the table would answer. It answers
    otherwise only with nothing, and only where the read of the table fails too.
  */
  lemma CacheIsInvisible(table: map<string, string>, ops: seq<Op>, key: string, readOk: bool)
    ensures var db := Run(Db(table, map[], None), ops);
      && db.table == Uncached(table, ops)
      && (readOk ==> GetAnswer(db, key, readOk) == Lookup(Uncached(table, ops), key))
      && (!readOk ==> GetAnswer(db, key, readOk) in {Lookup(Uncached(table, ops), key), None})
  {
    CacheRefines(Db(table, map[], None), ops);
  }

  // ---- The watermark ------------------------------------------------------------------------

  /** The watermarks reached so far, oldest first, and those reached by `ops`. */
  function Reached(sofar: seq<Option<string>>, ops: seq<Op>): (r: seq<Option<string>>)
    ensures sofar <= r
  {
    if ops == [] then sofar
    else
      var before := Reached(sofar, ops[..|ops| - 1]);
      match ops[|ops| - 1]
      case SaveWatermark(isoTime, _) => if isoTime != "" then before + [Some(isoTime)] else before
      case _ => before
  }

  /** Only the watermark's own functions write its key. */
  ghost predicate OwnKeysOnly(ops: seq<Op>) {
    forall i :: 0 <= i < |ops| && ops[i].Save? ==> ops[i].key != POLL_WATERMARK_KEY
  }

  /** The table holds the `at`-th watermark reached; the process holds that one, or the last. */
  ghost predicate Holds(db: Db, reached: seq<Option<string>>, at: nat) {
    && Coherent(db)
    && at < |reached|
    && Lookup(db.table, POLL_WATERMARK_KEY) == reached[at]
    && (db.watermark.Some? ==> db.watermark == reached[at] || db.watermark == reached[|reached| - 1])
  }

  lemma AfterHolds(db: Db, op: Op, reached: seq<Option<string>>, at: nat) returns (at': nat)
    requires Holds(db, reached, at) && (op.Save? ==> op.key != POLL_WATERMARK_KEY)
    ensures var more := if op.SaveWatermark? && op.isoTime != "" then reached + [Some(op.isoTime)] else reached;
            Holds(After(db, op), more, at') && at <= at'
  {
    at' := at;
    if op.SaveWatermark? && op.isoTime != "" {
      if Lookup(After(db, op).table, POLL_WATERMARK_KEY) == Some(op.isoTime) {
        at' := |reached|;
      }
    }
  }

  lemma {:induction false} RunHolds(db: Db, ops: seq<Op>, reached: seq<Option<string>>, at: nat) returns (at': nat)
    requires Holds(db, reached, at) && OwnKeysOnly(ops)
    ensures Holds(Run(db, ops), Reached(reached, ops), at') && at <= at'
  {
    if ops == [] {
      at' := at;
    } else {
      var init := ops[..|ops| - 1];
      assert forall i :: 0 <= i < |init| ==> init[i] == ops[i];
      var before := RunHolds(db, init, reached, at);
      at' := AfterHolds(Run(db, init), ops[|ops| - 1], Reached(reached, init), before);
    }
  }

  /**
    Whatever fails and however often the process restarts, the stored watermark is
    one the poller itself reached earlier (or the one it started from), it only ever
    moves forward among them, and the watermark a poll is given is that one or the
    last one reached - never one behind the stored.
  */
  lemma WatermarkIsNeverAhead(table: map<string, string>, ops: seq<Op>, more: seq<Op>, readOk: bool)
    returns (at: nat, later: nat)
    requires OwnKeysOnly(ops) && OwnKeysOnly(more)
    ensures var db := Run(Db(table, map[], None), ops);
            var reached := Reached([Lookup(table, POLL_WATERMARK_KEY)], ops);
            var everReached := Reached(reached, more);
      && at < |reached| && at <= later < |everReached|
      && Lookup(db.table, POLL_WATERMARK_KEY) == reached[at]
      && Lookup(Run(db, more).table, POLL_WATERMARK_KEY) == everReached[later]
      && WatermarkAnswer(db, readOk) in {reached[at], reached[|reached| - 1], None}
      && (readOk && WatermarkAnswer(db, readOk) == None ==> reached[at] == None)
  {
    var start := Db(table, map[], None);
    at := RunHolds(start, ops, [Lookup(table, POLL_WATERMARK_KEY)], 0);
    later := RunHolds(Run(start, ops), more, Reached([Lookup(table, POLL_WATERMARK_KEY)], ops), at);
  }

  /** What a process knows, it knows until it restarts, without the database. */
  lemma {:induction false} OnceReadIsKept(db: Db, ops: seq<Op>, key: string, readOk: bool)
    requires key in db.cache && Coherent(db) && forall i :: 0 <= i < |ops| ==> !ops[i].Restart?
    ensures var later := Run(db, ops);
            key in later.cache && GetAnswer(later, key, readOk) == Lookup(later.table, key)
  {
    CacheRefines(db, ops);
    if ops != [] {
      var init := ops[..|ops| - 1];
      assert forall i :: 0 <= i < |init| ==> init[i] == ops[i];
      OnceReadIsKept(db, init, key, readOk);
    }
  }

  /** A read that works, and a save that lands, are known from then on. */
  lemma ReadAndSavedAreKnown(db: Db, key: string, value: string)
    ensures key in After(db, Get(key, true)).cache
    ensures value != "" ==> GetAnswer(After(db, Save(key, value, true)), key, false) == Some(value)
  {}

  /**
    The poller moves on even when the write fails: until it reaches another watermark
    or restarts, every poll is given the one it reached last.
  */
  lemma {:induction false} LastReachedIsGiven(db: Db, isoTime: string, writeOk: bool, ops: seq<Op>, readOk: bool)
    requires isoTime != ""
    requires forall i :: 0 <= i < |ops| ==> !ops[i].Restart? && (ops[i].SaveWatermark? ==> ops[i].isoTime == "")
    ensures var later := Run(After(db, SaveWatermark(isoTime, writeOk)), ops);
            later.watermark == Some(isoTime) && WatermarkAnswer(later, readOk) == Some(isoTime)
  {
    if ops != [] {
      var init := ops[..|ops| - 1];
      assert forall i :: 0 <= i < |init| ==> init[i] == ops[i];
      LastReachedIsGiven(db, isoTime, writeOk, init, readOk);
    }
  }
}
