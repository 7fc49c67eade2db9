/**
  The stored settings of this service: read at start (`src/appSecrets/fetch.js`),
  applied (`src/appSecrets/boot.js`), and watched for changes
  (`src/appSecrets/watch.js`). What the database answers is an input; opening a
  value and hashing are functions of their own.
*/
module AppSecrets {
  import opened Wrappers
  import opened SecretsDigest

  // ---- The read ---------------------------------------------------------------------------

  datatype Reason =
    | NoDatabaseUrl | NoKey | NoTable | NothingStored
    | BadPin | NoSuchVersion | OtherKey | CouldNotOpen
    | DatabaseReadFailed | TimedOut | CouldNotRun | NoAnswer | UnexpectedError

  /** A database that could not be reached may answer later; values that could not be opened will not. */
  predicate Retryable(reason: Reason) {
    reason in {DatabaseReadFailed, TimedOut, CouldNotRun, NoAnswer, UnexpectedError}
  }

  datatype FetchResult =
    | Loaded(version: int, digest: string, values: map<string, string>)
    | Skipped(reason: Reason)
    | Failed(reason: Reason)

  datatype Pin = NoPin | NotANumber | PinnedTo(id: int)

  /** The newest version, or the pinned one. */
  datatype VersionAnswer = TableAbsent | VersionReadFailed | NoVersion | Found(id: int, keyFingerprint: string)

  datatype RowsAnswer = RowsReadFailed | Rows(rows: seq<SecretRow>)

  /** The rows of one scope opened over what is there already. */
  function OpenedOver(values: map<string, string>, scope: string, rows: seq<SecretRow>,
                      open: string -> Option<string>): map<string, string> {
    if rows == [] then values
    else
      var before := OpenedOver(values, scope, rows[..|rows| - 1], open);
      var row := rows[|rows| - 1];
      if row.scope == scope && open(row.ciphertext).Some? then before[row.name := open(row.ciphertext).value]
      else before
  }

  /** The shared values first, this service's own over them. */
  function OpenedValues(rows: seq<SecretRow>, open: string -> Option<string>): map<string, string> {
    OpenedOver(OpenedOver(map[], "both", rows, open), "samsara", rows, open)
  }

  predicate AllOpen(rows: seq<SecretRow>, open: string -> Option<string>) {
    forall row :: row in rows && IsOwn(row) ==> open(row.ciphertext).Some?
  }

  method OpenScope(before: map<string, string>, scope: string, rows: seq<SecretRow>, open: string -> Option<string>)
    returns (values: map<string, string>, unreadable: seq<string>)
    ensures values == OpenedOver(before, scope, rows, open)
    ensures unreadable == [] <==> forall row :: row in rows && row.scope == scope ==> open(row.ciphertext).Some?
  {
    values, unreadable := before, [];
    for i := 0 to |rows|
      invariant values == OpenedOver(before, scope, rows[..i], open)
      invariant unreadable == [] <==>
          forall k :: 0 <= k < i && rows[k].scope == scope ==> open(rows[k].ciphertext).Some?
    {
      var row := rows[i];
      assert rows[..i + 1][..i] == rows[..i];
      if row.scope == scope {
        match open(row.ciphertext)
        case Some(value) => values := values[row.name := value];
        case None => unreadable := unreadable + [row.name];
      }
    }
    assert rows[..|rows|] == rows;
  }

  /** `fetchAppSecrets`: all of the service's values, or none of them. */
  method FetchAppSecrets(hasUrl: bool, hasKey: bool, pin: Pin, version: VersionAnswer, rows: RowsAnswer,
                         ourFingerprint: string, open: string -> Option<string>, hash: string -> string)
    returns (result: FetchResult)
    ensures result.Loaded? <==>
              && hasUrl && hasKey && !pin.NotANumber? && version.Found? && version.keyFingerprint == ourFingerprint
              && rows.Rows? && AllOpen(rows.rows, open)
    ensures result.Loaded? ==>
              result == Loaded(version.id, DigestRows(rows.rows, hash), OpenedValues(rows.rows, open))
    ensures result.Failed? && !Retryable(result.reason) ==>
              || pin != NoPin
              || (version.Found? && version.keyFingerprint != ourFingerprint)
              || (version.Found? && rows.Rows? && !AllOpen(rows.rows, open))
    ensures result.Failed? && Retryable(result.reason) <==>
              && hasUrl && hasKey && !pin.NotANumber?
              && (version.VersionReadFailed?
                  || (version.Found? && version.keyFingerprint == ourFingerprint && rows.RowsReadFailed?))
    ensures result.Skipped? <==>
              !hasUrl || !hasKey || (!pin.NotANumber? && (version.TableAbsent? || (version.NoVersion? && pin.NoPin?)))
  {
    if !hasUrl {
      return Skipped(NoDatabaseUrl);
    }
    if !hasKey {
      return Skipped(NoKey);
    }
    if pin.NotANumber? {
      return Failed(BadPin);
    }
    match version
    case TableAbsent => return Skipped(NoTable);
    case VersionReadFailed => return Failed(DatabaseReadFailed);
    case NoVersion => return if pin.NoPin? then Skipped(NothingStored) else Failed(NoSuchVersion);
    case Found(id, keyFingerprint) =>
      if keyFingerprint != ourFingerprint {
        return Failed(OtherKey);
      }
      if rows.RowsReadFailed? {
        return Failed(DatabaseReadFailed);
      }
      var shared, unreadable := OpenScope(map[], SCOPES[0], rows.rows, open);
      var values, more := OpenScope(shared, SCOPES[1], rows.rows, open);
      if unreadable + more != [] {
        return Failed(CouldNotOpen);
      }
      return Loaded(id, DigestRows(rows.rows, hash), values);
  }

  /** Where the value of a name was read from: a row of `scope`, the last of them. */
  lemma {:induction false} OpenedFrom(values: map<string, string>, scope: string, rows: seq<SecretRow>,
                                      open: string -> Option<string>, name: string)
    ensures var after := OpenedOver(values, scope, rows, open);
            var readable := exists row :: row in rows && row.scope == scope
                             && row.name == name && open(row.ciphertext).Some?;
      && (!readable ==> (name in after <==> name in values) && (name in after ==> after[name] == values[name]))
      && (readable ==> name in after && exists row :: row in rows && row.scope == scope && row.name == name
                                                      && open(row.ciphertext) == Some(after[name]))
  {
    if rows != [] {
      var init, last := rows[..|rows| - 1], rows[|rows| - 1];
      assert rows == init + [last];
      OpenedFrom(values, scope, init, open, name);
    }
  }

  /** A value is one of this service's own rows opened; a row of its own scope wins over a shared one. */
  lemma OwnScopeWins(rows: seq<SecretRow>, open: string -> Option<string>, name: string)
    requires AllOpen(rows, open)
    ensures var values := OpenedValues(rows, open);
            var named := (scope: string) => exists row :: row in rows && row.scope == scope && row.name == name;
      && (name in values <==> named("both") || named("samsara"))
      && (name in values ==> exists row :: row in rows && row.name == name && open(row.ciphertext) == Some(values[name])
                                           && row.scope == if named("samsara") then "samsara" else "both")
  {
    OpenedFrom(map[], "both", rows, open, name);
    OpenedFrom(OpenedOver(map[], "both", rows, open), "samsara", rows, open, name);
    assert forall row :: row in rows && row.scope in {"both", "samsara"} ==> IsOwn(row) && open(row.ciphertext).Some?;
  }

  // ---- The start -----------------------------------------------------------------------------

  datatype BootStatus = NotRun | Off | BootLoaded | BootSkipped | BootFailed

  datatype BootState = BootState(status: BootStatus, retryable: bool, version: Option<int>, digest: Option<string>,
                                 pinned: bool)

  class Boot {
    var state: BootState
    var env: map<string, string>

    constructor (env: map<string, string>)
      ensures this.env == env && state == BootState(NotRun, false, None, None, false)
    {
      this.env, state := env, BootState(NotRun, false, None, None, false);
    }

    /** `loadAppSecrets`: anything that goes wrong leaves the environment exactly as it was. */
    method LoadAppSecrets(off: bool, pinned: bool, result: FetchResult)
      requires state == BootState(NotRun, false, None, None, false)
      modifies this
      ensures env == if !off && result.Loaded? then old(env) + result.values else old(env)
      ensures state.pinned == pinned
      ensures state.status.BootLoaded? <==> !off && result.Loaded?
      ensures state.status.Off? <==> off
      ensures state.status.BootLoaded? ==> state.version == Some(result.version) && state.digest == Some(result.digest)
      ensures !state.status.BootLoaded? ==> state.version.None? && state.digest.None?
      ensures state.status.BootFailed? <==> !off && result.Failed?
      ensures state.status.BootFailed? ==> state.retryable == Retryable(result.reason)
    {
      if off {
        state := state.(status := Off, pinned := pinned);
        return;
      }
      match result
      case Skipped(_) => state := BootState(BootSkipped, false, None, None, pinned);
      case Failed(reason) => state := BootState(BootFailed, Retryable(reason), None, None, pinned);
      case Loaded(version, digest, values) =>
        var names := values.Keys;
        while names != {}
          invariant names <= values.Keys && state == old(state)
          invariant env == old(env) + (map name | name in values && name !in names :: values[name])
        {
          var name :| name in names;
          env := env[name := values[name]];
          names := names - {name};
        }
        assert (map name | name in values && name !in names :: values[name]) == values;
        state := BootState(BootLoaded, false, Some(version), Some(digest), pinned);
    }
  }

  // ---- The watch -----------------------------------------------------------------------------

  datatype CheckAction = Nothing | Error | Ignored(version: int) | Unchanged(version: int) | Restart(version: int)

  datatype WatchConfig = WatchConfig(off: bool, ourFingerprint: string, baseline: string)

  /** Where a look is suspended: in the read of the newest version, or in the read of that version's rows. */
  datatype Look = ReadingLatest | ReadingRows(id: int)

  /** `looks`: the looks in flight, by the timer tick that began them. `restarts`: the versions restarted for. */
  datatype Watch = Watch(lastSeen: Option<int>, restarting: bool, looks: map<nat, Look>, restarts: seq<int>)

  function ConfigOf(boot: BootState, hasKey: bool, hasUrl: bool, ourFingerprint: string,
                    hash: string -> string): WatchConfig
  {
    WatchConfig(boot.status.Off? || boot.pinned || (boot.status.BootFailed? && !boot.retryable) || !hasKey || !hasUrl,
                ourFingerprint,
                if boot.status.BootLoaded? && boot.digest.Some? then boot.digest.value else DigestRows([], hash))
  }

  function FirstWatch(boot: BootState): Watch {
    Watch(if boot.status.BootLoaded? then boot.version else None, false, map[], [])
  }

  /** The digest of the rows, if they could be read. */
  function DigestOf(rows: RowsAnswer, hash: string -> string): Option<string> {
    match rows
    case RowsReadFailed => None
    case Rows(read) => Some(DigestRows(read, hash))
  }

  /** The timer begins a look, whatever other looks are in flight. */
  function Began(cfg: WatchConfig, w: Watch, token: nat): Watch {
    if cfg.off || w.restarting then w else w.(looks := w.looks[token := ReadingLatest])
  }

  /** The newest version has been read: the look ends, or goes on to its rows. */
  function GotLatest(cfg: WatchConfig, w: Watch, token: nat, latest: VersionAnswer): Watch {
    var ended := w.(looks := w.looks - {token});
    if !latest.Found? || Some(latest.id) == w.lastSeen then ended
    else if latest.keyFingerprint != cfg.ourFingerprint then ended.(lastSeen := Some(latest.id))
    else w.(looks := w.looks[token := ReadingRows(latest.id)])
  }

  /** The rows have been read: the look ends, in a restart if they are not those the service runs on. */
  function GotRows(cfg: WatchConfig, w: Watch, token: nat, id: int, digest: Option<string>): Watch {
    var ended := w.(looks := w.looks - {token});
    if digest.None? then ended
    else if digest.value == cfg.baseline then ended.(lastSeen := Some(id))
    else ended.(lastSeen := Some(id), restarting := true, restarts := w.restarts + [id])
  }

  /** `check`, one method for each stretch of it between its awaits. */
  class SecretsWatch {
    const cfg: WatchConfig
    const hash: string -> string
    var lastSeen: Option<int>
    var restarting: bool
    ghost var looks: map<nat, Look>
    ghost var restarts: seq<int>

    ghost function View(): Watch
      reads this
    {
      Watch(lastSeen, restarting, looks, restarts)
    }

    constructor (boot: BootState, hasKey: bool, hasUrl: bool, ourFingerprint: string, hash: string -> string)
      ensures cfg == ConfigOf(boot, hasKey, hasUrl, ourFingerprint, hash) && this.hash == hash
      ensures View() == FirstWatch(boot)
    {
      cfg := ConfigOf(boot, hasKey, hasUrl, ourFingerprint, hash);
      this.hash := hash;
      lastSeen := if boot.status.BootLoaded? then boot.version else None;
      restarting := false;
      looks, restarts := map[], [];
    }

    /** Answers whether the newest version is to be read. */
    method Check(ghost token: nat) returns (readLatest: bool)
      requires token !in looks
      modifies this
      ensures View() == Began(cfg, old(View()), token)
      ensures readLatest <==> token in looks
    {
      readLatest := !cfg.off && !restarting;
      if readLatest {
        looks := looks[token := ReadingLatest];
      }
    }

    /** Answers the version whose rows are to be read, unless the look is over. */
    method AfterLatest(ghost token: nat, latest: VersionAnswer) returns (readRows: Option<int>, action: CheckAction)
      requires token in looks && looks[token] == ReadingLatest
      modifies this
      ensures View() == GotLatest(cfg, old(View()), token, latest)
      ensures readRows.Some? <==> token in looks
      ensures readRows.Some? ==> looks[token] == ReadingRows(readRows.value)
      ensures action == match latest
                        case TableAbsent => Nothing
                        case VersionReadFailed => Error
                        case NoVersion => Nothing
                        case Found(id, _) => if lastSeen != old(lastSeen) then Ignored(id) else Nothing
    {
      readRows, action := None, Nothing;
      match latest {
        case TableAbsent =>
        case VersionReadFailed =>
          action := Error;
        case NoVersion =>
        case Found(id, keyFingerprint) =>
          if lastSeen == Some(id) {
          } else if keyFingerprint != cfg.ourFingerprint {
            lastSeen := Some(id);
            action := Ignored(id);
          } else {
            looks := looks[token := ReadingRows(id)];
            return Some(id), Nothing;
          }
      }
      looks := looks - {token};
    }

    method AfterRows(ghost token: nat, id: int, rows: RowsAnswer) returns (action: CheckAction)
      requires token in looks && looks[token] == ReadingRows(id)
      modifies this
      ensures View() == GotRows(cfg, old(View()), token, id, DigestOf(rows, hash))
      ensures action.Restart? <==> restarts == old(restarts) + [id]
      ensures action.Error? <==> rows.RowsReadFailed?
    {
      looks := looks - {token};
      if rows.RowsReadFailed? {
        return Error;
      }
      lastSeen := Some(id);
      if DigestRows(rows.rows, hash) == cfg.baseline {
        return Unchanged(id);
      }
      restarting := true;
      restarts := restarts + [id];
      return Restart(id);
    }
  }
}
