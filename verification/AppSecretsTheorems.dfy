/**
  What the watch does over a whole life of the process, from its start to its restart.
  Its timer does not wait for the look before: looks may overlap, and the database may
  answer them in any order.
*/
module AppSecretsTheorems {
  import opened Wrappers
  import opened SecretsDigest
  import opened AppSecrets

  /** A stored version never changes; a later one is stored after it. Its id is its place. */
  datatype Version = Version(keyFingerprint: string, rows: seq<SecretRow>)

  /** What is stored, the watch, and how much was stored when each look in flight began. */
  datatype State = State(stored: seq<Version>, watch: Watch, since: map<nat, nat>)

  datatype Action =
    | Save(version: Version)
    | Begin(token: nat)
    | Latest(token: nat, answer: VersionAnswer)
    | RowsRead(token: nat, digest: Option<string>)

  /** The database answers with the own rows of the version asked for, in some order. */
  ghost predicate DigestsVersion(digest: string, v: Version, hash: string -> string) {
    exists read :: multiset(read) == multiset(Own(v.rows)) && DigestOf(Rows(read), hash) == Some(digest)
  }

  /** The newest version at some moment since the look began. */
  ghost predicate IsAnswer(stored: seq<Version>, since: nat, answer: VersionAnswer) {
    match answer
    case VersionReadFailed => true
    case TableAbsent => since == 0
    case NoVersion => since == 0
    case Found(id, keyFingerprint) =>
      0 <= id < |stored| && since <= id + 1 && keyFingerprint == stored[id].keyFingerprint
  }

  ghost predicate Enabled(s: State, a: Action, hash: string -> string) {
    match a
    case Save(v) => NulFree(v.rows)
    case Begin(token) => token !in s.watch.looks
    case Latest(token, answer) =>
      token in s.watch.looks && s.watch.looks[token].ReadingLatest?
      && token in s.since && IsAnswer(s.stored, s.since[token], answer)
    case RowsRead(token, digest) =>
      token in s.watch.looks && s.watch.looks[token].ReadingRows?
      && 0 <= s.watch.looks[token].id < |s.stored|
      && (digest.Some? ==> DigestsVersion(digest.value, s.stored[s.watch.looks[token].id], hash))
  }

  ghost function Apply(cfg: WatchConfig, s: State, a: Action, hash: string -> string): State
    requires Enabled(s, a, hash)
  {
    match a
    case Save(v) => s.(stored := s.stored + [v])
    case Begin(token) => s.(watch := Began(cfg, s.watch, token), since := s.since[token := |s.stored|])
    case Latest(token, answer) => s.(watch := GotLatest(cfg, s.watch, token, answer))
    case RowsRead(token, digest) => s.(watch := GotRows(cfg, s.watch, token, s.watch.looks[token].id, digest))
  }

  ghost predicate AllNulFree(stored: seq<Version>) {
    forall i :: 0 <= i < |stored| ==> NulFree(stored[i].rows)
  }

  /** The rows the service started with: those of the version it loaded, or none. */
  function BaseRows(boot: BootState, atBoot: seq<Version>): seq<SecretRow> {
    if boot.status.BootLoaded? && atBoot != [] then atBoot[|atBoot| - 1].rows else []
  }

  /** What `fetchAppSecrets` and `loadAppSecrets` leave when they read the newest of the stored versions. */
  ghost predicate StartedFrom(boot: BootState, atBoot: seq<Version>, hash: string -> string) {
    boot.status.BootLoaded? ==>
      && atBoot != []
      && boot.version == Some(|atBoot| - 1)
      && boot.digest.Some? && DigestsVersion(boot.digest.value, atBoot[|atBoot| - 1], hash)
  }

  /** A watch set up from that start, with whatever key and address the environment holds. */
  ghost predicate Configured(cfg: WatchConfig, boot: BootState, hash: string -> string) {
    exists hasKey: bool, hasUrl: bool, ours: string :: cfg == ConfigOf(boot, hasKey, hasUrl, ours, hash)
  }

  /** The start of a process: what it loaded, what was stored then, its watch, and the hash. */
  datatype Start = Start(boot: BootState, atBoot: seq<Version>, cfg: WatchConfig, hash: string -> string)

  ghost predicate GoodStart(p: Start) {
    && Injective(p.hash) && StartedFrom(p.boot, p.atBoot, p.hash) && Configured(p.cfg, p.boot, p.hash)
    && AllNulFree(p.atBoot)
  }

  ghost predicate Steps(p: Start, s: State, a: Action, s': State) {
    Enabled(s, a, p.hash) && s' == Apply(p.cfg, s, a, p.hash)
  }

  ghost predicate IsLife(p: Start, states: seq<State>, actions: seq<Action>) {
    && GoodStart(p)
    && |states| == |actions| + 1
    && states[0] == State(p.atBoot, FirstWatch(p.boot), map[])
    && (forall i :: 0 <= i < |actions| ==> Steps(p, states[i], actions[i], states[i + 1]))
  }

  /** No more than `k` looks are ever in flight at once. */
  ghost predicate OverlapsAtMost(states: seq<State>, k: nat) {
    forall i :: 0 <= i < |states| ==> |states[i].watch.looks| <= k
  }

  /** The own rows of a version are those the service started with. */
  ghost predicate SameSettings(p: Start, v: Version) {
    multiset(Own(v.rows)) == multiset(Own(BaseRows(p.boot, p.atBoot)))
  }

  /** Another key's version, or one with the settings the service runs on: nothing to restart for. */
  ghost predicate Harmless(p: Start, v: Version) {
    v.keyFingerprint != p.cfg.ourFingerprint || SameSettings(p, v)
  }

  // ---- The baseline -----------------------------------------------------------------------

  lemma {:induction false} OwnOfOwn(rows: seq<SecretRow>)
    requires forall row :: row in rows ==> IsOwn(row)
    ensures Own(rows) == rows
  {
    if rows != [] {
      OwnOfOwn(rows[1..]);
      assert rows == [rows[0]] + rows[1..];
    }
  }

  lemma ReadRowsAreOwn(read: seq<SecretRow>, v: Version)
    requires multiset(read) == multiset(Own(v.rows)) && NulFree(v.rows)
    ensures NulFree(read) && Own(read) == read
  {
    forall row | row in read
      ensures IsOwn(row) && NUL !in row.name && NUL !in row.ciphertext
    {
      assert row in multiset(read);
      assert row in Own(v.rows) && row in v.rows;
    }
    OwnOfOwn(read);
  }

  /** Whatever order the rows are read in, the digest is that of the version. */
  lemma DigestOfVersion(digest: string, v: Version, hash: string -> string)
    requires Injective(hash) && NulFree(v.rows) && DigestsVersion(digest, v, hash)
    ensures digest == DigestRows(v.rows, hash)
  {
    var read :| multiset(read) == multiset(Own(v.rows)) && DigestOf(Rows(read), hash) == Some(digest);
    ReadRowsAreOwn(read, v);
    DigestTellsOwnRowsApart(read, v.rows, hash);
  }

  lemma BaselineOfStart(p: Start)
    requires GoodStart(p)
    ensures p.cfg.baseline == DigestRows(BaseRows(p.boot, p.atBoot), p.hash) && NulFree(BaseRows(p.boot, p.atBoot))
  {
    hide DigestsVersion, NulFree, Injective, DigestRows;
    NoRowsNulFree();
    if p.boot.status.BootLoaded? {
      DigestOfVersion(p.boot.digest.value, p.atBoot[|p.atBoot| - 1], p.hash);
    }
  }

  lemma NoRowsNulFree()
    ensures NulFree([])
  {}

  /** The digest read by the watch is the baseline exactly when no setting of this service changed. */
  lemma BaselineMeansSame(p: Start, digest: string, v: Version)
    requires GoodStart(p) && NulFree(v.rows) && DigestsVersion(digest, v, p.hash)
    ensures digest == p.cfg.baseline <==> SameSettings(p, v)
  {
    hide DigestsVersion, NulFree, Injective, StartedFrom, Configured, BaseRows, DigestRows;
    DigestOfVersion(digest, v, p.hash);
    BaselineOfStart(p);
    DigestTellsOwnRowsApart(v.rows, BaseRows(p.boot, p.atBoot), p.hash);
  }

  // ---- What every stretch of a look keeps ------------------------------------------------------

  /** A look in flight asks for the rows of a version under the own key, the newest at some moment since it began. */
  ghost predicate LookOk(p: Start, s: State, token: nat)
    requires token in s.watch.looks
  {
    && token in s.since && |p.atBoot| <= s.since[token] <= |s.stored|
    && (s.watch.looks[token].ReadingRows? ==>
          var id := s.watch.looks[token].id;
          && 0 <= id < |s.stored| && s.since[token] <= id + 1
          && s.stored[id].keyFingerprint == p.cfg.ourFingerprint)
  }

  /** A version worth a restart: under the own key, with other settings, stored after the one that was loaded. */
  ghost predicate WorthARestart(p: Start, s: State, id: int) {
    && 0 <= id < |s.stored| && !Harmless(p, s.stored[id])
    && (p.boot.status.BootLoaded? ==> id >= |p.atBoot|)
  }

  ghost predicate Inv(p: Start, s: State) {
    && p.atBoot <= s.stored && AllNulFree(s.stored)
    && (forall token :: token in s.watch.looks ==> LookOk(p, s, token))
    && (s.watch.lastSeen.Some? ==> 0 <= s.watch.lastSeen.value < |s.stored|)
    && (!s.watch.restarting && s.watch.lastSeen.Some? ==> Harmless(p, s.stored[s.watch.lastSeen.value]))
    && (forall id :: id in s.watch.restarts ==> WorthARestart(p, s, id))
    && (s.watch.restarting <==> s.watch.restarts != [])
    && (p.cfg.off ==> s.watch.looks == map[] && s.watch.restarts == [])
  }

  lemma LoadedIsHarmless(p: Start)
    requires p.boot.status.BootLoaded? && p.atBoot != []
    ensures Harmless(p, p.atBoot[|p.atBoot| - 1])
  {}

  lemma StartKeeps(p: Start)
    requires GoodStart(p)
    ensures Inv(p, State(p.atBoot, FirstWatch(p.boot), map[]))
  {
    hide Harmless, DigestsVersion, NulFree, Injective, Configured;
    if p.boot.status.BootLoaded? {
      LoadedIsHarmless(p);
    }
  }

  lemma SaveKeeps(p: Start, s: State, v: Version)
    requires Inv(p, s) && NulFree(v.rows)
    ensures Inv(p, s.(stored := s.stored + [v]))
  {
    hide SameSettings;
    var s' := s.(stored := s.stored + [v]);
    forall token | token in s'.watch.looks
      ensures LookOk(p, s', token)
    {
      assert LookOk(p, s, token);
    }
    forall id | id in s'.watch.restarts
      ensures WorthARestart(p, s', id)
    {
      assert WorthARestart(p, s, id);
    }
  }

  /** Versions stored up to the start hold nothing newer than what was loaded. */
  lemma ChangedIsLater(p: Start, stored: seq<Version>, id: int)
    requires GoodStart(p) && p.atBoot <= stored && 0 <= id < |stored| && |p.atBoot| <= id + 1
    requires !SameSettings(p, stored[id])
    ensures p.boot.status.BootLoaded? ==> id >= |p.atBoot|
  {}

  lemma BeginKeeps(p: Start, s: State, token: nat)
    requires Inv(p, s) && token !in s.watch.looks
    ensures Inv(p, Apply(p.cfg, s, Begin(token), p.hash))
  {
    hide Harmless, NulFree;
    var s' := Apply(p.cfg, s, Begin(token), p.hash);
    forall other | other in s'.watch.looks
      ensures LookOk(p, s', other)
    {
      if other != token {
        assert LookOk(p, s, other);
      }
    }
    forall id | id in s'.watch.restarts
      ensures WorthARestart(p, s', id)
    {
      assert WorthARestart(p, s, id);
    }
  }

  /** The looks that did not take this step are as they were, and so are the restarts. */
  lemma OthersKeep(p: Start, s: State, s': State, token: nat)
    requires Inv(p, s) && s'.stored == s.stored && s'.since == s.since
    requires forall other :: other in s'.watch.looks && other != token ==>
      other in s.watch.looks && s'.watch.looks[other] == s.watch.looks[other]
    ensures forall other :: other in s'.watch.looks && other != token ==> LookOk(p, s', other)
    ensures forall id :: id in s.watch.restarts ==> WorthARestart(p, s', id)
  {
    hide Harmless, NulFree;
    forall other | other in s'.watch.looks && other != token
      ensures LookOk(p, s', other)
    {
      assert LookOk(p, s, other);
    }
    forall id | id in s.watch.restarts
      ensures WorthARestart(p, s', id)
    {
      assert WorthARestart(p, s, id);
    }
  }

  lemma LatestKeeps(p: Start, s: State, token: nat, answer: VersionAnswer)
    requires Inv(p, s) && Enabled(s, Latest(token, answer), p.hash)
    ensures Inv(p, Apply(p.cfg, s, Latest(token, answer), p.hash))
  {
    hide SameSettings, NulFree, WorthARestart;
    var s' := Apply(p.cfg, s, Latest(token, answer), p.hash);
    assert LookOk(p, s, token);
    OthersKeep(p, s, s', token);
    assert token in s'.watch.looks ==> LookOk(p, s', token);
  }

  lemma ReadIsWorthIt(p: Start, s: State, token: nat, digest: string)
    requires GoodStart(p) && Inv(p, s) && Enabled(s, RowsRead(token, Some(digest)), p.hash)
    ensures var id := s.watch.looks[token].id;
      && (digest == p.cfg.baseline <==> Harmless(p, s.stored[id]))
      && (digest != p.cfg.baseline ==> WorthARestart(p, s, id))
  {
    hide SameSettings, NulFree, DigestsVersion;
    var id := s.watch.looks[token].id;
    assert LookOk(p, s, token);
    BaselineMeansSame(p, digest, s.stored[id]);
    if !SameSettings(p, s.stored[id]) {
      ChangedIsLater(p, s.stored, id);
    }
  }

  lemma RowsKeep(p: Start, s: State, token: nat, digest: Option<string>)
    requires GoodStart(p) && Inv(p, s) && Enabled(s, RowsRead(token, digest), p.hash)
    ensures Inv(p, Apply(p.cfg, s, RowsRead(token, digest), p.hash))
  {
    hide Harmless, NulFree, WorthARestart, DigestsVersion;
    var s' := Apply(p.cfg, s, RowsRead(token, digest), p.hash);
    var id := s.watch.looks[token].id;
    OthersKeep(p, s, s', token);
    if digest.Some? {
      ReadIsWorthIt(p, s, token, digest.value);
      StillWorthIt(p, s, s', id);
    }
  }

  lemma StillWorthIt(p: Start, s: State, s': State, id: int)
    requires s'.stored == s.stored
    ensures WorthARestart(p, s, id) ==> WorthARestart(p, s', id)
  {}

  lemma StepKeeps(p: Start, s: State, a: Action, s': State)
    requires GoodStart(p) && Inv(p, s) && Steps(p, s, a, s')
    ensures Inv(p, s')
  {
    hide Inv;
    match a
    case Save(v) => SaveKeeps(p, s, v);
    case Begin(token) => BeginKeeps(p, s, token);
    case Latest(token, answer) => LatestKeeps(p, s, token, answer);
    case RowsRead(token, digest) => RowsKeep(p, s, token, digest);
  }

  lemma {:induction false} LifeKeeps(p: Start, states: seq<State>, actions: seq<Action>, n: nat)
    requires IsLife(p, states, actions) && n < |states|
    ensures Inv(p, states[n])
  {
    hide Inv, GoodStart, Steps;
    if n == 0 {
      StartKeeps(p);
    } else {
      LifeKeeps(p, states, actions, n - 1);
      StepKeeps(p, states[n - 1], actions[n - 1], states[n]);
    }
  }

  // ---- The promises --------------------------------------------------------------------------

  /**
    Whatever looks overlap, every version the service restarts for is under its own
    key, has own rows that differ, as a multiset, from those it started with, and was
    stored after the one it loaded. So while no later version changes an own row,
    nothing restarts the service.
  */
  lemma RestartsAreJustified(p: Start, states: seq<State>, actions: seq<Action>, n: nat, id: int)
    requires IsLife(p, states, actions) && n < |states| && id in states[n].watch.restarts
    ensures var stored := states[n].stored;
      && 0 <= id < |stored|
      && stored[id].keyFingerprint == p.cfg.ourFingerprint
      && !SameSettings(p, stored[id])
      && (p.boot.status.BootLoaded? ==> id >= |p.atBoot|)
  {
    hide SameSettings, GoodStart, Steps, NulFree;
    LifeKeeps(p, states, actions, n);
    assert WorthARestart(p, states[n], id);
  }

  /**
    A change is not missed, whatever looks overlap. Once a look has read the newest
    version, that version is harmless, or the service is restarting, or the look goes
    on to its rows; once it has read the rows, the version is harmless or the service
    is restarting. A read that fails changes nothing, so a later look asks again.
  */
  lemma ChangeIsNoticed(p: Start, states: seq<State>, actions: seq<Action>, n: nat)
    requires IsLife(p, states, actions) && n < |actions|
    ensures var s, w, w' := states[n], states[n].watch, states[n + 1].watch;
      match actions[n]
      case Latest(token, answer) =>
        && (answer.Found? ==> Harmless(p, s.stored[answer.id]) || w'.restarting
                              || (token in w'.looks && w'.looks[token] == ReadingRows(answer.id)))
        && (answer.VersionReadFailed? ==> w' == w.(looks := w.looks - {token}))
      case RowsRead(token, digest) =>
        && (digest.Some? ==> Harmless(p, s.stored[w.looks[token].id]) || w'.restarting)
        && (digest.None? ==> w' == w.(looks := w.looks - {token}))
      case _ => true
  {
    hide SameSettings, NulFree, WorthARestart, DigestsVersion, Injective, StartedFrom, Configured;
    LifeKeeps(p, states, actions, n);
    assert Steps(p, states[n], actions[n], states[n + 1]);
    if actions[n].RowsRead? && actions[n].digest.Some? {
      ReadIsWorthIt(p, states[n], actions[n].token, actions[n].digest.value);
    }
  }

  // ---- How often ---------------------------------------------------------------------------------

  lemma OneLess<V>(m: map<nat, V>, token: nat)
    ensures |m - {token}| == |m| - if token in m then 1 else 0
  {
    assert (m - {token}).Keys == m.Keys - {token};
    assert |m.Keys| == |m| && |(m - {token}).Keys| == |m - {token}|;
  }

  lemma OneSet<V>(m: map<nat, V>, token: nat, v: V)
    ensures |m[token := v]| == |m| + if token in m then 0 else 1
  {
    assert m[token := v].Keys == m.Keys + {token};
    assert |m.Keys| == |m| && |m[token := v].Keys| == |m[token := v]|;
  }

  /**
    From the first restart on no look begins, so the restarts and the looks still in flight
    only make up the overlap.
  */
  ghost predicate WithinOverlap(w: Watch, k: nat) {
    if w.restarting then |w.restarts| + |w.looks| <= k else w.restarts == []
  }

  lemma StepWithinOverlap(p: Start, s: State, a: Action, s': State, k: nat)
    requires Steps(p, s, a, s') && WithinOverlap(s.watch, k) && |s.watch.looks| <= k
    ensures WithinOverlap(s'.watch, k)
  {
    hide DigestsVersion, IsAnswer, NulFree;
    if a.Latest? || a.RowsRead? {
      OneLess(s.watch.looks, a.token);
      if a.Latest? && a.answer.Found? {
        OneSet(s.watch.looks, a.token, ReadingRows(a.answer.id));
      }
    }
  }

  /** A process asks for no more restarts than it ever has looks in flight at once. */
  lemma {:induction false} RestartsAreBounded(p: Start, states: seq<State>, actions: seq<Action>, n: nat, k: nat)
    requires IsLife(p, states, actions) && OverlapsAtMost(states, k) && n < |states|
    ensures WithinOverlap(states[n].watch, k) && |states[n].watch.restarts| <= k
  {
    hide GoodStart, Steps;
    if n > 0 {
      RestartsAreBounded(p, states, actions, n - 1, k);
      StepWithinOverlap(p, states[n - 1], actions[n - 1], states[n], k);
    }
  }

  /** While looks do not overlap, a process asks for one restart at most. */
  lemma RestartsAtMostOnce(p: Start, states: seq<State>, actions: seq<Action>, n: nat)
    requires IsLife(p, states, actions) && OverlapsAtMost(states, 1) && n < |states|
    ensures |states[n].watch.restarts| <= 1
  {
    RestartsAreBounded(p, states, actions, n, 1);
  }

  // ---- Without overlap -----------------------------------------------------------------------------

  /** The look in flight began after what was seen last, and reads the rows of something newer. */
  ghost predicate Forward(s: State) {
    s.watch.lastSeen.Some? ==> forall token :: token in s.watch.looks ==>
      && token in s.since && s.watch.lastSeen.value < s.since[token]
      && (s.watch.looks[token].ReadingRows? ==> s.watch.lastSeen.value < s.watch.looks[token].id)
  }

  lemma SoleLook(looks: map<nat, Look>, token: nat)
    requires token in looks && |looks| <= 1
    ensures looks - {token} == map[] && forall other :: other in looks ==> other == token
  {
    assert forall other :: other in looks && other != token ==> other in looks - {token};
    OneLess(looks, token);
  }

  /** What was seen last only moves forward, and no look in flight is behind it. */
  ghost predicate MovesForward(s: State, s': State) {
    Forward(s')
    && (s.watch.lastSeen.Some? ==> s'.watch.lastSeen.Some? && s.watch.lastSeen.value <= s'.watch.lastSeen.value)
  }

  lemma BeginForward(p: Start, s: State, token: nat, s': State)
    requires s' == s.(watch := Began(p.cfg, s.watch, token), since := s.since[token := |s.stored|])
    requires token !in s.watch.looks && Forward(s) && |s'.watch.looks| <= 1
    requires s.watch.lastSeen.Some? ==> s.watch.lastSeen.value < |s.stored|
    ensures MovesForward(s, s')
  {
    if token in s'.watch.looks {
      SoleLook(s'.watch.looks, token);
    }
  }

  lemma LatestForward(p: Start, s: State, token: nat, answer: VersionAnswer, s': State)
    requires s' == s.(watch := GotLatest(p.cfg, s.watch, token, answer))
    requires token in s.watch.looks && |s.watch.looks| <= 1 && Forward(s) && token in s.since
    requires answer.Found? ==> s.since[token] <= answer.id + 1
    ensures MovesForward(s, s')
  {
    SoleLook(s.watch.looks, token);
  }

  lemma RowsForward(p: Start, s: State, token: nat, digest: Option<string>, s': State)
    requires token in s.watch.looks && s.watch.looks[token].ReadingRows? && |s.watch.looks| <= 1 && Forward(s)
    requires s' == s.(watch := GotRows(p.cfg, s.watch, token, s.watch.looks[token].id, digest))
    ensures MovesForward(s, s')
  {
    SoleLook(s.watch.looks, token);
  }

  lemma StepForward(p: Start, s: State, a: Action, s': State)
    requires Steps(p, s, a, s') && Inv(p, s) && Forward(s) && |s.watch.looks| <= 1 && |s'.watch.looks| <= 1
    ensures MovesForward(s, s')
  {
    hide DigestsVersion, NulFree, Harmless, WorthARestart, GotLatest, GotRows, Began;
    match a
    case Save(_) =>
    case Begin(token) => BeginForward(p, s, token, s');
    case Latest(token, answer) => LatestForward(p, s, token, answer, s');
    case RowsRead(token, digest) => RowsForward(p, s, token, digest, s');
  }

  lemma {:induction false} LifeForward(p: Start, states: seq<State>, actions: seq<Action>, n: nat)
    requires IsLife(p, states, actions) && OverlapsAtMost(states, 1) && n < |states|
    ensures Forward(states[n])
  {
    hide GoodStart, Steps, Inv, Forward;
    if n > 0 {
      assert |states[n - 1].watch.looks| <= 1 && |states[n].watch.looks| <= 1;
      LifeForward(p, states, actions, n - 1);
      LifeKeeps(p, states, actions, n - 1);
      StepForward(p, states[n - 1], actions[n - 1], states[n]);
    } else {
      NoLookYet(p);
    }
  }

  lemma NoLookYet(p: Start)
    ensures Forward(State(p.atBoot, FirstWatch(p.boot), map[]))
  {}

  /** The rows of a version with other settings have been read. */
  ghost predicate ReadsAChange(p: Start, s: State, a: Action) {
    && a.RowsRead? && a.digest.Some? && a.token in s.watch.looks && s.watch.looks[a.token].ReadingRows?
    && 0 <= s.watch.looks[a.token].id < |s.stored| && !SameSettings(p, s.stored[s.watch.looks[a.token].id])
  }

  /**
    While looks do not overlap, a restart is asked for exactly when the rows of a
    version have been read that differ, as a multiset, from those the service started
    with; it is the first, and for a version under the own key, later than the one
    loaded and than any seen before, and the newest at some moment of the look.
  */
  lemma RestartsExactlyOnChange(p: Start, states: seq<State>, actions: seq<Action>, n: nat)
    requires IsLife(p, states, actions) && OverlapsAtMost(states, 1) && n < |actions|
    ensures var s, a, w, w' := states[n], actions[n], states[n].watch, states[n + 1].watch;
      && (w'.restarts != w.restarts <==> ReadsAChange(p, s, a))
      && (ReadsAChange(p, s, a) ==>
            var id := w.looks[a.token].id;
            && w.restarts == [] && w'.restarts == [id]
            && s.stored[id].keyFingerprint == p.cfg.ourFingerprint
            && (p.boot.status.BootLoaded? ==> id >= |p.atBoot|)
            && (w.lastSeen.Some? ==> w.lastSeen.value < id)
            && a.token in s.since && s.since[a.token] <= id + 1)
  {
    hide SameSettings, NulFree, DigestsVersion, Injective, StartedFrom, Configured;
    LifeKeeps(p, states, actions, n);
    LifeForward(p, states, actions, n);
    RestartsAtMostOnce(p, states, actions, n + 1);
    var s, a := states[n], actions[n];
    assert Steps(p, s, a, states[n + 1]);
    if a.RowsRead? {
      assert LookOk(p, s, a.token);
      if a.digest.Some? {
        ReadIsWorthIt(p, s, a.token, a.digest.value);
      }
    }
  }

  // ---- With overlap --------------------------------------------------------------------------------

  /** A life under construction, at the moment in state `s`. */
  ghost predicate Reaches(p: Start, states: seq<State>, actions: seq<Action>, s: State, k: nat) {
    IsLife(p, states, actions) && OverlapsAtMost(states, k) && states[|states| - 1] == s
  }

  lemma Extended(p: Start, states: seq<State>, actions: seq<Action>, s: State, k: nat, a: Action)
    returns (states': seq<State>, actions': seq<Action>, s': State)
    requires Reaches(p, states, actions, s, k) && Enabled(s, a, p.hash)
    requires |Apply(p.cfg, s, a, p.hash).watch.looks| <= k
    ensures s' == Apply(p.cfg, s, a, p.hash) && Reaches(p, states', actions', s', k) && states' == states + [s']
  {
    hide GoodStart, Enabled;
    s' := Apply(p.cfg, s, a, p.hash);
    states', actions' := states + [s'], actions + [a];
    assert forall i :: 0 <= i < |states| ==> states'[i] == states[i];
  }

  lemma AtTheStart(p: Start, k: nat) returns (states: seq<State>, actions: seq<Action>)
    requires GoodStart(p)
    ensures Reaches(p, states, actions, State(p.atBoot, FirstWatch(p.boot), map[]), k)
  {
    states, actions := [State(p.atBoot, FirstWatch(p.boot), map[])], [];
  }

  /** A version worth a restart, still to be stored. */
  ghost predicate IsNews(p: Start, v: Version) {
    NulFree(v.rows) && v.keyFingerprint == p.cfg.ourFingerprint && !SameSettings(p, v)
  }

  /** The first `n` of `k` ticks have each begun a look. */
  ghost predicate HaveBegun(p: Start, s: State, v: Version, n: nat) {
    && s.stored == p.atBoot + [v] && !s.watch.restarting && s.watch.restarts == []
    && s.watch.lastSeen == FirstWatch(p.boot).lastSeen && |s.watch.looks| == n
    && (forall t: nat :: t in s.watch.looks <==> t < n)
    && (forall t :: t in s.watch.looks ==>
          s.watch.looks[t] == ReadingLatest && t in s.since && s.since[t] == |s.stored|)
  }

  lemma {:induction false} LooksBegin(p: Start, v: Version, n: nat, k: nat)
    returns (states: seq<State>, actions: seq<Action>, s: State)
    requires GoodStart(p) && !p.cfg.off && IsNews(p, v) && n <= k
    ensures Reaches(p, states, actions, s, k) && HaveBegun(p, s, v, n)
  {
    hide GoodStart, SameSettings, NulFree, Reaches;
    if n == 0 {
      states, actions := AtTheStart(p, k);
      states, actions, s := Extended(p, states, actions, State(p.atBoot, FirstWatch(p.boot), map[]), k, Save(v));
    } else {
      states, actions, s := LooksBegin(p, v, n - 1, k);
      OneSet(s.watch.looks, n - 1, ReadingLatest);
      states, actions, s := Extended(p, states, actions, s, k, Begin(n - 1));
    }
  }

  /** The first `n` of them have read the newest version, and all wait for its rows or its id. */
  ghost predicate HaveRead(p: Start, s: State, v: Version, n: nat, k: nat) {
    && s.stored == p.atBoot + [v] && !s.watch.restarting && s.watch.restarts == []
    && s.watch.lastSeen == FirstWatch(p.boot).lastSeen && |s.watch.looks| == k
    && (forall t: nat :: t in s.watch.looks <==> t < k)
    && (forall t :: t in s.watch.looks ==>
          s.watch.looks[t] == (if t < n then ReadingRows(|p.atBoot|) else ReadingLatest)
          && t in s.since && s.since[t] == |s.stored|)
  }

  lemma OneReads(p: Start, s: State, v: Version, n: nat, k: nat)
    requires GoodStart(p) && n < k && HaveRead(p, s, v, n, k) && v.keyFingerprint == p.cfg.ourFingerprint
    ensures var a := Latest(n, Found(|p.atBoot|, v.keyFingerprint));
            Enabled(s, a, p.hash) && HaveRead(p, Apply(p.cfg, s, a, p.hash), v, n + 1, k)
  {
    hide DigestsVersion, NulFree, Injective, Configured;
    OneSet(s.watch.looks, n, ReadingRows(|p.atBoot|));
  }

  lemma {:induction false} LooksRead(p: Start, v: Version, n: nat, k: nat)
    returns (states: seq<State>, actions: seq<Action>, s: State)
    requires GoodStart(p) && !p.cfg.off && IsNews(p, v) && n <= k
    ensures Reaches(p, states, actions, s, k) && HaveRead(p, s, v, n, k)
  {
    if n == 0 {
      states, actions, s := LooksBegin(p, v, k, k);
    } else {
      states, actions, s := LooksRead(p, v, n - 1, k);
      OneReads(p, s, v, n - 1, k);
      hide GoodStart, IsNews, Reaches, Apply, Enabled;
      states, actions, s := Extended(p, states, actions, s, k, Latest(n - 1, Found(|p.atBoot|, v.keyFingerprint)));
    }
  }

  /** The first `n` of them have read the rows and restarted. */
  ghost predicate HaveRestarted(p: Start, s: State, v: Version, n: nat, k: nat) {
    && s.stored == p.atBoot + [v] && |s.watch.restarts| == n && |s.watch.looks| == k - n
    && (forall t: nat :: t in s.watch.looks <==> n <= t < k)
    && (forall t :: t in s.watch.looks ==> s.watch.looks[t] == ReadingRows(|p.atBoot|))
  }

  lemma AllHaveRead(p: Start, s: State, v: Version, k: nat)
    requires HaveRead(p, s, v, k, k)
    ensures HaveRestarted(p, s, v, 0, k)
  {}

  lemma NewsDigest(p: Start, v: Version) returns (digest: string)
    requires GoodStart(p) && IsNews(p, v)
    ensures DigestsVersion(digest, v, p.hash) && digest != p.cfg.baseline
  {
    digest := DigestRows(Own(v.rows), p.hash);
    assert DigestOf(Rows(Own(v.rows)), p.hash) == Some(digest);
    BaselineMeansSame(p, digest, v);
  }

  lemma OneRestarts(p: Start, s: State, v: Version, n: nat, k: nat, digest: string)
    requires n < k && HaveRestarted(p, s, v, n, k)
    requires DigestsVersion(digest, v, p.hash) && digest != p.cfg.baseline
    ensures var a := RowsRead(n, Some(digest));
            && Enabled(s, a, p.hash) && HaveRestarted(p, Apply(p.cfg, s, a, p.hash), v, n + 1, k)
            && |Apply(p.cfg, s, a, p.hash).watch.looks| <= k
  {
    hide DigestsVersion;
    OneLess(s.watch.looks, n);
  }

  lemma {:induction false} LooksRestart(p: Start, v: Version, n: nat, k: nat)
    returns (states: seq<State>, actions: seq<Action>, s: State)
    requires GoodStart(p) && !p.cfg.off && IsNews(p, v) && n <= k
    ensures Reaches(p, states, actions, s, k) && HaveRestarted(p, s, v, n, k)
  {
    hide GoodStart, IsNews, DigestsVersion, Reaches, Apply, Enabled, HaveRead, HaveRestarted;
    if n == 0 {
      states, actions, s := LooksRead(p, v, k, k);
      AllHaveRead(p, s, v, k);
    } else {
      states, actions, s := LooksRestart(p, v, n - 1, k);
      var digest := NewsDigest(p, v);
      OneRestarts(p, s, v, n - 1, k, digest);
      states, actions, s := Extended(p, states, actions, s, k, RowsRead(n - 1, Some(digest)));
    }
  }

  /**
    The bound is reached: after any start that leaves the watch on, as many looks in
    flight at once as you like each restart the process, all for the same version,
    because a look does not test again whether a restart is under way.
  */
  lemma OverlappingLooksAllRestart(p: Start, v: Version, k: nat) returns (states: seq<State>, actions: seq<Action>)
    requires GoodStart(p) && !p.cfg.off && IsNews(p, v)
    ensures IsLife(p, states, actions) && OverlapsAtMost(states, k)
    ensures |states[|states| - 1].watch.restarts| == k
  {
    var s;
    states, actions, s := LooksRestart(p, v, k, k);
  }

  /** One restart at most is a promise exactly if looks never overlap. */
  lemma OneRestartOnlyWithoutOverlap(p: Start, v: Version, k: nat)
    requires GoodStart(p) && !p.cfg.off && IsNews(p, v)
    ensures (forall states: seq<State>, actions: seq<Action> :: IsLife(p, states, actions) && OverlapsAtMost(states, k)
               ==> |states[|states| - 1].watch.restarts| <= 1)
            <==> k <= 1
  {
    if k <= 1 {
      forall states: seq<State>, actions: seq<Action> | IsLife(p, states, actions) && OverlapsAtMost(states, k)
        ensures |states[|states| - 1].watch.restarts| <= 1
      {
        RestartsAreBounded(p, states, actions, |states| - 1, k);
      }
    } else {
      var states, actions := OverlappingLooksAllRestart(p, v, k);
    }
  }

  /** A version of another key, which the watch only marks as seen. */
  function Foreign(p: Start): Version {
    Version(p.cfg.ourFingerprint + "'", [])
  }

  /** Two looks in flight, the second begun after another version was stored. */
  ghost predicate TwoLooks(p: Start, s: State) {
    && s.stored == p.atBoot + [Foreign(p), Foreign(p)] && s.watch.looks == map[0 := ReadingLatest, 1 := ReadingLatest]
    && s.since == map[0 := |p.atBoot| + 1, 1 := |p.atBoot| + 2] && s.watch.lastSeen == FirstWatch(p.boot).lastSeen
  }

  lemma TwoLooksBegin(p: Start) returns (states: seq<State>, actions: seq<Action>, s: State)
    requires GoodStart(p) && !p.cfg.off
    ensures Reaches(p, states, actions, s, 2) && TwoLooks(p, s)
  {
    hide GoodStart, Reaches;
    states, actions := AtTheStart(p, 2);
    s := State(p.atBoot, FirstWatch(p.boot), map[]);
    states, actions, s := Extended(p, states, actions, s, 2, Save(Foreign(p)));
    states, actions, s := Extended(p, states, actions, s, 2, Begin(0));
    states, actions, s := Extended(p, states, actions, s, 2, Save(Foreign(p)));
    states, actions, s := Extended(p, states, actions, s, 2, Begin(1));
  }

  /**
    Two looks overlap, and the one that began earlier, and was answered earlier, ends
    later: what was seen last goes back.
  */
  lemma OldLookGoesBack(p: Start) returns (states: seq<State>, actions: seq<Action>)
    requires GoodStart(p) && !p.cfg.off
    ensures IsLife(p, states, actions) && OverlapsAtMost(states, 2) && |states| >= 2
    ensures var before, after := states[|states| - 2].watch.lastSeen, states[|states| - 1].watch.lastSeen;
            before.Some? && after.Some? && after.value < before.value
  {
    var n, theirs := |p.atBoot|, Foreign(p).keyFingerprint;
    var s;
    states, actions, s := TwoLooksBegin(p);
    assert theirs != p.cfg.ourFingerprint;
    OneLess(s.watch.looks, 1);
    states, actions, s := Extended(p, states, actions, s, 2, Latest(1, Found(n + 1, theirs)));
    assert s.watch.looks == map[0 := ReadingLatest];
    states, actions, s := Extended(p, states, actions, s, 2, Latest(0, Found(n, theirs)));
  }

  // ---- What is not watched ------------------------------------------------------------------------

  /** A version that is pinned, a start that was told not to load, and values that will not open: never a restart. */
  lemma NothingToWatch(p: Start, states: seq<State>, actions: seq<Action>, n: nat)
    requires IsLife(p, states, actions) && n < |states|
    requires p.boot.pinned || p.boot.status.Off? || (p.boot.status.BootFailed? && !p.boot.retryable)
    ensures states[n].watch.looks == map[] && states[n].watch.restarts == []
  {
    hide Steps, Harmless, NulFree, Injective, StartedFrom;
    LifeKeeps(p, states, actions, n);
  }

  /** Otherwise it is watched as soon as there is a key and a database. */
  lemma WatchedOtherwise(boot: BootState, ours: string, hash: string -> string)
    requires !boot.pinned && !boot.status.Off? && (boot.status.BootFailed? ==> boot.retryable)
    ensures !ConfigOf(boot, true, true, ours, hash).off
    ensures ConfigOf(boot, false, true, ours, hash).off && ConfigOf(boot, true, false, ours, hash).off
  {}

  lemma {:induction false} SeenMovesOn(p: Start, states: seq<State>, actions: seq<Action>, m: nat, n: nat)
    requires IsLife(p, states, actions) && OverlapsAtMost(states, 1) && m <= n < |states|
    requires states[m].watch.lastSeen.Some?
    ensures states[n].watch.lastSeen.Some? && states[m].watch.lastSeen.value <= states[n].watch.lastSeen.value
    decreases n
  {
    hide GoodStart, Steps, Inv, Forward;
    if m < n {
      assert |states[n - 1].watch.looks| <= 1 && |states[n].watch.looks| <= 1;
      SeenMovesOn(p, states, actions, m, n - 1);
      LifeForward(p, states, actions, n - 1);
      LifeKeeps(p, states, actions, n - 1);
      StepForward(p, states[n - 1], actions[n - 1], states[n]);
    }
  }

  /** A look that finds a version already seen, or one before it, is over. */
  lemma SeenEndsTheLook(p: Start, states: seq<State>, actions: seq<Action>, n: nat, seen: int)
    requires IsLife(p, states, actions) && OverlapsAtMost(states, 1) && n < |actions|
    requires states[n].watch.lastSeen.Some? && seen <= states[n].watch.lastSeen.value
    requires actions[n].Latest? && actions[n].answer.Found? && actions[n].answer.id == seen
    ensures actions[n].token !in states[n + 1].watch.looks && states[n + 1].watch.lastSeen == Some(seen)
  {
    hide GoodStart, Inv, DigestsVersion, NulFree;
    LifeForward(p, states, actions, n);
    assert Steps(p, states[n], actions[n], states[n + 1]);
  }

  /**
    While looks do not overlap, no version's rows are read again once they have been
    read, and those of the version the service started with are not read at all.
  */
  lemma NoVersionIsReadTwice(p: Start, states: seq<State>, actions: seq<Action>, m: nat, n: nat)
    requires IsLife(p, states, actions) && OverlapsAtMost(states, 1) && m < n < |actions|
    requires actions[n].Latest? && actions[n].answer.Found?
    requires var id := actions[n].answer.id;
             || (p.boot.status.BootLoaded? && p.boot.version == Some(id))
             || (actions[m].RowsRead? && actions[m].digest.Some? && actions[m].token in states[m].watch.looks
                 && states[m].watch.looks[actions[m].token] == ReadingRows(id))
    ensures actions[n].token !in states[n + 1].watch.looks
  {
    hide GoodStart, Inv, DigestsVersion, NulFree, OverlapsAtMost;
    var id := actions[n].answer.id;
    assert Steps(p, states[m], actions[m], states[m + 1]);
    if p.boot.status.BootLoaded? && p.boot.version == Some(id) {
      SeenMovesOn(p, states, actions, 0, n);
    } else {
      SeenMovesOn(p, states, actions, m + 1, n);
    }
    SeenEndsTheLook(p, states, actions, n, id);
  }
}
