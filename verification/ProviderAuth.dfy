/** Resolving a provider's access token: any number of callers, one refresh at a time under a lock, the
    stored credential read once before the lock and once under it, and written from outside at any time. */
module ProviderAuth {
  import opened Wrappers

  type TaskId = nat
  type Token = nat

  datatype Credentials = Credentials(access: Token, refresh: Token, expires: int)

  /** What the credential file holds. One that does not parse is an error to every reader. */
  datatype Stored = ApiKey(key: Token) | Oauth(creds: Credentials) | Unreadable

  predicate IsExpired(creds: Credentials, now: int) {
    now >= creds.expires
  }

  // ── one caller, nobody else ────────────────────────────────────────────

  datatype Resolved = Token(access: Option<Token>) | Failed

  class Resolver {
    var store: Option<Stored>
    var sent: seq<Token>

    constructor (store: Option<Stored>)
      ensures this.store == store && sent == []
    {
      this.store, sent := store, [];
    }

    /** `resolve_access_token`, where `atLock` is the store as this caller finds it once it has the lock. A
        static key and a live token are returned as they are, an unreadable file is an error. An expired
        credential is read again under the lock: a live one is returned as it is, otherwise the token read
        before the lock is sent, and its rotation is stored before it is returned. A rotation that cannot be
        stored is an error, with its refresh token spent and, when the write was `torn`, the file unreadable. */
    method ResolveAccessToken(now: int, atLock: Option<Stored>, reply: Option<Credentials>, stores: bool, torn: bool)
      returns (r: Resolved)
      modifies this
      ensures old(store) == None ==> r == Token(None) && store == None && sent == old(sent)
      ensures old(store) == Some(Unreadable) ==> r == Failed && store == old(store) && sent == old(sent)
      ensures old(store.Some? && store.value.ApiKey?) ==>
                r == Token(Some(old(store.value.key))) && store == old(store) && sent == old(sent)
      ensures old(store.Some? && store.value.Oauth?) ==>
                var creds := old(store.value.creds);
                if now < creds.expires then r == Token(Some(creds.access)) && store == old(store) && sent == old(sent)
                else if atLock == Some(Unreadable) then r == Failed && store == atLock && sent == old(sent)
                else if atLock.Some? && atLock.value.Oauth? && now < atLock.value.creds.expires
                then r == Token(Some(atLock.value.creds.access)) && store == atLock && sent == old(sent)
                else
                  && sent == old(sent) + [creds.refresh]
                  && (r == Failed <==> reply.None? || !stores)
                  && (r != Failed ==> r == Token(Some(reply.value.access)) && store == Some(Oauth(reply.value)))
                  && (r == Failed ==> store == if reply.Some? && torn then Some(Unreadable) else atLock)
    {
      match store {
        case None => r := Token(None);
        case Some(Unreadable) => r := Failed;
        case Some(ApiKey(key)) => r := Token(Some(key));
        case Some(Oauth(creds)) =>
          if !IsExpired(creds, now) {
            return Token(Some(creds.access));
          }
          store := atLock;
          match store {
            case Some(Oauth(found)) =>
              if !IsExpired(found, now) {
                return Token(Some(found.access));
              }
            case Some(Unreadable) => return Failed;
            case _ =>
          }
          sent := sent + [creds.refresh];
          if reply.None? {
            return Failed;
          }
          if !stores {
            store := if torn then Some(Unreadable) else store;
            return Failed;
          }
          store := Some(Oauth(reply.value));
          r := Token(Some(reply.value.access));
      }
    }
  }

  // ── any number of callers ──────────────────────────────────────────────

  /** Where a caller stands. `read` is the credential it read before it asked for the lock; one that ended
      without a token has None. */
  datatype Task =
    | Waiting(read: Credentials, now: int)
    | Locked(read: Credentials, now: int)
    | Refreshing(read: Credentials, now: int)
    | Done(access: Option<Token>, now: int)

  /** `sent` are the tokens refreshes were started with, in order; `ended` those whose refresh is over, and
      `minted` all refresh tokens seen so far. `failed`: a refresh of the stored credential itself ended and
      left it stored. */
  datatype State = State(
    store: Option<Stored>, tasks: map<TaskId, Task>, sent: seq<Token>, ended: set<Token>, failed: bool, minted: set<Token>)

  /** `Fail` is a caller that ends under the lock with nothing stored: the helper errors, the rotation cannot be
      stored, or the caller is dropped. `Replace` is any write to the file that is not a refresh: a login, a
      pasted key, a file removed or damaged. */
  datatype Event =
    | Resolve(t: TaskId, now: int)
    | Acquire(t: TaskId)
    | Recheck(t: TaskId)
    | Rotate(t: TaskId, rotated: Credentials)
    | Fail(t: TaskId, torn: bool)
    | Replace(store: Option<Stored>)

  predicate HoldsLock(s: State, t: TaskId) {
    t in s.tasks && (s.tasks[t].Locked? || s.tasks[t].Refreshing?)
  }

  predicate IsRefreshing(s: State, t: TaskId) {
    t in s.tasks && s.tasks[t].Refreshing?
  }

  /** The helper mints tokens nobody has seen. */
  ghost predicate Enabled(s: State, e: Event) {
    match e
    case Resolve(t, _) => t !in s.tasks
    case Acquire(t) => t in s.tasks && s.tasks[t].Waiting? && forall u :: !HoldsLock(s, u)
    case Recheck(t) => t in s.tasks && s.tasks[t].Locked?
    case Rotate(t, rotated) => IsRefreshing(s, t) && rotated.refresh !in s.minted
    case Fail(t, _) => HoldsLock(s, t)
    case Replace(_) => true
  }

  /** The credential in the file, when it holds one. */
  predicate Holds(store: Option<Stored>, creds: Credentials) {
    store == Some(Oauth(creds))
  }

  /** What a reader of the file makes of it: its token, or nothing when there is none or it is damaged. */
  function LiveToken(store: Option<Stored>, now: int): Option<Token> {
    match store
    case Some(ApiKey(key)) => Some(key)
    case Some(Oauth(creds)) => if IsExpired(creds, now) then None else Some(creds.access)
    case _ => None
  }

  /** Under the lock only a live OAuth credential or an unreadable file stops a refresh. */
  predicate GoesOn(store: Option<Stored>, now: int) {
    match store
    case Some(Oauth(creds)) => IsExpired(creds, now)
    case Some(Unreadable) => false
    case _ => true
  }

  function MintedWith(s: State, store: Option<Stored>): set<Token> {
    s.minted + if store.Some? && store.value.Oauth? then {store.value.creds.refresh} else {}
  }

  ghost function Apply(s: State, e: Event): State
    requires Enabled(s, e)
  {
    match e
    case Resolve(t, now) =>
      var expired := s.store.Some? && s.store.value.Oauth? && IsExpired(s.store.value.creds, now);
      s.(tasks := s.tasks[t := if expired then Waiting(s.store.value.creds, now) else Done(LiveToken(s.store, now), now)])
    case Acquire(t) => s.(tasks := s.tasks[t := Locked(s.tasks[t].read, s.tasks[t].now)])
    case Recheck(t) =>
      var task := s.tasks[t];
      if GoesOn(s.store, task.now)
      then s.(tasks := s.tasks[t := Refreshing(task.read, task.now)], sent := s.sent + [task.read.refresh])
      else s.(tasks := s.tasks[t := Done(LiveToken(s.store, task.now), task.now)])
    case Rotate(t, rotated) =>
      s.(store := Some(Oauth(rotated)), tasks := s.tasks[t := Done(Some(rotated.access), s.tasks[t].now)],
         ended := s.ended + {s.tasks[t].read.refresh}, failed := false, minted := s.minted + {rotated.refresh})
    case Fail(t, torn) =>
      var tasks := s.tasks[t := Done(None, s.tasks[t].now)];
      if s.tasks[t].Locked? then s.(tasks := tasks)
      else s.(tasks := tasks, store := if torn then Some(Unreadable) else s.store, ended := s.ended + {s.tasks[t].read.refresh},
              failed := s.failed || Holds(s.store, s.tasks[t].read))
    case Replace(store) => s.(store := store, failed := false, minted := MintedWith(s, store))
  }

  ghost predicate Reaches(from: State, events: seq<Event>, s: State)
    decreases |events|
  {
    if events == [] then s == from
    else Enabled(from, events[0]) && Reaches(Apply(from, events[0]), events[1..], s)
  }

  function Initial(store: Option<Stored>): State {
    var empty := State(store, map[], [], {}, false, {});
    empty.(minted := MintedWith(empty, store))
  }

  predicate Distinct(tokens: seq<Token>) {
    forall i, j :: 0 <= i < j < |tokens| ==> tokens[i] != tokens[j]
  }

  /** The refresh lock. */
  ghost predicate OneHolder(s: State) {
    forall t, u :: HoldsLock(s, t) && HoldsLock(s, u) ==> t == u
  }

  lemma LockStep(s: State, e: Event)
    requires OneHolder(s) && Enabled(s, e)
    ensures OneHolder(Apply(s, e))
  {
    var s' := Apply(s, e);
    forall w | e.Replace? || w != e.t ensures HoldsLock(s', w) <==> HoldsLock(s, w) {
    }
    assert e.Recheck? ==> HoldsLock(s, e.t);
  }

  /** What a caller does first: a token that is live at its own clock, and a static key, are returned at once; an
      OAuth token at or past its expiry waits for the lock; without a readable credential there is no token. */
  lemma ResolveTakes(s: State, t: TaskId, now: int)
    requires Enabled(s, Resolve(t, now))
    ensures var task := match s.store
                        case Some(Oauth(creds)) => if now < creds.expires then Done(Some(creds.access), now) else Waiting(creds, now)
                        case Some(ApiKey(key)) => Done(Some(key), now)
                        case _ => Done(None, now);
            Apply(s, Resolve(t, now)) == s.(tasks := s.tasks[t := task])
  {
  }

  /** Under the lock: a credential live at the caller's own clock is returned, an unreadable file is an error, and
      anything else starts a refresh with the token read before the lock. */
  lemma RecheckTakes(s: State, t: TaskId)
    requires Enabled(s, Recheck(t))
    ensures var task, s' := s.tasks[t], Apply(s, Recheck(t));
            var live := s.store.Some? && s.store.value.Oauth? && task.now < s.store.value.creds.expires;
            && s'.store == s.store && s'.ended == s.ended && s'.failed == s.failed
            && (live ==> s' == s.(tasks := s.tasks[t := Done(Some(s.store.value.creds.access), task.now)]))
            && (s.store == Some(Unreadable) ==> s' == s.(tasks := s.tasks[t := Done(None, task.now)]))
            && (!live && s.store != Some(Unreadable) ==>
                  s' == s.(tasks := s.tasks[t := Refreshing(task.read, task.now)], sent := s.sent + [task.read.refresh]))
  {
  }

  /** How a refresh ends: with its rotation stored and its access token returned, or with nothing stored and no
      token, the file unreadable if its write was torn; either way its refresh token's turn is over. */
  lemma RefreshEnds(s: State, e: Event)
    requires Enabled(s, e) && (e.Rotate? || e.Fail?) && s.tasks[e.t].Refreshing?
    ensures var task, s' := s.tasks[e.t], Apply(s, e);
            && s'.sent == s.sent && s'.ended == s.ended + {task.read.refresh}
            && (e.Rotate? ==>
                  s'.store == Some(Oauth(e.rotated)) && !s'.failed && s'.tasks == s.tasks[e.t := Done(Some(e.rotated.access), task.now)])
            && (e.Fail? ==>
                  && s'.store == (if e.torn then Some(Unreadable) else s.store) && s'.tasks == s.tasks[e.t := Done(None, task.now)]
                  && (s'.failed <==> s.failed || s.store == Some(Oauth(task.read))))
  {
  }

  /** A caller dropped before its refresh began leaves everything but itself; a write from outside replaces the file,
      whatever it holds, and nothing that failed before is held against the credential it brings. */
  lemma OutsideWrites(s: State, e: Event)
    requires Enabled(s, e) && (e.Replace? || (e.Fail? && s.tasks[e.t].Locked?))
    ensures e.Fail? ==> Apply(s, e) == s.(tasks := s.tasks[e.t := Done(None, s.tasks[e.t].now)])
    ensures e.Replace? ==>
              var s' := Apply(s, e);
              && s'.store == e.store && s'.tasks == s.tasks && s'.sent == s.sent && s'.ended == s.ended && !s'.failed
              && forall r :: r in s'.minted <==> r in s.minted || (e.store.Some? && e.store.value.Oauth? && r == e.store.value.creds.refresh)
  {
  }

  // ── when a token is sent twice ─────────────────────────────────────────

  /** A caller under the lock goes on to refresh with a credential whose refresh is already over. */
  ghost predicate StaleRefresh(s: State, e: Event) {
    && e.Recheck? && e.t in s.tasks && s.tasks[e.t].Locked?
    && GoesOn(s.store, s.tasks[e.t].now) && s.tasks[e.t].read.refresh in s.ended
  }

  /** A run with no `bad` event. */
  ghost predicate Never(bad: (State, Event) -> bool, from: State, events: seq<Event>, s: State)
    requires Reaches(from, events, s)
    decreases |events|
  {
    events != [] ==> !bad(from, events[0]) && Never(bad, Apply(from, events[0]), events[1..], s)
  }

  /** The tokens sent are those whose refresh is over and the one in flight. */
  ghost predicate SentIs(s: State) {
    && (forall token :: token in s.ended ==> token in s.sent)
    && (forall token :: token in s.sent ==> token in s.ended || exists t :: InFlight(s, t, token))
    && (forall t :: IsRefreshing(s, t) ==> s.tasks[t].read.refresh in s.sent)
  }

  ghost predicate InFlight(s: State, t: TaskId, token: Token) {
    IsRefreshing(s, t) && s.tasks[t].read.refresh == token
  }

  ghost predicate Inv(s: State) {
    OneHolder(s) && SentIs(s) && Distinct(s.sent)
  }

  lemma SentStep(s: State, e: Event)
    requires OneHolder(s) && SentIs(s) && Enabled(s, e)
    ensures SentIs(Apply(s, e))
  {
    var s' := Apply(s, e);
    forall t | IsRefreshing(s', t) ensures s'.tasks[t].read.refresh in s'.sent {
      if IsRefreshing(s, t) { assert s.tasks[t].read.refresh in s.sent; }
    }
    forall token | token in s'.sent ensures token in s'.ended || exists t :: InFlight(s', t, token) {
      if token !in s.sent {
        assert InFlight(s', e.t, token);
      } else if token !in s.ended {
        var u :| InFlight(s, u, token);
        assert HoldsLock(s, u);
        if !e.Replace? && e.t == u { assert token in s'.ended || InFlight(s', u, token); }
        else { assert InFlight(s', u, token); }
      }
    }
  }

  /** Under the lock nothing is in flight, so a token goes out again exactly when its refresh is over. */
  lemma RecheckSends(s: State, e: Event)
    requires Inv(s) && Enabled(s, e) && e.Recheck?
    ensures StaleRefresh(s, e) <==> !Distinct(Apply(s, e).sent)
  {
    var s' := Apply(s, e);
    assert HoldsLock(s, e.t);
    var token := s.tasks[e.t].read.refresh;
    assert token in s.sent ==> token in s.ended by {
      if token in s.sent && token !in s.ended {
        var u :| InFlight(s, u, token);
        assert HoldsLock(s, u);
        assert false;
      }
    }
    if StaleRefresh(s, e) {
      var i :| 0 <= i < |s.sent| && s.sent[i] == token;
      assert s'.sent[i] == s'.sent[|s.sent|];
    }
  }

  lemma Step(s: State, e: Event)
    requires Inv(s) && Enabled(s, e)
    ensures StaleRefresh(s, e) ==> !Distinct(Apply(s, e).sent)
    ensures !StaleRefresh(s, e) ==> Inv(Apply(s, e))
  {
    LockStep(s, e);
    SentStep(s, e);
    if e.Recheck? { RecheckSends(s, e); }
  }

  /** What was sent stays sent. */
  lemma {:induction false} SentGrows(from: State, events: seq<Event>, s: State)
    requires Reaches(from, events, s)
    ensures from.sent <= s.sent
    decreases |events|
  {
    if events != [] { SentGrows(Apply(from, events[0]), events[1..], s); }
  }

  lemma {:induction false} DistinctFrom(from: State, events: seq<Event>, s: State)
    requires Inv(from) && Reaches(from, events, s)
    ensures Never(StaleRefresh, from, events, s) <==> Distinct(s.sent)
    decreases |events|
  {
    if events != [] {
      var next := Apply(from, events[0]);
      Step(from, events[0]);
      if StaleRefresh(from, events[0]) {
        SentGrows(next, events[1..], s);
        var i, j :| 0 <= i < j < |next.sent| && next.sent[i] == next.sent[j];
        assert s.sent[i] == s.sent[j];
      } else {
        DistinctFrom(next, events[1..], s);
      }
    }
  }

  /** Over every run, with helpers that fail, rotations that are lost, callers dropped and the file written from
      outside: no refresh token is sent twice if and only if no caller went on under the lock with a credential
      whose refresh was already over. */
  lemma {:induction false} TokensSentOnceIffNeverStale(store: Option<Stored>, events: seq<Event>, s: State)
    requires Reaches(Initial(store), events, s)
    ensures Distinct(s.sent) <==> Never(StaleRefresh, Initial(store), events, s)
  {
    DistinctFrom(Initial(store), events, s);
  }

  // ── the same in terms of the file ──────────────────────────────────────

  /** Nobody but refreshes writes the file. */
  ghost predicate Undisturbed(events: seq<Event>) {
    forall i :: 0 <= i < |events| ==> !events[i].Replace?
  }

  /** The guard of the failing branch, when nobody else writes the file: the file holds an expired credential
      that is not the one this caller read, or one whose refresh failed. */
  ghost predicate BehindTheFile(s: State, e: Event) {
    && e.Recheck? && e.t in s.tasks && s.tasks[e.t].Locked?
    && s.store.Some? && s.store.value.Oauth? && IsExpired(s.store.value.creds, s.tasks[e.t].now)
    && (s.store.value.creds != s.tasks[e.t].read || s.failed)
  }

  /** What a caller read is in the file, or its refresh is over; only a failed refresh leaves a credential in the
      file with its token spent. */
  ghost predicate FileTells(s: State) {
    && OneHolder(s)
    && s.ended <= s.minted
    && (forall t :: t in s.tasks ==> ReadOk(s, s.tasks[t]))
    && (s.store.Some? && s.store.value.Oauth? ==>
          s.store.value.creds.refresh in s.minted && (s.store.value.creds.refresh in s.ended <==> s.failed))
  }

  ghost predicate ReadOk(s: State, task: Task) {
    task.Done?
    || (&& task.read.refresh in s.minted
        && s.store.Some? && !s.store.value.ApiKey?
        && (s.store.value.Oauth? && s.store.value.creds != task.read ==> !task.Refreshing? && task.read.refresh in s.ended)
        && (task.Refreshing? ==> s.store.value.Oauth?))
  }

  lemma BehindIsStale(s: State, e: Event)
    requires FileTells(s) && Enabled(s, e)
    ensures StaleRefresh(s, e) <==> BehindTheFile(s, e)
  {
    if e.Recheck? { assert ReadOk(s, s.tasks[e.t]); }
  }

  lemma FileStep(s: State, e: Event)
    requires FileTells(s) && Enabled(s, e) && !e.Replace? && !BehindTheFile(s, e)
    ensures FileTells(Apply(s, e))
  {
    LockStep(s, e);
    var s' := Apply(s, e);
    assert e.t in s.tasks ==> ReadOk(s, s.tasks[e.t]);
    forall t | t in s'.tasks ensures ReadOk(s', s'.tasks[t]) {
      if t in s.tasks { assert ReadOk(s, s.tasks[t]); }
      if (e.Rotate? || e.Fail?) && t != e.t { assert HoldsLock(s, e.t) && !HoldsLock(s, t); }
    }
  }

  lemma {:induction false} BehindFrom(from: State, events: seq<Event>, s: State)
    requires FileTells(from) && Reaches(from, events, s) && Undisturbed(events)
    ensures Never(StaleRefresh, from, events, s) <==> Never(BehindTheFile, from, events, s)
    decreases |events|
  {
    if events != [] {
      BehindIsStale(from, events[0]);
      assert forall i :: 0 <= i < |events[1..]| ==> events[1..][i] == events[i + 1];
      if !BehindTheFile(from, events[0]) {
        assert !events[0].Replace?;
        FileStep(from, events[0]);
        BehindFrom(Apply(from, events[0]), events[1..], s);
      }
    }
  }

  /** While only refreshes write the file: no token is sent twice if and only if no caller, under the lock, finds
      an expired credential that is not the one it read or whose refresh has failed. */
  lemma {:induction false} TokensSentOnceIffNeverBehind(store: Option<Stored>, events: seq<Event>, s: State)
    requires Reaches(Initial(store), events, s) && Undisturbed(events)
    ensures Distinct(s.sent) <==> Never(BehindTheFile, Initial(store), events, s)
  {
    DistinctFrom(Initial(store), events, s);
    BehindFrom(Initial(store), events, s);
  }

  // ── one expired credential, one refresh ────────────────────────────────

  /** Every caller finds `creds` expired, every refresh succeeds with a rotation that outlives every caller's
      clock, and nobody else writes the file. */
  ghost predicate Outlives(creds: Credentials, events: seq<Event>) {
    && Undisturbed(events)
    && (forall i :: 0 <= i < |events| ==> !events[i].Fail?)
    && (forall i :: 0 <= i < |events| && events[i].Resolve? ==> IsExpired(creds, events[i].now))
    && (forall i, j :: 0 <= i < |events| && 0 <= j < |events| && events[i].Rotate? && events[j].Resolve? ==>
          !IsExpired(events[i].rotated, events[j].now))
  }

  /** The state of such a run: before the rotation, all tasks hold the one credential; after it, everyone who
      finished has the rotated access token. */
  ghost predicate OneRefresh(creds: Credentials, s: State, now: int -> bool) {
    && s.store.Some? && s.store.value.Oauth?
    && (forall t :: t in s.tasks ==> now(s.tasks[t].now))
    && (forall t :: t in s.tasks && !s.tasks[t].Done? ==> s.tasks[t].read == creds)
    && (if Holds(s.store, creds)
        then && (forall t :: t in s.tasks ==> !s.tasks[t].Done?)
             && (if s.sent == [] then forall t :: !IsRefreshing(s, t)
                 else s.sent == [creds.refresh] && exists t :: IsRefreshing(s, t))
        else && s.sent == [creds.refresh] && (forall t :: !IsRefreshing(s, t))
             && (forall n :: now(n) ==> !IsExpired(s.store.value.creds, n))
             && (forall t :: t in s.tasks && s.tasks[t].Done? ==> s.tasks[t].access == Some(s.store.value.creds.access)))
  }

  lemma OneRefreshStep(creds: Credentials, s: State, e: Event, now: int -> bool)
    requires OneRefresh(creds, s, now) && Enabled(s, e) && (forall n :: now(n) ==> IsExpired(creds, n))
    requires OneHolder(s) && !e.Fail? && !e.Replace?
    requires e.Resolve? ==> now(e.now)
    requires e.Rotate? ==> forall n :: now(n) ==> !IsExpired(e.rotated, n)
    ensures OneRefresh(creds, Apply(s, e), now)
    ensures OneHolder(Apply(s, e))
  {
    var s' := Apply(s, e);
    forall t | t != e.t || !e.Recheck? ensures IsRefreshing(s', t) ==> IsRefreshing(s, t) {
    }
    if e.Recheck? || e.Rotate? {
      assert HoldsLock(s, e.t);
      forall t | t != e.t ensures !HoldsLock(s, t) && !IsRefreshing(s, t) {
        assert IsRefreshing(s, t) ==> HoldsLock(s, t);
      }
      if e.Recheck? && Holds(s.store, creds) { assert s.sent == [] && IsRefreshing(s', e.t); }
    } else if Holds(s.store, creds) && s.sent != [] {
      var u :| IsRefreshing(s, u);
      assert IsRefreshing(s', u);
    }
    LockStep(s, e);
  }

  lemma {:induction false} OneRefreshFrom(creds: Credentials, from: State, events: seq<Event>, s: State, now: int -> bool)
    requires OneRefresh(creds, from, now) && Reaches(from, events, s) && (forall n :: now(n) ==> IsExpired(creds, n))
    requires OneHolder(from) && Undisturbed(events)
    requires forall i :: 0 <= i < |events| ==> !events[i].Fail?
    requires forall i :: 0 <= i < |events| && events[i].Resolve? ==> now(events[i].now)
    requires forall i :: 0 <= i < |events| && events[i].Rotate? ==> forall n :: now(n) ==> !IsExpired(events[i].rotated, n)
    ensures OneRefresh(creds, s, now)
    decreases |events|
  {
    if events != [] {
      OneRefreshStep(creds, from, events[0], now);
      assert forall i :: 0 <= i < |events[1..]| ==> events[1..][i] == events[i + 1];
      OneRefreshFrom(creds, Apply(from, events[0]), events[1..], s, now);
    }
  }

  /** Single flight: any number of interleaved callers on one expired credential send its refresh token at
      most once, exactly once when any of them has finished, and all who finish return the one rotated
      access token, provided the refresh succeeds and its rotation outlives every caller's clock. */
  lemma {:induction false} SingleFlight(creds: Credentials, events: seq<Event>, s: State)
    requires Reaches(Initial(Some(Oauth(creds))), events, s) && Outlives(creds, events)
    ensures s.sent == [] || s.sent == [creds.refresh]
    ensures (exists t :: t in s.tasks && s.tasks[t].Done?) ==> s.sent == [creds.refresh] && !Holds(s.store, creds)
    ensures forall t :: t in s.tasks && s.tasks[t].Done? ==>
              s.store.Some? && s.store.value.Oauth? && s.tasks[t].access == Some(s.store.value.creds.access)
  {
    var now := (n: int) => IsExpired(creds, n) && forall i :: 0 <= i < |events| && events[i].Rotate? ==> !IsExpired(events[i].rotated, n);
    OneRefreshFrom(creds, Initial(Some(Oauth(creds))), events, s, now);
  }

  // ── two runs on which a token is sent twice ────────────────────────────

  const FIRST := Credentials(10, 1, 0)
  const SECOND := Credentials(20, 2, 50)
  const BOTH_WAIT := [Resolve(0, 5), Resolve(1, 60), Acquire(0), Recheck(0)]
  const REFRESHING := State(Some(Oauth(FIRST)), map[0 := Refreshing(FIRST, 5), 1 := Waiting(FIRST, 60)], [1], {}, false, {1})

  lemma FirstCallerRefreshes()
    ensures Reaches(Initial(Some(Oauth(FIRST))), BOTH_WAIT, REFRESHING)
  {
    var e := BOTH_WAIT;
    var s0 := Initial(Some(Oauth(FIRST)));
    var s2 := Apply(Apply(s0, e[0]), e[1]);
    assert s2 == State(Some(Oauth(FIRST)), map[0 := Waiting(FIRST, 5), 1 := Waiting(FIRST, 60)], [], {}, false, {1});
    assert Apply(Apply(s2, e[2]), e[3]) == REFRESHING;
    assert e[3..][1..] == [] && Reaches(Apply(s2, e[2]), e[3..], REFRESHING);
    assert e[2..][1..] == e[3..] && Reaches(s2, e[2..], REFRESHING);
    assert e[1..][1..] == e[2..] && Reaches(Apply(s0, e[0]), e[1..], REFRESHING);
  }

  lemma {:induction false} ReachesMore(from: State, first: seq<Event>, mid: State, more: seq<Event>, s: State)
    requires Reaches(from, first, mid) && Reaches(mid, more, s)
    ensures Reaches(from, first + more, s)
    decreases |first|
  {
    if first == [] {
      assert first + more == more;
    } else {
      ReachesMore(Apply(from, first[0]), first[1..], mid, more, s);
      assert (first + more)[1..] == first[1..] + more;
    }
  }

  /** The first caller's refresh ends with `e`; the second finds no live token and sends what it read. */
  lemma SecondCallerResends(e: Event) returns (s: State)
    requires Enabled(REFRESHING, e) && (e == Rotate(0, SECOND) || e == Fail(0, false))
    ensures Reaches(Initial(Some(Oauth(FIRST))), BOTH_WAIT + [e, Acquire(1), Recheck(1)], s)
    ensures s.sent == [FIRST.refresh, FIRST.refresh] && s.store == Apply(REFRESHING, e).store
  {
    FirstCallerRefreshes();
    var more := [e, Acquire(1), Recheck(1)];
    var s1 := Apply(REFRESHING, e);
    var s2 := Apply(s1, more[1]);
    s := Apply(s2, more[2]);
    assert more[2..][1..] == [] && Reaches(s2, more[2..], s);
    assert more[1..][1..] == more[2..] && Reaches(s1, more[1..], s);
    assert Reaches(REFRESHING, more, s);
    ReachesMore(Initial(Some(Oauth(FIRST))), BOTH_WAIT, REFRESHING, more, s);
  }

  /** Two callers with different clocks read credential 1; the first rotates it to one that is already expired
      for the second, which then sends the spent token 1 again although the file holds another. */
  lemma StaleRefreshHappens() returns (s: State)
    ensures Reaches(Initial(Some(Oauth(FIRST))), BOTH_WAIT + [Rotate(0, SECOND), Acquire(1), Recheck(1)], s)
    ensures s.sent == [FIRST.refresh, FIRST.refresh] && s.store == Some(Oauth(SECOND))
  {
    s := SecondCallerResends(Rotate(0, SECOND));
  }

  /** Or the first caller's helper fails after it was handed token 1: the lock passes on, the second reads the
      same credential again and sends its token again. */
  lemma FailedRefreshIsRepeated() returns (s: State)
    ensures Reaches(Initial(Some(Oauth(FIRST))), BOTH_WAIT + [Fail(0, false), Acquire(1), Recheck(1)], s)
    ensures s.sent == [FIRST.refresh, FIRST.refresh] && s.store == Some(Oauth(FIRST))
  {
    s := SecondCallerResends(Fail(0, false));
  }
}
