/** Redis agrees with the book of sessions: every live session is in its user's index, a
    user has one session per device, and a token verifies exactly when it is the latest. */
module SessionProofs {
  import opened Options
  import opened RedisStore
  import opened Sessions

  function EntryOf(c: Config, x: Session): Entry {
    Entry(Hash(Fields(c, x)), Some(x.expires))
  }

  predicate IndexSound(s: Store<Key>, user: string) {
    IndexKey(user) in s ==> s[IndexKey(user)].value.Members? && s[IndexKey(user)].expires.None?
  }

  function Index(s: Store<Key>, user: string): set<string> {
    GetMembers(s, IndexKey(user), 0)
  }

  predicate Agrees(c: Config, s: Store<Key>, b: Book, sid: string, t: nat) {
    && (Live(s, SessionKey(sid), t) <==> Listed(b, sid, t))
    && (Listed(b, sid, t) ==>
          && s[SessionKey(sid)] == EntryOf(c, b[sid])
          && b[sid].user != ""
          && sid in Index(s, b[sid].user))
  }

  predicate OwnIndex(s: Store<Key>, b: Book, user: string, sid: string, t: nat) {
    sid in Index(s, user) && Listed(b, sid, t) ==> b[sid].user == user
  }

  ghost predicate Represents(c: Config, s: Store<Key>, b: Book, t: nat) {
    && (forall sid :: Agrees(c, s, b, sid, t))
    && (forall user :: IndexSound(s, user))
    && (forall user, sid :: OwnIndex(s, b, user, sid, t))
  }

  predicate SameDevice(b: Book, x: string, y: string)
    requires x in b && y in b
  {
    b[x].user == b[y].user && b[x].device == b[y].device
  }

  ghost predicate OnePerDevice(b: Book, t: nat) {
    forall x, y :: Listed(b, x, t) && Listed(b, y, t) && SameDevice(b, x, y) ==> x == y
  }

  /** Sessions and index members come from logins. */
  ghost predicate AllIssued(s: State) {
    && (forall user, sid :: sid in Index(s.store, user) ==> sid in s.issued)
    && (forall sid :: SessionKey(sid) in s.store ==> sid in s.issued)
    && (forall op <- s.refreshes :: s.refreshes[op] in s.issued)
  }

  // ---------- Time passes ----------

  lemma Later(c: Config, s: Store<Key>, b: Book, t: nat, later: nat)
    requires Represents(c, s, b, t) && t <= later
    ensures Represents(c, s, b, later) && (OnePerDevice(b, t) ==> OnePerDevice(b, later))
  {
    forall sid ensures Agrees(c, s, b, sid, later) { assert Agrees(c, s, b, sid, t); }
    forall user, sid ensures OwnIndex(s, b, user, sid, later) { assert OwnIndex(s, b, user, sid, t); }
  }

  // ---------- Deleting sessions ----------

  /** The store without the listed sessions of one user. */
  ghost predicate Without(s: Store<Key>, s': Store<Key>, user: string, gone: set<string>) {
    && (forall sid :: SessionKey(sid) in s' <==> SessionKey(sid) in s && sid !in gone)
    && (forall sid :: SessionKey(sid) in s' ==> s'[SessionKey(sid)] == s[SessionKey(sid)])
    && (forall sid :: sid in gone ==> ActionsCache(sid) !in s' && AnalyticsCache(sid) !in s')
    && (forall u :: IndexSound(s', u))
    && (forall u :: Index(s', u) == if u == user then Index(s, u) - gone else Index(s, u))
  }

  lemma DeleteOne(c: Config, s: Store<Key>, user: string, sid: string, x: Session, now: nat)
    requires user != "" && x.user == user && (forall u :: IndexSound(s, u))
    requires Live(s, SessionKey(sid), now) && s[SessionKey(sid)] == EntryOf(c, x)
    ensures Without(s, DeleteSession(s, sid, now), user, {sid})
  {
    var fields := GetHash(s, SessionKey(sid), now);
    assert fields == Fields(c, x);
    assert "user_id" in fields && fields["user_id"] == user;
    var kept := DropKeys(s, sid);
    assert Index(kept, user) == Index(s, user);
    assert IndexSound(kept, user) && IndexSound(s, user);
    var s' := SRem(kept, IndexKey(user), sid, now);
    assert Index(s', user) == Index(s, user) - {sid};
    forall u ensures IndexSound(s', u) && (u != user ==> Index(s', u) == Index(s, u)) { assert IndexSound(s, u); }
  }

  lemma WithoutMore(s: Store<Key>, mid: Store<Key>, s': Store<Key>, user: string, gone: set<string>, more: set<string>)
    requires Without(s, mid, user, gone) && Without(mid, s', user, more)
    requires forall sid <- gone :: ActionsCache(sid) in s' ==> ActionsCache(sid) in mid
    requires forall sid <- gone :: AnalyticsCache(sid) in s' ==> AnalyticsCache(sid) in mid
    ensures Without(s, s', user, gone + more)
  {
  }

  lemma DeleteAddsNothing(s: Store<Key>, sid: string, now: nat)
    ensures DeleteSession(s, sid, now).Keys <= s.Keys
  {
  }

  /** Deleting one by one, in any order and even twice, comes to deleting the set. */
  lemma {:induction false} DeleteAll(c: Config, s: Store<Key>, b: Book, user: string, order: seq<string>, now: nat)
    requires Represents(c, s, b, now)
    requires user != "" && forall sid <- order :: Listed(b, sid, now) && b[sid].user == user
    ensures Without(s, DeleteEach(s, order, now), user, Gone(order))
  {
    if order == [] {
      assert Gone(order) == {};
    } else {
      var before := order[..|order| - 1];
      var sid := order[|order| - 1];
      var mid := DeleteEach(s, before, now);
      var gone := Gone(before);
      DeleteAll(c, s, b, user, before, now);
      assert Gone(order) == gone + {sid};
      assert Agrees(c, s, b, sid, now);
      var s' := DeleteSession(mid, sid, now);
      DeleteAddsNothing(mid, sid, now);
      if sid in before {
        assert s' == mid && gone + {sid} == gone;
      } else {
        DeleteOne(c, mid, user, sid, b[sid], now);
        WithoutMore(s, mid, s', user, gone, {sid});
      }
    }
  }

  // ---------- One step ----------

  lemma MatchingListed(c: Config, s: Store<Key>, b: Book, user: string, d: Device, now: nat)
    requires Represents(c, s, b, now)
    ensures forall sid :: sid in Matching(s, user, d, now) <==>
              Listed(b, sid, now) && b[sid].user == user && b[sid].device == d
  {
    forall sid ensures sid in Matching(s, user, d, now) <==>
        Listed(b, sid, now) && b[sid].user == user && b[sid].device == d {
      assert Agrees(c, s, b, sid, now) && OwnIndex(s, b, user, sid, now) && IndexSound(s, user);
      if Listed(b, sid, now) {
        assert GetHash(s, SessionKey(sid), now) == Fields(c, b[sid]);
        assert b[sid].device == d <==> b[sid].device.ip == d.ip && b[sid].device.agent == d.agent;
      }
    }
  }

  lemma WithoutRepresents(c: Config, s: Store<Key>, s': Store<Key>, b: Book, b': Book, user: string,
                          gone: set<string>, now: nat)
    requires Represents(c, s, b, now) && Without(s, s', user, gone)
    requires forall sid <- gone :: Listed(b, sid, now) ==> b[sid].user == user
    requires forall sid :: Listed(b', sid, now) <==> Listed(b, sid, now) && sid !in gone
    requires forall sid :: Listed(b', sid, now) ==> sid in b && b'[sid] == b[sid]
    ensures Represents(c, s', b', now)
  {
    forall sid ensures Agrees(c, s', b', sid, now) {
      assert Agrees(c, s, b, sid, now);
      if Listed(b', sid, now) { assert sid in Index(s, b[sid].user); }
    }
    forall u, sid ensures OwnIndex(s', b', u, sid, now) { assert OwnIndex(s, b, u, sid, now); }
  }

  lemma AddRepresents(c: Config, s: Store<Key>, b: Book, sid: string, x: Session, now: nat)
    requires Represents(c, s, b, now) && SessionKey(sid) !in s && x.user != "" && x.expires == now + c.ttl
    requires forall user :: sid !in Index(s, user)
    ensures Represents(c, AddUserSession(c, s, sid, x, now), b[sid := x], now)
  {
    var s' := AddUserSession(c, s, sid, x, now);
    var b' := b[sid := x];
    assert IndexSound(s, x.user);
    assert Agrees(c, s, b, sid, now);
    assert s'[SessionKey(sid)] == EntryOf(c, x);
    assert Index(s', x.user) == Index(s, x.user) + {sid};
    forall u ensures IndexSound(s', u) && (u != x.user ==> Index(s', u) == Index(s, u)) { assert IndexSound(s, u); }
    forall other ensures Agrees(c, s', b', other, now) { assert Agrees(c, s, b, other, now); }
    forall u, other ensures OwnIndex(s', b', u, other, now) { assert OwnIndex(s, b, u, other, now); }
  }

  lemma LogoutRepresents(c: Config, s: Store<Key>, b: Book, sid: string, now: nat)
    requires Represents(c, s, b, now)
    ensures Represents(c, DeleteSession(s, sid, now), BookDelete(b, sid, now), now)
  {
    assert Agrees(c, s, b, sid, now);
    if Listed(b, sid, now) {
      DeleteOne(c, s, b[sid].user, sid, b[sid], now);
      WithoutRepresents(c, s, DeleteSession(s, sid, now), b, b - {sid}, b[sid].user, {sid}, now);
    }
  }

  lemma RotateRepresents(c: Config, s: Store<Key>, b: Book, sid: string, token: string, now: nat)
    requires Represents(c, s, b, now) && Live(s, SessionKey(sid), now)
    ensures Represents(c, UpdateTokenHash(c, s, sid, token, now), BookRotate(c, b, sid, token, now), now)
  {
    var s' := UpdateTokenHash(c, s, sid, token, now);
    var b' := BookRotate(c, b, sid, token, now);
    assert Agrees(c, s, b, sid, now);
    assert Fields(c, b[sid]) + map["refresh_token_hash" := c.hash(token)] == Fields(c, b[sid].(token := token));
    assert SessionKey(sid) in s' && s'[SessionKey(sid)] == EntryOf(c, b[sid].(token := token, expires := now + c.ttl));
    forall u ensures IndexSound(s', u) && Index(s', u) == Index(s, u) { assert IndexSound(s, u); }
    forall other ensures Agrees(c, s', b', other, now) { assert Agrees(c, s, b, other, now); }
    forall u, other ensures OwnIndex(s', b', u, other, now) { assert OwnIndex(s, b, u, other, now); }
  }

  /** Every live session of the user was seen when its index was read. */
  ghost predicate Complete(s: Store<Key>, w: Wiping, now: nat) {
    forall sid <- Index(s, w.user) :: Live(s, SessionKey(sid), now) ==> sid in w.sids
  }

  /** The sessions seen belong to the user. */
  ghost predicate Own(b: Book, w: Wiping, now: nat) {
    forall sid <- w.sids :: Listed(b, sid, now) ==> b[sid].user == w.user
  }

  lemma WipeRepresents(c: Config, s: Store<Key>, b: Book, w: Wiping, now: nat)
    requires Represents(c, s, b, now) && Complete(s, w, now) && Own(b, w, now)
    ensures Represents(c, WipeKeys(s, w.user, w.sids), BookWipe(b, w.user), now)
  {
    var s' := WipeKeys(s, w.user, w.sids);
    var b' := BookWipe(b, w.user);
    forall u ensures IndexSound(s', u) && (u != w.user ==> Index(s', u) == Index(s, u)) { assert IndexSound(s, u); }
    assert w.sids != {} ==> IndexKey(w.user) !in s';
    forall sid ensures Agrees(c, s', b', sid, now) {
      assert Agrees(c, s, b, sid, now);
    }
    forall u, sid ensures OwnIndex(s', b', u, sid, now) { assert OwnIndex(s, b, u, sid, now); }
  }

  // ---------- Runs ----------

  /** No session ran out or was revoked while its refresh was under way, and none was opened
      while its user's sessions were being revoked. */
  ghost predicate Undisturbed(s: State, e: Event) {
    && (e.Rotate? && e.op in s.refreshes ==> Live(s.store, SessionKey(s.refreshes[e.op]), e.now))
    && (e.Wipe? && e.op in s.wipes ==> Complete(s.store, s.wipes[e.op], e.now))
  }

  /** A login that ends finds no session on its device: it deleted those that it found, and
      none came since. */
  predicate Alone(s: State, e: Event) {
    e.EndLogin? && CanEnd(s, e) ==> Matching(s.store, e.session.user, e.session.device, e.now) == {}
  }

  ghost predicate PendingWipes(s: State, b: Book, t: nat) {
    forall op <- s.wipes :: Own(b, s.wipes[op], t) && s.wipes[op].sids <= s.issued.Keys
  }

  /** The token in the book is the last one handed out. */
  ghost predicate TokensLatest(b: Book, issued: map<string, string>, t: nat) {
    forall sid :: Listed(b, sid, t) ==> sid in issued && b[sid].token == issued[sid]
  }

  ghost predicate Inv(c: Config, s: State, b: Book, t: nat) {
    Represents(c, s.store, b, t) && AllIssued(s) && PendingWipes(s, b, t) && TokensLatest(b, s.issued, t)
  }

  lemma InvLater(c: Config, s: State, b: Book, t: nat, later: nat)
    requires Inv(c, s, b, t) && t <= later
    ensures Inv(c, s, b, later) && (OnePerDevice(b, t) ==> OnePerDevice(b, later))
  {
    Later(c, s.store, b, t, later);
    forall op <- s.wipes ensures Own(b, s.wipes[op], later) { assert Own(b, s.wipes[op], t); }
  }

  lemma DeleteShrinks(s: Store<Key>, sid: string, now: nat)
    requires forall u :: IndexSound(s, u)
    ensures forall u :: IndexSound(DeleteSession(s, sid, now), u)
    ensures DeleteSession(s, sid, now).Keys <= s.Keys
    ensures forall u :: Index(DeleteSession(s, sid, now), u) <= Index(s, u)
  {
    var s' := DeleteSession(s, sid, now);
    forall u ensures IndexSound(s', u) && Index(s', u) <= Index(s, u) { assert IndexSound(s, u); }
  }

  lemma DeleteInv(c: Config, s: State, b: Book, sid: string, now: nat, s': State)
    requires Inv(c, s, b, now) && s' == s.(store := DeleteSession(s.store, sid, now), logins := s'.logins)
    ensures Inv(c, s', BookDelete(b, sid, now), now)
  {
    LogoutRepresents(c, s.store, b, sid, now);
    DeleteShrinks(s.store, sid, now);
    var b' := BookDelete(b, sid, now);
    forall op <- s'.wipes ensures Own(b', s'.wipes[op], now) { assert Own(b, s.wipes[op], now); }
  }

  lemma AddIssued(c: Config, s: State, sid: string, x: Session, now: nat, s': State)
    requires AllIssued(s) && (forall u :: IndexSound(s.store, u))
    requires s'.store == AddUserSession(c, s.store, sid, x, now) && s'.issued == s.issued[sid := x.token]
    requires s'.refreshes == s.refreshes
    ensures AllIssued(s')
  {
    forall u ensures Index(s'.store, u) <= Index(s.store, u) + {sid} { assert IndexSound(s.store, u); }
    forall u, y | y in Index(s'.store, u) ensures y in s'.issued { assert y in Index(s.store, u) + {sid}; }
  }

  lemma EndLoginInv(c: Config, s: State, b: Book, e: Event)
    requires Inv(c, s, b, e.now) && e.EndLogin? && CanEnd(s, e) && Sound(c, s, e)
    ensures Inv(c, Next(c, s, e), b[e.sid := e.session], e.now)
  {
    var s' := Next(c, s, e);
    forall u ensures e.sid !in Index(s.store, u) {
    }
    AddRepresents(c, s.store, b, e.sid, e.session, e.now);
    AddIssued(c, s, e.sid, e.session, e.now, s');
    var b' := b[e.sid := e.session];
    forall op <- s'.wipes ensures Own(b', s'.wipes[op], e.now) { assert Own(b, s.wipes[op], e.now); }
  }

  lemma RotateInv(c: Config, s: State, b: Book, e: Event)
    requires Inv(c, s, b, e.now) && e.Rotate? && e.op in s.refreshes && Undisturbed(s, e)
    ensures Inv(c, Next(c, s, e), BookNext(c, b, s, e), e.now)
  {
    var s' := Next(c, s, e);
    var sid := s.refreshes[e.op];
    RotateRepresents(c, s.store, b, sid, e.token, e.now);
    assert Agrees(c, s.store, b, sid, e.now);
    var b' := BookNext(c, b, s, e);
    forall u, x | x in Index(s'.store, u)
        ensures x in s'.issued { assert IndexSound(s.store, u) && x in Index(s.store, u); }
    forall op <- s'.wipes ensures Own(b', s'.wipes[op], e.now) && s'.wipes[op].sids <= s'.issued.Keys {
      assert Own(b, s.wipes[op], e.now);
    }
  }

  lemma WipeInv(c: Config, s: State, b: Book, e: Event)
    requires Inv(c, s, b, e.now) && e.Wipe? && e.op in s.wipes && Undisturbed(s, e)
    ensures Inv(c, Next(c, s, e), BookNext(c, b, s, e), e.now)
  {
    var s' := Next(c, s, e);
    WipeRepresents(c, s.store, b, s.wipes[e.op], e.now);
    var b' := BookNext(c, b, s, e);
    forall u, x | x in Index(s'.store, u)
        ensures x in s'.issued { assert IndexSound(s.store, u) && x in Index(s.store, u); }
    forall op <- s'.wipes ensures Own(b', s'.wipes[op], e.now) { assert Own(b, s.wipes[op], e.now); }
  }

  lemma VerifyInv(c: Config, s: State, b: Book, e: Event)
    requires Inv(c, s, b, e.now) && (e.Verify? || e.BeginLogin?)
    ensures Inv(c, Next(c, s, e), b, e.now)
  {
  }

  lemma ReadInv(c: Config, s: State, b: Book, e: Event)
    requires Inv(c, s, b, e.now) && e.ReadIndex?
    ensures Inv(c, Next(c, s, e), b, e.now)
  {
    var s' := Next(c, s, e);
    var w := s'.wipes[e.op];
    assert IndexSound(s.store, e.user) && w.sids == Index(s.store, e.user);
    forall sid <- w.sids ensures Listed(b, sid, e.now) ==> b[sid].user == e.user {
      assert OwnIndex(s.store, b, e.user, sid, e.now);
    }
    forall op <- s'.wipes ensures Own(b, s'.wipes[op], e.now) && s'.wipes[op].sids <= s'.issued.Keys {
      if op != e.op { assert Own(b, s.wipes[op], e.now); }
    }
  }

  lemma StepInv(c: Config, s: State, b: Book, e: Event, t: nat)
    requires Inv(c, s, b, t) && t <= e.now && Sound(c, s, e) && Undisturbed(s, e)
    ensures Inv(c, Next(c, s, e), BookNext(c, b, s, e), e.now)
  {
    InvLater(c, s, b, t, e.now);
    match e {
      case BeginLogin(_, _, _, _) => VerifyInv(c, s, b, e);
      case Drop(op, sid, now) =>
        if op in s.logins && sid in s.logins[op].found { DeleteInv(c, s, b, sid, now, Next(c, s, e)); }
      case EndLogin(_, _, _, _) => if CanEnd(s, e) { EndLoginInv(c, s, b, e); }
      case Logout(sid, now) => DeleteInv(c, s, b, sid, now, Next(c, s, e));
      case Verify(_, _, _, _) => VerifyInv(c, s, b, e);
      case Rotate(op, _, _) => if op in s.refreshes { RotateInv(c, s, b, e); }
      case ReadIndex(_, _, _) => ReadInv(c, s, b, e);
      case Wipe(op, _) => if op in s.wipes { WipeInv(c, s, b, e); }
    }
  }

  function Clock(es: seq<Event>): nat {
    if es == [] then 0 else es[|es| - 1].now
  }

  ghost predicate Calm(es: seq<Event>, states: seq<State>)
    requires |states| == |es| + 1
  {
    forall i :: 0 <= i < |es| ==> Undisturbed(states[i], es[i])
  }

  /** No two logins on one device overlap so that one ends after the other. */
  ghost predicate LoginsApart(es: seq<Event>, states: seq<State>)
    requires |states| == |es| + 1
  {
    forall i :: 0 <= i < |es| ==> Alone(states[i], es[i])
  }

  lemma LastStep(c: Config, es: seq<Event>, states: seq<State>)
    requires IsRun(c, es, states) && Calm(es, states) && es != []
    ensures var n := |es| - 1;
            && IsRun(c, es[..n], states[..n + 1]) && Calm(es[..n], states[..n + 1])
            && states[n + 1] == Next(c, states[n], es[n]) && Sound(c, states[n], es[n]) && Undisturbed(states[n], es[n])
            && Clock(es[..n]) <= es[n].now
            && states[..n + 1][n] == states[n]
  {
    var n := |es| - 1;
    assert Step(c, states[n], es[n], states[n + 1]);
  }

  /** On every undisturbed run Redis holds what the book says. */
  lemma {:induction false} RunRepresents(c: Config, es: seq<Event>, states: seq<State>)
    requires IsRun(c, es, states) && Calm(es, states)
    ensures Inv(c, states[|es|], BookOf(c, es, states), Clock(es))
  {
    if es != [] {
      var n := |es| - 1;
      LastStep(c, es, states);
      RunRepresents(c, es[..n], states[..n + 1]);
      StepInv(c, states[n], BookOf(c, es[..n], states[..n + 1]), es[n], Clock(es[..n]));
    }
  }

  // ---------- One session per device ----------

  lemma DevicesStay(b: Book, b': Book, t: nat)
    requires OnePerDevice(b, t)
    requires forall sid :: Listed(b', sid, t) ==>
        Listed(b, sid, t) && b'[sid].user == b[sid].user && b'[sid].device == b[sid].device
    ensures OnePerDevice(b', t)
  {
  }

  /** Adding a session keeps one per device exactly when its device has none. */
  lemma AddDevice(b: Book, sid: string, x: Session, now: nat)
    requires OnePerDevice(b, now) && sid !in b && now < x.expires
    ensures OnePerDevice(b[sid := x], now) <==>
            forall other :: Listed(b, other, now) ==> b[other].user != x.user || b[other].device != x.device
  {
    var b' := b[sid := x];
    if other :| Listed(b, other, now) && b[other].user == x.user && b[other].device == x.device {
      assert Listed(b', other, now) && Listed(b', sid, now) && SameDevice(b', other, sid);
    } else {
      forall y, z | Listed(b', y, now) && Listed(b', z, now) && SameDevice(b', y, z) ensures y == z {
        if y != sid && z != sid { assert Listed(b, y, now) && Listed(b, z, now) && SameDevice(b, y, z); }
      }
    }
  }

  lemma StepDevices(c: Config, s: State, b: Book, e: Event, t: nat)
    requires Inv(c, s, b, t) && t <= e.now && OnePerDevice(b, t) && Sound(c, s, e) && Undisturbed(s, e) && Alone(s, e)
    ensures OnePerDevice(BookNext(c, b, s, e), e.now)
  {
    InvLater(c, s, b, t, e.now);
    if e.EndLogin? && CanEnd(s, e) {
      MatchingListed(c, s.store, b, e.session.user, e.session.device, e.now);
      EndDevices(b, e.sid, e.session, e.now);
    } else {
      DevicesStay(b, BookNext(c, b, s, e), e.now);
    }
  }

  lemma EndDevices(b: Book, sid: string, x: Session, now: nat)
    requires OnePerDevice(b, now)
    requires forall other :: Listed(b, other, now) ==> b[other].user != x.user || b[other].device != x.device
    ensures OnePerDevice(b[sid := x], now)
  {
    var b' := b[sid := x];
    forall y, z | Listed(b', y, now) && Listed(b', z, now) && SameDevice(b', y, z) ensures y == z {
      if y != sid && z != sid { assert Listed(b, y, now) && Listed(b, z, now) && SameDevice(b, y, z); }
    }
  }

  lemma {:induction false} RunDevices(c: Config, es: seq<Event>, states: seq<State>)
    requires IsRun(c, es, states) && Calm(es, states) && LoginsApart(es, states)
    ensures OnePerDevice(BookOf(c, es, states), Clock(es))
  {
    if es != [] {
      var n := |es| - 1;
      LastStep(c, es, states);
      assert LoginsApart(es[..n], states[..n + 1]) && Alone(states[n], es[n]);
      RunDevices(c, es[..n], states[..n + 1]);
      RunRepresents(c, es[..n], states[..n + 1]);
      StepDevices(c, states[n], BookOf(c, es[..n], states[..n + 1]), es[n], Clock(es[..n]));
    }
  }

  // ---------- What a caller may rely on ----------

  predicate OwnedBy(s: Store<Key>, sid: string, user: string, now: nat) {
    Live(s, SessionKey(sid), now) && "user_id" in GetHash(s, SessionKey(sid), now)
        && GetHash(s, SessionKey(sid), now)["user_id"] == user
  }

  /** Every live session is owned and is in its owner's index. */
  ghost predicate AllIndexed(s: Store<Key>, now: nat) {
    forall sid :: Live(s, SessionKey(sid), now) ==>
      exists user :: OwnedBy(s, sid, user, now) && sid in Index(s, user)
  }

  predicate SameHashDevice(s: Store<Key>, x: string, y: string, now: nat) {
    var f, g := GetHash(s, SessionKey(x), now), GetHash(s, SessionKey(y), now);
    && "user_id" in f && "user_id" in g && f["user_id"] == g["user_id"]
    && "ip" in f && "ip" in g && f["ip"] == g["ip"]
    && "user_agent" in f && "user_agent" in g && f["user_agent"] == g["user_agent"]
  }

  lemma InvIndexed(c: Config, s: Store<Key>, b: Book, now: nat)
    requires Represents(c, s, b, now)
    ensures AllIndexed(s, now)
  {
    forall sid | Live(s, SessionKey(sid), now)
      ensures exists user :: OwnedBy(s, sid, user, now) && sid in Index(s, user)
    {
      assert Agrees(c, s, b, sid, now);
      assert OwnedBy(s, sid, b[sid].user, now);
    }
  }

  /** No two live sessions of one user are on one device. */
  ghost predicate DevicesApart(s: Store<Key>, now: nat) {
    forall x, y :: Live(s, SessionKey(x), now) && Live(s, SessionKey(y), now) && SameHashDevice(s, x, y, now) ==> x == y
  }

  lemma ApartByBook(c: Config, s: Store<Key>, b: Book, now: nat)
    requires Represents(c, s, b, now)
    ensures DevicesApart(s, now) <==> OnePerDevice(b, now)
  {
    forall x, y
      ensures Live(s, SessionKey(x), now) && Live(s, SessionKey(y), now) && SameHashDevice(s, x, y, now) <==>
              Listed(b, x, now) && Listed(b, y, now) && SameDevice(b, x, y)
    {
      assert Agrees(c, s, b, x, now) && Agrees(c, s, b, y, now);
    }
    if DevicesApart(s, now) {
      forall x, y | Listed(b, x, now) && Listed(b, y, now) && SameDevice(b, x, y) ensures x == y {
        assert Live(s, SessionKey(x), now) && Live(s, SessionKey(y), now) && SameHashDevice(s, x, y, now);
      }
    }
  }

  /** At any time after an undisturbed run live sessions are indexed, and if no login ended on
      a device that another had taken meanwhile, no two are on one device. */
  lemma SessionsConsistent(c: Config, es: seq<Event>, states: seq<State>, now: nat)
    requires IsRun(c, es, states) && Calm(es, states) && Clock(es) <= now
    ensures AllIndexed(states[|es|].store, now)
    ensures LoginsApart(es, states) ==> DevicesApart(states[|es|].store, now)
  {
    var s, b := states[|es|], BookOf(c, es, states);
    RunRepresents(c, es, states);
    InvLater(c, s, b, Clock(es), now);
    InvIndexed(c, s.store, b, now);
    if LoginsApart(es, states) { RunDevices(c, es, states); }
    ApartByBook(c, s.store, b, now);
  }

  /** A refresh token verifies exactly when its session is live and it is the token last
      handed out for it. */
  lemma VerifiesExactly(c: Config, es: seq<Event>, states: seq<State>, sid: string, token: string, now: nat)
    requires IsRun(c, es, states) && Calm(es, states) && Clock(es) <= now
    requires forall x, y :: c.hash(x) == c.hash(y) ==> x == y
    ensures var s := states[|es|];
            Verifies(c, s.store, sid, token, now) <==>
            Live(s.store, SessionKey(sid), now) && sid in s.issued && s.issued[sid] == token
  {
    var s, b := states[|es|], BookOf(c, es, states);
    RunRepresents(c, es, states);
    InvLater(c, s, b, Clock(es), now);
    assert Agrees(c, s.store, b, sid, now);
    if Listed(b, sid, now) {
      assert GetHash(s.store, SessionKey(sid), now) == Fields(c, b[sid]);
    }
  }

  // ---------- Exactly when a disturbance does harm ----------

  /** Ending a refresh keeps every live session in its index exactly when the refreshed
      session is still live: otherwise it brings back a session that belongs to nobody. */
  lemma RotationSafeExactly(c: Config, s: Store<Key>, b: Book, sid: string, token: string, now: nat)
    requires Represents(c, s, b, now) && 0 < c.ttl
    ensures AllIndexed(UpdateTokenHash(c, s, sid, token, now), now) <==> Live(s, SessionKey(sid), now)
  {
    var s' := UpdateTokenHash(c, s, sid, token, now);
    if Live(s, SessionKey(sid), now) {
      RotateRepresents(c, s, b, sid, token, now);
      InvIndexed(c, s', BookRotate(c, b, sid, token, now), now);
    } else {
      assert s'[SessionKey(sid)] == Entry(Hash(map["refresh_token_hash" := c.hash(token)]), Some(now + c.ttl));
      assert Live(s', SessionKey(sid), now);
      assert forall user :: !OwnedBy(s', sid, user, now);
    }
  }

  /** Ending a revocation leaves the user without a live session exactly when each was seen
      at its beginning. */
  lemma RevocationCompleteExactly(c: Config, s: Store<Key>, b: Book, w: Wiping, now: nat)
    requires Represents(c, s, b, now)
    ensures (forall sid :: !OwnedBy(WipeKeys(s, w.user, w.sids), sid, w.user, now)) <==> Complete(s, w, now)
  {
    var s' := WipeKeys(s, w.user, w.sids);
    if Complete(s, w, now) {
      forall sid ensures !OwnedBy(s', sid, w.user, now) { assert Agrees(c, s, b, sid, now); }
    } else {
      var sid :| sid in Index(s, w.user) && Live(s, SessionKey(sid), now) && sid !in w.sids;
      assert Agrees(c, s, b, sid, now) && OwnIndex(s, b, w.user, sid, now);
      assert OwnedBy(s', sid, w.user, now);
    }
  }

  /** After any undisturbed run: the end of a refresh keeps every live session indexed if and
      only if the refreshed session is still live. */
  lemma RefreshSafeExactly(c: Config, es: seq<Event>, states: seq<State>, e: Event, s': State)
    requires IsRun(c, es, states) && Calm(es, states) && Clock(es) <= e.now && 0 < c.ttl
    requires e.Rotate? && e.op in states[|es|].refreshes && Step(c, states[|es|], e, s')
    ensures AllIndexed(s'.store, e.now) <==> Live(states[|es|].store, SessionKey(states[|es|].refreshes[e.op]), e.now)
  {
    var s, b := states[|es|], BookOf(c, es, states);
    RunRepresents(c, es, states);
    InvLater(c, s, b, Clock(es), e.now);
    RotationSafeExactly(c, s.store, b, s.refreshes[e.op], e.token, e.now);
  }

  /** After any undisturbed run: the end of a revocation leaves the user without a live
      session if and only if each was seen at its beginning. */
  lemma RevokedExactly(c: Config, es: seq<Event>, states: seq<State>, e: Event, s': State)
    requires IsRun(c, es, states) && Calm(es, states) && Clock(es) <= e.now
    requires e.Wipe? && e.op in states[|es|].wipes && Step(c, states[|es|], e, s')
    ensures var s := states[|es|];
            (forall sid :: !OwnedBy(s'.store, sid, s.wipes[e.op].user, e.now)) <==>
                Complete(s.store, s.wipes[e.op], e.now)
  {
    var s, b := states[|es|], BookOf(c, es, states);
    RunRepresents(c, es, states);
    InvLater(c, s, b, Clock(es), e.now);
    RevocationCompleteExactly(c, s.store, b, s.wipes[e.op], e.now);
  }

  /** After any run without overlap: the end of a login keeps one session per device if and
      only if no session of that user and device is live but those that it deleted. */
  lemma LoginSafeExactly(c: Config, es: seq<Event>, states: seq<State>, e: Event)
    requires IsRun(c, es, states) && Calm(es, states) && LoginsApart(es, states) && Clock(es) <= e.now && 0 < c.ttl
    requires e.EndLogin? && CanEnd(states[|es|], e) && Sound(c, states[|es|], e)
    ensures DevicesApart(Next(c, states[|es|], e).store, e.now) <==>
            Matching(states[|es|].store, e.session.user, e.session.device, e.now) == {}
  {
    var s, b := states[|es|], BookOf(c, es, states);
    RunRepresents(c, es, states);
    RunDevices(c, es, states);
    InvLater(c, s, b, Clock(es), e.now);
    NotYet(c, s, b, e);
    EndLoginInv(c, s, b - {e.sid}, e);
    MatchingListed(c, s.store, b - {e.sid}, e.session.user, e.session.device, e.now);
    AddDevice(b - {e.sid}, e.sid, e.session, e.now);
    ApartByBook(c, Next(c, s, e).store, (b - {e.sid})[e.sid := e.session], e.now);
  }

  /** An id that was never stored is not live in the book. */
  lemma NotYet(c: Config, s: State, b: Book, e: Event)
    requires Inv(c, s, b, e.now) && OnePerDevice(b, e.now) && e.EndLogin? && SessionKey(e.sid) !in s.store
    ensures Inv(c, s, b - {e.sid}, e.now) && OnePerDevice(b - {e.sid}, e.now)
  {
    var b' := b - {e.sid};
    assert Agrees(c, s.store, b, e.sid, e.now);
    forall sid ensures Agrees(c, s.store, b', sid, e.now) { assert Agrees(c, s.store, b, sid, e.now); }
    forall u, sid ensures OwnIndex(s.store, b', u, sid, e.now) { assert OwnIndex(s.store, b, u, sid, e.now); }
    forall op <- s.wipes ensures Own(b', s.wipes[op], e.now) { assert Own(b, s.wipes[op], e.now); }
    DevicesStay(b, b', e.now);
  }

  /** A login with nothing in between ends alone on its device. */
  lemma UninterruptedAlone(c: Config, s: Store<Key>, b: Book, sid: string, x: Session, now: nat, order: seq<string>,
                           after: Store<Key>)
    requires Represents(c, s, b, now) && x.user != "" && LoginStep(c, s, sid, x, now, order, after)
    ensures Matching(DeleteEach(s, order, now), x.user, x.device, now) == {}
  {
    MatchingListed(c, s, b, x.user, x.device, now);
    DeleteAll(c, s, b, x.user, order, now);
    var mid := DeleteEach(s, order, now);
    var left := map other <- b | other !in order :: b[other];
    WithoutRepresents(c, s, mid, b, left, x.user, Gone(order), now);
    MatchingListed(c, mid, left, x.user, x.device, now);
  }

  // ---------- Two runs that go wrong ----------

  const DEVICE := Device("ip", "agent")

  function Alice(c: Config): Session {
    Session("alice", DEVICE, "first", "password", "now", c.ttl)
  }

  lemma Opened(c: Config)
    requires 0 < c.ttl
    ensures var s := AddUserSession(c, map[], "sid", Alice(c), 0);
            && s == map[SessionKey("sid") := EntryOf(c, Alice(c)), IndexKey("alice") := Entry(Members({"sid"}), None)]
            && Verifies(c, s, "sid", "first", 0)
  {
    var s := AddUserSession(c, map[], "sid", Alice(c), 0);
    assert s[SessionKey("sid")] == EntryOf(c, Alice(c));
    assert GetHash(s, SessionKey("sid"), 0) == Fields(c, Alice(c));
  }

  function Revival(c: Config): seq<Event> {
    [BeginLogin(0, "alice", DEVICE, 0), EndLogin(0, "sid", Alice(c), 0), Verify(1, "sid", "first", 0), Logout("sid", 0),
     Rotate(1, "second", 0)]
  }

  function RevivalStates(c: Config): seq<State> {
    var store := AddUserSession(c, map[], "sid", Alice(c), 0);
    var gone := DeleteSession(store, "sid", 0);
    var issued := map["sid" := "first"];
    [Start, Start.(logins := map[0 := Opening("alice", DEVICE, {})]), State(store, map[], map[], map[], issued),
     State(store, map[], map[1 := "sid"], map[], issued), State(gone, map[], map[1 := "sid"], map[], issued),
     State(UpdateTokenHash(c, gone, "sid", "second", 0), map[], map[], map[], map["sid" := "second"])]
  }

  lemma Began()
    ensures map[0 := Opening("alice", DEVICE, {})] - {0} == map[] && map[1 := "sid"] - {1} == map[]
    ensures Matching(map[], "alice", DEVICE, 0) == {}
  {
  }

  lemma RevivalBegins(c: Config, i: nat)
    requires 0 < c.ttl && i < 3
    ensures RevivalStates(c)[i + 1] == Next(c, RevivalStates(c)[i], Revival(c)[i])
    ensures Sound(c, RevivalStates(c)[i], Revival(c)[i])
  {
    Opened(c);
    Began();
  }

  lemma RevivalLogout(c: Config)
    ensures RevivalStates(c)[4] == Next(c, RevivalStates(c)[3], Revival(c)[3])
  {
  }

  lemma RevivalEnds(c: Config)
    ensures RevivalStates(c)[5] == Next(c, RevivalStates(c)[4], Revival(c)[4])
  {
    Began();
    assert map["sid" := "first"]["sid" := "second"] == map["sid" := "second"];
  }

  lemma RevivalSteps(c: Config, i: nat)
    requires 0 < c.ttl && i < 5
    ensures RevivalStates(c)[i + 1] == Next(c, RevivalStates(c)[i], Revival(c)[i])
    ensures Sound(c, RevivalStates(c)[i], Revival(c)[i])
  {
    if i < 3 { RevivalBegins(c, i); } else if i == 3 { RevivalLogout(c); } else { RevivalEnds(c); }
  }

  lemma RevivalGone(c: Config)
    requires 0 < c.ttl
    ensures !Live(RevivalStates(c)[4].store, SessionKey("sid"), 0)
  {
    Opened(c);
  }

  /** The beginning of a run given step by step. */
  lemma PrefixRuns(c: Config, es: seq<Event>, states: seq<State>, n: nat)
    requires n <= |es| && |states| == |es| + 1 && states[0] == Start
    requires forall i :: 0 <= i < n ==> Step(c, states[i], es[i], states[i + 1]) && Sound(c, states[i], es[i])
    requires forall i :: 0 < i < n ==> es[i - 1].now <= es[i].now
    ensures IsRun(c, es[..n], states[..n + 1])
  {
    forall i | 0 <= i < n ensures Step(c, states[..n + 1][i], es[..n][i], states[..n + 1][i + 1])
        && Sound(c, states[..n + 1][i], es[..n][i]) {
      assert Step(c, states[i], es[i], states[i + 1]) && Sound(c, states[i], es[i]);
    }
  }

  lemma RevivalRuns(c: Config, n: nat)
    requires 0 < c.ttl && n <= 5
    ensures IsRun(c, Revival(c)[..n], RevivalStates(c)[..n + 1])
  {
    forall i | 0 <= i < n
      ensures Step(c, RevivalStates(c)[i], Revival(c)[i], RevivalStates(c)[i + 1])
          && Sound(c, RevivalStates(c)[i], Revival(c)[i])
    {
      RevivalSteps(c, i);
    }
    PrefixRuns(c, Revival(c), RevivalStates(c), n);
  }

  lemma RevivalCalm(c: Config)
    ensures Calm(Revival(c)[..4], RevivalStates(c)[..5])
  {
  }

  lemma LastRefresh(c: Config, es: seq<Event>, states: seq<State>, n: nat)
    requires |es| == n + 1 && |states| == n + 2 && IsRun(c, es[..n], states[..n + 1]) && Calm(es[..n], states[..n + 1])
    requires es[n].Rotate? && es[n].op in states[n].refreshes && Step(c, states[n], es[n], states[n + 1])
    requires Clock(es[..n]) <= es[n].now && 0 < c.ttl
    requires !Live(states[n].store, SessionKey(states[n].refreshes[es[n].op]), es[n].now)
    ensures !AllIndexed(states[n + 1].store, es[n].now)
  {
    RefreshSafeExactly(c, es[..n], states[..n + 1], es[n], states[n + 1]);
  }

  /** A logout between the two halves of a refresh: the refresh brings back a live session
      that is in no index. */
  lemma RefreshCanRevive(c: Config) returns (es: seq<Event>, states: seq<State>)
    requires 0 < c.ttl
    ensures IsRun(c, es, states) && !AllIndexed(states[|es|].store, 0)
  {
    es, states := Revival(c), RevivalStates(c);
    RevivalRuns(c, 4);
    RevivalRuns(c, 5);
    RevivalCalm(c);
    RevivalSteps(c, 4);
    RevivalGone(c);
    LastRefresh(c, es, states, 4);
    assert es[..5] == es && states[..6] == states;
  }

  function Overlap(c: Config): seq<Event> {
    [BeginLogin(0, "alice", DEVICE, 0), BeginLogin(1, "alice", DEVICE, 0), EndLogin(0, "sid", Alice(c), 0),
     EndLogin(1, "other", Alice(c), 0)]
  }

  function OverlapStates(c: Config): seq<State> {
    var first, second := Opening("alice", DEVICE, {}), Opening("alice", DEVICE, {});
    var store := AddUserSession(c, map[], "sid", Alice(c), 0);
    [Start, Start.(logins := map[0 := first]), Start.(logins := map[0 := first, 1 := second]),
     State(store, map[1 := second], map[], map[], map["sid" := "first"]),
     State(AddUserSession(c, store, "other", Alice(c), 0), map[], map[], map[],
           map["sid" := "first", "other" := "first"])]
  }

  lemma OverlapSteps(c: Config, i: nat)
    requires 0 < c.ttl && i < 4
    ensures OverlapStates(c)[i + 1] == Next(c, OverlapStates(c)[i], Overlap(c)[i])
    ensures Sound(c, OverlapStates(c)[i], Overlap(c)[i])
  {
    Opened(c);
    Began();
    var x := Opening("alice", DEVICE, {});
    assert map[0 := x, 1 := x] - {0} == map[1 := x] && map[1 := x] - {1} == map[];
    assert map[0 := x][1 := x] == map[0 := x, 1 := x];
    assert map["sid" := "first"]["other" := "first"] == map["sid" := "first", "other" := "first"];
  }

  lemma OverlapRuns(c: Config, n: nat)
    requires 0 < c.ttl && n <= 4
    ensures IsRun(c, Overlap(c)[..n], OverlapStates(c)[..n + 1])
  {
    forall i | 0 <= i < n
      ensures Step(c, OverlapStates(c)[i], Overlap(c)[i], OverlapStates(c)[i + 1])
          && Sound(c, OverlapStates(c)[i], Overlap(c)[i])
    {
      OverlapSteps(c, i);
    }
    PrefixRuns(c, Overlap(c), OverlapStates(c), n);
  }

  lemma OverlapCalm(c: Config, n: nat)
    requires n <= 4
    ensures Calm(Overlap(c)[..n], OverlapStates(c)[..n + 1])
  {
  }

  lemma LastLogin(c: Config, es: seq<Event>, states: seq<State>, n: nat)
    requires |es| == n + 1 && |states| == n + 2 && IsRun(c, es[..n], states[..n + 1]) && Calm(es[..n], states[..n + 1])
    requires LoginsApart(es[..n], states[..n + 1]) && Clock(es[..n]) <= es[n].now && 0 < c.ttl
    requires es[n].EndLogin? && CanEnd(states[n], es[n]) && Sound(c, states[n], es[n])
        && states[n + 1] == Next(c, states[n], es[n])
    requires Matching(states[n].store, es[n].session.user, es[n].session.device, es[n].now) != {}
    ensures !DevicesApart(states[n + 1].store, es[n].now)
  {
    LoginSafeExactly(c, es[..n], states[..n + 1], es[n]);
  }

  lemma OverlapMatches(c: Config)
    requires 0 < c.ttl
    ensures "sid" in Matching(OverlapStates(c)[3].store, "alice", DEVICE, 0)
    ensures forall i :: 0 <= i < 3 ==> Alone(OverlapStates(c)[i], Overlap(c)[i])
  {
    Opened(c);
    Began();
    assert GetHash(OverlapStates(c)[3].store, SessionKey("sid"), 0) == Fields(c, Alice(c));
  }

  /** The last login ends while the first one's session is live. */
  lemma OverlapEnds(c: Config)
    requires 0 < c.ttl
    ensures var s, e := OverlapStates(c)[3], Overlap(c)[3];
            && e.EndLogin? && CanEnd(s, e) && Matching(s.store, e.session.user, e.session.device, e.now) != {}
    ensures LoginsApart(Overlap(c)[..3], OverlapStates(c)[..4]) && Clock(Overlap(c)[..3]) == 0
  {
    OverlapMatches(c);
  }

  /** Two logins from one device that both read before either adds: two live sessions of one
      user and device. */
  lemma LoginsCanOverlap(c: Config) returns (es: seq<Event>, states: seq<State>)
    requires 0 < c.ttl
    ensures IsRun(c, es, states) && Calm(es, states) && !DevicesApart(states[|es|].store, 0)
  {
    es, states := Overlap(c), OverlapStates(c);
    OverlapRuns(c, 3);
    OverlapCalm(c, 3);
    OverlapEnds(c);
    OverlapSteps(c, 3);
    LastLogin(c, es, states, 3);
    WholeOverlap(c);
  }

  lemma WholeOverlap(c: Config)
    requires 0 < c.ttl
    ensures IsRun(c, Overlap(c), OverlapStates(c)) && Calm(Overlap(c), OverlapStates(c))
  {
    OverlapRuns(c, 4);
    OverlapCalm(c, 4);
    assert Overlap(c)[..4] == Overlap(c) && OverlapStates(c)[..5] == OverlapStates(c);
  }
}
