/** Login sessions in Redis: a hash per session and a set of session ids per user. A login
    reads the sessions on its device, deletes them one by one and then adds its own;
    refreshing a token and revoking all sessions take two steps each. Other calls may fall
    between any two of these steps. */
module Sessions {
  import opened Options
  import opened RedisStore

  datatype Key = SessionKey(sid: string) | IndexKey(user: string) | ActionsCache(sid: string)
      | AnalyticsCache(sid: string)

  datatype Config = Config(hash: string -> string, ttl: nat)

  /** The device is the pair of strings in the order in which they are passed. */
  datatype Device = Device(ip: string, agent: string)

  datatype Session = Session(user: string, device: Device, token: string, authMethod: string, created: string,
                             expires: nat)

  datatype Wiping = Wiping(user: string, sids: set<string>)

  /** A login under way: the sessions that it found and has not yet deleted. */
  datatype Opening = Opening(user: string, device: Device, found: set<string>)

  datatype State = State(store: Store<Key>, logins: map<nat, Opening>, refreshes: map<nat, string>,
                         wipes: map<nat, Wiping>, issued: map<string, string>)

  datatype Event =
    | BeginLogin(op: nat, user: string, device: Device, now: nat)
    | Drop(op: nat, sid: string, now: nat)
    | EndLogin(op: nat, sid: string, session: Session, now: nat)
    | Logout(sid: string, now: nat)
    | Verify(op: nat, sid: string, token: string, now: nat)   // a refresh begins
    | Rotate(op: nat, token: string, now: nat)                // and ends
    | ReadIndex(op: nat, user: string, now: nat)              // revoking all sessions begins
    | Wipe(op: nat, now: nat)                                 // and ends

  // ---------- The repository ----------

  function Fields(c: Config, x: Session): map<string, string> {
    map["user_id" := x.user, "ip" := x.device.ip, "user_agent" := x.device.agent,
        "refresh_token_hash" := c.hash(x.token), "auth_method" := x.authMethod, "created_at" := x.created]
  }

  function AddUserSession(c: Config, s: Store<Key>, sid: string, x: Session, now: nat): Store<Key> {
    SAdd(Expire(HSet(s, SessionKey(sid), Fields(c, x), now), SessionKey(sid), now, c.ttl), IndexKey(x.user), sid, now)
  }

  /** What a new session's hash says, for how long, and that its user's index lists it. */
  lemma AddedExactly(c: Config, s: Store<Key>, sid: string, x: Session, now: nat)
    requires SessionKey(sid) !in s && 0 < c.ttl
    ensures var s' := AddUserSession(c, s, sid, x, now);
            var fields := GetHash(s', SessionKey(sid), now);
            && fields.Keys == {"user_id", "ip", "user_agent", "refresh_token_hash", "auth_method", "created_at"}
            && fields["user_id"] == x.user && fields["ip"] == x.device.ip && fields["user_agent"] == x.device.agent
            && fields["refresh_token_hash"] == c.hash(x.token)
            && fields["auth_method"] == x.authMethod && fields["created_at"] == x.created
            && s'[SessionKey(sid)].expires == Some(now + c.ttl)
            && GetMembers(s', IndexKey(x.user), now) == GetMembers(s, IndexKey(x.user), now) + {sid}
  {
  }

  function UpdateTokenHash(c: Config, s: Store<Key>, sid: string, token: string, now: nat): Store<Key> {
    Expire(HSet(s, SessionKey(sid), map["refresh_token_hash" := c.hash(token)], now), SessionKey(sid), now, c.ttl)
  }

  function DropKeys(s: Store<Key>, sid: string): Store<Key> {
    s - {SessionKey(sid), ActionsCache(sid), AnalyticsCache(sid)}
  }

  function DeleteSession(s: Store<Key>, sid: string, now: nat): Store<Key> {
    var fields := GetHash(s, SessionKey(sid), now);
    if fields == map[] then s
    else if "user_id" in fields
        && fields["user_id"] != "" then SRem(DropKeys(s, sid), IndexKey(fields["user_id"]), sid, now)
    else DropKeys(s, sid)
  }

  function DeleteEach(s: Store<Key>, sids: seq<string>, now: nat): Store<Key> {
    if sids == [] then s else DeleteSession(DeleteEach(s, sids[..|sids| - 1], now), sids[|sids| - 1], now)
  }

  predicate OnDevice(s: Store<Key>, sid: string, d: Device, now: nat) {
    var fields := GetHash(s, SessionKey(sid), now);
    && "ip" in fields && fields["ip"] == d.ip
    && "user_agent" in fields && fields["user_agent"] == d.agent
  }

  /** The listed sessions of a user on a device. */
  function Matching(s: Store<Key>, user: string, d: Device, now: nat): set<string> {
    set sid <- GetMembers(s, IndexKey(user), now) | OnDevice(s, sid, d, now)
  }

  ghost predicate Enumerates<T(!new)>(order: seq<T>, all: set<T>) {
    (forall x :: x in order <==> x in all) && (forall i, j :: 0 <= i < j < |order| ==> order[i] != order[j])
  }

  function WipeKeys(s: Store<Key>, user: string, sids: set<string>): Store<Key> {
    if sids == {} then s
    else map k <- s | !(k.IndexKey? && k.user == user) && !(!k.IndexKey? && k.sid in sids) :: s[k]
  }

  /** The sessions, both other services' cached verdicts on them and the user's index are
      gone; every other key is as it was. Without sessions nothing happens. */
  ghost predicate AllRevoked(s: Store<Key>, s': Store<Key>, user: string, sids: set<string>) {
    if sids == {} then s' == s
    else
      && IndexKey(user) !in s'
      && (forall sid <- sids :: SessionKey(sid) !in s' && ActionsCache(sid) !in s' && AnalyticsCache(sid) !in s')
      && (forall other | other != user :: SameKey(s, s', IndexKey(other)))
      && (forall sid | sid !in sids :: SameKey(s, s', SessionKey(sid)))
      && (forall sid | sid !in sids :: SameKey(s, s', ActionsCache(sid)) && SameKey(s, s', AnalyticsCache(sid)))
  }

  predicate SameKey(s: Store<Key>, s': Store<Key>, k: Key) {
    (k in s' <==> k in s) && (k in s ==> s'[k] == s[k])
  }

  /** Without these sessions, but with every index. */
  function Unlisted(s: Store<Key>, sids: set<string>): Store<Key> {
    map k <- s | k.IndexKey? || k.sid !in sids :: s[k]
  }

  lemma UnlistedNone(s: Store<Key>)
    ensures Unlisted(s, {}) == s
  {
  }

  lemma UnlistedMore(s: Store<Key>, done: set<string>, sid: string)
    ensures Unlisted(s, done + {sid}) ==
            Unlisted(s, done) - {SessionKey(sid)} - {ActionsCache(sid)} - {AnalyticsCache(sid)}
  {
  }

  lemma UnlistedAll(s: Store<Key>, user: string, sids: set<string>)
    requires sids != {}
    ensures WipeKeys(s, user, sids) == Unlisted(s, sids) - {IndexKey(user)}
  {
  }

  lemma WipeRevokes(s: Store<Key>, user: string, sids: set<string>)
    ensures AllRevoked(s, WipeKeys(s, user, sids), user, sids)
  {
  }

  predicate Verifies(c: Config, s: Store<Key>, sid: string, token: string, now: nat) {
    var fields := GetHash(s, SessionKey(sid), now);
    "refresh_token_hash" in fields && fields["refresh_token_hash"] == c.hash(token)
  }

  // ---------- Runs ----------

  function Next(c: Config, s: State, e: Event): State {
    match e
    case BeginLogin(op, user, device, now) =>
      s.(logins := s.logins[op := Opening(user, device, Matching(s.store, user, device, now))])
    case Drop(op, sid, now) =>
      if op !in s.logins || sid !in s.logins[op].found then s
      else s.(store := DeleteSession(s.store, sid, now),
              logins := s.logins[op := s.logins[op].(found := s.logins[op].found - {sid})])
    case EndLogin(op, sid, x, now) =>
      if !CanEnd(s, e) then s
      else s.(store := AddUserSession(c, s.store, sid, x, now), logins := s.logins - {op},
              issued := s.issued[sid := x.token])
    case Logout(sid, now) => s.(store := DeleteSession(s.store, sid, now))
    case Verify(op, sid, token, now) =>
      if Verifies(c, s.store, sid, token, now) then s.(refreshes := s.refreshes[op := sid]) else s
    case Rotate(op, token, now) =>
      if op !in s.refreshes then s
      else
        var sid := s.refreshes[op];
        s.(store := UpdateTokenHash(c, s.store, sid, token, now), refreshes := s.refreshes - {op},
           issued := s.issued[sid := token])
    case ReadIndex(op, user, now) =>
      s.(wipes := s.wipes[op := Wiping(user, GetMembers(s.store, IndexKey(user), now))])
    case Wipe(op, now) =>
      if op !in s.wipes then s
      else s.(store := WipeKeys(s.store, s.wipes[op].user, s.wipes[op].sids), wipes := s.wipes - {op})
  }

  /** A login ends when everything that it found is deleted, with a session of its device. */
  predicate CanEnd(s: State, e: Event)
    requires e.EndLogin?
  {
    && e.op in s.logins && s.logins[e.op].found == {}
    && s.logins[e.op].user == e.session.user && s.logins[e.op].device == e.session.device
  }

  ghost predicate Step(c: Config, s: State, e: Event, s': State) {
    s' == Next(c, s, e)
  }

  const Start := State(map[], map[], map[], map[], map[])

  /** A run: the states before, between and after its events. */
  ghost predicate IsRun(c: Config, es: seq<Event>, states: seq<State>) {
    && |states| == |es| + 1 && states[0] == Start
    && (forall i :: 0 <= i < |es| ==> Step(c, states[i], es[i], states[i + 1]))
    && (forall i :: 0 < i < |es| ==> es[i - 1].now <= es[i].now)
    && (forall i :: 0 <= i < |es| ==> Sound(c, states[i], es[i]))
  }

  /** Ids are fresh, users have a non-empty id, a session is stored to live for the ttl. */
  ghost predicate Sound(c: Config, s: State, e: Event) {
    e.EndLogin? ==>
      && SessionKey(e.sid) !in s.store && e.sid !in s.issued
      && e.session.user != "" && e.session.expires == e.now + c.ttl
  }

  // ---------- A login with nothing in between ----------

  /** The order in which a login meets the sessions it replaces is open. */
  ghost predicate LoginStep(c: Config, s: Store<Key>, sid: string, x: Session, now: nat, order: seq<string>,
                            s': Store<Key>) {
    && Enumerates(order, Matching(s, x.user, x.device, now))
    && s' == AddUserSession(c, DeleteEach(s, order, now), sid, x, now)
  }

  function RunFrom(c: Config, s: State, es: seq<Event>): State {
    if es == [] then s else Next(c, RunFrom(c, s, es[..|es| - 1]), es[|es| - 1])
  }

  function Drops(op: nat, order: seq<string>, now: nat): seq<Event> {
    if order == [] then [] else Drops(op, order[..|order| - 1], now) + [Drop(op, order[|order| - 1], now)]
  }

  function LoginEvents(op: nat, sid: string, x: Session, order: seq<string>, now: nat): seq<Event> {
    [BeginLogin(op, x.user, x.device, now)] + Drops(op, order, now) + [EndLogin(op, sid, x, now)]
  }

  lemma RunMore(c: Config, s: State, es: seq<Event>, e: Event)
    ensures RunFrom(c, s, es + [e]) == Next(c, RunFrom(c, s, es), e)
  {
    assert (es + [e])[..|es|] == es;
  }

  function Gone(order: seq<string>): set<string> {
    set sid <- order
  }

  lemma NoDrops(c: Config, s: State, op: nat, user: string, device: Device, now: nat)
    ensures Next(c, s, BeginLogin(op, user, device, now)) == Dropped(s, op, user, device, [], now)
  {
    assert Matching(s.store, user, device, now) - Gone([]) == Matching(s.store, user, device, now);
  }

  lemma {:induction false} DropsRun(c: Config, s: State, op: nat, user: string, device: Device, order: seq<string>,
                                    now: nat)
    requires forall sid <- order :: sid in Matching(s.store, user, device, now)
    requires forall i, j :: 0 <= i < j < |order| ==> order[i] != order[j]
    ensures RunFrom(c, s, [BeginLogin(op, user, device, now)] + Drops(op, order, now)) ==
            Dropped(s, op, user, device, order, now)
  {
    var first := BeginLogin(op, user, device, now);
    if order == [] {
      RunMore(c, s, [], first);
      assert [] + [first] == [first] + Drops(op, [], now);
      NoDrops(c, s, op, user, device, now);
    } else {
      var n := |order| - 1;
      var before := [first] + Drops(op, order[..n], now);
      DropsRun(c, s, op, user, device, order[..n], now);
      OneDrop(c, s, op, user, device, order, now);
      RunMore(c, s, before, Drop(op, order[n], now));
      assert [first] + Drops(op, order, now) == before + [Drop(op, order[n], now)];
    }
  }

  /** A login that has found the sessions on its device and deleted those in the order. */
  function Dropped(s: State, op: nat, user: string, device: Device, order: seq<string>, now: nat): State {
    s.(store := DeleteEach(s.store, order, now),
       logins := s.logins[op := Opening(user, device, Matching(s.store, user, device, now) - Gone(order))])
  }

  lemma OneDrop(c: Config, s: State, op: nat, user: string, device: Device, order: seq<string>, now: nat)
    requires order != [] && order[|order| - 1] in Matching(s.store, user, device, now)
    requires forall i, j :: 0 <= i < j < |order| ==> order[i] != order[j]
    ensures Next(c, Dropped(s, op, user, device, order[..|order| - 1], now), Drop(op, order[|order| - 1], now)) ==
            Dropped(s, op, user, device, order, now)
  {
    var n := |order| - 1;
    var all := Matching(s.store, user, device, now);
    assert order[n] !in order[..n] && Gone(order) == Gone(order[..n]) + {order[n]};
    assert all - Gone(order[..n]) - {order[n]} == all - Gone(order);
  }

  /** It is a run of the machine that deletes the sessions on the device and adds its own. */
  lemma LoginRuns(c: Config, s: State, op: nat, sid: string, x: Session, order: seq<string>, now: nat,
                  after: Store<Key>)
    requires LoginStep(c, s.store, sid, x, now, order, after)
    ensures RunFrom(c, s, LoginEvents(op, sid, x, order, now)) ==
            s.(store := after, logins := s.logins - {op}, issued := s.issued[sid := x.token])
  {
    DropsRun(c, s, op, x.user, x.device, order, now);
    RunMore(c, s, [BeginLogin(op, x.user, x.device, now)] + Drops(op, order, now), EndLogin(op, sid, x, now));
    assert Matching(s.store, x.user, x.device, now) - Gone(order) == {};
  }

  // ---------- The simple form: one book of sessions ----------

  type Book = map<string, Session>

  predicate Listed(b: Book, sid: string, now: nat) {
    sid in b && now < b[sid].expires
  }

  function BookDelete(b: Book, sid: string, now: nat): Book {
    if Listed(b, sid, now) then b - {sid} else b
  }

  function BookWipe(b: Book, user: string): Book {
    map sid <- b | b[sid].user != user :: b[sid]
  }

  function BookRotate(c: Config, b: Book, sid: string, token: string, now: nat): Book {
    if Listed(b, sid, now) then b[sid := b[sid].(token := token, expires := now + c.ttl)] else b
  }

  function BookNext(c: Config, b: Book, s: State, e: Event): Book {
    match e
    case Drop(op, sid, now) => if op in s.logins && sid in s.logins[op].found then BookDelete(b, sid, now) else b
    case EndLogin(op, sid, x, now) => if CanEnd(s, e) then b[sid := x] else b
    case Logout(sid, now) => BookDelete(b, sid, now)
    case Rotate(op, token, now) => if op in s.refreshes then BookRotate(c, b, s.refreshes[op], token, now) else b
    case Wipe(op, now) => if op in s.wipes then BookWipe(b, s.wipes[op].user) else b
    case _ => b
  }

  function BookOf(c: Config, es: seq<Event>, states: seq<State>): Book
    requires |states| == |es| + 1
  {
    if es == [] then map[]
    else
      var n := |es| - 1;
      BookNext(c, BookOf(c, es[..n], states[..n + 1]), states[n], es[n])
  }
}
