/** Subscriptions of users: rows that are added and switched off, never deleted. Assigning
    one reads the current row first and writes later. */
module Subscriptions {
  import opened Options

  datatype User = User(active: bool, timezone: Option<string>)

  datatype Plan = Plan(code: string, level: int, active: bool)

  /** A row is identified by its position. */
  datatype Row = Row(user: string, plan: string, expires: int, active: bool)

  datatype Db = Db(users: map<string, User>, plans: map<string, Plan>, rows: seq<Row>, notify: map<string, bool>)

  datatype Pending = Pending(user: string, plan: string, current: Option<nat>)

  datatype State = State(db: Db, pending: map<nat, Pending>)

  /** The free subscription of a new user ends on 31 December 2999, in seconds since 1970. */
  const FREE_UNTIL: int := 32503593600

  datatype Lookup = NoRow | OneRow(id: nat) | ManyRows

  datatype Event =
    | Register(user: string, timezone: Option<string>, free: Option<string>, now: int)
    | BeginAssign(op: nat, user: string, code: string, now: int)
    | EndAssign(op: nat, expires: int, now: int)
    | Cancel(user: string, now: int)
    | ReadInfo(user: string, now: int, checked: int)
    | PutPlan(id: string, plan: Plan, now: int)
    | EditUser(user: string, record: User, now: int)
    | SetNotify(user: string, enabled: bool, now: int)

  predicate Counts(row: Row, user: string, now: int) {
    row.user == user && row.active && now < row.expires
  }

  /** The positions of the user's active, unexpired rows. */
  function Active(rows: seq<Row>, user: string, now: int): (ids: seq<nat>)
    ensures forall i: nat :: i in ids <==> i < |rows| && Counts(rows[i], user, now)
    ensures forall i, j :: 0 <= i < j < |ids| ==> ids[i] < ids[j]
  {
    if rows == [] then []
    else
      var n := |rows| - 1;
      var before := Active(rows[..n], user, now);
      assert forall i :: 0 <= i < |before| ==> before[i] in before;
      before + (if Counts(rows[n], user, now) then [n] else [])
  }

  function GetActive(rows: seq<Row>, user: string, now: int): (found: Lookup)
    ensures found.OneRow? ==> found.id < |rows| && Counts(rows[found.id], user, now)
  {
    var ids := Active(rows, user, now);
    assert ids != [] ==> ids[0] in ids;
    if ids == [] then NoRow else if |ids| == 1 then OneRow(ids[0]) else ManyRows
  }

  function Deactivate(rows: seq<Row>, id: nat): seq<Row> {
    if id < |rows| then rows[id := rows[id].(active := false)] else rows
  }

  predicate CodeIs(plans: map<string, Plan>, plan: string, code: string) {
    plan in plans && plans[plan].code == code
  }

  predicate Assignable(db: Db, user: string, plan: string, code: string) {
    user in db.users && CodeIs(db.plans, plan, code) && db.plans[plan].active
  }

  function Finish(rows: seq<Row>, p: Pending, expires: int): seq<Row> {
    (if p.current.Some? then Deactivate(rows, p.current.value) else rows) + [Row(p.user, p.plan, expires, true)]
  }

  /** The level that goes into a user's token, and the rows afterwards. */
  function Info(db: Db, user: string, now: int, checked: int): (Option<int>, seq<Row>) {
    match GetActive(db.rows, user, now)
    case ManyRows => (None, db.rows)
    case NoRow => (Some(0), db.rows)
    case OneRow(id) =>
      if db.rows[id].expires < checked then (Some(0), Deactivate(db.rows, id))
      else if db.rows[id].plan in db.plans then (Some(db.plans[db.rows[id].plan].level), db.rows)
      else (None, db.rows)
  }

  /** A reading of the level switches off the one counting row if it ran out meanwhile, and
      changes nothing else; that row alone gives a level, and without one it is zero. */
  lemma InfoExactly(db: Db, user: string, now: int, checked: int)
    ensures var (level, rows) := Info(db, user, now, checked);
            && |rows| == |db.rows|
            && (forall i | 0 <= i < |rows| ::
                  rows[i] == if GetActive(db.rows, user, now) == OneRow(i) && db.rows[i].expires < checked
                             then db.rows[i].(active := false) else db.rows[i])
            && (level == None <==>
                  || (exists i: nat, j: nat | i < j < |rows| :: Counts(db.rows[i], user, now)
                                                                && Counts(db.rows[j], user, now))
                  || (exists i: nat | i < |rows| :: Counts(db.rows[i], user, now) && checked <= db.rows[i].expires
                                                    && db.rows[i].plan !in db.plans))
  {
    var ids := Active(db.rows, user, now);
    if |ids| > 1 {
      assert ids[0] in ids && ids[1] in ids;
      assert Counts(db.rows[ids[0]], user, now) && Counts(db.rows[ids[1]], user, now);
    }
    OneOrMany(db.rows, user, now);
  }

  lemma OneOrMany(rows: seq<Row>, user: string, now: int)
    ensures match GetActive(rows, user, now)
            case NoRow => forall i: nat | i < |rows| :: !Counts(rows[i], user, now)
            case OneRow(id) => forall i: nat | i < |rows| :: Counts(rows[i], user, now) ==> i == id
            case ManyRows => exists i: nat, j: nat | i < j < |rows| :: Counts(rows[i], user, now)
                                                                       && Counts(rows[j], user, now)
  {
    var ids := Active(rows, user, now);
    if ids == [] {
      forall i: nat | i < |rows| ensures !Counts(rows[i], user, now) { assert i !in ids; }
    } else if |ids| == 1 {
      forall i: nat | i < |rows| && Counts(rows[i], user, now) ensures i == ids[0] { assert i in ids; }
    } else {
      assert ids[0] in ids && ids[1] in ids && ids[0] < ids[1];
      assert Counts(rows[ids[0]], user, now) && Counts(rows[ids[1]], user, now);
    }
  }

  ghost predicate Step(s: State, e: Event, s': State) {
    match e
    case Register(user, timezone, free, now) =>
      && user !in s.db.users && user !in s.db.notify
      && (forall row <- s.db.rows :: row.user != user)
      && (free.Some? ==> free.value in s.db.plans)
      && s' == s.(db := s.db.(users := s.db.users[user := User(true, timezone)],
                              rows := if free.Some? then s.db.rows + [Row(user, free.value, FREE_UNTIL, true)]
                                  else s.db.rows))
    case BeginAssign(op, user, code, now) =>
      var found := GetActive(s.db.rows, user, now);
      if found.ManyRows? then s' == s
      else if exists plan :: Assignable(s.db, user, plan, code) then
        exists plan :: Assignable(s.db, user, plan, code) &&
          s' == s.(pending := s.pending[op := Pending(user, plan, if found.OneRow? then Some(found.id) else None)])
      else s' == s
    case EndAssign(op, expires, now) =>
      if op !in s.pending then s' == s
      else s' == s.(db := s.db.(rows := Finish(s.db.rows, s.pending[op], expires)), pending := s.pending - {op})
    case Cancel(user, now) =>
      var found := GetActive(s.db.rows, user, now);
      s' == if found.OneRow? then s.(db := s.db.(rows := Deactivate(s.db.rows, found.id))) else s
    case ReadInfo(user, now, checked) => s' == s.(db := s.db.(rows := Info(s.db, user, now, checked).1))
    case PutPlan(id, plan, now) => s' == s.(db := s.db.(plans := s.db.plans[id := plan]))
    case EditUser(user, record, now) =>
      s' == if user in s.db.users then s.(db := s.db.(users := s.db.users[user := record])) else s
    case SetNotify(user, enabled, now) =>
      s' == if user in s.db.users then s.(db := s.db.(notify := s.db.notify[user := enabled])) else s
  }

  // ---------- At most one ----------

  ghost predicate AtMostOne(rows: seq<Row>, now: int) {
    forall i: nat, j: nat, user: string ::
      i < |rows| && j < |rows| && Counts(rows[i], user, now) && Counts(rows[j], user, now) ==> i == j
  }

  ghost predicate Inv(s: State, now: int) {
    && AtMostOne(s.db.rows, now)
    && (forall row <- s.db.rows :: row.plan in s.db.plans)
    && (forall op <- s.pending :: s.pending[op].plan in s.db.plans
          && (s.pending[op].current.Some? ==> s.pending[op].current.value < |s.db.rows|))
  }

  /** The only row of the user that counts at the end of an assignment is the one that its
      beginning found. */
  ghost predicate OnlyKnown(rows: seq<Row>, p: Pending, now: int) {
    forall i: nat :: i < |rows| && Counts(rows[i], p.user, now) ==> p.current == Some(i)
  }

  ghost predicate Undisturbed(s: State, e: Event) {
    e.EndAssign? && e.op in s.pending ==> OnlyKnown(s.db.rows, s.pending[e.op], e.now)
  }

  lemma Later(rows: seq<Row>, now: int, later: int)
    requires AtMostOne(rows, now) && now <= later
    ensures AtMostOne(rows, later)
  {
    forall i: nat, j: nat, user: string
      | i < |rows| && j < |rows| && Counts(rows[i], user, later) && Counts(rows[j], user, later)
      ensures i == j
    {
      assert Counts(rows[i], user, now) && Counts(rows[j], user, now);
    }
  }

  lemma DeactivateKeeps(rows: seq<Row>, id: nat, now: int)
    requires AtMostOne(rows, now)
    ensures AtMostOne(Deactivate(rows, id), now)
    ensures forall i: nat, user: string :: i < |rows| && i != id && Counts(Deactivate(rows, id)[i], user, now) ==>
        Counts(rows[i], user, now)
  {
  }

  lemma AppendKeeps(rows: seq<Row>, row: Row, now: int)
    requires AtMostOne(rows, now)
    requires forall i: nat :: i < |rows| ==> !Counts(rows[i], row.user, now)
    ensures AtMostOne(rows + [row], now)
  {
  }

  lemma OnlyOne(rows: seq<Row>, user: string, now: int, x: nat, y: nat)
    requires AtMostOne(rows, now) && x in Active(rows, user, now) && y in Active(rows, user, now)
    ensures x == y
  {
  }

  lemma OneOrNone(rows: seq<Row>, user: string, now: int)
    requires AtMostOne(rows, now)
    ensures !GetActive(rows, user, now).ManyRows?
  {
    var ids := Active(rows, user, now);
    if |ids| > 1 { OnlyOne(rows, user, now, ids[0], ids[1]); }
  }

  lemma FinishKeeps(rows: seq<Row>, p: Pending, expires: int, now: int)
    requires AtMostOne(rows, now) && OnlyKnown(rows, p, now)
    ensures AtMostOne(Finish(rows, p, expires), now)
  {
  }

  /** Ending an assignment keeps one row per user exactly when it deactivates the row that
      then counts, or when the new row has already expired. */
  lemma AssignSafeExactly(rows: seq<Row>, p: Pending, expires: int, now: int)
    requires AtMostOne(rows, now)
    ensures AtMostOne(Finish(rows, p, expires), now) <==> OnlyKnown(rows, p, now) || expires <= now
  {
    var after := Finish(rows, p, expires);
    var n := |rows|;
    if OnlyKnown(rows, p, now) {
      FinishKeeps(rows, p, expires, now);
    } else if now < expires {
      var i: nat :| i < n && Counts(rows[i], p.user, now) && p.current != Some(i);
      assert Counts(after[i], p.user, now) && Counts(after[n], p.user, now);
    } else {
      var kept := if p.current.Some? then Deactivate(rows, p.current.value) else rows;
      if p.current.Some? { DeactivateKeeps(rows, p.current.value, now); }
      forall i: nat, j: nat, user: string
        | i < |after| && j < |after| && Counts(after[i], user, now) && Counts(after[j], user, now)
        ensures i == j
      {
        assert Counts(kept[i], user, now) && Counts(kept[j], user, now);
      }
    }
  }

  lemma StepKeeps(s: State, e: Event, s': State, t: int)
    requires Inv(s, t) && t <= e.now && Step(s, e, s') && Undisturbed(s, e)
    ensures Inv(s', e.now)
  {
    var rows := s.db.rows;
    Later(rows, t, e.now);
    match e {
      case Register(user, _, free, now) =>
        if free.Some? { AppendKeeps(rows, Row(user, free.value, FREE_UNTIL, true), now); }
      case EndAssign(op, expires, now) =>
        if op in s.pending { FinishKeeps(rows, s.pending[op], expires, now); }
      case Cancel(user, now) =>
        var found := GetActive(rows, user, now);
        if found.OneRow? { DeactivateKeeps(rows, found.id, now); }
      case ReadInfo(user, now, _) =>
        var found := GetActive(rows, user, now);
        if found.OneRow? { DeactivateKeeps(rows, found.id, now); }
      case BeginAssign(_, user, _, now) =>
        var found := GetActive(rows, user, now);
        assert found.OneRow? ==> found.id < |rows|;
      case _ =>
    }
  }

  ghost predicate IsRun(es: seq<Event>, states: seq<State>) {
    && |states| == |es| + 1
    && states[0].db.rows == [] && states[0].pending == map[]
    && (forall i :: 0 <= i < |es| ==> Step(states[i], es[i], states[i + 1]))
    && (forall i :: 0 < i < |es| ==> es[i - 1].now <= es[i].now)
  }

  ghost predicate Calm(es: seq<Event>, states: seq<State>)
    requires |states| == |es| + 1
  {
    forall i :: 0 <= i < |es| ==> Undisturbed(states[i], es[i])
  }

  lemma {:induction false} RunKeepsTo(es: seq<Event>, states: seq<State>, n: nat)
    requires IsRun(es, states) && Calm(es, states) && 0 < n <= |es|
    ensures Inv(states[n], es[n - 1].now)
  {
    assert Step(states[n - 1], es[n - 1], states[n]) && Undisturbed(states[n - 1], es[n - 1]);
    if n > 1 {
      RunKeepsTo(es, states, n - 1);
      StepKeeps(states[n - 1], es[n - 1], states[n], es[n - 2].now);
    } else {
      StepKeeps(states[0], es[0], states[1], es[0].now);
    }
  }

  // ---------- Overlapping assignments ----------

  /** Two assignments that both begin before either ends leave the user with two rows. */
  lemma OverlapGivesTwo() returns (es: seq<Event>, states: seq<State>)
    ensures IsRun(es, states) && !Calm(es, states)
    ensures forall now :: now < 10 ==> !AtMostOne(states[|es|].db.rows, now)
  {
    var user, plan := "user", "plan";
    var db := Db(map[user := User(true, None)], map[plan := Plan("base", 1, true)], [], map[]);
    var p := Pending(user, plan, None);
    es := [BeginAssign(1, user, "base", 0), BeginAssign(2, user, "base", 0), EndAssign(1, 10, 0), EndAssign(2, 10, 0)];
    var row := Row(user, plan, 10, true);
    states := [State(db, map[]), State(db, map[1 := p]), State(db, map[1 := p, 2 := p]),
               State(db.(rows := [row]), map[2 := p]), State(db.(rows := [row, row]), map[])];
    assert Active([], user, 0) == [];
    assert Assignable(db, user, plan, "base");
    assert Step(states[0], es[0], states[1]);
    assert Step(states[1], es[1], states[2]);
    assert states[2].pending - {1} == map[2 := p];
    assert Step(states[2], es[2], states[3]);
    assert states[3].pending - {2} == map[];
    assert [row] + [row] == [row, row];
    assert Step(states[3], es[3], states[4]);
    var rows := states[4].db.rows;
    forall now | now < 10 ensures !AtMostOne(rows, now) {
      assert Counts(rows[0], user, now) && Counts(rows[1], user, now);
    }
    assert Counts(states[3].db.rows[0], user, 0);
    assert !Undisturbed(states[3], es[3]);
  }
}
