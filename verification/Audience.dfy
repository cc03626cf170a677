/** Who belongs to a mailing: the two audience queries, what a level filter means, and how
    the time zones divide an audience. */
module Audiences {
  import opened Options
  import opened Subscriptions

  datatype Filter = Filter(minLevel: Option<int>, timezone: Option<string>)

  function LevelOf(db: Db, id: nat): int {
    if id < |db.rows| && db.rows[id].plan in db.plans then db.plans[db.rows[id].plan].level else 0
  }

  /** The left join: a user without a counting row has level zero, one with several has
      each of their levels. */
  predicate ReachesLevel(db: Db, user: string, minLevel: int, now: int) {
    var ids := Active(db.rows, user, now);
    if ids == [] then 0 >= minLevel else exists id <- ids :: LevelOf(db, id) >= minLevel
  }

  predicate ZoneMatches(timezone: Option<string>, zone: string) {
    if zone == "UTC" then timezone == Some("UTC") || timezone.None? else timezone == Some(zone)
  }

  predicate Notified(db: Db, user: string) {
    user in db.notify ==> db.notify[user]
  }

  predicate Selected(db: Db, user: string, f: Filter, now: int)
    requires user in db.users
  {
    && db.users[user].active
    && (f.minLevel.Some? ==> ReachesLevel(db, user, f.minLevel.value, now))
    && (f.timezone.Some? ==> ZoneMatches(db.users[user].timezone, f.timezone.value))
    && Notified(db, user)
  }

  function Audience(db: Db, f: Filter, now: int): set<string> {
    set user <- db.users | Selected(db, user, f, now)
  }

  function ZoneOf(u: User): string {
    if u.timezone.Some? then u.timezone.value else "UTC"
  }

  function DistinctZones(db: Db, f: Filter, now: int): set<string> {
    set user <- db.users | Selected(db, user, f, now) :: ZoneOf(db.users[user])
  }

  // ---------- Who is in an audience ----------

  /** A row of the user counts now. */
  predicate Counting(db: Db, i: nat, user: string, now: int) {
    i < |db.rows| && db.rows[i].user == user && db.rows[i].active && now < db.rows[i].expires
  }

  /** The level of a row is that of its plan, or zero for an unknown plan. */
  predicate RowReaches(db: Db, i: nat, level: int)
    requires i < |db.rows|
  {
    var plan := db.rows[i].plan;
    if plan in db.plans then level <= db.plans[plan].level else level <= 0
  }

  /** The audience of a filter, in terms of users, rows and opt-outs: active users who take
      notifications, in the zone if one is named, where no zone means UTC, and with a
      counting row that reaches the level if one is named, where no row means zero. */
  lemma AudienceExactly(db: Db, f: Filter, now: int, user: string)
    ensures user in Audience(db, f, now) <==>
            && user in db.users && db.users[user].active
            && (user !in db.notify || db.notify[user])
            && (forall zone :: f.timezone == Some(zone) ==>
                  db.users[user].timezone == Some(zone) || (zone == "UTC" && db.users[user].timezone == None))
            && (forall level :: f.minLevel == Some(level) ==>
                  || (exists i: nat :: Counting(db, i, user, now) && RowReaches(db, i, level))
                  || (level <= 0 && forall i: nat :: !Counting(db, i, user, now)))
  {
    if user in db.users && f.minLevel.Some? { LevelExactly(db, user, f.minLevel.value, now); }
  }

  lemma LevelExactly(db: Db, user: string, level: int, now: int)
    ensures ReachesLevel(db, user, level, now) <==>
            || (exists i: nat :: Counting(db, i, user, now) && RowReaches(db, i, level))
            || (level <= 0 && forall i: nat :: !Counting(db, i, user, now))
  {
    var ids := Active(db.rows, user, now);
    forall i: nat ensures i in ids <==> Counting(db, i, user, now) {
    }
    forall i: nat | Counting(db, i, user, now)
      ensures i < |db.rows| && (RowReaches(db, i, level) <==> LevelOf(db, i) >= level)
    {
    }
    if ids == [] {
      assert forall i: nat :: !Counting(db, i, user, now);
    } else {
      assert ids[0] in ids && Counting(db, ids[0], user, now);
    }
  }

  // ---------- Levels ----------

  ghost predicate PlansKnown(db: Db) {
    forall row <- db.rows :: row.plan in db.plans
  }

  /** The user's counting row runs out exactly at the moment of the second reading. */
  predicate OnTheEdge(db: Db, user: string, now: int, checked: int) {
    var found := GetActive(db.rows, user, now);
    found.OneRow? && db.rows[found.id].expires == checked
  }

  /** A level filter agrees with the level that goes into the user's token, except for a
      subscription that ends at the very moment of the check: the token still has it, the
      audience does not. */
  lemma LevelsAgree(db: Db, user: string, minLevel: int, zone: Option<string>, now: int, checked: int)
    requires AtMostOne(db.rows, now) && PlansKnown(db) && now <= checked && user in db.users
    requires Selected(db, user, Filter(None, zone), checked)
    ensures Info(db, user, now, checked).0.Some?
    ensures user in Audience(db, Filter(Some(minLevel), zone), checked) <==>
            (if OnTheEdge(db, user, now, checked) then 0 >= minLevel
                else Info(db, user, now, checked).0.value >= minLevel)
  {
    ActiveLater(db.rows, user, now, checked);
    InfoLevel(db, user, now, checked);
    LevelReached(db, user, minLevel, checked);
    LevelSelects(db, user, minLevel, zone, checked);
  }

  /** The level of the token. */
  lemma InfoLevel(db: Db, user: string, now: int, checked: int)
    requires PlansKnown(db) && !GetActive(db.rows, user, now).ManyRows?
    ensures var found := GetActive(db.rows, user, now);
            Info(db, user, now, checked).0 ==
            Some(if found.OneRow? && checked <= db.rows[found.id].expires then LevelOf(db, found.id) else 0)
  {
    var found := GetActive(db.rows, user, now);
    if found.OneRow? { assert db.rows[found.id] in db.rows; }
  }

  lemma LevelSelects(db: Db, user: string, minLevel: int, zone: Option<string>, now: int)
    requires user in db.users && Selected(db, user, Filter(None, zone), now)
    ensures user in Audience(db, Filter(Some(minLevel), zone), now) <==> ReachesLevel(db, user, minLevel, now)
  {
  }

  lemma LevelReached(db: Db, user: string, minLevel: int, now: int)
    requires |Active(db.rows, user, now)| <= 1
    ensures ReachesLevel(db, user, minLevel, now) <==>
            minLevel <= (if Active(db.rows, user, now) == [] then 0 else LevelOf(db, Active(db.rows, user, now)[0]))
  {
  }

  /** What becomes of the user's one row. */
  lemma ActiveLater(rows: seq<Row>, user: string, now: int, later: int)
    requires AtMostOne(rows, now) && now <= later
    ensures Active(rows, user, later) ==
      match GetActive(rows, user, now)
      case OneRow(id) => if later < rows[id].expires then [id] else []
      case _ => []
    ensures !GetActive(rows, user, now).ManyRows?
  {
    OneOrNone(rows, user, now);
    var early, late := Active(rows, user, now), Active(rows, user, later);
    Later(rows, now, later);
    OneOrNone(rows, user, later);
    if late != [] {
      assert late[0] in late && late[0] in early;
    }
    if early != [] {
      assert early[0] in early;
      if later < rows[early[0]].expires { assert early[0] in late; }
    }
  }

  /** On every run in which assignments to one user do not overlap, an active user who takes
      notifications is in the audience of a level exactly when the user's level reaches it. */
  lemma AudienceMatchesLevels(es: seq<Event>, states: seq<State>, user: string, minLevel: int, now: int)
    requires IsRun(es, states) && Calm(es, states) && es != [] && es[|es| - 1].now <= now
    requires var db := states[|es|].db; user in db.users && db.users[user].active && Notified(db, user)
    ensures var db := states[|es|].db;
            && Info(db, user, now, now).0.Some?
            && (user in Audience(db, Filter(Some(minLevel), None), now) <==>
                Info(db, user, now, now).0.value >= minLevel)
  {
    var db := states[|es|].db;
    RunKeepsTo(es, states, |es|);
    Later(db.rows, es[|es| - 1].now, now);
    LevelsAgree(db, user, minLevel, None, now, now);
    NotOnTheEdge(db, user, now);
  }

  lemma NotOnTheEdge(db: Db, user: string, now: int)
    ensures !OnTheEdge(db, user, now, now)
  {
  }

  // ---------- Time zones ----------

  function Bucket(f: Filter, zone: string): Filter {
    f.(timezone := Some(zone))
  }

  /** Each member of an audience is in the bucket of its own zone and in no other; buckets
      hold nobody else, and none is empty. */
  lemma BucketsPartition(db: Db, f: Filter, now: int)
    ensures forall user, zone :: zone in DistinctZones(db, f, now) ==>
              (user in Audience(db, Bucket(f, zone), now) <==>
                  user in Audience(db, f, now) && ZoneOf(db.users[user]) == zone)
    ensures forall user :: user in Audience(db, f, now) ==> ZoneOf(db.users[user]) in DistinctZones(db, f, now)
    ensures forall zone <- DistinctZones(db, f, now) :: Audience(db, Bucket(f, zone), now) != {}
  {
  }

  /** With a zone in the filter itself, that zone is the only one found. */
  lemma ZoneDetermined(db: Db, f: Filter, now: int, zone: string)
    requires zone in DistinctZones(db, f, now)
    ensures f.timezone.Some? ==> f.timezone.value == zone
  {
  }
}
