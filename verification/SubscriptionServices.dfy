/** The subscription services, statement by statement, on the repository that they share. */
module SubscriptionServices {
  import opened Options
  import opened Subscriptions

  datatype Outcome = Assigned(id: nat) | Cancelled | UserNotFound | PlanNotFound | PlanInactive | NothingToCancel
      | Ambiguous

  class UserSubscriptionRepository {
    var rows: seq<Row>

    constructor ()
      ensures rows == []
    {
      rows := [];
    }

    method Create(user: string, plan: string, expires: int) returns (id: nat)
      modifies this
      ensures id == |old(rows)| && rows == old(rows) + [Row(user, plan, expires, true)]
    {
      id := |rows|;
      rows := rows + [Row(user, plan, expires, true)];
    }

    method GetActive(user: string, now: int) returns (found: Lookup)
      ensures found == Subscriptions.GetActive(rows, user, now)
    {
      found := Subscriptions.GetActive(rows, user, now);
    }

    method Deactivate(id: nat)
      modifies this
      ensures rows == Subscriptions.Deactivate(old(rows), id)
    {
      if id < |rows| {
        rows := rows[id := rows[id].(active := false)];
      }
    }
  }

  class UserSubscriptionService {
    const repo: UserSubscriptionRepository
    var users: map<string, User>
    var plans: map<string, Plan>

    constructor (repo: UserSubscriptionRepository, users: map<string, User>, plans: map<string, Plan>)
      ensures this.repo == repo && this.users == users && this.plans == plans
    {
      this.repo := repo;
      this.users := users;
      this.plans := plans;
    }

    method FindPlan(code: string) returns (plan: Option<string>)
      ensures plan.Some? ==> CodeIs(plans, plan.value, code)
      ensures plan.None? ==> forall p <- plans :: plans[p].code != code
    {
      plan := None;
      var rest := plans.Keys;
      while rest != {}
        invariant rest <= plans.Keys
        invariant plan.Some? ==> CodeIs(plans, plan.value, code)
        invariant plan.None? ==> forall p <- plans.Keys - rest :: plans[p].code != code
        decreases rest
      {
        var p :| p in rest;
        if plans[p].code == code {
          plan := Some(p);
        }
        rest := rest - {p};
      }
    }

    /** The current subscription, if any, is switched off before the new one is added. */
    method AssignSubscription(user: string, code: string, expires: int, now: int) returns (r: Outcome)
      modifies repo
      ensures r.UserNotFound? <==> user !in users
      ensures r.PlanNotFound? ==> forall p <- plans :: plans[p].code != code
      ensures r.PlanInactive? ==> exists p <- plans :: CodeIs(plans, p, code) && !plans[p].active
      ensures r.Ambiguous? ==> GetActive(old(repo.rows), user, now).ManyRows?
      ensures !r.Cancelled? && !r.NothingToCancel?
      ensures !r.Assigned? ==> repo.rows == old(repo.rows)
      ensures r.Assigned? ==>
                && !GetActive(old(repo.rows), user, now).ManyRows?
                && r.id == |old(repo.rows)| == |repo.rows| - 1
                && CodeIs(plans, repo.rows[r.id].plan, code) && plans[repo.rows[r.id].plan].active
                && repo.rows ==
                    Finish(old(repo.rows),
                           Pending(user, repo.rows[r.id].plan, Current(GetActive(old(repo.rows), user, now))), expires)
    {
      if user !in users {
        return UserNotFound;
      }
      var plan := FindPlan(code);
      if plan.None? {
        return PlanNotFound;
      }
      if !plans[plan.value].active {
        return PlanInactive;
      }
      var current := repo.GetActive(user, now);
      if current.ManyRows? {
        return Ambiguous;
      }
      if current.OneRow? {
        repo.Deactivate(current.id);
      }
      var id := repo.Create(user, plan.value, expires);
      return Assigned(id);
    }

    method CancelSubscription(user: string, now: int) returns (r: Outcome)
      modifies repo
      ensures r == match GetActive(old(repo.rows), user, now)
                   case NoRow => NothingToCancel
                   case OneRow(_) => Cancelled
                   case ManyRows => Ambiguous
      ensures r.Cancelled? ==> repo.rows == Deactivate(old(repo.rows), GetActive(old(repo.rows), user, now).id)
      ensures !r.Cancelled? ==> repo.rows == old(repo.rows)
    {
      var current := repo.GetActive(user, now);
      match current {
        case NoRow => return NothingToCancel;
        case ManyRows => return Ambiguous;
        case OneRow(id) =>
          repo.Deactivate(id);
          return Cancelled;
      }
    }

    /** The level for a token. A row that ran out between the two readings of the clock is
        switched off. */
    method GetSubscriptionInfo(user: string, notify: map<string, bool>, now: int, checked: int)
        returns (level: Option<int>)
      modifies repo
      ensures (level, repo.rows) == Info(Db(users, plans, old(repo.rows), notify), user, now, checked)
    {
      var active := repo.GetActive(user, now);
      match active {
        case NoRow => return Some(0);
        case ManyRows => return None;
        case OneRow(id) =>
          if repo.rows[id].expires < checked {
            repo.Deactivate(id);
            return Some(0);
          }
          return if repo.rows[id].plan in plans then Some(plans[repo.rows[id].plan].level) else None;
      }
    }
  }

  function Current(found: Lookup): Option<nat> {
    if found.OneRow? then Some(found.id) else None
  }

  lemma SwitchedOff(rows: seq<Row>, p: Pending, expires: int, now: int)
    requires OnlyKnown(rows, p, now)
    ensures forall i: nat :: i < |rows| ==> !Counts(Finish(rows, p, expires)[i], p.user, now)
  {
  }

  /** An assignment with nothing in between leaves the new row as the only one that counts. */
  lemma AssignedAlone(rows: seq<Row>, user: string, plan: string, expires: int, now: int)
    requires AtMostOne(rows, now)
    ensures var after := Finish(rows, Pending(user, plan, Current(GetActive(rows, user, now))), expires);
            && AtMostOne(after, now)
            && GetActive(after, user, now) == if now < expires then OneRow(|rows|) else NoRow
  {
    var found := GetActive(rows, user, now);
    var p := Pending(user, plan, Current(found));
    var after := Finish(rows, p, expires);
    OneOrNone(rows, user, now);
    forall i: nat | i < |rows| && Counts(rows[i], user, now) ensures p.current == Some(i) {
      assert i in Active(rows, user, now);
    }
    FinishKeeps(rows, p, expires, now);
    OneOrNone(after, user, now);
    SwitchedOff(rows, p, expires, now);
    var ids := Active(after, user, now);
    assert |rows| in ids <==> now < expires;
    if ids != [] { assert ids[0] in ids; }
  }
}
