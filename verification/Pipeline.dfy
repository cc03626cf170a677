/** The two protocols joined: what the fan-out publishes is what the delivery workers
    consume, from the admin's mailing to the recipients' rows. */
module Pipeline {
  import opened Options
  import opened Keys
  import Delivery
  import Fanout
  import FanoutProofs
  import TriggerUpdates
  import Schedulers

  datatype State = State(fan: Fanout.State, del: Delivery.State)

  const INIT := State(Fanout.INIT, Delivery.INIT)

  /** A step of the fan-out, a personal notification published by the API, or a step of a
      delivery worker. */
  datatype Event =
    | Fan(e: Fanout.Event)
    | Personal(m: Delivery.Message)
    | Work(p: Delivery.PartitionId, world: Delivery.World)
    | Commit(p: Delivery.PartitionId)
    | Abort(p: Delivery.PartitionId)

  function PublishedTo(topic: Delivery.Topic, m: Delivery.Message): Delivery.Event {
    Delivery.Publish(Delivery.PartitionId(topic, m.user), Delivery.Ready(m))
  }

  /** The delivery events of one event: a new bulk message goes to its user's partition. */
  function Delivered(s: State, e: Event): seq<Delivery.Event> {
    match e
    case Fan(f) =>
      var bulk := Fanout.Next(s.fan, f).db.bulk;
      if |bulk| > |s.fan.db.bulk| then [PublishedTo(Delivery.BulkTopic, bulk[|bulk| - 1])] else []
    case Personal(m) => [PublishedTo(Delivery.ReadyTopic, m)]
    case Work(p, w) => [Delivery.Work(p, w)]
    case Commit(p) => [Delivery.Commit(p)]
    case Abort(p) => [Delivery.Abort(p)]
  }

  function Next(s: State, e: Event): State {
    State(if e.Fan? then Fanout.Next(s.fan, e.e) else s.fan, Delivery.Run(s.del, Delivered(s, e)))
  }

  function Run(events: seq<Event>): State {
    if events == [] then INIT else Next(Run(events[..|events| - 1]), events[|events| - 1])
  }

  function FanEvents(events: seq<Event>): seq<Fanout.Event> {
    if events == [] then []
    else var last := events[|events| - 1];
      FanEvents(events[..|events| - 1]) + if last.Fan? then [last.e] else []
  }

  function DeliveryEvents(events: seq<Event>): seq<Delivery.Event> {
    if events == [] then []
    else DeliveryEvents(events[..|events| - 1]) + Delivered(Run(events[..|events| - 1]), events[|events| - 1])
  }

  /** The API gives every personal notification a fresh identifier: `owner` is the one user
      an identifier was drawn for. */
  ghost predicate FreshPersonal(owner: string -> string, events: seq<Event>) {
    forall e <- events :: e.Personal? ==> e.m.key.Direct? && owner(e.m.key.id) == e.m.user
  }

  /** A key decides its partition. */
  function Home(owner: string -> string): Key -> Delivery.PartitionId {
    (k: Key) =>
      match k
      case ForMailing(_, u) => Delivery.PartitionId(Delivery.BulkTopic, u)
      case ForTrigger(_, _, u) => Delivery.PartitionId(Delivery.BulkTopic, u)
      case Direct(id) => Delivery.PartitionId(Delivery.ReadyTopic, owner(id))
  }

  lemma {:induction false} DeliveryRunSplit(s: Delivery.State, first: seq<Delivery.Event>, rest: seq<Delivery.Event>)
    ensures Delivery.Run(s, first + rest) == Delivery.Run(Delivery.Run(s, first), rest)
    decreases |rest|
  {
    if rest == [] {
      assert first + rest == first;
    } else {
      var all := first + rest;
      assert all[..|all| - 1] == first + rest[..|rest| - 1];
      DeliveryRunSplit(s, first, rest[..|rest| - 1]);
    }
  }

  /** Each half of a joint run is a run of its own protocol. */
  lemma {:induction false} Projects(events: seq<Event>)
    ensures Run(events).fan == Fanout.Run(Fanout.INIT, FanEvents(events))
    ensures Run(events).del == Delivery.Run(Delivery.INIT, DeliveryEvents(events))
  {
    if events != [] {
      var before := events[..|events| - 1];
      var last := events[|events| - 1];
      Projects(before);
      DeliveryRunSplit(Delivery.INIT, DeliveryEvents(before), Delivered(Run(before), last));
      if last.Fan? {
        Schedulers.RunSplit(Fanout.INIT, FanEvents(before), [last.e]);
        Schedulers.RunOne(Run(before).fan, last.e);
      } else {
        assert FanEvents(before) + [] == FanEvents(before);
      }
    }
  }

  /** A fan-out step publishes at most one bulk message, under a key of its own recipient. */
  lemma OneBulkMessage(s: Fanout.State, e: Fanout.Event)
    ensures var bulk := Fanout.Next(s, e).db.bulk;
            bulk == s.db.bulk || (|bulk| == |s.db.bulk| + 1 && bulk == s.db.bulk + [bulk[|s.db.bulk|]]
                                  && !bulk[|s.db.bulk|].key.Direct?
                                  && bulk[|s.db.bulk|].key.user == bulk[|s.db.bulk|].user)
  {
  }

  lemma {:induction false} JointRunHomed(owner: string -> string, events: seq<Event>)
    requires FreshPersonal(owner, events)
    ensures Delivery.Homed(Home(owner), DeliveryEvents(events))
  {
    if events != [] {
      var before := events[..|events| - 1];
      var last := events[|events| - 1];
      assert last in events;
      assert FreshPersonal(owner, before) by {
        forall e <- before ensures e in events {
        }
      }
      JointRunHomed(owner, before);
      if last.Fan? {
        OneBulkMessage(Run(before).fan, last.e);
      }
    }
  }

  /** The bulk topic as the delivery workers see it. */
  ghost predicate Consumable(s: State) {
    forall m <- s.fan.db.bulk ::
      Delivery.Ready(m) in Delivery.Part(s.del, Delivery.PartitionId(Delivery.BulkTopic, m.user)).log
  }

  lemma LogsGrow(s: Delivery.State, e: Delivery.Event, p: Delivery.PartitionId)
    ensures Delivery.Part(s, p).log <= Delivery.Part(Delivery.Next(s, e), p).log
    ensures e.Publish? && e.p == p ==> e.raw in Delivery.Part(Delivery.Next(s, e), p).log
  {
  }

  lemma DeliveryRunOne(s: Delivery.State, e: Delivery.Event)
    ensures Delivery.Run(s, [e]) == Delivery.Next(s, e)
  {
  }

  lemma {:induction false} BulkIsConsumable(events: seq<Event>)
    ensures Consumable(Run(events))
  {
    if events != [] {
      var before := events[..|events| - 1];
      var last := events[|events| - 1];
      BulkIsConsumable(before);
      var s, s' := Run(before), Run(events);
      var es := Delivered(s, last);
      if last.Fan? {
        OneBulkMessage(s.fan, last.e);
      }
      if es != [] {
        DeliveryRunOne(s.del, es[0]);
      }
      forall m <- s'.fan.db.bulk
        ensures Delivery.Ready(m) in Delivery.Part(s'.del, Delivery.PartitionId(Delivery.BulkTopic, m.user)).log
      {
        var p := Delivery.PartitionId(Delivery.BulkTopic, m.user);
        if es != [] {
          LogsGrow(s.del, es[0], p);
        }
      }
    }
  }

  /** Every message of the user's bulk partition has been acknowledged. */
  ghost predicate Drained(s: State, user: string) {
    var part := Delivery.Part(s.del, Delivery.PartitionId(Delivery.BulkTopic, user));
    part.committed == |part.log|
  }

  /** What the notifications table and the sends say about one recipient. */
  ghost predicate Served(s: State, key: Key) {
    && Delivery.Closed(s.del.store.rows, key)
    && s.del.store.sends[key]
       == s.del.store.cuts[key] + Delivery.Bit(s.del.store.rows[key].status.Sent?)
  }

  lemma AcknowledgedIsServed(owner: string -> string, events: seq<Event>, m: Delivery.Message)
    requires FreshPersonal(owner, events)
    requires m in Run(events).fan.db.bulk && Home(owner)(m.key) == Delivery.PartitionId(Delivery.BulkTopic, m.user)
    requires Drained(Run(events), m.user)
    ensures Served(Run(events), m.key)
  {
    Projects(events);
    JointRunHomed(owner, events);
    BulkIsConsumable(events);
    var s := Run(events);
    var p := Delivery.PartitionId(Delivery.BulkTopic, m.user);
    var part := Delivery.Part(s.del, p);
    var i :| 0 <= i < |part.log| && part.log[i] == Delivery.Ready(m);
    Delivery.NoSilentLoss(Home(owner), DeliveryEvents(events), p, i);
    Delivery.EffectivelyOnce(Home(owner), DeliveryEvents(events), m.key);
  }

  /** Whatever the workers handle of a user's bulk messages under a key has this content. */
  ghost predicate Carries(s: State, user: string, key: Key, templateId: string, payload: string) {
    forall raw <- Delivery.Part(s.del, Delivery.PartitionId(Delivery.BulkTopic, user)).log ::
      raw.Ready? && raw.message.key == key ==> raw.message.templateId == templateId && raw.message.payload == payload
  }

  ghost predicate OnlyBulk(s: State) {
    forall p <- s.del.parts :: p.topic.BulkTopic? ==>
      forall raw <- s.del.parts[p].log :: raw.Ready? && raw.message in s.fan.db.bulk
  }

  lemma LogsOnlyGrowBy(s: Delivery.State, e: Delivery.Event, p: Delivery.PartitionId)
    ensures forall raw <- Delivery.Part(Delivery.Next(s, e), p).log ::
              raw in Delivery.Part(s, p).log || (e.Publish? && e.p == p && e.raw == raw)
  {
  }

  lemma BulkGrows(s: Fanout.State, e: Fanout.Event)
    ensures s.db.bulk <= Fanout.Next(s, e).db.bulk
  {
  }

  lemma StepOnlyBulk(s: State, e: Event)
    requires OnlyBulk(s)
    ensures OnlyBulk(Next(s, e))
  {
    var s' := Next(s, e);
    var es := Delivered(s, e);
    if e.Fan? { BulkGrows(s.fan, e.e); }
    if es != [] { DeliveryRunOne(s.del, es[0]); }
    forall p <- s'.del.parts | p.topic.BulkTopic?
      ensures forall raw <- s'.del.parts[p].log :: raw.Ready? && raw.message in s'.fan.db.bulk
    {
      if es != [] { LogsOnlyGrowBy(s.del, es[0], p); }
    }
  }

  /** The bulk topic holds nothing but what the fan-out published. */
  lemma {:induction false} BulkOnlyFanout(events: seq<Event>)
    ensures OnlyBulk(Run(events))
  {
    if events != [] {
      BulkOnlyFanout(events[..|events| - 1]);
      StepOnlyBulk(Run(events[..|events| - 1]), events[|events| - 1]);
    }
  }

  /** End to end: once a mailing carries its sent time and its recipients' partitions are
      drained, every user of one resolved audience has a closed row, and was really sent
      to exactly as often as the row says, plus one for every cut after a send; and what
      was sent is the mailing's template and payload. */
  lemma MailingReachesEveryRecipient(owner: string -> string, events: seq<Event>, id: string)
    returns (channel: string, users: seq<string>)
    requires FreshPersonal(owner, events)
    requires var db := Run(events).fan.db; id in db.mailings && db.mailings[id].sentAt.Some?
    ensures Fanout.Resolution(Fanout.MailingJob(id), channel, users) in Run(events).fan.db.resolved
    ensures forall u <- users | Drained(Run(events), u) :: Served(Run(events), ForMailing(id, u))
    ensures var m := Run(events).fan.db.mailings[id];
            forall u <- users :: Carries(Run(events), u, ForMailing(id, u), m.templateId, m.payload)
  {
    Projects(events);
    BulkOnlyFanout(events);
    channel, users := FanoutProofs.SentMeansFannedOut(FanEvents(events), id);
    var s := Run(events);
    var row := s.fan.db.mailings[id];
    forall u <- users | Drained(s, u) ensures Served(s, ForMailing(id, u)) {
      AcknowledgedIsServed(owner, events,
                           Delivery.Message(u, row.templateId, row.payload, channel, ForMailing(id, u), None));
    }
    forall u <- users ensures Carries(s, u, ForMailing(id, u), row.templateId, row.payload) {
      forall raw <- Delivery.Part(s.del, Delivery.PartitionId(Delivery.BulkTopic, u)).log
        | raw.Ready? && raw.message.key == ForMailing(id, u)
        ensures raw.message.templateId == row.templateId && raw.message.payload == row.payload
      {
        FanoutProofs.MailingContent(FanEvents(events), id, raw.message);
      }
    }
  }

  /** The same for a trigger that is not due, if its last upsert was safe: its current update,
      under its own template and payload. */
  lemma TriggerReachesEveryRecipient(owner: string -> string, events: seq<Event>, r: Fanout.Ref)
    returns (channel: string, users: seq<string>)
    requires FreshPersonal(owner, events) && TriggerUpdates.Undisturbed(FanEvents(events), r)
    requires var db := Run(events).fan.db; r in db.triggers && !Fanout.NeedsSending(db.triggers[r])
    ensures var t := Run(events).fan.db.triggers[r];
            && Fanout.Resolution(FanoutProofs.CurrentJob(r, t), channel, users) in Run(events).fan.db.resolved
            && (forall u <- users | Drained(Run(events), u) :: Served(Run(events), ForTrigger(t.id, t.lastUpdate, u)))
            && forall u <- users :: Carries(Run(events), u, ForTrigger(t.id, t.lastUpdate, u), t.templateId, t.payload)
  {
    Projects(events);
    BulkOnlyFanout(events);
    TriggerUpdates.NoUpdateLost(FanEvents(events), r);
    var s := Run(events);
    var db := s.fan.db;
    var t := db.triggers[r];
    var job, head := FanoutProofs.CurrentJob(r, t), Fanout.TriggerMessageOf(r, t);
    channel, users :| Fanout.Resolution(job, channel, users) in db.resolved
                      && FanoutProofs.AllReached(db, job, head, channel, users);
    forall u <- users | Drained(s, u) ensures Served(s, ForTrigger(t.id, t.lastUpdate, u)) {
      assert FanoutProofs.Reached(db.bulk, job, head, channel, u);
      AcknowledgedIsServed(owner, events, Fanout.BulkMessage(job, head, channel, u));
    }
  }
}
