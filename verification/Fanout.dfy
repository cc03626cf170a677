/** From an admin mailing or a content trigger to one bulk message per recipient: the API
    that creates them, the scheduler that publishes what is due and then marks it, and
    the worker that resolves the audience, publishes message by message and then marks. */
module Fanout {
  import opened Options
  import opened Keys
  import Delivery

  datatype MailingStatus = Scheduled | Sending | Sent | Failed

  datatype Mailing = Mailing(templateId: string, filter: string, payload: string, status: MailingStatus,
                             scheduledAt: Option<nat>, sentAt: Option<nat>)

  /** The unique (content_id, notification_type) of a trigger row. */
  datatype Ref = Ref(content: string, kind: string)

  datatype Trigger = Trigger(id: string, templateId: string, payload: string, active: bool, lastUpdate: nat,
                             lastSent: Option<nat>, lastChecked: Option<nat>, interval: nat)

  datatype Pending =
    | MailingMessage(id: string, templateId: string, filter: string, payload: string)
    | TriggerMessage(ref: Ref, templateId: string, payload: string)
    | Garbage

  /** What a fan-out is for; a trigger's carries the last_update its handler read. */
  datatype Job = MailingJob(id: string) | TriggerJob(ref: Ref, triggerId: string, stamp: nat)

  datatype Phase =
    | Idle
    | Found(job: Job)
    | Targeted(job: Job, channel: string)
    | Spreading(job: Job, channel: string, users: seq<string>, done: nat)
    | Done

  datatype Partition = Partition(log: seq<Pending>, committed: nat, phase: Phase)

  const NEW_PARTITION := Partition([], 0, Idle)

  /** A row as the scheduler read it. */
  datatype Item = TriggerItem(ref: Ref, trigger: Trigger) | MailingItem(id: string, mailing: Mailing)

  /** An audience, and the channel of the template read before it. */
  datatype Resolution = Resolution(job: Job, channel: string, users: seq<string>)

  /** The tables and the bulk topic. `creating` holds immediate mailings published but not
      yet inserted; `resolved` records every audience resolved and `raced` every update
      over which the mark of another update, or of another content, fell. */
  datatype Tables = Tables(
    mailings: map<string, Mailing>, triggers: map<Ref, Trigger>, creating: map<string, Mailing>,
    bulk: seq<Delivery.Message>, clock: nat, resolved: set<Resolution>, raced: set<(Ref, nat)>)

  /** The tables, the pending topic, and the scheduler's progress through its queue. */
  datatype State = State(db: Tables, topic: map<string, Partition>, queue: seq<Item>, announced: bool)

  const INIT := State(Tables(map[], map[], map[], [], 0, {}, {}), map[], [], false)

  /** The world's answers to the worker's reads: the channel of the template if it is
      there and active, and the audience unless resolving it raised. */
  datatype World = World(channel: Option<string>, audience: Option<seq<string>>)

  datatype Event =
    | Tick
    | Upsert(ref: Ref, id: string, templateId: string, payload: string, interval: nat)
    | AnnounceImmediate(id: string, mailing: Mailing)
    | InsertImmediate(id: string)
    | InsertScheduled(id: string, mailing: Mailing)
    | Poll(items: seq<Item>)
    | Announce
    | Mark
    | Drop
    | Crash
    | Work(p: string, world: World)
    | Commit(p: string)
    | Abort(p: string)

  function Part(topic: map<string, Partition>, p: string): Partition {
    if p in topic then topic[p] else NEW_PARTITION
  }

  predicate HasHead(part: Partition) {
    part.committed < |part.log|
  }

  function Publish(topic: map<string, Partition>, p: string, message: Pending): map<string, Partition> {
    topic[p := Part(topic, p).(log := Part(topic, p).log + [message])]
  }

  function MailingMessageOf(id: string, m: Mailing): Pending {
    MailingMessage(id, m.templateId, m.filter, m.payload)
  }

  function SetStatus(mailings: map<string, Mailing>, id: string, status: MailingStatus): map<string, Mailing> {
    if id in mailings then mailings[id := mailings[id].(status := status)] else mailings
  }

  function SetSent(mailings: map<string, Mailing>, id: string, now: nat): map<string, Mailing> {
    if id in mailings then mailings[id := mailings[id].(status := Sent, sentAt := Some(now))] else mailings
  }

  predicate NeedsSending(t: Trigger) {
    t.lastSent.None? || t.lastUpdate > t.lastSent.value
  }

  predicate TriggerDue(t: Trigger, now: nat) {
    t.active && (t.lastChecked.None? || now >= t.lastChecked.value + t.interval)
  }

  predicate MailingDue(m: Mailing, now: nat) {
    m.status.Scheduled? && m.scheduledAt.Some? && m.scheduledAt.value <= now
  }

  /** The rows one poll returns, in any order, each once. */
  predicate DueTriggers(db: Tables, items: seq<Item>) {
    && (forall i, j | 0 <= i < j < |items| :: items[i] != items[j])
    && (forall x <- items :: x.TriggerItem? && x.ref in db.triggers && x.trigger == db.triggers[x.ref]
                             && TriggerDue(x.trigger, db.clock))
    && (forall r <- db.triggers :: TriggerDue(db.triggers[r], db.clock) ==> TriggerItem(r, db.triggers[r]) in items)
  }

  predicate DueMailings(db: Tables, items: seq<Item>) {
    && (forall i, j | 0 <= i < j < |items| :: items[i] != items[j])
    && (forall x <- items :: x.MailingItem? && x.id in db.mailings && x.mailing == db.mailings[x.id]
                             && MailingDue(x.mailing, db.clock))
    && (forall m <- db.mailings :: MailingDue(db.mailings[m], db.clock) ==> MailingItem(m, db.mailings[m]) in items)
  }

  /** An identifier never used before. */
  predicate Fresh(s: State, id: string) {
    id !in s.db.mailings && id !in s.db.creating && id !in s.topic
  }

  function KeyOf(job: Job, user: string): Key {
    match job
    case MailingJob(id) => ForMailing(id, user)
    case TriggerJob(_, id, stamp) => ForTrigger(id, stamp, user)
  }

  function BulkMessage(job: Job, m: Pending, channel: string, user: string): Delivery.Message
    requires !m.Garbage?
  {
    Delivery.Message(user, m.templateId, m.payload, channel, KeyOf(job, user), None)
  }

  /** The head of the scheduler's queue is published if it needs to be. */
  function AnnounceHead(s: State): State {
    if s.queue == [] || s.announced then s else
    match s.queue[0]
    case TriggerItem(ref, t) =>
      (if NeedsSending(t)
       then s.(topic := Publish(s.topic, t.id, TriggerMessageOf(ref, t)))
       else s).(announced := true)
    case MailingItem(id, m) =>
      s.(topic := Publish(s.topic, id, MailingMessageOf(id, m)), announced := true)
  }

  function MarkHead(s: State): State {
    if s.queue == [] || !s.announced then s
    else State(MarkItem(s.db, s.queue[0]), s.topic, s.queue[1..], false)
  }

  /** The scheduler's write for a handled item. */
  function MarkItem(db: Tables, x: Item): Tables {
    match x
    case TriggerItem(ref, _) =>
      if ref in db.triggers
      then db.(triggers := db.triggers[ref := db.triggers[ref].(lastChecked := Some(db.clock))]) else db
    case MailingItem(id, _) => db.(mailings := SetStatus(db.mailings, id, Sending))
  }

  function TriggerMessageOf(ref: Ref, t: Trigger): Pending {
    TriggerMessage(ref, t.templateId, t.payload)
  }

  /** The worker's last write for a job. */
  function MarkJobSent(db: Tables, head: Pending, job: Job): Tables {
    match job
    case MailingJob(id) => db.(mailings := SetSent(db.mailings, id, db.clock), clock := db.clock + 1)
    case TriggerJob(ref, _, stamp) =>
      if ref !in db.triggers then db else
      var t := db.triggers[ref];
      db.(triggers := db.triggers[ref := t.(lastSent := Some(db.clock))],
          raced := db.raced +
              (if t.lastUpdate != stamp || head != TriggerMessageOf(ref, t) then {(ref, t.lastUpdate)} else {}),
          clock := db.clock + 1)
  }

  function SetPhase(topic: map<string, Partition>, p: string, phase: Phase): map<string, Partition> {
    topic[p := Part(topic, p).(phase := phase)]
  }

  /** Where one external call takes the pending handler on `head`. */
  function NextPhase(db: Tables, head: Pending, phase: Phase, w: World): Phase {
    match phase
    case Idle =>
      (match head
       case Garbage => Done
       case MailingMessage(id, _, _, _) =>
         if w.channel.None? then Done else Targeted(MailingJob(id), w.channel.value)
       case TriggerMessage(ref, _, _) =>
         if ref !in db.triggers || !db.triggers[ref].active then Done
         else Found(TriggerJob(ref, db.triggers[ref].id, db.triggers[ref].lastUpdate)))
    case Found(job) => if w.channel.None? then Done else Targeted(job, w.channel.value)
    case Targeted(job, channel) =>
      if w.audience.None? then Idle else Spreading(job, channel, w.audience.value, 0)
    case Spreading(job, channel, users, done) =>
      if done < |users| && !head.Garbage? then Spreading(job, channel, users, done + 1) else Done
    case Done => Done
  }

  /** What that call does to the tables and the bulk topic. */
  function Effect(db: Tables, head: Pending, phase: Phase, w: World): Tables {
    match phase
    case Idle =>
      if head.MailingMessage? && w.channel.None? then Fail(db, head.id) else db
    case Found(_) => db
    case Targeted(job, channel) =>
      if w.audience.Some? then db.(resolved := db.resolved + {Resolution(job, channel, w.audience.value)})
      else if job.MailingJob? then Fail(db, job.id)
      else db
    case Spreading(job, channel, users, done) =>
      if done < |users| && !head.Garbage? then db.(bulk := db.bulk + [BulkMessage(job, head, channel, users[done])])
      else MarkJobSent(db, head, job)
    case Done => db
  }

  function Fail(db: Tables, id: string): Tables {
    db.(mailings := SetStatus(db.mailings, id, Failed))
  }

  function Handle(s: State, p: string, w: World): State {
    var part := Part(s.topic, p);
    if !HasHead(part) then s else
    var head := part.log[part.committed];
    s.(db := Effect(s.db, head, part.phase, w), topic := SetPhase(s.topic, p, NextPhase(s.db, head, part.phase, w)))
  }

  function UpsertTrigger(db: Tables, ref: Ref, id: string, templateId: string, payload: string, interval: nat): Tables {
    var row := if ref in db.triggers
               then db.triggers[ref].(templateId := templateId, payload := payload, lastUpdate := db.clock)
               else Trigger(id, templateId, payload, true, db.clock, None, None, interval);
    db.(triggers := db.triggers[ref := row], clock := db.clock + 1)
  }

  /** One event of the system; an event that cannot happen changes nothing. */
  function Next(s: State, e: Event): State {
    match e
    case Tick => s.(db := s.db.(clock := s.db.clock + 1))
    case Upsert(ref, id, templateId, payload, interval) =>
      s.(db := UpsertTrigger(s.db, ref, id, templateId, payload, interval))
    case AnnounceImmediate(id, m) =>
      if !Fresh(s, id) then s else
      var row := m.(status := Sending, scheduledAt := None, sentAt := None);
      s.(topic := Publish(s.topic, id, MailingMessageOf(id, m)), db := s.db.(creating := s.db.creating[id := row]))
    case InsertImmediate(id) =>
      if id !in s.db.creating then s else
      s.(db := s.db.(mailings := s.db.mailings[id := s.db.creating[id]], creating := s.db.creating - {id}))
    case InsertScheduled(id, m) =>
      if !Fresh(s, id) then s else
      s.(db := s.db.(mailings := s.db.mailings[id := m.(status := Scheduled, sentAt := None)]),
         topic := s.topic[id := NEW_PARTITION])
    case Poll(items) =>
      if s.queue == [] && (DueTriggers(s.db, items) || DueMailings(s.db, items))
      then s.(queue := items, announced := false) else s
    case Announce => AnnounceHead(s)
    case Mark => MarkHead(s)
    case Drop => if s.queue == [] then s else s.(queue := s.queue[1..], announced := false)
    case Crash => s.(queue := [], announced := false)
    case Work(p, w) => Handle(s, p, w)
    case Commit(p) =>
      var part := Part(s.topic, p);
      if part.phase.Done? && HasHead(part)
      then s.(topic := s.topic[p := part.(committed := part.committed + 1, phase := Idle)]) else s
    case Abort(p) => if p in s.topic then s.(topic := SetPhase(s.topic, p, Idle)) else s
  }

  function Run(s: State, events: seq<Event>): State {
    if events == [] then s else Next(Run(s, events[..|events| - 1]), events[|events| - 1])
  }
}
