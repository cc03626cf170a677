/** What every run of the fan-out keeps. */
module FanoutProofs {
  import opened Options
  import opened Keys
  import opened Fanout
  import Delivery

  // ---------- The invariant ----------

  ghost predicate Announced(topic: map<string, Partition>, id: string, m: Mailing) {
    MailingMessageOf(id, m) in Part(topic, id).log
  }

  ghost predicate RowOk(db: Tables, topic: map<string, Partition>, id: string)
    requires id in db.mailings
  {
    && id in topic && id !in db.creating
    && (!db.mailings[id].status.Scheduled? ==> Announced(topic, id, db.mailings[id]))
  }

  /** A mailing message in the log of `p` is that mailing's. */
  ghost predicate LogOk(db: Tables, p: string, log: seq<Pending>) {
    forall x <- log :: x.MailingMessage? ==>
      && x.id == p
      && (p in db.mailings ==> x == MailingMessageOf(p, db.mailings[p]))
      && (p in db.creating ==> x == MailingMessageOf(p, db.creating[p]))
  }

  /** Published before marked: a mailing row past `scheduled` has its message in the topic. */
  ghost predicate RowsOk(db: Tables, topic: map<string, Partition>) {
    && (forall id <- db.mailings :: RowOk(db, topic, id))
    && (forall id <- db.creating :: id in topic && Announced(topic, id, db.creating[id]))
    && (forall p <- topic :: LogOk(db, p, topic[p].log))
  }

  ghost predicate ItemOk(db: Tables, x: Item) {
    match x
    case MailingItem(id, m) => id in db.mailings && MailingMessageOf(id, m) == MailingMessageOf(id, db.mailings[id])
    case TriggerItem(ref, t) => ref in db.triggers && t.id == db.triggers[ref].id
  }

  ghost predicate QueueOk(s: State) {
    && (forall x <- s.queue :: ItemOk(s.db, x))
    && (s.queue != [] && s.announced && s.queue[0].MailingItem? ==>
          Announced(s.topic, s.queue[0].id, s.queue[0].mailing))
  }

  /** The user has the bulk message that the job makes of the pending message. */
  predicate Reached(bulk: seq<Delivery.Message>, job: Job, head: Pending, channel: string, user: string) {
    !head.Garbage? && BulkMessage(job, head, channel, user) in bulk
  }

  predicate AllReached(db: Tables, job: Job, head: Pending, channel: string, users: seq<string>) {
    forall u <- users :: Reached(db.bulk, job, head, channel, u)
  }

  /** Some audience resolved for the job has been reached completely, with the content of
      the pending message. */
  ghost predicate FannedOut(db: Tables, job: Job, head: Pending) {
    exists channel, users :: Resolution(job, channel, users) in db.resolved && AllReached(db, job, head, channel, users)
  }

  /** The job and the message of a trigger's current update. */
  function CurrentJob(r: Ref, t: Trigger): Job {
    TriggerJob(r, t.id, t.lastUpdate)
  }

  ghost predicate JobOk(db: Tables, job: Job, head: Pending) {
    match job
    case MailingJob(id) => head.MailingMessage? && head.id == id
    case TriggerJob(ref, id, _) => head.TriggerMessage? && head.ref == ref
                                   && ref in db.triggers && db.triggers[ref].id == id
  }

  ghost predicate PhaseOk(db: Tables, head: Pending, phase: Phase) {
    match phase
    case Found(job) => job.TriggerJob? && JobOk(db, job, head)
    case Targeted(job, _) => JobOk(db, job, head)
    case Spreading(job, channel, users, done) =>
      && JobOk(db, job, head)
      && done <= |users|
      && Resolution(job, channel, users) in db.resolved
      && forall i | 0 <= i < done :: Reached(db.bulk, job, head, channel, users[i])
    case _ => true
  }

  ghost predicate WorkerOk(db: Tables, part: Partition) {
    && part.committed <= |part.log|
    && (if HasHead(part) then PhaseOk(db, part.log[part.committed], part.phase) else part.phase.Idle?)
  }

  ghost predicate WorkersOk(db: Tables, topic: map<string, Partition>) {
    forall p <- topic :: WorkerOk(db, topic[p])
  }

  ghost predicate MailingsSpread(db: Tables) {
    && (forall id <- db.creating :: db.creating[id].sentAt.None?)
    && (forall id <- db.mailings :: db.mailings[id].sentAt.Some? ==>
          FannedOut(db, MailingJob(id), MailingMessageOf(id, db.mailings[id])))
  }

  /** A trigger the scheduler will not publish again has had its current update fanned out
      with its own content, unless another mark fell over it. */
  ghost predicate TriggerOk(db: Tables, r: Ref)
    requires r in db.triggers
  {
    var t := db.triggers[r];
    && t.lastUpdate < db.clock
    && (t.lastSent.Some? ==> t.lastSent.value < db.clock)
    && (!NeedsSending(t) ==> FannedOut(db, CurrentJob(r, t), TriggerMessageOf(r, t)) || (r, t.lastUpdate) in db.raced)
  }

  ghost predicate TriggersSpread(db: Tables) {
    forall r <- db.triggers :: TriggerOk(db, r)
  }

  ghost predicate Inv(s: State) {
    && RowsOk(s.db, s.topic) && QueueOk(s) && WorkersOk(s.db, s.topic)
    && MailingsSpread(s.db) && TriggersSpread(s.db)
  }

  // ---------- Growth ----------

  /** Nothing published or resolved is ever taken back. */
  ghost predicate Grows(db: Tables, db': Tables) {
    && db.bulk <= db'.bulk
    && db.resolved <= db'.resolved
    && db.clock <= db'.clock
    && db.raced <= db'.raced
    && (forall r <- db.triggers :: r in db'.triggers && db'.triggers[r].id == db.triggers[r].id)
  }

  /** Every mailing keeps its content; only the status and times may change. */
  ghost predicate KeepsContent(db: Tables, db': Tables) {
    forall id <- db.mailings :: id in db'.mailings
      && MailingMessageOf(id, db'.mailings[id]) == MailingMessageOf(id, db.mailings[id])
  }

  /** Sent times and update stamps stay. */
  ghost predicate KeepsStamps(db: Tables, db': Tables) {
    && (forall id <- db'.creating :: db'.creating[id].sentAt.None?)
    && (forall id <- db'.mailings :: db'.mailings[id].sentAt.Some? ==>
        id in db.mailings && db.mailings[id].sentAt.Some?)
    && db'.triggers.Keys == db.triggers.Keys
    && (forall r <- db.triggers :: db'.triggers[r].lastUpdate == db.triggers[r].lastUpdate
                                   && db'.triggers[r].lastSent == db.triggers[r].lastSent
                                   && TriggerMessageOf(r, db'.triggers[r]) == TriggerMessageOf(r, db.triggers[r]))
  }

  lemma WorkersStay(db: Tables, db': Tables, topic: map<string, Partition>)
    requires Grows(db, db') && WorkersOk(db, topic)
    ensures WorkersOk(db', topic)
  {
  }

  lemma SpreadStays(db: Tables, db': Tables)
    requires MailingsSpread(db) && TriggersSpread(db) && Grows(db, db') && KeepsStamps(db, db') && KeepsContent(db, db')
    ensures MailingsSpread(db') && TriggersSpread(db')
  {
  }

  // ---------- Publication and marking ----------

  lemma PublishKeeps(db: Tables, topic: map<string, Partition>, p: string, x: Pending)
    requires RowsOk(db, topic) && WorkersOk(db, topic) && LogOk(db, p, [x])
    ensures var topic' := Publish(topic, p, x); RowsOk(db, topic') && WorkersOk(db, topic')
  {
  }

  /** A mark on published mailings changes no content and needs no new message. */
  lemma StatusKeepsRows(db: Tables, db': Tables, topic: map<string, Partition>, id: Option<string>)
    requires RowsOk(db, topic) && KeepsContent(db, db') && db'.creating == db.creating
    requires db'.mailings.Keys == db.mailings.Keys
    requires forall j <- db.mailings :: id != Some(j) ==> db'.mailings[j] == db.mailings[j]
    requires id.Some? && id.value in db.mailings ==> Announced(topic, id.value, db.mailings[id.value])
    ensures RowsOk(db', topic)
  {
  }

  lemma ItemsStay(db: Tables, db': Tables, queue: seq<Item>)
    requires (forall x <- queue :: ItemOk(db, x)) && Grows(db, db') && KeepsContent(db, db')
    ensures forall x <- queue :: ItemOk(db', x)
  {
  }

  // ---------- The worker ----------

  lemma CompletedJob(db: Tables, head: Pending, phase: Phase)
    requires PhaseOk(db, head, phase) && phase.Spreading? && phase.done == |phase.users|
    requires !head.Garbage?
    ensures FannedOut(db, phase.job, head)
  {
  }

  lemma MarkSentGrows(db: Tables, head: Pending, job: Job)
    ensures Grows(db, MarkJobSent(db, head, job)) && KeepsContent(db, MarkJobSent(db, head, job))
  {
  }

  lemma EffectGrows(db: Tables, head: Pending, phase: Phase, w: World)
    ensures var db' := Effect(db, head, phase, w);
            Grows(db, db') && KeepsContent(db, db') && db'.creating == db.creating
  {
    if phase.Spreading? {
      MarkSentGrows(db, head, phase.job);
    }
  }

  lemma EffectPhase(db: Tables, head: Pending, phase: Phase, w: World)
    requires PhaseOk(db, head, phase)
    ensures PhaseOk(Effect(db, head, phase, w), head, NextPhase(db, head, phase, w))
  {
  }

  lemma MarkSentSpread(db: Tables, head: Pending, job: Job)
    requires MailingsSpread(db) && TriggersSpread(db) && FannedOut(db, job, head)
    requires job.TriggerJob? ==> job.ref in db.triggers && db.triggers[job.ref].id == job.triggerId
    requires job.MailingJob? && job.id in db.mailings ==> head == MailingMessageOf(job.id, db.mailings[job.id])
    ensures MailingsSpread(MarkJobSent(db, head, job)) && TriggersSpread(MarkJobSent(db, head, job))
  {
  }

  lemma EffectSpread(db: Tables, head: Pending, phase: Phase, w: World)
    requires MailingsSpread(db) && TriggersSpread(db) && PhaseOk(db, head, phase)
    requires head.MailingMessage? && head.id in db.mailings ==> head == MailingMessageOf(head.id, db.mailings[head.id])
    ensures MailingsSpread(Effect(db, head, phase, w)) && TriggersSpread(Effect(db, head, phase, w))
  {
    if phase.Spreading? && phase.done == |phase.users| {
      CompletedJob(db, head, phase);
      MarkSentSpread(db, head, phase.job);
    } else {
      EffectGrows(db, head, phase, w);
      SpreadStays(db, Effect(db, head, phase, w));
    }
  }

  /** Only the mailing of the head message can change status. */
  lemma EffectElsewhere(db: Tables, head: Pending, phase: Phase, w: World)
    requires PhaseOk(db, head, phase)
    ensures var db' := Effect(db, head, phase, w);
            && db'.mailings.Keys == db.mailings.Keys
            && (forall j <- db.mailings :: !(head.MailingMessage? && head.id == j) ==>
                db'.mailings[j] == db.mailings[j])
  {
  }

  lemma WorkKeeps(s: State, p: string, w: World)
    requires Inv(s)
    ensures Inv(Next(s, Work(p, w)))
  {
    var part := Part(s.topic, p);
    if HasHead(part) {
      var head := part.log[part.committed];
      var db' := Effect(s.db, head, part.phase, w);
      var topic' := SetPhase(s.topic, p, NextPhase(s.db, head, part.phase, w));
      assert WorkerOk(s.db, part);
      EffectGrows(s.db, head, part.phase, w);
      EffectPhase(s.db, head, part.phase, w);
      assert LogOk(s.db, p, part.log);
      EffectSpread(s.db, head, part.phase, w);
      EffectElsewhere(s.db, head, part.phase, w);
      WorkersStay(s.db, db', s.topic);
      assert WorkersOk(db', topic');
      assert head in part.log && LogOk(s.db, p, part.log);
      StatusKeepsRows(s.db, db', s.topic, if head.MailingMessage? then Some(head.id) else None);
      SameLogs(db', s.topic, topic');
      ItemsStay(s.db, db', s.queue);
      assert topic'[p].log == part.log;
    }
  }

  /** The rows depend on the logs, not on offsets and phases. */
  lemma SameLogs(db: Tables, topic: map<string, Partition>, topic': map<string, Partition>)
    requires RowsOk(db, topic) && topic'.Keys == topic.Keys
    requires forall p <- topic :: topic'[p].log == topic[p].log
    ensures RowsOk(db, topic')
  {
  }

  lemma OffsetsKeep(s: State, s': State)
    requires Inv(s) && s' == s.(topic := s'.topic) && s'.topic.Keys == s.topic.Keys
    requires forall p <- s.topic :: s'.topic[p].log == s.topic[p].log
    requires WorkersOk(s.db, s'.topic)
    ensures Inv(s')
  {
  }

  lemma CommitKeeps(s: State, p: string)
    requires Inv(s)
    ensures Inv(Next(s, Commit(p)))
  {
    var part := Part(s.topic, p);
    if part.phase.Done? && HasHead(part) {
      assert WorkerOk(s.db, part);
      OffsetsKeep(s, Next(s, Commit(p)));
    }
  }

  lemma AbortKeeps(s: State, p: string)
    requires Inv(s)
    ensures Inv(Next(s, Abort(p)))
  {
    if p in s.topic {
      assert WorkerOk(s.db, s.topic[p]);
      OffsetsKeep(s, Next(s, Abort(p)));
    }
  }

  // ---------- The API ----------

  lemma UpsertKeeps(s: State, e: Event)
    requires Inv(s) && e.Upsert?
    ensures Inv(Next(s, e))
  {
  }

  lemma TickKeeps(s: State)
    requires Inv(s)
    ensures Inv(Next(s, Tick))
  {
  }

  lemma AnnounceImmediateKeeps(s: State, id: string, m: Mailing)
    requires Inv(s)
    ensures Inv(Next(s, AnnounceImmediate(id, m)))
  {
    if Fresh(s, id) {
      var s' := Next(s, AnnounceImmediate(id, m));
      var x := MailingMessageOf(id, m);
      var mid := Publish(s.topic, id, x);
      assert mid[id].log == [x];
      PublishKeeps(s.db, s.topic, id, x);
      assert Grows(s.db, s'.db);
      WorkersStay(s.db, s'.db, mid);
      SpreadStays(s.db, s'.db);
      CreatingKeepsRows(s.db, s'.db, mid, id, x);
      ItemsStay(s.db, s'.db, s.queue);
      QueuePublished(s, s');
    }
  }

  lemma CreatingKeepsRows(db: Tables, db': Tables, topic: map<string, Partition>, id: string, x: Pending)
    requires RowsOk(db, topic) && id in topic && topic[id].log == [x] && id !in db.mailings
    requires id in db'.creating && x == MailingMessageOf(id, db'.creating[id])
    requires db'.mailings == db.mailings && db'.creating == db.creating[id := db'.creating[id]]
    ensures RowsOk(db', topic)
  {
  }

  /** An announced queue head stays announced while logs grow. */
  lemma QueuePublished(s: State, s': State)
    requires QueueOk(s) && s'.queue == s.queue && s'.announced == s.announced
    requires forall x <- s'.queue :: ItemOk(s'.db, x)
    requires forall p <- s.topic :: p in s'.topic && forall x <- s.topic[p].log :: x in s'.topic[p].log
    ensures QueueOk(s')
  {
  }

  lemma InsertImmediateKeeps(s: State, id: string)
    requires Inv(s)
    ensures Inv(Next(s, InsertImmediate(id)))
  {
    if id in s.db.creating {
      var s' := Next(s, InsertImmediate(id));
      assert Grows(s.db, s'.db);
      WorkersStay(s.db, s'.db, s.topic);
      SpreadStays(s.db, s'.db);
      forall j <- s'.db.mailings ensures RowOk(s'.db, s.topic, j) {
        if j != id {
          assert RowOk(s.db, s.topic, j);
        }
      }
      forall p <- s.topic ensures LogOk(s'.db, p, s.topic[p].log) {
        assert LogOk(s.db, p, s.topic[p].log);
      }
      ItemsStay(s.db, s'.db, s.queue);
    }
  }

  lemma InsertScheduledKeeps(s: State, id: string, m: Mailing)
    requires Inv(s)
    ensures Inv(Next(s, InsertScheduled(id, m)))
  {
    if Fresh(s, id) {
      var s' := Next(s, InsertScheduled(id, m));
      assert Grows(s.db, s'.db);
      WorkersStay(s.db, s'.db, s.topic);
      SpreadStays(s.db, s'.db);
      forall j <- s'.db.mailings ensures RowOk(s'.db, s'.topic, j) {
        if j != id {
          assert RowOk(s.db, s.topic, j);
        }
      }
      forall p <- s'.topic ensures LogOk(s'.db, p, s'.topic[p].log) {
        if p != id {
          assert LogOk(s.db, p, s.topic[p].log);
        }
      }
      ItemsStay(s.db, s'.db, s.queue);
      QueuePublished(s, s');
    }
  }

  // ---------- The scheduler ----------

  lemma PollKeeps(s: State, items: seq<Item>)
    requires Inv(s)
    ensures Inv(Next(s, Poll(items)))
  {
  }

  lemma AnnounceKeeps(s: State)
    requires Inv(s)
    ensures Inv(Next(s, Announce))
  {
    if s.queue != [] && !s.announced {
      var s' := Next(s, Announce);
      var head := s.queue[0];
      assert head in s.queue && ItemOk(s.db, head);
      if head.MailingItem? {
        var x := MailingMessageOf(head.id, head.mailing);
        assert RowOk(s.db, s.topic, head.id);
        PublishKeeps(s.db, s.topic, head.id, x);
        assert x in s'.topic[head.id].log;
      } else if NeedsSending(head.trigger) {
        PublishKeeps(s.db, s.topic, head.trigger.id, TriggerMessageOf(head.ref, head.trigger));
      }
    }
  }

  lemma MarkKeeps(s: State)
    requires Inv(s)
    ensures Inv(Next(s, Mark))
  {
    if s.queue != [] && s.announced {
      var head := s.queue[0];
      assert head in s.queue && ItemOk(s.db, head);
      var db' := MarkItem(s.db, head);
      MarkItemGrows(s.db, head);
      WorkersStay(s.db, db', s.topic);
      SpreadStays(s.db, db');
      StatusKeepsRows(s.db, db', s.topic, if head.MailingItem? then Some(head.id) else None);
      ItemsStay(s.db, db', s.queue);
      assert forall x <- s.queue[1..] :: x in s.queue;
    }
  }

  lemma MarkItemGrows(db: Tables, x: Item)
    requires MailingsSpread(db)
    ensures var db' := MarkItem(db, x);
            Grows(db, db') && KeepsContent(db, db') && KeepsStamps(db, db')
  {
  }

  lemma ForgetKeeps(s: State, e: Event)
    requires Inv(s) && (e.Drop? || e.Crash?)
    ensures Inv(Next(s, e))
  {
  }

  lemma StepKeeps(s: State, e: Event)
    requires Inv(s)
    ensures Inv(Next(s, e))
  {
    match e
    case Tick => TickKeeps(s);
    case Upsert(_, _, _, _, _) => UpsertKeeps(s, e);
    case AnnounceImmediate(id, m) => AnnounceImmediateKeeps(s, id, m);
    case InsertImmediate(id) => InsertImmediateKeeps(s, id);
    case InsertScheduled(id, m) => InsertScheduledKeeps(s, id, m);
    case Poll(items) => PollKeeps(s, items);
    case Announce => AnnounceKeeps(s);
    case Mark => MarkKeeps(s);
    case Drop => ForgetKeeps(s, e);
    case Crash => ForgetKeeps(s, e);
    case Work(p, w) => WorkKeeps(s, p, w);
    case Commit(p) => CommitKeeps(s, p);
    case Abort(p) => AbortKeeps(s, p);
  }

  // ---------- Theorems over every run ----------

  lemma {:induction false} RunKeeps(events: seq<Event>)
    ensures Inv(Run(INIT, events))
  {
    if events != [] {
      RunKeeps(events[..|events| - 1]);
      StepKeeps(Run(INIT, events[..|events| - 1]), events[|events| - 1]);
    }
  }

  /** A mailing row past `scheduled` has its own message in the pending topic, whatever
      crashed where. */
  lemma PublishedBeforeMarked(events: seq<Event>, id: string)
    requires var s := Run(INIT, events); id in s.db.mailings && !s.db.mailings[id].status.Scheduled?
    ensures var s := Run(INIT, events); MailingMessageOf(id, s.db.mailings[id]) in Part(s.topic, id).log
  {
    RunKeeps(events);
    var s := Run(INIT, events);
    assert RowOk(s.db, s.topic, id);
  }

  /** The worker writes a mailing's sent time only after every user of one resolved audience
      has that mailing's message: its template, its payload, the channel read with the
      audience, and the key of mailing and user. */
  lemma SentMeansFannedOut(events: seq<Event>, id: string) returns (channel: string, users: seq<string>)
    requires var db := Run(INIT, events).db; id in db.mailings && db.mailings[id].sentAt.Some?
    ensures var db := Run(INIT, events).db;
            var m := db.mailings[id];
            && Resolution(MailingJob(id), channel, users) in db.resolved
            && forall u <- users ::
                Delivery.Message(u, m.templateId, m.payload, channel, ForMailing(id, u), None) in db.bulk
  {
    RunKeeps(events);
    var db := Run(INIT, events).db;
    var head := MailingMessageOf(id, db.mailings[id]);
    assert FannedOut(db, MailingJob(id), head);
    channel, users :| Resolution(MailingJob(id), channel, users) in db.resolved
                      && AllReached(db, MailingJob(id), head, channel, users);
    forall u <- users ensures BulkMessage(MailingJob(id), head, channel, u) in db.bulk {
      assert Reached(db.bulk, MailingJob(id), head, channel, u);
    }
  }

  /** No lost update: a trigger the scheduler considers sent has had exactly its current
      update fanned out, with its own template and payload, unless the mark of another
      update or of another content fell over it. */
  lemma NoLostUpdate(events: seq<Event>, r: Ref)
    requires var db := Run(INIT, events).db;
             r in db.triggers && !NeedsSending(db.triggers[r]) && (r, db.triggers[r].lastUpdate) !in db.raced
    ensures var db := Run(INIT, events).db;
            FannedOut(db, CurrentJob(r, db.triggers[r]), TriggerMessageOf(r, db.triggers[r]))
  {
    RunKeeps(events);
    assert TriggerOk(Run(INIT, events).db, r);
  }

  // ---------- A mailing has one content ----------

  ghost predicate FromLog(topic: map<string, Partition>, m: Delivery.Message) {
    m.key.ForMailing? ==>
      exists x <- Part(topic, m.key.mailing).log ::
          x.MailingMessage? && x.templateId == m.templateId && x.payload == m.payload
  }

  ghost predicate AllFromLog(s: State) {
    forall m <- s.db.bulk :: FromLog(s.topic, m)
  }

  lemma WorkFromLog(s: State, p: string, w: World)
    requires Inv(s) && AllFromLog(s)
    ensures AllFromLog(Next(s, Work(p, w)))
  {
    var s' := Next(s, Work(p, w));
    var part := Part(s.topic, p);
    if HasHead(part) {
      assert WorkerOk(s.db, part) && LogOk(s.db, p, part.log);
      var head := part.log[part.committed];
      assert head in part.log;
      forall m <- s'.db.bulk ensures FromLog(s'.topic, m) {
        if m in s.db.bulk { assert FromLog(s.topic, m); }
      }
    }
  }

  lemma LogsKeep(s: State, s': State)
    requires AllFromLog(s) && s'.db.bulk == s.db.bulk
    requires forall p <- s.topic :: p in s'.topic && forall x <- s.topic[p].log :: x in s'.topic[p].log
    ensures AllFromLog(s')
  {
    forall m <- s'.db.bulk ensures FromLog(s'.topic, m) { assert FromLog(s.topic, m); }
  }

  lemma StepFromLog(s: State, e: Event)
    requires Inv(s) && AllFromLog(s)
    ensures AllFromLog(Next(s, e))
  {
    if e.Work? { WorkFromLog(s, e.p, e.world); } else { LogsKeep(s, Next(s, e)); }
  }

  lemma {:induction false} RunFromLog(events: seq<Event>)
    ensures AllFromLog(Run(INIT, events))
  {
    if events != [] {
      RunKeeps(events[..|events| - 1]);
      RunFromLog(events[..|events| - 1]);
      StepFromLog(Run(INIT, events[..|events| - 1]), events[|events| - 1]);
    }
  }

  /** Every bulk message under a mailing's key carries the mailing's template and payload. */
  lemma MailingContent(events: seq<Event>, id: string, m: Delivery.Message)
    requires id in Run(INIT, events).db.mailings && m in Run(INIT, events).db.bulk
    requires m.key.ForMailing? && m.key.mailing == id
    ensures var row := Run(INIT, events).db.mailings[id]; m.templateId == row.templateId && m.payload == row.payload
  {
    RunKeeps(events);
    RunFromLog(events);
    var s := Run(INIT, events);
    assert FromLog(s.topic, m) && RowOk(s.db, s.topic, id) && LogOk(s.db, id, s.topic[id].log);
  }
}
