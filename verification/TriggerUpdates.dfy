/** When an update of a trigger is announced with its own content. The handler takes content
    from the pending message and the stamp from the row that it reads later, so an update can
    be lost before that read and after it; whether it can be is settled when it is made. */
module TriggerUpdates {
  import opened Options
  import opened Keys
  import opened Fanout
  import opened FanoutProofs
  import Delivery

  lemma RunStep(events: seq<Event>, e: Event)
    ensures Run(INIT, events + [e]) == Next(Run(INIT, events), e)
  {
  }

  predicate Holds(phase: Phase, r: Ref) {
    (phase.Found? || phase.Targeted? || phase.Spreading?) && phase.job.TriggerJob? && phase.job.ref == r
  }

  // ---------- What is under way ----------

  /** The queue items that are not published yet. */
  function LiveQueue(s: State): seq<Item> {
    if s.announced && s.queue != [] then s.queue[1..] else s.queue
  }

  function Uncommitted(part: Partition): seq<Pending> {
    if part.committed <= |part.log| then part.log[part.committed..] else []
  }

  /** The scheduler will publish the trigger only as `want`. */
  ghost predicate QueueHas(queue: seq<Item>, r: Ref, want: Option<Pending>) {
    forall x <- queue :: x.TriggerItem? && x.ref == r && NeedsSending(x.trigger) ==>
      want == Some(TriggerMessageOf(r, x.trigger))
  }

  ghost predicate LogHas(log: seq<Pending>, r: Ref, want: Option<Pending>) {
    forall x <- log :: x.TriggerMessage? && x.ref == r ==> want == Some(x)
  }

  /** No message of the trigger but `want` waits to be acknowledged. */
  ghost predicate TopicHas(topic: map<string, Partition>, r: Ref, want: Option<Pending>) {
    forall p <- topic :: LogHas(Uncommitted(topic[p]), r, want)
  }

  /** Neither the scheduler's queue nor the pending topic holds the trigger. */
  ghost predicate Calm(s: State, r: Ref) {
    QueueHas(LiveQueue(s), r, None) && TopicHas(s.topic, r, None)
  }

  /** Nothing of the trigger is under way but messages with the content that this upsert
      writes, and no handler has read the row that it overwrites. */
  ghost predicate SafeToUpsert(s: State, e: Event)
    requires e.Upsert?
  {
    var m := TriggerMessage(e.ref, e.templateId, e.payload);
    && QueueHas(LiveQueue(s), e.ref, Some(m)) && TopicHas(s.topic, e.ref, Some(m))
    && forall p <- s.topic :: !Holds(s.topic[p].phase, e.ref)
  }

  ghost predicate NoUpsert(events: seq<Event>, r: Ref) {
    forall e <- events :: !(e.Upsert? && e.ref == r)
  }

  ghost predicate LastUpsert(events: seq<Event>, r: Ref, i: nat) {
    i < |events| && events[i].Upsert? && events[i].ref == r && NoUpsert(events[i + 1..], r)
  }

  /** The last upsert of the trigger was safe. */
  ghost predicate Undisturbed(events: seq<Event>, r: Ref) {
    exists i: nat :: LastUpsert(events, r, i) && SafeToUpsert(Run(INIT, events[..i]), events[i])
  }

  // ---------- Stamps tell updates apart ----------

  ghost predicate PhaseStamp(db: Tables, phase: Phase) {
    (phase.Found? || phase.Targeted? || phase.Spreading?) && phase.job.TriggerJob? ==>
      phase.job.stamp < db.clock
      && forall r <- db.triggers :: r != phase.job.ref ==> db.triggers[r].lastUpdate != phase.job.stamp
  }

  ghost predicate TableStamps(db: Tables) {
    && (forall r <- db.triggers :: db.triggers[r].lastUpdate < db.clock)
    && (forall r <- db.triggers, q <- db.triggers :: db.triggers[r].lastUpdate == db.triggers[q].lastUpdate ==> r == q)
    && (forall m <- db.bulk :: m.key.ForTrigger? ==> m.key.stamp < db.clock)
    && (forall x <- db.raced :: x.1 < db.clock)
    && (forall x <- db.resolved :: x.job.TriggerJob? ==> x.job.stamp < db.clock)
  }

  ghost predicate PhaseStamps(db: Tables, topic: map<string, Partition>) {
    forall p <- topic :: PhaseStamp(db, topic[p].phase)
  }

  ghost predicate StampsOk(s: State) {
    TableStamps(s.db) && PhaseStamps(s.db, s.topic)
  }

  /** The tables with the same stamps, later. */
  predicate SameStamps(db: Tables, db': Tables) {
    && db'.triggers.Keys == db.triggers.Keys && db.clock <= db'.clock
    && (forall r <- db.triggers :: db'.triggers[r].lastUpdate == db.triggers[r].lastUpdate)
  }

  predicate SameHistory(db: Tables, db': Tables) {
    db'.bulk == db.bulk && db'.raced == db.raced && db'.resolved == db.resolved
  }

  lemma PhasesLater(db: Tables, db': Tables, topic: map<string, Partition>)
    requires PhaseStamps(db, topic) && SameStamps(db, db')
    ensures PhaseStamps(db', topic)
  {
    forall p <- topic ensures PhaseStamp(db', topic[p].phase) { assert PhaseStamp(db, topic[p].phase); }
  }

  lemma EffectStamps(db: Tables, head: Pending, phase: Phase, w: World)
    ensures var db' := Effect(db, head, phase, w);
            && db'.triggers.Keys == db.triggers.Keys && db.clock <= db'.clock
            && (forall r <- db.triggers ::
                  && db'.triggers[r].lastUpdate == db.triggers[r].lastUpdate && db'.triggers[r].id == db.triggers[r].id
                  && TriggerMessageOf(r, db'.triggers[r]) == TriggerMessageOf(r, db.triggers[r])
                  && (!Holds(phase, r) ==> db'.triggers[r] == db.triggers[r]))
  {
  }

  /** The only new bulk message is the handler's next one. */
  lemma EffectBulk(db: Tables, head: Pending, phase: Phase, w: World)
    ensures var db' := Effect(db, head, phase, w);
            forall m <- db'.bulk :: m in db.bulk ||
              (phase.Spreading? && phase.done < |phase.users| && !head.Garbage?
               && m == BulkMessage(phase.job, head, phase.channel, phase.users[phase.done]))
  {
  }

  lemma EffectHistory(db: Tables, head: Pending, phase: Phase, w: World)
    ensures var db' := Effect(db, head, phase, w);
            && (forall x <- db'.raced :: x in db.raced || (x.0 in db.triggers && x.1 == db.triggers[x.0].lastUpdate))
            && (forall x <- db'.resolved :: x in db.resolved || (phase.Targeted? && x.job == phase.job))
  {
  }

  lemma NextPhaseStamp(db: Tables, head: Pending, phase: Phase, w: World)
    requires TableStamps(db) && PhaseStamp(db, phase)
    ensures PhaseStamp(db, NextPhase(db, head, phase, w))
  {
  }

  lemma WorkTables(db: Tables, head: Pending, phase: Phase, w: World)
    requires TableStamps(db) && PhaseStamp(db, phase)
    ensures TableStamps(Effect(db, head, phase, w))
  {
    EffectStamps(db, head, phase, w);
    EffectBulk(db, head, phase, w);
    EffectHistory(db, head, phase, w);
  }

  lemma WorkStamps(s: State, p: string, w: World)
    requires StampsOk(s)
    ensures StampsOk(Next(s, Work(p, w)))
  {
    var part := Part(s.topic, p);
    if HasHead(part) {
      var head := part.log[part.committed];
      assert PhaseStamp(s.db, part.phase);
      WorkTables(s.db, head, part.phase, w);
      NextPhaseStamp(s.db, head, part.phase, w);
      EffectStamps(s.db, head, part.phase, w);
      PhasesLater(s.db, Effect(s.db, head, part.phase, w), SetPhase(s.topic, p, NextPhase(s.db, head, part.phase, w)));
    }
  }

  lemma UpsertStamps(s: State, e: Event)
    requires StampsOk(s) && e.Upsert?
    ensures StampsOk(Next(s, e))
  {
    var s' := Next(s, e);
    forall p <- s'.topic ensures PhaseStamp(s'.db, s'.topic[p].phase) { assert PhaseStamp(s.db, s.topic[p].phase); }
  }

  lemma OtherStamps(s: State, s': State)
    requires StampsOk(s) && SameStamps(s.db, s'.db) && SameHistory(s.db, s'.db)
    requires forall p <- s'.topic :: s'.topic[p].phase.Idle? || (p in s.topic && s'.topic[p].phase == s.topic[p].phase)
    ensures StampsOk(s')
  {
    forall p <- s'.topic ensures PhaseStamp(s'.db, s'.topic[p].phase) {
      if p in s.topic { assert PhaseStamp(s.db, s.topic[p].phase); }
    }
  }

  /** What is neither a handler's call nor an upsert. */
  lemma QuietStamps(s: State, e: Event)
    requires !e.Work? && !e.Upsert?
    ensures var s' := Next(s, e);
            && SameStamps(s.db, s'.db) && SameHistory(s.db, s'.db)
            && (forall p <- s'.topic ::
                s'.topic[p].phase.Idle? || (p in s.topic && s'.topic[p].phase == s.topic[p].phase))
  {
  }

  lemma StepStamps(s: State, e: Event)
    requires StampsOk(s)
    ensures StampsOk(Next(s, e))
  {
    if e.Work? {
      WorkStamps(s, e.p, e.world);
    } else if e.Upsert? {
      UpsertStamps(s, e);
    } else {
      QuietStamps(s, e);
      OtherStamps(s, Next(s, e));
    }
  }

  lemma {:induction false} RunStamps(events: seq<Event>)
    ensures StampsOk(Run(INIT, events))
  {
    if events != [] {
      RunStamps(events[..|events| - 1]);
      StepStamps(Run(INIT, events[..|events| - 1]), events[|events| - 1]);
    }
  }

  // ---------- Undisturbed runs ----------

  function Want(db: Tables, r: Ref): Option<Pending> {
    if r in db.triggers then Some(TriggerMessageOf(r, db.triggers[r])) else None
  }

  ghost predicate PhasesAt(db: Tables, topic: map<string, Partition>, r: Ref) {
    forall p <- topic :: Holds(topic[p].phase, r) ==>
        r in db.triggers && topic[p].phase.job.stamp == db.triggers[r].lastUpdate
  }

  /** Every bulk message under a key of the current update carries the current content. */
  ghost predicate OneContent(db: Tables, r: Ref) {
    r in db.triggers ==>
      forall m <- db.bulk :: m.key.ForTrigger? && m.key.stamp == db.triggers[r].lastUpdate ==>
        m.templateId == db.triggers[r].templateId && m.payload == db.triggers[r].payload
  }

  /** Whatever is under way for the trigger is its current update. */
  ghost predicate Current(s: State, r: Ref) {
    && QueueHas(LiveQueue(s), r, Want(s.db, r)) && TopicHas(s.topic, r, Want(s.db, r))
    && PhasesAt(s.db, s.topic, r) && OneContent(s.db, r)
    && (r in s.db.triggers ==> (r, s.db.triggers[r].lastUpdate) !in s.db.raced)
  }

  /** Work on the head of a partition leaves the uncommitted messages alone. */
  lemma SameUncommitted(topic: map<string, Partition>, p: string, phase: Phase, r: Ref, want: Option<Pending>)
    requires p in topic && TopicHas(topic, r, want)
    ensures TopicHas(SetPhase(topic, p, phase), r, want)
  {
  }

  lemma HeadIsCurrent(topic: map<string, Partition>, p: string, r: Ref, want: Option<Pending>)
    requires p in topic && HasHead(topic[p]) && TopicHas(topic, r, want)
    ensures var head := topic[p].log[topic[p].committed]; head.TriggerMessage? && head.ref == r ==> want == Some(head)
  {
    assert topic[p].log[topic[p].committed] in Uncommitted(topic[p]);
  }

  lemma WorkPhases(db: Tables, topic: map<string, Partition>, p: string, w: World, r: Ref)
    requires p in topic && HasHead(topic[p]) && PhasesAt(db, topic, r)
    ensures var head := topic[p].log[topic[p].committed];
            PhasesAt(Effect(db, head, topic[p].phase, w), SetPhase(topic, p, NextPhase(db, head, topic[p].phase, w)), r)
  {
    EffectStamps(db, topic[p].log[topic[p].committed], topic[p].phase, w);
  }

  lemma WorkContent(db: Tables, head: Pending, phase: Phase, w: World, r: Ref)
    requires OneContent(db, r) && PhaseOk(db, head, phase) && PhaseStamp(db, phase)
    requires Holds(phase, r) ==> Want(db, r) == Some(head)
    ensures OneContent(Effect(db, head, phase, w), r)
  {
    EffectStamps(db, head, phase, w);
    EffectBulk(db, head, phase, w);
  }

  lemma WorkRaced(db: Tables, head: Pending, phase: Phase, w: World, r: Ref)
    requires Holds(phase, r) ==>
        r in db.triggers && Want(db, r) == Some(head) && phase.job.stamp == db.triggers[r].lastUpdate
    ensures forall x <- Effect(db, head, phase, w).raced :: x in db.raced || x.0 != r
  {
  }

  lemma WorkCurrent(s: State, p: string, w: World, r: Ref)
    requires Inv(s) && StampsOk(s) && Current(s, r)
    ensures Current(Next(s, Work(p, w)), r)
  {
    var part := Part(s.topic, p);
    if HasHead(part) {
      var head := part.log[part.committed];
      var want := Want(s.db, r);
      assert WorkerOk(s.db, part) && PhaseStamp(s.db, part.phase);
      HeadIsCurrent(s.topic, p, r, want);
      EffectStamps(s.db, head, part.phase, w);
      SameUncommitted(s.topic, p, NextPhase(s.db, head, part.phase, w), r, want);
      WorkPhases(s.db, s.topic, p, w, r);
      WorkContent(s.db, head, part.phase, w, r);
      WorkRaced(s.db, head, part.phase, w, r);
    }
  }

  lemma PublishHas(topic: map<string, Partition>, p: string, m: Pending, r: Ref, want: Option<Pending>)
    requires TopicHas(topic, r, want) && LogHas([m], r, want) && (p in topic ==> topic[p].committed <= |topic[p].log|)
    ensures TopicHas(Publish(topic, p, m), r, want)
  {
    var part := Part(topic, p);
    assert Uncommitted(Publish(topic, p, m)[p]) == Uncommitted(part) + [m];
  }

  lemma AnnounceHas(s: State, r: Ref, want: Option<Pending>)
    requires WorkersOk(s.db, s.topic) && QueueHas(LiveQueue(s), r, want) && TopicHas(s.topic, r, want)
    ensures QueueHas(LiveQueue(Next(s, Announce)), r, want) && TopicHas(Next(s, Announce).topic, r, want)
  {
    if s.queue != [] && !s.announced {
      var x := s.queue[0];
      assert x in LiveQueue(s);
      match x
      case TriggerItem(ref, t) =>
        if NeedsSending(t) { PublishHas(s.topic, t.id, TriggerMessageOf(ref, t), r, want); }
      case MailingItem(id, m) => PublishHas(s.topic, id, MailingMessageOf(id, m), r, want);
    }
  }

  /** The scheduler's other steps only shorten its queue. */
  lemma QueueShrinks(s: State, e: Event, r: Ref, want: Option<Pending>)
    requires QueueHas(LiveQueue(s), r, want) && (e.Mark? || e.Drop? || e.Crash?)
    ensures QueueHas(LiveQueue(Next(s, e)), r, want)
  {
    var q, q' := LiveQueue(s), LiveQueue(Next(s, e));
    assert forall x <- q' :: x in q;
  }

  lemma OffsetsHas(topic: map<string, Partition>, topic': map<string, Partition>, r: Ref, want: Option<Pending>)
    requires TopicHas(topic, r, want) && topic'.Keys == topic.Keys
    requires forall p <- topic :: topic'[p].log == topic[p].log && topic[p].committed <= topic'[p].committed
    ensures TopicHas(topic', r, want)
  {
    forall p <- topic' ensures LogHas(Uncommitted(topic'[p]), r, want) {
      assert LogHas(Uncommitted(topic[p]), r, want);
      assert forall x <- Uncommitted(topic'[p]) :: x in Uncommitted(topic[p]);
    }
  }

  lemma PollHas(s: State, items: seq<Item>, r: Ref, want: Option<Pending>)
    requires QueueHas(LiveQueue(s), r, want)
    requires Want(s.db, r) == want || (r in s.db.triggers && !NeedsSending(s.db.triggers[r]))
    ensures QueueHas(LiveQueue(Next(s, Poll(items))), r, want)
  {
  }

  lemma ApiHas(s: State, e: Event, r: Ref, want: Option<Pending>)
    requires WorkersOk(s.db, s.topic) && TopicHas(s.topic, r, want)
    requires e.AnnounceImmediate? || e.InsertScheduled?
    ensures TopicHas(Next(s, e).topic, r, want)
  {
    if Fresh(s, e.id) {
      if e.AnnounceImmediate? { PublishHas(s.topic, e.id, MailingMessageOf(e.id, e.mailing), r, want); }
    }
  }

  /** Offsets and phases move; the logs and the queue stay. */
  lemma BrokerLogs(s: State, e: Event)
    requires e.Commit? || e.Abort? || e.Work?
    ensures var s' := Next(s, e);
            && s'.queue == s.queue && s'.announced == s.announced
            && s'.topic.Keys == s.topic.Keys
            && (forall p <- s.topic ::
                s'.topic[p].log == s.topic[p].log && s.topic[p].committed <= s'.topic[p].committed)
  {
  }

  lemma BrokerHas(s: State, e: Event, r: Ref, want: Option<Pending>)
    requires TopicHas(s.topic, r, want) && (e.Commit? || e.Abort? || e.Work?)
    ensures TopicHas(Next(s, e).topic, r, want) && LiveQueue(Next(s, e)) == LiveQueue(s)
  {
    BrokerLogs(s, e);
    if e.p in s.topic { OffsetsHas(s.topic, Next(s, e).topic, r, want); }
  }

  lemma RowsHas(s: State, e: Event)
    requires e.Tick? || e.Upsert? || e.InsertImmediate?
    ensures Next(s, e).topic == s.topic && LiveQueue(Next(s, e)) == LiveQueue(s)
  {
  }

  /** No step but an upsert adds anything for the trigger except `want`. */
  lemma StepHas(s: State, e: Event, r: Ref, want: Option<Pending>)
    requires Inv(s) && QueueHas(LiveQueue(s), r, want) && TopicHas(s.topic, r, want)
    requires e.Poll? ==> Want(s.db, r) == want || (r in s.db.triggers && !NeedsSending(s.db.triggers[r]))
    ensures QueueHas(LiveQueue(Next(s, e)), r, want) && TopicHas(Next(s, e).topic, r, want)
  {
    match e {
      case Announce => AnnounceHas(s, r, want);
      case Mark => QueueShrinks(s, e, r, want);
      case Drop => QueueShrinks(s, e, r, want);
      case Crash => QueueShrinks(s, e, r, want);
      case Work(_, _) => BrokerHas(s, e, r, want);
      case Commit(_) => BrokerHas(s, e, r, want);
      case Abort(_) => BrokerHas(s, e, r, want);
      case AnnounceImmediate(_, _) => ApiHas(s, e, r, want);
      case InsertScheduled(_, _) => ApiHas(s, e, r, want);
      case Poll(items) => PollHas(s, items, r, want);
      case _ => RowsHas(s, e);
    }
  }

  /** Steps other than those of a handler and upserts leave triggers' content and stamps. */
  lemma QuietStep(s: State, e: Event, r: Ref)
    requires !e.Work? && !(e.Upsert? && e.ref == r)
    ensures var s' := Next(s, e);
            && Want(s'.db, r) == Want(s.db, r) && SameHistory(s.db, s'.db)
            && (r in s.db.triggers <==> r in s'.db.triggers)
            && (r in s.db.triggers ==>
                  && s'.db.triggers[r].lastUpdate == s.db.triggers[r].lastUpdate
                  && s'.db.triggers[r].lastSent == s.db.triggers[r].lastSent
                      && s'.db.triggers[r].id == s.db.triggers[r].id)
            && (forall p <- s'.topic ::
                s'.topic[p].phase.Idle? || (p in s.topic && s'.topic[p].phase == s.topic[p].phase))
  {
  }

  lemma StepCurrent(s: State, e: Event, r: Ref)
    requires Inv(s) && StampsOk(s) && Current(s, r) && !(e.Upsert? && e.ref == r)
    ensures Current(Next(s, e), r)
  {
    if e.Work? {
      WorkCurrent(s, e.p, e.world, r);
    } else {
      StepHas(s, e, r, Want(s.db, r));
      QuietStep(s, e, r);
    }
  }

  /** A safe upsert makes its update the only one under way. */
  lemma UpsertCurrent(s: State, e: Event)
    requires StampsOk(s) && e.Upsert? && SafeToUpsert(s, e)
    ensures Current(Next(s, e), e.ref)
  {
  }

  lemma {:induction false} RunCurrent(events: seq<Event>, more: seq<Event>, r: Ref)
    requires Current(Run(INIT, events), r) && NoUpsert(more, r)
    ensures Current(Run(INIT, events + more), r)
    decreases |more|
  {
    if more == [] {
      assert events + more == events;
    } else {
      var n := |more| - 1;
      var before := events + more[..n];
      assert events + more == before + [more[n]];
      RunCurrent(events, more[..n], r);
      RunKeeps(before);
      RunStamps(before);
      RunStep(before, more[n]);
      StepCurrent(Run(INIT, before), more[n], r);
    }
  }

  /** After a safe upsert, however the run goes on without another: once the trigger is not
      due its update has been fanned out, with its template and payload, and no bulk message
      under that update's keys carries anything else. */
  lemma SafeUpsertAnnounced(events: seq<Event>, e: Event, more: seq<Event>)
    requires e.Upsert? && SafeToUpsert(Run(INIT, events), e) && NoUpsert(more, e.ref)
    requires var db := Run(INIT, events + [e] + more).db; e.ref in db.triggers && !NeedsSending(db.triggers[e.ref])
    ensures var db := Run(INIT, events + [e] + more).db;
            && FannedOut(db, CurrentJob(e.ref, db.triggers[e.ref]), TriggerMessageOf(e.ref, db.triggers[e.ref]))
            && OneContent(db, e.ref)
  {
    RunStamps(events);
    RunStep(events, e);
    UpsertCurrent(Run(INIT, events), e);
    RunCurrent(events + [e], more, e.ref);
    NoLostUpdate(events + [e] + more, e.ref);
  }

  /** If the last upsert of a trigger was safe, a trigger that is not due has had its current
      update fanned out with its own content, and with no other. */
  lemma NoUpdateLost(events: seq<Event>, r: Ref)
    requires Undisturbed(events, r)
    requires var db := Run(INIT, events).db; r in db.triggers && !NeedsSending(db.triggers[r])
    ensures var db := Run(INIT, events).db;
            && FannedOut(db, CurrentJob(r, db.triggers[r]), TriggerMessageOf(r, db.triggers[r]))
            && OneContent(db, r)
  {
    var i: nat :| LastUpsert(events, r, i) && SafeToUpsert(Run(INIT, events[..i]), events[i]);
    assert events == events[..i] + [events[i]] + events[i + 1..];
    SafeUpsertAnnounced(events[..i], events[i], events[i + 1..]);
  }

  // ---------- A trigger at rest ----------

  /** A trigger that is not due and of which nothing is under way. */
  ghost predicate AtRest(s: State, r: Ref) {
    && r in s.db.triggers && !NeedsSending(s.db.triggers[r]) && Calm(s, r)
  }

  ghost predicate SameUpdate(s: State, s': State, r: Ref)
    requires r in s.db.triggers && r in s'.db.triggers
  {
    var t, t' := s.db.triggers[r], s'.db.triggers[r];
    && CurrentJob(r, t) == CurrentJob(r, t') && TriggerMessageOf(r, t) == TriggerMessageOf(r, t')
    && (FannedOut(s.db, CurrentJob(r, t), TriggerMessageOf(r, t)) <==>
        FannedOut(s'.db, CurrentJob(r, t), TriggerMessageOf(r, t)))
  }

  /** A handler at work on the trigger has an unacknowledged message of it. */
  lemma CalmMeansUnread(s: State, r: Ref)
    requires Inv(s) && TopicHas(s.topic, r, None)
    ensures forall p <- s.topic :: !Holds(s.topic[p].phase, r)
  {
    forall p <- s.topic ensures !Holds(s.topic[p].phase, r) {
      assert WorkerOk(s.db, s.topic[p]);
      if HasHead(s.topic[p]) { HeadIsCurrent(s.topic, p, r, None); }
    }
  }

  lemma WorkElsewhere(s: State, p: string, w: World, r: Ref)
    requires Inv(s) && StampsOk(s) && AtRest(s, r)
    ensures var s' := Next(s, Work(p, w));
            r in s'.db.triggers && s'.db.triggers[r] == s.db.triggers[r] && SameUpdate(s, s', r)
  {
    var part := Part(s.topic, p);
    if HasHead(part) {
      var head := part.log[part.committed];
      CalmMeansUnread(s, r);
      assert WorkerOk(s.db, part) && PhaseStamp(s.db, part.phase);
      EffectStamps(s.db, head, part.phase, w);
      OtherJob(s.db, head, part.phase, w, r);
    }
  }

  lemma OtherJob(db: Tables, head: Pending, phase: Phase, w: World, r: Ref)
    requires r in db.triggers && !Holds(phase, r) && PhaseStamp(db, phase) && PhaseOk(db, head, phase)
    ensures var db' := Effect(db, head, phase, w);
            var job, m := CurrentJob(r, db.triggers[r]), TriggerMessageOf(r, db.triggers[r]);
            FannedOut(db, job, m) <==> FannedOut(db', job, m)
  {
    var db' := Effect(db, head, phase, w);
    var job, m := CurrentJob(r, db.triggers[r]), TriggerMessageOf(r, db.triggers[r]);
    EffectBulk(db, head, phase, w);
    forall channel, users
      ensures Resolution(job, channel, users) in db.resolved <==> Resolution(job, channel, users) in db'.resolved
      ensures AllReached(db, job, m, channel, users) <==> AllReached(db', job, m, channel, users)
    {
      forall u <- users ensures Reached(db.bulk, job, m, channel, u) <==> Reached(db'.bulk, job, m, channel, u) {
      }
    }
  }

  lemma StepAtRest(s: State, e: Event, r: Ref)
    requires Inv(s) && StampsOk(s) && AtRest(s, r) && !(e.Upsert? && e.ref == r)
    ensures AtRest(Next(s, e), r) && SameUpdate(s, Next(s, e), r)
  {
    StepHas(s, e, r, None);
    if e.Work? {
      WorkElsewhere(s, e.p, e.world, r);
    } else {
      QuietStep(s, e, r);
    }
  }

  lemma {:induction false} RestLasts(events: seq<Event>, more: seq<Event>, r: Ref)
    requires AtRest(Run(INIT, events), r) && NoUpsert(more, r)
    ensures AtRest(Run(INIT, events + more), r) && SameUpdate(Run(INIT, events), Run(INIT, events + more), r)
    decreases |more|
  {
    if more == [] {
      assert events + more == events;
    } else {
      var before := events + more[..|more| - 1];
      assert (events + more)[..|events + more| - 1] == before;
      RestLasts(events, more[..|more| - 1], r);
      RunKeeps(before);
      RunStamps(before);
      StepAtRest(Run(INIT, before), more[|more| - 1], r);
    }
  }
}
