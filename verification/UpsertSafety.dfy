/** Exactly when an update is sure to be announced. The condition can be checked when the
    upsert is made; if it fails, some continuation comes to rest without the update. */
module UpsertSafety {
  import opened Options
  import opened Keys
  import opened Fanout
  import opened FanoutProofs
  import opened TriggerUpdates
  import Delivery
  import Schedulers

  /** Every continuation without another upsert that comes to rest has the update fanned out. */
  ghost predicate Assured(events: seq<Event>, r: Ref)
    requires r in Run(INIT, events).db.triggers
  {
    var t := Run(INIT, events).db.triggers[r];
    forall more :: NoUpsert(more, r) && AtRest(Run(INIT, events + more), r) ==>
      FannedOut(Run(INIT, events + more).db, CurrentJob(r, t), TriggerMessageOf(r, t))
  }

  // ---------- Where the messages of a trigger are ----------

  ghost predicate Homes(db: Tables, topic: map<string, Partition>) {
    && (forall r <- db.triggers :: db.triggers[r].active)
    && (forall p <- topic :: forall x <- topic[p].log :: x.TriggerMessage? ==>
        x.ref in db.triggers && db.triggers[x.ref].id == p)
  }

  lemma HomesStay(s: State, s': State)
    requires Homes(s.db, s.topic)
    requires forall r <- s.db.triggers :: r in s'.db.triggers && s'.db.triggers[r].id == s.db.triggers[r].id
    requires forall r <- s'.db.triggers :: s'.db.triggers[r].active
    requires forall p <- s'.topic :: forall x <- s'.topic[p].log :: x.TriggerMessage? ==> x in Part(s.topic, p).log
    ensures Homes(s'.db, s'.topic)
  {
  }

  lemma TriggersStay(s: State, e: Event)
    requires Homes(s.db, s.topic)
    ensures var s' := Next(s, e);
            && (forall r <- s.db.triggers :: r in s'.db.triggers && s'.db.triggers[r].id == s.db.triggers[r].id)
            && (forall r <- s'.db.triggers :: s'.db.triggers[r].active)
  {
    if e.Work? {
      var part := Part(s.topic, e.p);
      if HasHead(part) { EffectActive(s.db, part.log[part.committed], part.phase, e.world); }
    }
  }

  lemma EffectActive(db: Tables, head: Pending, phase: Phase, w: World)
    requires forall r <- db.triggers :: db.triggers[r].active
    ensures var db' := Effect(db, head, phase, w);
            && db'.triggers.Keys == db.triggers.Keys
            && (forall r <- db.triggers :: db'.triggers[r].active && db'.triggers[r].id == db.triggers[r].id)
  {
  }

  lemma OldLogs(s: State, e: Event)
    requires !e.Announce?
    ensures var s' := Next(s, e);
            forall p <- s'.topic :: forall x <- s'.topic[p].log :: x.TriggerMessage? ==> x in Part(s.topic, p).log
  {
  }

  lemma AnnounceHomes(s: State)
    requires Inv(s) && Homes(s.db, s.topic)
    ensures Homes(Next(s, Announce).db, Next(s, Announce).topic)
  {
    if s.queue != [] && !s.announced { assert ItemOk(s.db, s.queue[0]); }
  }

  lemma StepHomes(s: State, e: Event)
    requires Inv(s) && Homes(s.db, s.topic)
    ensures Homes(Next(s, e).db, Next(s, e).topic)
  {
    if e.Announce? {
      AnnounceHomes(s);
    } else {
      TriggersStay(s, e);
      OldLogs(s, e);
      HomesStay(s, Next(s, e));
    }
  }

  ghost predicate Sound(s: State) {
    Inv(s) && StampsOk(s) && Homes(s.db, s.topic)
  }

  lemma {:induction false} RunSound(events: seq<Event>)
    ensures Sound(Run(INIT, events))
  {
    RunKeeps(events);
    RunStamps(events);
    if events != [] {
      RunSound(events[..|events| - 1]);
      StepHomes(Run(INIT, events[..|events| - 1]), events[|events| - 1]);
    }
  }

  // ---------- Continuations ----------

  /** Some events without an upsert of the trigger lead from one state to the other. */
  ghost predicate Leads(s: State, t: State, r: Ref) {
    exists more :: NoUpsert(more, r) && Run(s, more) == t
  }

  lemma LeadsNowhere(s: State, r: Ref)
    ensures Leads(s, s, r)
  {
    assert NoUpsert([], r) && Run(s, []) == s;
  }

  lemma LeadsOne(s: State, e: Event, r: Ref)
    requires !(e.Upsert? && e.ref == r)
    ensures Leads(s, Next(s, e), r)
  {
    Schedulers.RunOne(s, e);
    assert NoUpsert([e], r);
  }

  lemma LeadsOn(s: State, t: State, u: State, r: Ref)
    requires Leads(s, t, r) && Leads(t, u, r)
    ensures Leads(s, u, r)
  {
    var a :| NoUpsert(a, r) && Run(s, a) == t;
    var b :| NoUpsert(b, r) && Run(t, b) == u;
    Schedulers.RunSplit(s, a, b);
    assert NoUpsert(a + b, r);
  }

  lemma LeadsStep(s: State, t: State, e: Event, r: Ref)
    requires Leads(s, t, r) && !(e.Upsert? && e.ref == r)
    ensures Leads(s, Next(t, e), r)
  {
    LeadsOne(t, e, r);
    LeadsOn(s, t, Next(t, e), r);
  }

  // ---------- Draining: messages whose template is not there ----------

  const NO_ANSWER := World(None, None)

  /** The same triggers and the same fan-outs. */
  predicate SameFanout(s: State, t: State) {
    && t.db.triggers == s.db.triggers && t.db.clock == s.db.clock && SameHistory(s.db, t.db)
    && t.queue == s.queue && t.announced == s.announced
  }

  lemma SkipHead(s: State, p: string, r: Ref) returns (t: State)
    requires p in s.topic && HasHead(s.topic[p]) && s.topic[p].phase.Idle?
    ensures Leads(s, t, r) && SameFanout(s, t)
    ensures t.topic == s.topic[p := s.topic[p].(committed := s.topic[p].committed + 1)]
  {
    var part := s.topic[p];
    var head := part.log[part.committed];
    var a := Next(s, Work(p, NO_ANSWER));
    var b := Next(a, Work(p, NO_ANSWER));
    t := Next(b, Commit(p));
    LeadsOne(s, Work(p, NO_ANSWER), r);
    LeadsStep(s, a, Work(p, NO_ANSWER), r);
    LeadsStep(s, b, Commit(p), r);
    SkipEffect(s.db, head);
    assert b.topic[p] == part.(phase := Done);
  }

  lemma SkipEffect(db: Tables, head: Pending)
    ensures var db' := Effect(db, head, Idle, NO_ANSWER);
            var phase := NextPhase(db, head, Idle, NO_ANSWER);
            && db'.triggers == db.triggers && db'.clock == db.clock && SameHistory(db, db')
            && Effect(db', head, phase, NO_ANSWER) == db' && NextPhase(db', head, phase, NO_ANSWER) == Done
  {
  }

  lemma {:induction false} DrainTo(s: State, p: string, k: nat, r: Ref) returns (t: State)
    requires p in s.topic && s.topic[p].phase.Idle? && s.topic[p].committed <= k <= |s.topic[p].log|
    ensures Leads(s, t, r) && SameFanout(s, t)
    ensures t.topic == s.topic[p := s.topic[p].(committed := k)]
    decreases k - s.topic[p].committed
  {
    if s.topic[p].committed == k {
      LeadsNowhere(s, r);
      t := s;
      assert s.topic[p := s.topic[p]] == s.topic;
    } else {
      var u := SkipHead(s, p, r);
      t := DrainTo(u, p, k, r);
      LeadsOn(s, u, t, r);
    }
  }

  // ---------- Completing a fan-out to one user ----------

  const USER := "u"
  const ANSWER := World(Some("c"), Some([USER]))

  /** What a handler of the job may have done on the way from one state to another. */
  ghost predicate Served(s: State, t: State, p: string, job: Job, head: Pending)
    requires !head.Garbage?
  {
    && t.queue == s.queue && t.announced == s.announced && s.db.clock <= t.db.clock
    && (forall x <- t.db.resolved :: x in s.db.resolved || (x.job == job && USER in x.users))
    && (forall m <- t.db.bulk :: m in s.db.bulk ||
          (exists c, u :: m == BulkMessage(job, head, c, u)))
    && p in s.topic && p in t.topic && t.topic[p].log == s.topic[p].log
  }

  /** A handler is at work on the head of the partition. */
  ghost predicate Working(s: State, p: string, job: Job, head: Pending) {
    && p in s.topic && HasHead(s.topic[p]) && s.topic[p].log[s.topic[p].committed] == head && head.TriggerMessage?
    && job.TriggerJob? && job.ref in s.db.triggers
    && match s.topic[p].phase
       case Found(j) => j == job
       case Targeted(j, _) => j == job
       case Spreading(j, _, users, done) => j == job && done <= |users|
       case _ => false
  }

  /** The job is marked and its message acknowledged. */
  ghost predicate Marked(s: State, t: State, p: string, job: Job)
    requires job.TriggerJob? && job.ref in s.db.triggers && p in s.topic
  {
    && t.db.triggers == s.db.triggers[job.ref := s.db.triggers[job.ref].(lastSent := Some(s.db.clock))]
    && t.topic == s.topic[p := s.topic[p].(committed := s.topic[p].committed + 1, phase := Idle)]
  }

  lemma SpreadOne(s: State, p: string, job: Job, head: Pending) returns (t: State)
    requires Working(s, p, job, head) && s.topic[p].phase.Spreading?
    requires s.topic[p].phase.done < |s.topic[p].phase.users|
    ensures t == Next(s, Work(p, ANSWER))
    ensures var phase := s.topic[p].phase;
            && t.db == s.db.(bulk := s.db.bulk + [BulkMessage(job, head, phase.channel, phase.users[phase.done])])
            && t.topic == s.topic[p := s.topic[p].(phase := phase.(done := phase.done + 1))]
            && t.queue == s.queue && t.announced == s.announced
  {
    t := Next(s, Work(p, ANSWER));
  }

  lemma MarkAndCommit(s: State, p: string, job: Job, head: Pending, r: Ref) returns (t: State)
    requires Working(s, p, job, head) && s.topic[p].phase.Spreading?
    requires s.topic[p].phase.done == |s.topic[p].phase.users|
    ensures Leads(s, t, r) && Served(s, t, p, job, head) && Marked(s, t, p, job)
  {
    var u := Next(s, Work(p, ANSWER));
    LeadsOne(s, Work(p, ANSWER), r);
    t := Next(u, Commit(p));
    LeadsStep(s, u, Commit(p), r);
    assert u.topic == s.topic[p := s.topic[p].(phase := Done)];
  }

  lemma {:induction false} FinishSpreading(s: State, p: string, job: Job, head: Pending, r: Ref) returns (t: State)
    requires Working(s, p, job, head) && s.topic[p].phase.Spreading?
    ensures Leads(s, t, r) && Served(s, t, p, job, head) && Marked(s, t, p, job)
    decreases |s.topic[p].phase.users| - s.topic[p].phase.done
  {
    if s.topic[p].phase.done < |s.topic[p].phase.users| {
      var u := SpreadOne(s, p, job, head);
      LeadsOne(s, Work(p, ANSWER), r);
      t := FinishSpreading(u, p, job, head, r);
      LeadsOn(s, u, t, r);
      assert u.topic[p := t.topic[p]] == s.topic[p := t.topic[p]];
    } else {
      t := MarkAndCommit(s, p, job, head, r);
    }
  }

  lemma Complete(s: State, p: string, job: Job, head: Pending, r: Ref) returns (t: State)
    requires Working(s, p, job, head)
    ensures Leads(s, t, r) && Served(s, t, p, job, head) && Marked(s, t, p, job)
    decreases if s.topic[p].phase.Found? then 2 else if s.topic[p].phase.Targeted? then 1 else 0
  {
    if s.topic[p].phase.Spreading? {
      t := FinishSpreading(s, p, job, head, r);
    } else {
      var u := Next(s, Work(p, ANSWER));
      LeadsOne(s, Work(p, ANSWER), r);
      t := Complete(u, p, job, head, r);
      LeadsOn(s, u, t, r);
      assert u.topic[p := t.topic[p]] == s.topic[p := t.topic[p]];
    }
  }

  // ---------- A fan-out without this update ----------

  /** Every audience of the current update has the user, whom its content has not reached. */
  ghost predicate Unmet(db: Tables, r: Ref)
    requires r in db.triggers
  {
    var t := db.triggers[r];
    && (forall x <- db.resolved :: x.job == CurrentJob(r, t) ==> USER in x.users)
    && (forall m <- db.bulk :: m.key == ForTrigger(t.id, t.lastUpdate, USER) ==>
          !(m.templateId == t.templateId && m.payload == t.payload))
  }

  lemma UnmetIsNotFannedOut(db: Tables, r: Ref)
    requires r in db.triggers && Unmet(db, r)
    ensures !FannedOut(db, CurrentJob(r, db.triggers[r]), TriggerMessageOf(r, db.triggers[r]))
  {
    var job, m := CurrentJob(r, db.triggers[r]), TriggerMessageOf(r, db.triggers[r]);
    forall channel, users | Resolution(job, channel, users) in db.resolved
      ensures !AllReached(db, job, m, channel, users)
    {
      assert USER in users;
      assert !Reached(db.bulk, job, m, channel, USER);
    }
  }

  /** Completing another update's fan-out, or this one's with another content. */
  lemma StaysUnmet(s: State, t: State, p: string, job: Job, head: Pending, r: Ref)
    requires r in s.db.triggers && Unmet(s.db, r) && s.db.triggers[r].lastUpdate < s.db.clock
    requires Working(s, p, job, head) && job.ref == r && head.ref == r
    requires job.stamp != s.db.triggers[r].lastUpdate || head != TriggerMessageOf(r, s.db.triggers[r])
    requires Served(s, t, p, job, head) && Marked(s, t, p, job)
    ensures r in t.db.triggers && Unmet(t.db, r) && !NeedsSending(t.db.triggers[r])
  {
  }

  // ---------- Coming to rest ----------

  lemma RestByDraining(s: State, r: Ref) returns (t: State)
    requires r in s.db.triggers && !NeedsSending(s.db.triggers[r]) && s.queue == [] && Homes(s.db, s.topic)
    requires var p := s.db.triggers[r].id;
             p in s.topic ==> s.topic[p].phase.Idle? && s.topic[p].committed <= |s.topic[p].log|
    ensures Leads(s, t, r) && SameFanout(s, t) && AtRest(t, r)
  {
    var p := s.db.triggers[r].id;
    if p in s.topic {
      t := DrainTo(s, p, |s.topic[p].log|, r);
    } else {
      t := s;
      LeadsNowhere(s, r);
    }
    forall q <- t.topic ensures LogHas(Uncommitted(t.topic[q]), r, None) {
      if q != p { assert forall x <- Uncommitted(t.topic[q]) :: x in s.topic[q].log; }
    }
  }

  /** A message of the trigger with another content waits, or a handler has read an older row. */
  ghost predicate Offends(s: State, p: string, r: Ref)
    requires r in s.db.triggers
  {
    p in s.topic && (
      || (Holds(s.topic[p].phase, r) && s.topic[p].phase.job.stamp != s.db.triggers[r].lastUpdate)
      || !LogHas(Uncommitted(s.topic[p]), r, Some(TriggerMessageOf(r, s.db.triggers[r]))))
  }

  ghost predicate Doomed(s: State, r: Ref) {
    && Sound(s) && s.queue == [] && r in s.db.triggers && Unmet(s.db, r)
    && s.db.triggers[r].lastUpdate < s.db.clock && Offends(s, s.db.triggers[r].id, r)
  }

  lemma SpoiledByHandler(s: State, r: Ref) returns (t: State)
    requires Doomed(s, r)
    requires var part := s.topic[s.db.triggers[r].id];
             Holds(part.phase, r) && part.phase.job.stamp != s.db.triggers[r].lastUpdate
    ensures Leads(s, t, r) && AtRest(t, r) && Unmet(t.db, r)
  {
    var p := s.db.triggers[r].id;
    var part := s.topic[p];
    assert WorkerOk(s.db, part);
    var job, head := part.phase.job, part.log[part.committed];
    var u := Complete(s, p, job, head, r);
    StaysUnmet(s, u, p, job, head, r);
    HomesMarked(s, u, p, job);
    t := RestByDraining(u, r);
    LeadsOn(s, u, t, r);
  }

  lemma HomesMarked(s: State, t: State, p: string, job: Job)
    requires job.TriggerJob? && job.ref in s.db.triggers && p in s.topic && Marked(s, t, p, job)
    requires Homes(s.db, s.topic)
    ensures Homes(t.db, t.topic)
  {
  }

  /** The handler of a message reads the current row. */
  lemma Reads(s: State, p: string, r: Ref)
    requires p in s.topic && HasHead(s.topic[p]) && s.topic[p].phase.Idle? && r in s.db.triggers
        && s.db.triggers[r].active
    requires var head := s.topic[p].log[s.topic[p].committed]; head.TriggerMessage? && head.ref == r
    ensures var t := Next(s, Work(p, ANSWER));
            && t.db == s.db && t.queue == s.queue && t.announced == s.announced
            && t.topic == s.topic[p := s.topic[p].(phase := Found(CurrentJob(r, s.db.triggers[r])))]
  {
  }

  /** The partition's handler comes to a message of the trigger and reads the current row. */
  lemma ReachMessage(s: State, r: Ref, k: nat) returns (t: State)
    requires Homes(s.db, s.topic) && r in s.db.triggers
    requires var p := s.db.triggers[r].id;
             && p in s.topic && s.topic[p].committed <= k < |s.topic[p].log|
             && s.topic[p].log[k].TriggerMessage? && s.topic[p].log[k].ref == r
    ensures Leads(s, t, r) && SameFanout(s, t) && Homes(t.db, t.topic)
    ensures var p := s.db.triggers[r].id;
            Working(t, p, CurrentJob(r, s.db.triggers[r]), s.topic[p].log[k])
  {
    var p := s.db.triggers[r].id;
    var a := Next(s, Abort(p));
    LeadsOne(s, Abort(p), r);
    var b := DrainTo(a, p, k, r);
    LeadsOn(s, a, b, r);
    Reads(b, p, r);
    t := Next(b, Work(p, ANSWER));
    LeadsStep(s, b, Work(p, ANSWER), r);
  }

  /** The job is completed, and the rest of the partition drained. */
  lemma CompleteAndRest(s: State, r: Ref, head: Pending) returns (t: State, u: State)
    requires Homes(s.db, s.topic) && s.queue == [] && r in s.db.triggers
    requires s.db.triggers[r].lastUpdate < s.db.clock
    requires Working(s, s.db.triggers[r].id, CurrentJob(r, s.db.triggers[r]), head)
    ensures var p, job := s.db.triggers[r].id, CurrentJob(r, s.db.triggers[r]);
            Served(s, u, p, job, head) && Marked(s, u, p, job)
    ensures Leads(s, t, r) && AtRest(t, r) && SameFanout(u, t)
  {
    var p, job := s.db.triggers[r].id, CurrentJob(r, s.db.triggers[r]);
    u := Complete(s, p, job, head, r);
    HomesMarked(s, u, p, job);
    t := RestByDraining(u, r);
    LeadsOn(s, u, t, r);
  }

  lemma SpoiledByMessage(s: State, r: Ref, k: nat) returns (t: State)
    requires Doomed(s, r)
    requires var part := s.topic[s.db.triggers[r].id];
             && part.committed <= k < |part.log| && part.log[k].TriggerMessage? && part.log[k].ref == r
             && part.log[k] != TriggerMessageOf(r, s.db.triggers[r])
    ensures Leads(s, t, r) && AtRest(t, r) && Unmet(t.db, r)
  {
    var p := s.db.triggers[r].id;
    var head, job := s.topic[p].log[k], CurrentJob(r, s.db.triggers[r]);
    var c := ReachMessage(s, r, k);
    var u;
    t, u := CompleteAndRest(c, r, head);
    LeadsOn(s, c, t, r);
    StaysUnmet(c, u, p, job, head, r);
  }

  /** Whatever offends can be brought to rest without the update. */
  lemma Spoiled(s: State, r: Ref) returns (t: State)
    requires Doomed(s, r)
    ensures Leads(s, t, r) && AtRest(t, r)
        && !FannedOut(t.db, CurrentJob(r, t.db.triggers[r]), TriggerMessageOf(r, t.db.triggers[r]))
  {
    var part := s.topic[s.db.triggers[r].id];
    if Holds(part.phase, r) && part.phase.job.stamp != s.db.triggers[r].lastUpdate {
      t := SpoiledByHandler(s, r);
    } else {
      var want := TriggerMessageOf(r, s.db.triggers[r]);
      var x :| x in Uncommitted(part) && x.TriggerMessage? && x.ref == r && x != want;
      var i :| 0 <= i < |Uncommitted(part)| && Uncommitted(part)[i] == x;
      t := SpoiledByMessage(s, r, part.committed + i);
    }
    UnmetIsNotFannedOut(t.db, r);
  }

  // ---------- Exactly when an upsert is safe ----------

  lemma StepSound(s: State, e: Event)
    requires Sound(s)
    ensures Sound(Next(s, e))
  {
    StepKeeps(s, e);
    StepStamps(s, e);
    StepHomes(s, e);
  }

  /** Job and message of a trigger's current update. */
  ghost predicate SameRow(s: State, t: State, r: Ref) {
    r in s.db.triggers ==>
      && r in t.db.triggers && CurrentJob(r, t.db.triggers[r]) == CurrentJob(r, s.db.triggers[r])
      && TriggerMessageOf(r, t.db.triggers[r]) == TriggerMessageOf(r, s.db.triggers[r])
  }

  lemma StepRow(s: State, e: Event, r: Ref)
    requires !(e.Upsert? && e.ref == r)
    ensures SameRow(s, Next(s, e), r)
  {
    if e.Work? {
      var part := Part(s.topic, e.p);
      if HasHead(part) { EffectStamps(s.db, part.log[part.committed], part.phase, e.world); }
    } else {
      QuietStep(s, e, r);
    }
  }

  lemma {:induction false} RowStays(s: State, more: seq<Event>, r: Ref)
    requires NoUpsert(more, r)
    ensures SameRow(s, Run(s, more), r)
  {
    if more != [] {
      var n := |more| - 1;
      RowStays(s, more[..n], r);
      StepRow(Run(s, more[..n]), more[n], r);
    }
  }

  /** Only a trigger that exists is under way. */
  lemma UnknownIsSafe(s: State, e: Event)
    requires Sound(s) && e.Upsert? && e.ref !in s.db.triggers
    ensures SafeToUpsert(s, e)
  {
    forall p <- s.topic ensures !Holds(s.topic[p].phase, e.ref) { assert WorkerOk(s.db, s.topic[p]); }
    forall x <- LiveQueue(s) ensures ItemOk(s.db, x) { assert x in s.queue; }
    forall p <- s.topic ensures LogHas(Uncommitted(s.topic[p]), e.ref, None) {
      assert forall x <- Uncommitted(s.topic[p]) :: x in s.topic[p].log;
    }
  }

  /** Nothing is resolved or published yet under the stamp that an upsert gives. */
  lemma FreshIsUnmet(s: State, e: Event)
    requires Sound(s) && e.Upsert?
    ensures Unmet(Next(s, e).db, e.ref)
  {
  }

  lemma {:induction false} DropTo(s: State, i: nat, r: Ref) returns (t: State)
    requires i < |s.queue| && (i == 0 ==> !s.announced) && Sound(s)
    ensures Leads(s, t, r) && t == s.(queue := s.queue[i..], announced := false) && Sound(t)
  {
    if i == 0 {
      LeadsNowhere(s, r);
      t := s;
    } else if i == 1 {
      StepSound(s, Drop);
      LeadsOne(s, Drop, r);
      t := Next(s, Drop);
    } else {
      var u := DropTo(s, i - 1, r);
      StepSound(u, Drop);
      LeadsStep(s, u, Drop, r);
      t := Next(u, Drop);
      assert s.queue[i - 1..][1..] == s.queue[i..];
    }
  }

  /** What already offends still does so after a crash of the scheduler. */
  lemma DoomedByTopic(s: State, r: Ref) returns (t: State)
    requires Sound(s) && r in s.db.triggers && Unmet(s.db, r) && s.db.triggers[r].lastUpdate < s.db.clock
    requires Offends(s, s.db.triggers[r].id, r)
    ensures Leads(s, t, r) && Doomed(t, r)
  {
    StepSound(s, Crash);
    LeadsOne(s, Crash, r);
    t := Next(s, Crash);
  }

  /** The scheduler publishes a row that it read before the upsert. */
  lemma DoomedByItem(s: State, r: Ref, i: nat) returns (t: State)
    requires Sound(s) && r in s.db.triggers && Unmet(s.db, r) && s.db.triggers[r].lastUpdate < s.db.clock
    requires i < |s.queue| && (i == 0 ==> !s.announced)
    requires var x := s.queue[i];
             && x.TriggerItem? && x.ref == r && NeedsSending(x.trigger)
             && TriggerMessageOf(r, x.trigger) != TriggerMessageOf(r, s.db.triggers[r])
    ensures Leads(s, t, r) && Doomed(t, r)
  {
    var a := DropTo(s, i, r);
    LeadsStep(s, a, Announce, r);
    StepSound(a, Announce);
    StaleIsPublished(a, r);
    t := DoomedByTopic(Next(a, Announce), r);
    LeadsOn(s, Next(a, Announce), t, r);
  }

  lemma StaleIsPublished(s: State, r: Ref)
    requires Sound(s) && s.queue != [] && !s.announced && r in s.db.triggers
    requires var x := s.queue[0];
             && x.TriggerItem? && x.ref == r && NeedsSending(x.trigger)
             && TriggerMessageOf(r, x.trigger) != TriggerMessageOf(r, s.db.triggers[r])
    ensures Next(s, Announce).db == s.db && Offends(Next(s, Announce), s.db.triggers[r].id, r)
  {
    assert ItemOk(s.db, s.queue[0]);
    var p, m := s.db.triggers[r].id, TriggerMessageOf(r, s.queue[0].trigger);
    Appended(Part(s.topic, p), m);
    if p in s.topic { assert WorkerOk(s.db, s.topic[p]); }
    assert m in Uncommitted(Next(s, Announce).topic[p]);
  }

  lemma Appended(part: Partition, m: Pending)
    ensures part.committed <= |part.log| ==> m in Uncommitted(part.(log := part.log + [m]))
  {
    if part.committed <= |part.log| {
      assert (part.log + [m])[part.committed..][|part.log| - part.committed] == m;
    }
  }

  /** What makes an upsert unsafe is in the trigger's own partition or in the live queue. */
  lemma WhatIsUnsafe(s: State, e: Event)
    requires Sound(s) && e.Upsert? && e.ref in s.db.triggers
    requires !SafeToUpsert(s, e) && QueueHas(LiveQueue(s), e.ref, Some(TriggerMessage(e.ref, e.templateId, e.payload)))
    ensures Offends(Next(s, e), s.db.triggers[e.ref].id, e.ref)
  {
    var m := TriggerMessage(e.ref, e.templateId, e.payload);
    if !TopicHas(s.topic, e.ref, Some(m)) {
      var p :| p in s.topic && !LogHas(Uncommitted(s.topic[p]), e.ref, Some(m));
      var x :| x in Uncommitted(s.topic[p]) && x.TriggerMessage? && x.ref == e.ref && x != m;
      assert x in s.topic[p].log;
    } else {
      var p :| p in s.topic && Holds(s.topic[p].phase, e.ref);
      assert WorkerOk(s.db, s.topic[p]) && PhaseStamp(s.db, s.topic[p].phase);
      assert s.topic[p].log[s.topic[p].committed] in s.topic[p].log;
    }
  }

  lemma UnsafeIsDoomed(s: State, e: Event) returns (t: State)
    requires Sound(s) && e.Upsert? && e.ref in s.db.triggers && !SafeToUpsert(s, e)
    ensures Leads(Next(s, e), t, e.ref) && Doomed(t, e.ref)
  {
    var s' := Next(s, e);
    var m := TriggerMessage(e.ref, e.templateId, e.payload);
    StepSound(s, e);
    FreshIsUnmet(s, e);
    if QueueHas(LiveQueue(s), e.ref, Some(m)) {
      WhatIsUnsafe(s, e);
      t := DoomedByTopic(s', e.ref);
    } else {
      var x :| x in LiveQueue(s) && x.TriggerItem? && x.ref == e.ref && NeedsSending(x.trigger)
               && TriggerMessageOf(e.ref, x.trigger) != m;
      var i := LiveIndex(s, x);
      t := DoomedByItem(s', e.ref, i);
    }
  }

  lemma LiveIndex(s: State, x: Item) returns (i: nat)
    requires x in LiveQueue(s)
    ensures i < |s.queue| && s.queue[i] == x && (i == 0 ==> !s.announced)
  {
    i :| 0 <= i < |LiveQueue(s)| && LiveQueue(s)[i] == x;
    i := if s.announced then i + 1 else i;
  }

  /** An unsafe upsert: some continuation comes to rest without the update. */
  lemma UnsafeCanBeLost(events: seq<Event>, e: Event)
    requires e.Upsert? && !SafeToUpsert(Run(INIT, events), e) && e.ref in Run(INIT, events + [e]).db.triggers
    ensures !Assured(events + [e], e.ref)
  {
    var s := Run(INIT, events);
    RunSound(events);
    RunStep(events, e);
    if e.ref !in s.db.triggers { UnknownIsSafe(s, e); }
    var u := UnsafeIsDoomed(s, e);
    var t := Spoiled(u, e.ref);
    LeadsOn(Next(s, e), u, t, e.ref);
    NotAssured(events + [e], t, e.ref);
  }

  lemma NotAssured(events: seq<Event>, t: State, r: Ref)
    requires r in Run(INIT, events).db.triggers
    requires Leads(Run(INIT, events), t, r) && AtRest(t, r)
    requires !FannedOut(t.db, CurrentJob(r, t.db.triggers[r]), TriggerMessageOf(r, t.db.triggers[r]))
    ensures !Assured(events, r)
  {
    var more := Reachable(events, t, r);
    RowStays(Run(INIT, events), more, r);
  }

  /** The update that an upsert makes is sure to be announced, with its own template and
      payload, if and only if at that moment nothing else of the trigger is under way: no row
      in the scheduler's queue still to be published and no message still to be acknowledged
      with another content, and no handler that has read the row before. */
  lemma UpsertExactly(events: seq<Event>, e: Event)
    requires e.Upsert?
    ensures e.ref in Run(INIT, events + [e]).db.triggers
    ensures Assured(events + [e], e.ref) <==> SafeToUpsert(Run(INIT, events), e)
  {
    RunStep(events, e);
    if SafeToUpsert(Run(INIT, events), e) {
      var s := Run(INIT, events + [e]);
      forall more | NoUpsert(more, e.ref) && AtRest(Run(INIT, events + [e] + more), e.ref)
        ensures var t := s.db.triggers[e.ref];
                FannedOut(Run(INIT, events + [e] + more).db, CurrentJob(e.ref, t), TriggerMessageOf(e.ref, t))
      {
        SafeUpsertAnnounced(events, e, more);
        Schedulers.RunSplit(INIT, events + [e], more);
        RowStays(s, more, e.ref);
      }
    } else {
      UnsafeCanBeLost(events, e);
    }
  }

  // ---------- A trigger always can come to rest ----------

  lemma {:induction false} Wait(s: State, n: nat, r: Ref) returns (t: State)
    requires Sound(s)
    ensures Leads(s, t, r) && Sound(t) && t == s.(db := s.db.(clock := s.db.clock + n))
  {
    if n == 0 {
      LeadsNowhere(s, r);
      t := s;
    } else {
      var u := Wait(s, n - 1, r);
      StepSound(u, Tick);
      LeadsStep(s, u, Tick, r);
      t := Next(u, Tick);
    }
  }

  lemma {:induction false} Enumerate(xs: set<Item>) returns (items: seq<Item>)
    ensures (forall i, j | 0 <= i < j < |items| :: items[i] != items[j]) && forall x :: x in items <==> x in xs
  {
    if xs == {} {
      items := [];
    } else {
      var x :| x in xs;
      var rest := Enumerate(xs - {x});
      items := rest + [x];
    }
  }

  /** The scheduler reads the trigger. */
  lemma Polled(s: State, r: Ref) returns (t: State)
    requires Sound(s) && s.queue == [] && r in s.db.triggers && TriggerDue(s.db.triggers[r], s.db.clock)
    ensures Leads(s, t, r) && Sound(t) && t == s.(queue := t.queue, announced := false)
    ensures TriggerItem(r, s.db.triggers[r]) in t.queue
  {
    var due := set q | q in s.db.triggers && TriggerDue(s.db.triggers[q], s.db.clock) ::
      TriggerItem(q, s.db.triggers[q]);
    var items := Enumerate(due);
    assert forall q <- s.db.triggers :: TriggerDue(s.db.triggers[q], s.db.clock) ==>
        TriggerItem(q, s.db.triggers[q]) in due;
    assert DueTriggers(s.db, items);
    StepSound(s, Poll(items));
    LeadsOne(s, Poll(items), r);
    t := Next(s, Poll(items));
  }

  /** The scheduler publishes the row that it read. */
  lemma PublishedLast(s: State, r: Ref) returns (t: State)
    requires Sound(s) && !s.announced && r in s.db.triggers && NeedsSending(s.db.triggers[r])
    requires TriggerItem(r, s.db.triggers[r]) in s.queue
    ensures Leads(s, t, r) && Sound(t) && t.db == s.db && t.queue == []
    ensures t.topic == Publish(s.topic, s.db.triggers[r].id, TriggerMessageOf(r, s.db.triggers[r]))
  {
    var i :| 0 <= i < |s.queue| && s.queue[i] == TriggerItem(r, s.db.triggers[r]);
    var a := DropTo(s, i, r);
    var b := Next(a, Announce);
    AnnounceFirst(a, r);
    StepSound(a, Announce);
    LeadsStep(s, a, Announce, r);
    StepSound(b, Crash);
    LeadsStep(s, b, Crash, r);
    t := Next(b, Crash);
  }

  lemma AnnounceFirst(s: State, r: Ref)
    requires s.queue != [] && !s.announced && r in s.db.triggers && NeedsSending(s.db.triggers[r])
    requires s.queue[0] == TriggerItem(r, s.db.triggers[r])
    ensures Next(s, Announce).db == s.db
    ensures Next(s, Announce).topic == Publish(s.topic, s.db.triggers[r].id, TriggerMessageOf(r, s.db.triggers[r]))
  {
  }

  /** A handler works the last message of the trigger's partition. */
  lemma Worked(s: State, r: Ref) returns (t: State)
    requires Sound(s) && s.queue == [] && r in s.db.triggers
    requires var p := s.db.triggers[r].id;
             p in s.topic && s.topic[p].log != [] && s.topic[p].committed < |s.topic[p].log|
             && s.topic[p].log[|s.topic[p].log| - 1] == TriggerMessageOf(r, s.db.triggers[r])
    ensures Leads(s, t, r) && AtRest(t, r)
  {
    assert TriggerOk(s.db, r);
    var c := ReachMessage(s, r, |s.topic[s.db.triggers[r].id].log| - 1);
    var u;
    t, u := CompleteAndRest(c, r, TriggerMessageOf(r, s.db.triggers[r]));
    LeadsOn(s, c, t, r);
  }

  lemma DueInTime(s: State, r: Ref) returns (t: State)
    requires Sound(s) && r in s.db.triggers
    ensures Leads(s, t, r) && Sound(t) && t == s.(db := s.db.(clock := t.db.clock))
    ensures TriggerDue(t.db.triggers[r], t.db.clock)
  {
    var row := s.db.triggers[r];
    t := Wait(s, if row.lastChecked.Some? then row.lastChecked.value + row.interval else 0, r);
  }

  lemma Rests(s: State, r: Ref) returns (t: State)
    requires Sound(s) && s.queue == [] && r in s.db.triggers
    ensures Leads(s, t, r) && AtRest(t, r)
  {
    if NeedsSending(s.db.triggers[r]) {
      var a := DueInTime(s, r);
      var b := Polled(a, r);
      LeadsOn(s, a, b, r);
      var c := PublishedLast(b, r);
      LeadsOn(s, b, c, r);
      var part := Part(b.topic, s.db.triggers[r].id);
      if s.db.triggers[r].id in b.topic { assert WorkerOk(b.db, part); }
      t := Worked(c, r);
      LeadsOn(s, c, t, r);
    } else {
      t := RestsIdle(s, r);
    }
  }

  lemma RestsIdle(s: State, r: Ref) returns (t: State)
    requires Sound(s) && s.queue == [] && r in s.db.triggers && !NeedsSending(s.db.triggers[r])
    ensures Leads(s, t, r) && AtRest(t, r) && SameFanout(s, t)
  {
    var p := s.db.triggers[r].id;
    LeadsOne(s, Abort(p), r);
    Aborted(s, p);
    var a := Next(s, Abort(p));
    t := RestByDraining(a, r);
    LeadsOn(s, a, t, r);
  }

  lemma Aborted(s: State, p: string)
    requires Sound(s)
    ensures var t := Next(s, Abort(p));
            && SameFanout(s, t) && Homes(t.db, t.topic)
            && (p in t.topic ==> t.topic[p].phase.Idle? && t.topic[p].committed <= |t.topic[p].log|)
  {
    StepSound(s, Abort(p));
    if p in s.topic { assert WorkerOk(s.db, s.topic[p]); }
  }

  lemma Reachable(events: seq<Event>, t: State, r: Ref) returns (more: seq<Event>)
    requires Leads(Run(INIT, events), t, r)
    ensures NoUpsert(more, r) && Run(INIT, events + more) == t && Run(Run(INIT, events), more) == t
  {
    more :| NoUpsert(more, r) && Run(Run(INIT, events), more) == t;
    Schedulers.RunSplit(INIT, events, more);
  }

  /** However far a run has come, the trigger can come to rest without another upsert. */
  lemma CanRest(events: seq<Event>, r: Ref)
    requires r in Run(INIT, events).db.triggers
    ensures exists more :: NoUpsert(more, r) && AtRest(Run(INIT, events + more), r)
  {
    var s := Run(INIT, events);
    RunSound(events);
    StepSound(s, Crash);
    LeadsOne(s, Crash, r);
    var t := Rests(Next(s, Crash), r);
    LeadsOn(s, Next(s, Crash), t, r);
    var more := Reachable(events, t, r);
  }

  // ---------- A trigger that is not due ----------

  lemma StepGrows(s: State, e: Event)
    ensures var db, db' := s.db, Next(s, e).db; db.bulk <= db'.bulk && db.resolved <= db'.resolved
  {
    if e.Work? {
      var part := Part(s.topic, e.p);
      if HasHead(part) { EffectGrows(s.db, part.log[part.committed], part.phase, e.world); }
    }
  }

  lemma {:induction false} RunGrows(s: State, more: seq<Event>)
    ensures var db, db' := s.db, Run(s, more).db; db.bulk <= db'.bulk && db.resolved <= db'.resolved
  {
    if more != [] {
      var n := |more| - 1;
      RunGrows(s, more[..n]);
      StepGrows(Run(s, more[..n]), more[n]);
    }
  }

  lemma FanoutStays(db: Tables, db': Tables, job: Job, head: Pending)
    requires db.bulk <= db'.bulk && db.resolved <= db'.resolved && FannedOut(db, job, head)
    ensures FannedOut(db', job, head)
  {
    var channel, users :| Resolution(job, channel, users) in db.resolved && AllReached(db, job, head, channel, users);
    assert AllReached(db', job, head, channel, users);
  }

  lemma SameReading(db: Tables, db': Tables, job: Job, head: Pending)
    requires SameHistory(db, db')
    ensures FannedOut(db, job, head) <==> FannedOut(db', job, head)
  {
  }

  /** A trigger that is not due is sure of its update only if it has it already. */
  lemma NotDueExactly(events: seq<Event>, r: Ref)
    requires var db := Run(INIT, events).db; r in db.triggers && !NeedsSending(db.triggers[r])
    ensures var db := Run(INIT, events).db;
            Assured(events, r) <==> FannedOut(db, CurrentJob(r, db.triggers[r]), TriggerMessageOf(r, db.triggers[r]))
  {
    var s := Run(INIT, events);
    var job, m := CurrentJob(r, s.db.triggers[r]), TriggerMessageOf(r, s.db.triggers[r]);
    if FannedOut(s.db, job, m) {
      forall more | NoUpsert(more, r) ensures FannedOut(Run(INIT, events + more).db, job, m) {
        Schedulers.RunSplit(INIT, events, more);
        RunGrows(s, more);
        FanoutStays(s.db, Run(INIT, events + more).db, job, m);
      }
    } else {
      RunSound(events);
      StepSound(s, Crash);
      LeadsOne(s, Crash, r);
      var t := RestsIdle(Next(s, Crash), r);
      LeadsOn(s, Next(s, Crash), t, r);
      SameReading(s.db, t.db, job, m);
      NotAssured(events, t, r);
    }
  }

  /** The worker of `part` is about to mark a fan-out complete. */
  predicate AboutToMark(part: Partition) {
    HasHead(part) && part.phase.Spreading? && part.phase.done == |part.phase.users| && part.phase.job.TriggerJob?
  }

  lemma MarkEffect(s: State, p: string, w: World)
    requires Inv(s) && AboutToMark(Part(s.topic, p))
    ensures var db, db' := s.db, Next(s, Work(p, w)).db;
            var part := Part(s.topic, p);
            var r := part.phase.job.ref;
            && r in db.triggers && r in db'.triggers && !NeedsSending(db'.triggers[r])
            && db'.bulk == db.bulk && db'.resolved == db.resolved
            && CurrentJob(r, db'.triggers[r]) == CurrentJob(r, db.triggers[r])
            && TriggerMessageOf(r, db'.triggers[r]) == TriggerMessageOf(r, db.triggers[r])
            && FannedOut(db, part.phase.job, part.log[part.committed])
  {
    var part := s.topic[p];
    assert WorkerOk(s.db, part);
    assert TriggerOk(s.db, part.phase.job.ref);
    CompletedJob(s.db, part.log[part.committed], part.phase);
  }

  /** A mark ends all doubt: the current update of the trigger, whichever the handler had
      read, is announced for sure if it has been fanned out by then, and can be lost
      otherwise. It has been if the handler had read it after a message with its content. */
  lemma MarkDecides(events: seq<Event>, p: string, w: World)
    requires AboutToMark(Part(Run(INIT, events).topic, p))
    ensures var db, db' := Run(INIT, events).db, Run(INIT, events + [Work(p, w)]).db;
            var part := Part(Run(INIT, events).topic, p);
            var r := part.phase.job.ref;
            && r in db.triggers && r in db'.triggers && !NeedsSending(db'.triggers[r])
            && var job, m := CurrentJob(r, db.triggers[r]), TriggerMessageOf(r, db.triggers[r]);
            && (Assured(events + [Work(p, w)], r) <==> FannedOut(db, job, m))
            && (part.phase.job == job && part.log[part.committed] == m ==> Assured(events + [Work(p, w)], r))
  {
    var s := Run(INIT, events);
    RunKeeps(events);
    RunStep(events, Work(p, w));
    MarkEffect(s, p, w);
    var r := s.topic[p].phase.job.ref;
    var job, m := CurrentJob(r, s.db.triggers[r]), TriggerMessageOf(r, s.db.triggers[r]);
    NotDueExactly(events + [Work(p, w)], r);
    if FannedOut(s.db, job, m) {
      FanoutStays(s.db, Next(s, Work(p, w)).db, job, m);
    } else if FannedOut(Next(s, Work(p, w)).db, job, m) {
      FanoutStays(Next(s, Work(p, w)).db, s.db, job, m);
    }
  }
}
