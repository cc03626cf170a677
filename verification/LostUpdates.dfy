/** Two runs in which an update is lost: one before the handler reads the row, one after. */
module LostUpdates {
  import opened Options
  import opened Keys
  import opened Fanout
  import opened FanoutProofs
  import opened TriggerUpdates
  import Delivery

  /** The current update is not announced, the scheduler considers it sent, and nothing but
      another upsert changes that. */
  ghost predicate Lost(events: seq<Event>, r: Ref) {
    var db := Run(INIT, events).db;
    && r in db.triggers && !NeedsSending(db.triggers[r])
    && forall more :: NoUpsert(more, r) ==>
         var later := Run(INIT, events + more).db;
         && r in later.triggers && !NeedsSending(later.triggers[r])
         && !FannedOut(later, CurrentJob(r, db.triggers[r]), TriggerMessageOf(r, db.triggers[r]))
  }

  // ---------- The runs ----------

  const REF := Ref("series", "new_episode")
  const ASKED := World(Some("email"), Some(["user"]))

  const UPSERT := Upsert(REF, "trigger", "template", "episode 1", 60)
  const AGAIN := Upsert(REF, "trigger", "template", "episode 2", 60)
  const WORK := Work("trigger", ASKED)
  const FIRST := Trigger("trigger", "template", "episode 1", true, 0, None, None, 60)
  const MESSAGE := TriggerMessage(REF, "template", "episode 1")
  const JOB := TriggerJob(REF, "trigger", 0)

  const RESOLVED := Resolution(JOB, "email", ["user"])

  const TABLES := INIT.db

  /** The update is polled, published and marked checked. */
  lemma Scheduled()
    ensures Run(INIT, [UPSERT, Poll([TriggerItem(REF, FIRST)]), Announce, Mark])
         == Spread(FIRST.(lastChecked := Some(1)), 1, Idle, {}, [])
  {
    var poll := Poll([TriggerItem(REF, FIRST)]);
    RunStep([], UPSERT);
    assert [] + [UPSERT] == [UPSERT];
    var s1 := Run(INIT, [UPSERT]);
    assert s1 == INIT.(db := TABLES.(triggers := map[REF := FIRST], clock := 1));
    RunStep([UPSERT], poll);
    assert [UPSERT] + [poll] == [UPSERT, poll];
    assert DueTriggers(s1.db, poll.items);
    RunStep([UPSERT, poll], Announce);
    assert [UPSERT, poll] + [Announce] == [UPSERT, poll, Announce];
    var s2 := Run(INIT, [UPSERT, poll]);
    assert s2 == s1.(queue := poll.items);
    assert Part(map[], "trigger").log + [MESSAGE] == [MESSAGE];
    assert Publish(map[], "trigger", MESSAGE) == map["trigger" := Partition([MESSAGE], 0, Idle)];
    assert NeedsSending(FIRST) && AnnounceHead(s2).topic == Publish(map[], "trigger", MESSAGE);
    RunStep([UPSERT, poll, Announce], Mark);
    assert [UPSERT, poll, Announce] + [Mark] == [UPSERT, poll, Announce, Mark];
    assert map[REF := FIRST][REF := FIRST.(lastChecked := Some(1))] == map[REF := FIRST.(lastChecked := Some(1))];
  }

  /** The only trigger and the only partition, in a given phase. */
  function Spread(t: Trigger, clock: nat, phase: Phase, resolved: set<Resolution>, bulk: seq<Delivery.Message>): State {
    State(TABLES.(triggers := map[REF := t], clock := clock, resolved := resolved, bulk := bulk),
          map["trigger" := Partition([MESSAGE], 0, phase)], [], false)
  }

  /** The handler reads the trigger, the template and the audience. */
  lemma Resolved(before: seq<Event>, t: Trigger)
    requires t.id == "trigger" && t.active && t.lastUpdate == 0
    requires Run(INIT, before) == Spread(t, 1, Idle, {}, [])
    ensures Run(INIT, before + [WORK] + [WORK] + [WORK])
         == Spread(t, 1, Spreading(JOB, "email", ["user"], 0), {RESOLVED}, [])
  {
    RunStep(before, WORK);
    assert Run(INIT, before + [WORK]) == Spread(t, 1, Found(JOB), {}, []);
    RunStep(before + [WORK], WORK);
    assert Run(INIT, before + [WORK] + [WORK]) == Spread(t, 1, Targeted(JOB, "email"), {}, []);
    RunStep(before + [WORK] + [WORK], WORK);
  }

  /** A second update comes between the handler's read and its publication. */
  lemma Overtaken(before: seq<Event>, t: Trigger)
    requires t.id == "trigger" && t.templateId == "template" && t.lastUpdate == 0 && t.lastSent.None?
    requires Run(INIT, before) == Spread(t, 1, Spreading(JOB, "email", ["user"], 0), {RESOLVED}, [])
    ensures var s := Run(INIT, before + [AGAIN] + [WORK] + [WORK] + [Commit("trigger")]);
            && s.db.triggers == map[REF := t.(payload := "episode 2", lastUpdate := 1, lastSent := Some(2))]
            && s.db.resolved == {RESOLVED} && s.queue == []
            && s.topic == map["trigger" := Partition([MESSAGE], 1, Idle)]
  {
    var t2 := t.(payload := "episode 2", lastUpdate := 1);
    RunStep(before, AGAIN);
    assert Run(INIT, before + [AGAIN]) == Spread(t2, 2, Spreading(JOB, "email", ["user"], 0), {RESOLVED}, []);
    Published(before + [AGAIN], t2);
  }

  lemma Published(before: seq<Event>, t: Trigger)
    requires t.id == "trigger" && t.lastUpdate == 1
    requires Run(INIT, before) == Spread(t, 2, Spreading(JOB, "email", ["user"], 0), {RESOLVED}, [])
    ensures var s := Run(INIT, before + [WORK] + [WORK] + [Commit("trigger")]);
            && s.db.triggers == map[REF := t.(lastSent := Some(2))]
            && s.db.resolved == {RESOLVED} && s.queue == []
            && s.topic == map["trigger" := Partition([MESSAGE], 1, Idle)]
  {
    RunStep(before, WORK);
    RunStep(before + [WORK], WORK);
    RunStep(before + [WORK] + [WORK], Commit("trigger"));
  }

  /** The handler, after the second update, reads its stamp and publishes the first content. */
  lemma Misread(before: seq<Event>, t: Trigger)
    requires t.id == "trigger" && t.templateId == "template" && t.active && t.lastUpdate == 0 && t.lastSent.None?
    requires Run(INIT, before) == Spread(t, 1, Idle, {}, [])
    ensures var s := Run(INIT, before + [AGAIN] + [WORK] + [WORK] + [WORK] + [WORK] + [WORK] + [Commit("trigger")]);
            var job := TriggerJob(REF, "trigger", 1);
            && s.db.triggers == map[REF := t.(payload := "episode 2", lastUpdate := 1, lastSent := Some(2))]
            && s.db.resolved == {Resolution(job, "email", ["user"])} && s.queue == []
            && s.db.bulk == [BulkMessage(job, MESSAGE, "email", "user")]
            && s.topic == map["trigger" := Partition([MESSAGE], 1, Idle)]
  {
    var t2 := t.(payload := "episode 2", lastUpdate := 1);
    RunStep(before, AGAIN);
    assert Run(INIT, before + [AGAIN]) == Spread(t2, 2, Idle, {}, []);
    ReadLate(before + [AGAIN], t2);
    PublishLate(before + [AGAIN] + [WORK] + [WORK] + [WORK], t2);
  }

  const LATE := TriggerJob(REF, "trigger", 1)

  lemma ReadLate(before: seq<Event>, t: Trigger)
    requires t.id == "trigger" && t.active && t.lastUpdate == 1
    requires Run(INIT, before) == Spread(t, 2, Idle, {}, [])
    ensures Run(INIT, before + [WORK] + [WORK] + [WORK])
         == Spread(t, 2, Spreading(LATE, "email", ["user"], 0), {Resolution(LATE, "email", ["user"])}, [])
  {
    RunStep(before, WORK);
    assert Run(INIT, before + [WORK]) == Spread(t, 2, Found(LATE), {}, []);
    RunStep(before + [WORK], WORK);
    assert Run(INIT, before + [WORK] + [WORK]) == Spread(t, 2, Targeted(LATE, "email"), {}, []);
    RunStep(before + [WORK] + [WORK], WORK);
  }

  lemma PublishLate(before: seq<Event>, t: Trigger)
    requires t.id == "trigger" && t.lastUpdate == 1
    requires Run(INIT, before) ==
        Spread(t, 2, Spreading(LATE, "email", ["user"], 0), {Resolution(LATE, "email", ["user"])}, [])
    ensures var s := Run(INIT, before + [WORK] + [WORK] + [Commit("trigger")]);
            && s.db.triggers == map[REF := t.(lastSent := Some(2))]
            && s.db.resolved == {Resolution(LATE, "email", ["user"])} && s.queue == []
            && s.db.bulk == [BulkMessage(LATE, MESSAGE, "email", "user")]
            && s.topic == map["trigger" := Partition([MESSAGE], 1, Idle)]
  {
    RunStep(before, WORK);
    RunStep(before + [WORK], WORK);
    RunStep(before + [WORK] + [WORK], Commit("trigger"));
  }

  lemma ScheduledRun() returns (events: seq<Event>, t: Trigger)
    ensures Run(INIT, events) == Spread(t, 1, Idle, {}, []) && |events| == 4
    ensures t == FIRST.(lastChecked := Some(1))
  {
    events := [UPSERT, Poll([TriggerItem(REF, FIRST)]), Announce, Mark];
    t := FIRST.(lastChecked := Some(1));
    Scheduled();
  }

  lemma RestsLost(events: seq<Event>)
    requires var s := Run(INIT, events);
             && s.topic == map["trigger" := Partition([MESSAGE], 1, Idle)] && s.queue == []
             && REF in s.db.triggers && !NeedsSending(s.db.triggers[REF])
             && !FannedOut(s.db, CurrentJob(REF, s.db.triggers[REF]), TriggerMessageOf(REF, s.db.triggers[REF]))
    ensures Lost(events, REF)
  {
    var t := Run(INIT, events).db.triggers[REF];
    forall more | NoUpsert(more, REF)
      ensures var later := Run(INIT, events + more).db;
              && REF in later.triggers && !NeedsSending(later.triggers[REF])
              && !FannedOut(later, CurrentJob(REF, t), TriggerMessageOf(REF, t))
    {
      RestLasts(events, more, REF);
    }
  }

  lemma DisturbedIfLost(events: seq<Event>)
    requires Lost(events, REF)
    ensures !Undisturbed(events, REF)
  {
    if Undisturbed(events, REF) {
      NoUpdateLost(events, REF);
      assert NoUpsert([], REF) && events + [] == events;
    }
  }

  /** An update between the handler's read and its mark is lost: no message carries its stamp. */
  lemma LostAfterRead() returns (events: seq<Event>)
    ensures !Undisturbed(events, REF) && Lost(events, REF)
  {
    var scheduled, t := ScheduledRun();
    Resolved(scheduled, t);
    var before := scheduled + [WORK] + [WORK] + [WORK];
    Overtaken(before, t);
    events := before + [AGAIN] + [WORK] + [WORK] + [Commit("trigger")];
    RestsLost(events);
    DisturbedIfLost(events);
  }

  /** An update between the publication and the handler's read is lost: every message under
      its stamp carries the content of the one before. */
  lemma LostBeforeRead() returns (events: seq<Event>)
    ensures !Undisturbed(events, REF) && Lost(events, REF)
    ensures forall m <- Run(INIT, events).db.bulk :: m.key.ForTrigger? && m.key.stamp == 1 && m.payload == "episode 1"
    ensures Run(INIT, events).db.triggers[REF].lastUpdate == 1
        && Run(INIT, events).db.triggers[REF].payload == "episode 2"
  {
    var before, t := ScheduledRun();
    Misread(before, t);
    events := before + [AGAIN] + [WORK] + [WORK] + [WORK] + [WORK] + [WORK] + [Commit("trigger")];
    var s := Run(INIT, events);
    assert s.db.bulk[0].payload == "episode 1";
    WrongContent(s.db);
    RestsLost(events);
    DisturbedIfLost(events);
  }

  lemma WrongContent(db: Tables)
    requires REF in db.triggers && db.triggers[REF].payload == "episode 2" && db.triggers[REF].lastUpdate == 1
    requires db.triggers[REF].id == "trigger"
    requires db.resolved == {Resolution(TriggerJob(REF, "trigger", 1), "email", ["user"])}
    requires forall m <- db.bulk :: m.payload == "episode 1"
    ensures !FannedOut(db, CurrentJob(REF, db.triggers[REF]), TriggerMessageOf(REF, db.triggers[REF]))
  {
    var m := TriggerMessageOf(REF, db.triggers[REF]);
    assert m.payload[8] == '2' && "episode 1"[8] == '1';
    assert "user" in ["user"];
    assert !Reached(db.bulk, CurrentJob(REF, db.triggers[REF]), m, "email", "user");
  }
}
