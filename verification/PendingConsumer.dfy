/** The handler of notification-pending, with its publishing loop, proved to be a run of
    the fan-out system. */
module PendingConsumers {
  import opened Options
  import opened Keys
  import opened Fanout
  import opened Schedulers
  import opened FanoutOutcomes
  import Delivery

  function Works(p: string, worlds: seq<World>): seq<Event> {
    if worlds == [] then [] else Works(p, worlds[..|worlds| - 1]) + [Work(p, worlds[|worlds| - 1])]
  }

  /** The system as it is while the handler of `p` is in `phase`. */
  function At(s: State, p: string, phase: Phase): State {
    s.(topic := SetPhase(s.topic, p, phase))
  }

  /** One more answered call extends the run by one event. */
  lemma OneMore(s: State, p: string, worlds: seq<World>, n: nat)
    requires n < |worlds|
    ensures Run(s, Works(p, worlds[..n + 1])) == Next(Run(s, Works(p, worlds[..n])), Work(p, worlds[n]))
  {
    assert worlds[..n + 1][..n] == worlds[..n];
    var es := Works(p, worlds[..n + 1]);
    assert es[..|es| - 1] == Works(p, worlds[..n]);
  }

  /** The states of one handling: `reach(n)` is the system after its first `n` calls. */
  ghost predicate Follows(reach: nat -> State, p: string, worlds: seq<World>) {
    forall n: nat {:trigger worlds[n]} | n < |worlds| :: reach(n + 1) == Next(reach(n), Work(p, worlds[n]))
  }

  /** The system after the first `n` answered calls. */
  ghost function Trail(start: State, p: string, worlds: seq<World>): nat -> State {
    (n: nat) => if n <= |worlds| then Run(start, Works(p, worlds[..n])) else start
  }

  lemma TrailFollows(start: State, p: string, worlds: seq<World>)
    ensures Follows(Trail(start, p, worlds), p, worlds)
    ensures Trail(start, p, worlds)(0) == start
  {
    var reach := Trail(start, p, worlds);
    forall n: nat | n < |worlds| ensures reach(n + 1) == Next(reach(n), Work(p, worlds[n])) {
      OneMore(start, p, worlds, n);
    }
    assert Works(p, worlds[..0]) == [];
  }

  /** The handling reaches one call further when the handler performs that call. */
  lemma Stepped(s: State, p: string, phase: Phase, worlds: seq<World>, n: nat, reach: nat -> State)
    requires p in s.topic && HasHead(s.topic[p]) && n < |worlds| && Follows(reach, p, worlds)
    requires At(s, p, phase) == reach(n)
    ensures var head := s.topic[p].log[s.topic[p].committed];
            reach(n + 1) ==
                At(s.(db := Effect(s.db, head, phase, worlds[n])), p, NextPhase(s.db, head, phase, worlds[n]))
  {
  }

  lemma CommitAt(s: State, p: string)
    requires p in s.topic && HasHead(s.topic[p]) && s.topic[p].phase.Idle?
    ensures Next(At(s, p, Done), Commit(p))
         == s.(topic := s.topic[p := s.topic[p].(committed := s.topic[p].committed + 1)])
  {
  }

  lemma AbortAt(s: State, p: string, phase: Phase)
    requires p in s.topic && s.topic[p].phase.Idle?
    ensures Next(At(s, p, phase), Abort(p)) == s
  {
  }

  /** Ending the handling commits the head or leaves it for redelivery. */
  lemma Ended(s: State, p: string, phase: Phase, worlds: seq<World>, n: nat, start: State)
    requires p in s.topic && HasHead(s.topic[p]) && s.topic[p].phase.Idle? && n <= |worlds|
    requires At(s, p, phase) == Trail(start, p, worlds)(n)
    ensures Run(start, Works(p, worlds[..n]) + [if phase.Done? then Commit(p) else Abort(p)])
         == if phase.Done? then s.(topic := s.topic[p := s.topic[p].(committed := s.topic[p].committed + 1)]) else s
  {
    var last := if phase.Done? then Commit(p) else Abort(p);
    RunSplit(start, Works(p, worlds[..n]), [last]);
    RunOne(At(s, p, phase), last);
    if phase.Done? {
      CommitAt(s, p);
    } else {
      AbortAt(s, p, phase);
    }
  }

  /** Publishing the message of the next user is one step of the run. */
  lemma Published(s: State, p: string, job: Job, channel: string, users: seq<string>, i: nat,
                  worlds: seq<World>, n: nat, reach: nat -> State)
    requires p in s.topic && HasHead(s.topic[p]) && n < |worlds| && i < |users|
    requires !s.topic[p].log[s.topic[p].committed].Garbage?
    requires Follows(reach, p, worlds)
    requires At(s, p, Spreading(job, channel, users, i)) == reach(n)
    ensures var m := BulkMessage(job, s.topic[p].log[s.topic[p].committed], channel, users[i]);
            At(s.(db := s.db.(bulk := s.db.bulk + [m])), p, Spreading(job, channel, users, i + 1))
              == reach(n + 1)
  {
    Stepped(s, p, Spreading(job, channel, users, i), worlds, n, reach);
  }

  /** After the last user the job is marked. */
  lemma Marked(s: State, p: string, job: Job, channel: string, users: seq<string>,
               worlds: seq<World>, n: nat, reach: nat -> State)
    requires p in s.topic && HasHead(s.topic[p]) && n < |worlds|
    requires Follows(reach, p, worlds)
    requires At(s, p, Spreading(job, channel, users, |users|)) == reach(n)
    ensures At(s.(db := MarkJobSent(s.db, s.topic[p].log[s.topic[p].committed], job)), p, Done) == reach(n + 1)
  {
    Stepped(s, p, Spreading(job, channel, users, |users|), worlds, n, reach);
  }

  /** The handler of a mailing reads the template. */
  lemma MailingTemplateRead(s: State, p: string, worlds: seq<World>, reach: nat -> State)
    requires p in s.topic && HasHead(s.topic[p]) && s.topic[p].log[s.topic[p].committed].MailingMessage?
    requires 0 < |worlds| && Follows(reach, p, worlds) && At(s, p, Idle) == reach(0)
    ensures var id := s.topic[p].log[s.topic[p].committed].id;
            reach(1) ==
            if worlds[0].channel.Some? then At(s, p, Targeted(MailingJob(id), worlds[0].channel.value))
            else At(s.(db := s.db.(mailings := SetStatus(s.db.mailings, id, Failed))), p, Done)
  {
    Stepped(s, p, Idle, worlds, 0, reach);
  }

  /** The handler of a trigger reads its row. */
  lemma TriggerRead(s: State, p: string, worlds: seq<World>, reach: nat -> State)
    requires p in s.topic && HasHead(s.topic[p]) && s.topic[p].log[s.topic[p].committed].TriggerMessage?
    requires 0 < |worlds| && Follows(reach, p, worlds) && At(s, p, Idle) == reach(0)
    ensures var ref := s.topic[p].log[s.topic[p].committed].ref;
            reach(1) ==
            At(s, p, if ref in s.db.triggers && s.db.triggers[ref].active
                     then Found(TriggerJob(ref, s.db.triggers[ref].id, s.db.triggers[ref].lastUpdate)) else Done)
  {
    Stepped(s, p, Idle, worlds, 0, reach);
  }

  /** And then the template. */
  lemma TriggerTemplateRead(s: State, p: string, job: Job, worlds: seq<World>, reach: nat -> State)
    requires p in s.topic && HasHead(s.topic[p])
    requires 1 < |worlds| && Follows(reach, p, worlds) && At(s, p, Found(job)) == reach(1)
    ensures reach(2) ==
            At(s, p, if worlds[1].channel.Some? then Targeted(job, worlds[1].channel.value) else Done)
  {
    Stepped(s, p, Found(job), worlds, 1, reach);
  }

  /** The audience is resolved, or resolving it raises. */
  lemma AudienceRead(s: State, p: string, job: Job, channel: string, worlds: seq<World>, n: nat, reach: nat -> State)
    requires p in s.topic && HasHead(s.topic[p])
    requires n < |worlds| && Follows(reach, p, worlds) && At(s, p, Targeted(job, channel)) == reach(n)
    ensures var audience := worlds[n].audience;
            reach(n + 1) ==
            if audience.Some? then
              At(s.(db := s.db.(resolved := s.db.resolved + {Resolution(job, channel, audience.value)})), p,
                 Spreading(job, channel, audience.value, 0))
            else if job.MailingJob? then
              At(s.(db := s.db.(mailings := SetStatus(s.db.mailings, job.id, Failed))), p, Idle)
            else At(s, p, Idle)
  {
    Stepped(s, p, Targeted(job, channel), worlds, n, reach);
  }

  class PendingConsumer {
    var mailings: map<string, Mailing>
    var triggers: map<Ref, Trigger>
    var topic: map<string, Partition>
    var bulk: seq<Delivery.Message>
    var now: nat
    /** The rest of the system and the history. */
    ghost var others: State

    ghost function View(): State
      reads this
    {
      others.(db := others.db.(mailings := mailings, triggers := triggers, bulk := bulk, clock := now), topic := topic)
    }

    ghost function RowsView(): Rows
      reads this
    {
      Rows(mailings, triggers, bulk, now)
    }

    ghost function Head(p: string): Pending
      requires p in topic && HasHead(topic[p])
      reads this
    {
      topic[p].log[topic[p].committed]
    }

    constructor ()
      ensures View() == INIT
    {
      mailings, triggers, topic, bulk, now, others := map[], map[], map[], [], 0, INIT;
    }

    /** The last write of a fan-out. */
    method MarkSent(ghost head: Pending, job: Job)
      modifies this`mailings, this`triggers, this`now, this`others
      ensures View() == old(View()).(db := MarkJobSent(old(View()).db, head, job))
      ensures bulk == old(bulk)
      ensures match job
              case MailingJob(id) => MailingMarked(old(RowsView()), RowsView(), id)
              case TriggerJob(ref, _, _) => ref in old(triggers) ==> TriggerMarked(old(RowsView()), RowsView(), ref)
    {
      match job
      case MailingJob(id) =>
        mailings := SetSent(mailings, id, now);
        now := now + 1;
      case TriggerJob(ref, _, stamp) =>
        if ref in triggers {
          ghost var t := triggers[ref];
          ghost var other := t.lastUpdate != stamp || head != TriggerMessageOf(ref, t);
          ghost var raced := others.db.raced + if other then {(ref, t.lastUpdate)} else {};
          others := others.(db := others.db.(raced := raced));
          triggers := triggers[ref := triggers[ref].(lastSent := Some(now))];
          now := now + 1;
        }
    }

    /** The publishing loop: one message per user, until the process is cut. */
    method PublishAll(p: string, job: Job, channel: string, users: seq<string>, worlds: seq<World>, from: nat,
                      ghost reach: nat -> State)
      returns (done: nat)
      requires p in topic && HasHead(topic[p]) && !topic[p].log[topic[p].committed].Garbage?
      requires from <= |worlds|
      requires Follows(reach, p, worlds)
      requires At(View(), p, Spreading(job, channel, users, 0)) == reach(from)
      modifies this`bulk
      ensures done <= |users| && from + done <= |worlds|
      ensures done < |users| ==> from + done == |worlds|
      ensures At(View(), p, Spreading(job, channel, users, done)) == reach(from + done)
      ensures Appends(old(bulk), bulk, job, Head(p), channel, users, done)
    {
      var head := topic[p].log[topic[p].committed];
      done := 0;
      while done < |users| && from + done < |worlds|
        invariant done <= |users| && from + done <= |worlds|
        invariant At(View(), p, Spreading(job, channel, users, done)) == reach(from + done)
        invariant Appends(old(bulk), bulk, job, head, channel, users, done)
      {
        Published(View(), p, job, channel, users, done, worlds, from + done, reach);
        bulk := bulk + [BulkMessage(job, head, channel, users[done])];
        done := done + 1;
      }
    }

    /** Publish one message per user, then mark the job sent; `used` calls of `worlds` were
        answered before the process was cut or the job was done. */
    method Spread(p: string, job: Job, channel: string, users: seq<string>, worlds: seq<World>, from: nat,
                  ghost reach: nat -> State)
      returns (phase: Phase, used: nat)
      requires p in topic && HasHead(topic[p]) && !topic[p].log[topic[p].committed].Garbage?
      requires from <= |worlds|
      requires Follows(reach, p, worlds)
      requires At(View(), p, Spreading(job, channel, users, 0)) == reach(from)
      requires job.TriggerJob? ==> job.ref in triggers
      modifies this`mailings, this`triggers, this`bulk, this`now, this`others
      ensures from <= used <= |worlds|
      ensures At(View(), p, phase) == reach(used)
      ensures phase.Done? || used == |worlds|
      ensures JobSpread(job, Head(p), channel, users, |worlds| - from, old(RowsView()), RowsView())
      ensures phase.Done? <==> |worlds| - from > |users|
    {
      var done := PublishAll(p, job, channel, users, worlds, from, reach);
      used := from + done;
      if used == |worlds| {
        return Spreading(job, channel, users, done), used;
      }
      Marked(View(), p, job, channel, users, worlds, used, reach);
      MarkSent(topic[p].log[topic[p].committed], job);
      phase, used := Done, used + 1;
    }

    /** Resolve the audience and spread; a failed resolution fails a mailing and is retried. */
    method Resolve(p: string, job: Job, channel: string, worlds: seq<World>, from: nat, ghost reach: nat -> State)
      returns (phase: Phase, used: nat)
      requires p in topic && HasHead(topic[p]) && !topic[p].log[topic[p].committed].Garbage?
      requires from <= |worlds|
      requires Follows(reach, p, worlds)
      requires At(View(), p, Targeted(job, channel)) == reach(from)
      requires job.TriggerJob? ==> job.ref in triggers
      modifies this`mailings, this`triggers, this`bulk, this`now, this`others
      ensures from <= used <= |worlds|
      ensures At(View(), p, phase) == reach(used)
      ensures phase.Done? || used == |worlds| || (phase.Idle? && used > 0 && worlds[used - 1].audience.None?)
      ensures Resolved(job, Head(p), channel, worlds[from..], old(RowsView()), RowsView(), phase.Done?)
    {
      used := from;
      if used == |worlds| {
        return Targeted(job, channel), used;
      }
      AudienceRead(View(), p, job, channel, worlds, used, reach);
      var audience := worlds[used].audience;
      used := used + 1;
      if audience.None? {
        if job.MailingJob? {
          mailings := SetStatus(mailings, job.id, Failed);
        }
        return Idle, used;
      }
      others := others.(db := others.db.(resolved := others.db.resolved + {Resolution(job, channel, audience.value)}));
      phase, used := Spread(p, job, channel, audience.value, worlds, used, reach);
    }

    /** Consume the head message of `p`: committed when the handler returns, redelivered when
        it is cut or raises. */
    method HandlePending(p: string, worlds: seq<World>) returns (acked: bool, used: nat)
      requires p in topic && HasHead(topic[p]) && topic[p].phase.Idle?
      modifies this
      ensures used <= |worlds|
      ensures View() == Run(old(View()), Works(p, worlds[..used]) + [if acked then Commit(p) else Abort(p)])
      ensures acked || used == |worlds| || (used > 0 && worlds[used - 1].audience.None?)
      ensures PendingHandled(old(Head(p)), worlds, old(RowsView()), RowsView(), acked)
      ensures OffsetMoved(old(topic), topic, p, acked)
    {
      var phase;
      phase, used := Process(p, worlds);
      acked := phase.Done?;
      EndHandling(p, phase, worlds, used, old(View()));
    }

    /** Commit the head, or leave it for redelivery. */
    method EndHandling(p: string, phase: Phase, worlds: seq<World>, used: nat, ghost start: State)
      requires p in topic && HasHead(topic[p]) && topic[p].phase.Idle? && used <= |worlds|
      requires At(View(), p, phase) == Trail(start, p, worlds)(used)
      modifies this`topic
      ensures View() == Run(start, Works(p, worlds[..used]) + [if phase.Done? then Commit(p) else Abort(p)])
      ensures OffsetMoved(old(topic), topic, p, phase.Done?)
    {
      Ended(View(), p, phase, worlds, used, start);
      if phase.Done? {
        topic := topic[p := topic[p].(committed := topic[p].committed + 1)];
      }
    }

    method Process(p: string, worlds: seq<World>) returns (phase: Phase, used: nat)
      requires p in topic && HasHead(topic[p]) && topic[p].phase.Idle?
      modifies this`mailings, this`triggers, this`bulk, this`now, this`others
      ensures used <= |worlds|
      ensures At(View(), p, phase) == Trail(old(View()), p, worlds)(used)
      ensures phase.Done? || used == |worlds| || (phase.Idle? && used > 0 && worlds[used - 1].audience.None?)
      ensures PendingHandled(Head(p), worlds, old(RowsView()), RowsView(), phase.Done?)
    {
      assert SetPhase(topic, p, Idle) == topic;
      TrailFollows(View(), p, worlds);
      phase, used := Dispatch(p, worlds, Trail(View(), p, worlds));
    }

    /** A mailing message: read the template, which fails the mailing if it is not there. */
    method HandleMailing(p: string, id: string, worlds: seq<World>, ghost reach: nat -> State)
      returns (phase: Phase, used: nat)
      requires p in topic && HasHead(topic[p]) && |worlds| > 0
      requires var head := topic[p].log[topic[p].committed]; head.MailingMessage? && head.id == id
      requires Follows(reach, p, worlds)
      requires At(View(), p, Idle) == reach(0)
      modifies this`mailings, this`triggers, this`bulk, this`now, this`others
      ensures used <= |worlds|
      ensures At(View(), p, phase) == reach(used)
      ensures phase.Done? || used == |worlds| || (phase.Idle? && used > 0 && worlds[used - 1].audience.None?)
      ensures PendingHandled(Head(p), worlds, old(RowsView()), RowsView(), phase.Done?)
    {
      ghost var head, before := Head(p), RowsView();
      MailingTemplateRead(View(), p, worlds, reach);
      if worlds[0].channel.None? {
        mailings := SetStatus(mailings, id, Failed);
        EndsEarly(head, worlds, before, RowsView(), true);
        return Done, 1;
      }
      phase, used := Resolve(p, MailingJob(id), worlds[0].channel.value, worlds, 1, reach);
      MailingResolved(head, worlds, before, RowsView(), phase.Done?);
    }

    /** A trigger message: read the trigger, whose stamp the job keeps, then the template. */
    method HandleTrigger(p: string, ref: Ref, worlds: seq<World>, ghost reach: nat -> State)
      returns (phase: Phase, used: nat)
      requires p in topic && HasHead(topic[p]) && |worlds| > 0
      requires var head := topic[p].log[topic[p].committed]; head.TriggerMessage? && head.ref == ref
      requires Follows(reach, p, worlds)
      requires At(View(), p, Idle) == reach(0)
      modifies this`mailings, this`triggers, this`bulk, this`now, this`others
      ensures used <= |worlds|
      ensures At(View(), p, phase) == reach(used)
      ensures phase.Done? || used == |worlds| || (phase.Idle? && used > 0 && worlds[used - 1].audience.None?)
      ensures PendingHandled(Head(p), worlds, old(RowsView()), RowsView(), phase.Done?)
    {
      ghost var head, before := Head(p), RowsView();
      TriggerRead(View(), p, worlds, reach);
      if ref !in triggers || !triggers[ref].active {
        EndsEarly(head, worlds, before, before, true);
        return Done, 1;
      }
      var job := TriggerJob(ref, triggers[ref].id, triggers[ref].lastUpdate);
      phase, used := ReadTemplate(p, job, worlds, reach);
    }

    /** The trigger is there; its job goes on with the template. */
    method ReadTemplate(p: string, job: Job, worlds: seq<World>, ghost reach: nat -> State)
      returns (phase: Phase, used: nat)
      requires p in topic && HasHead(topic[p]) && |worlds| > 0 && Head(p).TriggerMessage?
      requires Head(p).ref in triggers && triggers[Head(p).ref].active
      requires job == TriggerJob(Head(p).ref, triggers[Head(p).ref].id, triggers[Head(p).ref].lastUpdate)
      requires Follows(reach, p, worlds)
      requires At(View(), p, Found(job)) == reach(1)
      modifies this`mailings, this`triggers, this`bulk, this`now, this`others
      ensures used <= |worlds|
      ensures At(View(), p, phase) == reach(used)
      ensures phase.Done? || used == |worlds| || (phase.Idle? && used > 0 && worlds[used - 1].audience.None?)
      ensures PendingHandled(Head(p), worlds, old(RowsView()), RowsView(), phase.Done?)
    {
      ghost var head, before := Head(p), RowsView();
      if |worlds| == 1 {
        EndsEarly(head, worlds, before, before, false);
        return Found(job), 1;
      }
      TriggerTemplateRead(View(), p, job, worlds, reach);
      if worlds[1].channel.None? {
        EndsEarly(head, worlds, before, before, true);
        return Done, 2;
      }
      phase, used := ResolveTrigger(p, job, worlds, reach);
    }

    /** And with the audience. */
    method ResolveTrigger(p: string, job: Job, worlds: seq<World>, ghost reach: nat -> State)
      returns (phase: Phase, used: nat)
      requires p in topic && HasHead(topic[p]) && |worlds| > 1 && worlds[1].channel.Some? && Head(p).TriggerMessage?
      requires Head(p).ref in triggers && triggers[Head(p).ref].active
      requires job == TriggerJob(Head(p).ref, triggers[Head(p).ref].id, triggers[Head(p).ref].lastUpdate)
      requires Follows(reach, p, worlds)
      requires At(View(), p, Targeted(job, worlds[1].channel.value)) == reach(2)
      modifies this`mailings, this`triggers, this`bulk, this`now, this`others
      ensures used <= |worlds|
      ensures At(View(), p, phase) == reach(used)
      ensures phase.Done? || used == |worlds| || (phase.Idle? && used > 0 && worlds[used - 1].audience.None?)
      ensures PendingHandled(Head(p), worlds, old(RowsView()), RowsView(), phase.Done?)
    {
      ghost var head, before := Head(p), RowsView();
      phase, used := Resolve(p, job, worlds[1].channel.value, worlds, 2, reach);
      TriggerResolved(head, worlds, before, RowsView(), phase.Done?);
    }

    method Dispatch(p: string, worlds: seq<World>, ghost reach: nat -> State) returns (phase: Phase, used: nat)
      requires p in topic && HasHead(topic[p])
      requires Follows(reach, p, worlds)
      requires At(View(), p, Idle) == reach(0)
      modifies this`mailings, this`triggers, this`bulk, this`now, this`others
      ensures used <= |worlds|
      ensures At(View(), p, phase) == reach(used)
      ensures phase.Done? || used == |worlds| || (phase.Idle? && used > 0 && worlds[used - 1].audience.None?)
      ensures PendingHandled(Head(p), worlds, old(RowsView()), RowsView(), phase.Done?)
    {
      if worlds == [] {
        return Idle, 0;
      }
      match topic[p].log[topic[p].committed]
      case Garbage =>
        Stepped(View(), p, Idle, worlds, 0, reach);
        return Done, 1;
      case MailingMessage(id, _, _, _) =>
        phase, used := HandleMailing(p, id, worlds, reach);
      case TriggerMessage(ref, _, _) =>
        phase, used := HandleTrigger(p, ref, worlds, reach);
    }
  }
}
