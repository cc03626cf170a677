/** The scheduler's two passes, proved to be runs of the fan-out system. */
module Schedulers {
  import opened Options
  import opened Fanout

  /** What interrupts one item of a pass: its exceptions are logged and the pass goes on. */
  datatype Fault = NoFault | PublishRaised | MarkRaised

  function FaultAt(faults: seq<Fault>, i: nat): Fault {
    if i < |faults| then faults[i] else NoFault
  }

  /** Whether handling the item publishes a message. */
  predicate Publishes(x: Item) {
    x.MailingItem? || NeedsSending(x.trigger)
  }

  function ItemEvents(x: Item, fault: Fault): seq<Event> {
    match fault
    case NoFault => [Announce, Mark]
    case PublishRaised => if Publishes(x) then [Drop] else [Announce, Mark]
    case MarkRaised => [Announce, Drop]
  }

  function PassEvents(due: seq<Item>, faults: seq<Fault>): seq<Event> {
    if due == [] then []
    else PassEvents(due[..|due| - 1], faults) + ItemEvents(due[|due| - 1], FaultAt(faults, |due| - 1))
  }

  lemma {:induction false} RunSplit(s: State, first: seq<Event>, rest: seq<Event>)
    ensures Run(s, first + rest) == Run(Run(s, first), rest)
    decreases |rest|
  {
    if rest == [] {
      assert first + rest == first;
    } else {
      var all := first + rest;
      assert all[..|all| - 1] == first + rest[..|rest| - 1];
      RunSplit(s, first, rest[..|rest| - 1]);
    }
  }

  /** The events of the first `n` items of a pass. */
  function Pass(due: seq<Item>, faults: seq<Fault>, n: nat): seq<Event>
    requires n <= |due|
  {
    [Poll(due)] + PassEvents(due[..n], faults)
  }

  lemma PassStarts(s: State, due: seq<Item>, faults: seq<Fault>)
    requires s.queue == [] && (DueTriggers(s.db, due) || DueMailings(s.db, due))
    ensures Run(s, Pass(due, faults, 0)) == s.(queue := due, announced := false)
  {
  }

  lemma PassGoesOn(s: State, due: seq<Item>, faults: seq<Fault>, n: nat)
    requires n < |due|
    ensures Run(s, Pass(due, faults, n + 1))
         == Run(Run(s, Pass(due, faults, n)), ItemEvents(due[n], FaultAt(faults, n)))
  {
    assert due[..n + 1][..n] == due[..n];
    assert Pass(due, faults, n + 1) == Pass(due, faults, n) + ItemEvents(due[n], FaultAt(faults, n));
    RunSplit(s, Pass(due, faults, n), ItemEvents(due[n], FaultAt(faults, n)));
  }

  lemma RunOne(s: State, e: Event)
    ensures Run(s, [e]) == Next(s, e)
  {
  }

  lemma RunTwo(s: State, e: Event, f: Event)
    ensures Run(s, [e, f]) == Next(Next(s, e), f)
  {
    assert [e] + [f] == [e, f];
    RunSplit(s, [e], [f]);
    RunOne(s, e);
    RunOne(Next(s, e), f);
  }

  class Scheduler {
    var mailings: map<string, Mailing>
    var triggers: map<Ref, Trigger>
    var topic: map<string, Partition>
    var now: nat
    /** The rest of the system, and how far the current pass has come. */
    ghost var others: State

    ghost function View(): State
      reads this
    {
      others.(db := others.db.(mailings := mailings, triggers := triggers, clock := now), topic := topic)
    }

    constructor ()
      ensures View() == INIT
    {
      mailings, triggers, topic, now, others := map[], map[], map[], 0, INIT;
    }

    method PublishPending(key: string, message: Pending)
      modifies this`topic
      ensures topic == Publish(old(topic), key, message)
    {
      var part := if key in topic then topic[key] else NEW_PARTITION;
      topic := topic[key := part.(log := part.log + [message])];
    }

    method GetTriggersToCheck() returns (due: seq<Item>)
      ensures DueTriggers(View().db, due)
      ensures forall r <- triggers ::
                var t := triggers[r];
                TriggerItem(r, t) in due <==>
                t.active && forall at :: t.lastChecked == Some(at) ==> at + t.interval <= now
    {
      due := [];
      var rest := triggers.Keys;
      while rest != {}
        invariant rest <= triggers.Keys
        invariant forall i, j | 0 <= i < j < |due| :: due[i] != due[j]
        invariant forall x <- due :: x.TriggerItem? && x.ref in triggers && x.ref !in rest
                                     && x.trigger == triggers[x.ref] && TriggerDue(x.trigger, now)
        invariant forall r <- triggers :: r !in rest && TriggerDue(triggers[r], now) ==>
            TriggerItem(r, triggers[r]) in due
      {
        var r :| r in rest;
        rest := rest - {r};
        if TriggerDue(triggers[r], now) {
          due := due + [TriggerItem(r, triggers[r])];
        }
      }
    }

    method GetDueScheduledMailings() returns (due: seq<Item>)
      ensures DueMailings(View().db, due)
      ensures forall id <- mailings ::
                var m := mailings[id];
                MailingItem(id, m) in due <==>
                    m.status == Scheduled && exists at :: m.scheduledAt == Some(at) && at <= now
    {
      due := [];
      var rest := mailings.Keys;
      while rest != {}
        invariant rest <= mailings.Keys
        invariant forall i, j | 0 <= i < j < |due| :: due[i] != due[j]
        invariant forall x <- due :: x.MailingItem? && x.id in mailings && x.id !in rest
                                     && x.mailing == mailings[x.id] && MailingDue(x.mailing, now)
        invariant forall m <- mailings :: m !in rest && MailingDue(mailings[m], now) ==>
            MailingItem(m, mailings[m]) in due
      {
        var m :| m in rest;
        rest := rest - {m};
        if MailingDue(mailings[m], now) {
          due := due + [MailingItem(m, mailings[m])];
        }
      }
    }

    /** Check one trigger: publish it if its update was not sent, then mark it checked. */
    method CheckTrigger(x: Item, fault: Fault)
      requires x.TriggerItem? && x.ref in triggers
      requires others.queue != [] && others.queue[0] == x && !others.announced
      modifies this`triggers, this`topic, this`others
      ensures View() == Run(old(View()), ItemEvents(x, fault))
      ensures others.queue == old(others.queue)[1..] && !others.announced
      ensures triggers == CheckedRow(old(triggers), x, fault, now)
      ensures topic == if ToPublish(x, fault)
                       then Publish(old(topic), x.trigger.id, TriggerMessageOf(x.ref, x.trigger)) else old(topic)
    {
      ghost var before := View();
      RunOne(before, Drop);
      RunTwo(before, Announce, Mark);
      RunTwo(before, Announce, Drop);
      others := others.(queue := others.queue[1..]);
      if NeedsSending(x.trigger) {
        if fault == PublishRaised {
          return;
        }
        PublishPending(x.trigger.id, TriggerMessage(x.ref, x.trigger.templateId, x.trigger.payload));
      }
      if fault == MarkRaised {
        return;
      }
      triggers := triggers[x.ref := triggers[x.ref].(lastChecked := Some(now))];
    }

    /** Start one due mailing: publish its message, then mark it sending. */
    method StartMailing(x: Item, fault: Fault)
      requires x.MailingItem? && x.id in mailings
      requires others.queue != [] && others.queue[0] == x && !others.announced
      modifies this`mailings, this`topic, this`others
      ensures View() == Run(old(View()), ItemEvents(x, fault))
      ensures others.queue == old(others.queue)[1..] && !others.announced
      ensures mailings == if fault.NoFault? then SetStatus(old(mailings), x.id, Sending) else old(mailings)
      ensures topic == if fault.PublishRaised? then old(topic)
                       else Publish(old(topic), x.id, MailingMessageOf(x.id, x.mailing))
    {
      ghost var before := View();
      RunOne(before, Drop);
      RunTwo(before, Announce, Mark);
      RunTwo(before, Announce, Drop);
      others := others.(queue := others.queue[1..]);
      if fault == PublishRaised {
        return;
      }
      PublishPending(x.id, MailingMessageOf(x.id, x.mailing));
      if fault == MarkRaised {
        return;
      }
      mailings := SetStatus(mailings, x.id, Sending);
    }

    /** Check what is due, each trigger in turn. */
    method ProcessTriggers(faults: seq<Fault>) returns (due: seq<Item>)
      requires View().queue == [] && !View().announced
      modifies this
      ensures DueTriggers(old(View()).db, due)
      ensures View() == Run(old(View()), Pass(due, faults, |due|))
      ensures View().queue == []
      ensures triggers == CheckedRows(old(triggers), due, faults, now, |due|)
      ensures topic == CheckedTopic(old(topic), due, faults, |due|)
    {
      ghost var before := View();
      due := GetTriggersToCheck();
      others := others.(queue := due);
      PassStarts(before, due, faults);
      var i := 0;
      while i < |due|
        invariant 0 <= i <= |due| && now == before.db.clock
        invariant others.queue == due[i..] && !others.announced
        invariant triggers.Keys == before.db.triggers.Keys
        invariant View() == Run(before, Pass(due, faults, i))
        invariant triggers == CheckedRows(before.db.triggers, due, faults, now, i)
        invariant topic == CheckedTopic(before.topic, due, faults, i)
      {
        StepTrigger(due, faults, i, before);
        i := i + 1;
      }
    }

    /** The pass over one more trigger. */
    method StepTrigger(due: seq<Item>, faults: seq<Fault>, i: nat, ghost before: State)
      requires DueTriggers(before.db, due) && i < |due|
      requires others.queue == due[i..] && !others.announced && triggers.Keys == before.db.triggers.Keys
      requires View() == Run(before, Pass(due, faults, i))
      requires triggers == CheckedRows(before.db.triggers, due, faults, now, i)
      requires topic == CheckedTopic(before.topic, due, faults, i)
      modifies this`triggers, this`topic, this`others
      ensures others.queue == due[i + 1..] && !others.announced && triggers.Keys == before.db.triggers.Keys
      ensures View() == Run(before, Pass(due, faults, i + 1))
      ensures triggers == CheckedRows(before.db.triggers, due, faults, now, i + 1)
      ensures topic == CheckedTopic(before.topic, due, faults, i + 1)
    {
      assert due[i] in due;
      CheckTrigger(due[i], FaultAt(faults, i));
      PassGoesOn(before, due, faults, i);
    }

    /** Publish what is due, marking each mailing after its own message. */
    method ProcessMailings(faults: seq<Fault>) returns (due: seq<Item>)
      requires View().queue == [] && !View().announced
      modifies this
      ensures DueMailings(old(View()).db, due)
      ensures View() == Run(old(View()), Pass(due, faults, |due|))
      ensures View().queue == []
      ensures mailings == StartedRows(old(mailings), due, faults, |due|)
      ensures topic == StartedTopic(old(topic), due, faults, |due|)
    {
      ghost var before := View();
      due := GetDueScheduledMailings();
      others := others.(queue := due);
      PassStarts(before, due, faults);
      var i := 0;
      while i < |due|
        invariant 0 <= i <= |due|
        invariant others.queue == due[i..] && !others.announced
        invariant mailings.Keys == before.db.mailings.Keys
        invariant View() == Run(before, Pass(due, faults, i))
        invariant mailings == StartedRows(before.db.mailings, due, faults, i)
        invariant topic == StartedTopic(before.topic, due, faults, i)
      {
        StepMailing(due, faults, i, before);
        i := i + 1;
      }
    }

    /** The pass over one more mailing. */
    method StepMailing(due: seq<Item>, faults: seq<Fault>, i: nat, ghost before: State)
      requires DueMailings(before.db, due) && i < |due|
      requires others.queue == due[i..] && !others.announced && mailings.Keys == before.db.mailings.Keys
      requires View() == Run(before, Pass(due, faults, i))
      requires mailings == StartedRows(before.db.mailings, due, faults, i)
      requires topic == StartedTopic(before.topic, due, faults, i)
      modifies this
      ensures others.queue == due[i + 1..] && !others.announced && mailings.Keys == before.db.mailings.Keys
      ensures View() == Run(before, Pass(due, faults, i + 1))
      ensures mailings == StartedRows(before.db.mailings, due, faults, i + 1)
      ensures topic == StartedTopic(before.topic, due, faults, i + 1)
    {
      assert due[i] in due;
      StartMailing(due[i], FaultAt(faults, i));
      PassGoesOn(before, due, faults, i);
    }
  }

  /** Whether the scheduler publishes the row that it read. */
  predicate ToPublish(x: Item, fault: Fault)
    requires x.TriggerItem?
  {
    NeedsSending(x.trigger) && !fault.PublishRaised?
  }

  function CheckedRow(triggers: map<Ref, Trigger>, x: Item, fault: Fault, now: nat): map<Ref, Trigger>
    requires x.TriggerItem?
  {
    if x.ref !in triggers || fault.MarkRaised? || (fault.PublishRaised? && NeedsSending(x.trigger)) then triggers
    else triggers[x.ref := triggers[x.ref].(lastChecked := Some(now))]
  }

  function CheckedRows(triggers: map<Ref, Trigger>, due: seq<Item>, faults: seq<Fault>, now: nat, n: nat): map<Ref,
      Trigger>
    requires n <= |due| && forall x <- due :: x.TriggerItem?
  {
    if n == 0 then triggers
    else CheckedRow(CheckedRows(triggers, due, faults, now, n - 1), due[n - 1], FaultAt(faults, n - 1), now)
  }

  function CheckedTopic(topic: map<string, Partition>, due: seq<Item>, faults: seq<Fault>, n: nat): map<string,
      Partition>
    requires n <= |due| && forall x <- due :: x.TriggerItem?
  {
    if n == 0 then topic
    else if ToPublish(due[n - 1], FaultAt(faults, n - 1))
      then Publish(CheckedTopic(topic, due, faults, n - 1), due[n - 1].trigger.id,
                   TriggerMessageOf(due[n - 1].ref, due[n - 1].trigger))
    else CheckedTopic(topic, due, faults, n - 1)
  }

  /** A content change that the scheduler has not sent. */
  predicate Unsent(t: Trigger) {
    match t.lastSent
    case None => true
    case Some(at) => at < t.lastUpdate
  }

  lemma {:induction false} CheckedOutcome(s: State, due: seq<Item>, faults: seq<Fault>, n: nat, r: Ref)
    requires DueTriggers(s.db, due) && n <= |due| && r in s.db.triggers
    ensures var rows, t := CheckedRows(s.db.triggers, due, faults, s.db.clock, n), s.db.triggers[r];
            && rows.Keys == s.db.triggers.Keys
            && rows[r] == if exists i | 0 <= i < n :: due[i].ref == r && !FaultAt(faults, i).MarkRaised?
                                                      && (Unsent(t) ==> FaultAt(faults, i).NoFault?)
                          then t.(lastChecked := Some(s.db.clock)) else t
  {
    if n > 0 {
      CheckedOutcome(s, due, faults, n - 1, r);
      assert due[n - 1] in due;
      forall i | 0 <= i < n - 1 ensures due[i].ref != due[n - 1].ref {
        assert due[i] in due;
      }
      UnsentMeans(s.db.triggers[r]);
    }
  }

  lemma {:induction false} PublishedOutcome(s: State, due: seq<Item>, faults: seq<Fault>, n: nat, r: Ref)
    requires DueTriggers(s.db, due) && n <= |due| && r in s.db.triggers
    requires forall q <- s.db.triggers :: s.db.triggers[q].id == s.db.triggers[r].id ==> q == r
    ensures var t := s.db.triggers[r];
            var sent := Unsent(t) && exists i | 0 <= i < n :: due[i].ref == r && !FaultAt(faults, i).PublishRaised?;
            Part(CheckedTopic(s.topic, due, faults, n), t.id).log ==
            Part(s.topic, t.id).log + if sent then [TriggerMessage(r, t.templateId, t.payload)] else []
  {
    if n > 0 {
      PublishedOutcome(s, due, faults, n - 1, r);
      assert due[n - 1] in due;
      forall i | 0 <= i < n - 1 ensures due[i].ref != due[n - 1].ref {
        assert due[i] in due;
      }
      UnsentMeans(s.db.triggers[r]);
    }
  }

  /** A pass publishes exactly the due triggers with an unsent change, once each, and marks
      checked those that it published or had nothing to publish of, unless a step failed. */
  lemma TriggerPassOutcome(s: State, due: seq<Item>, faults: seq<Fault>, r: Ref)
    requires DueTriggers(s.db, due) && r in s.db.triggers
    requires forall q <- s.db.triggers :: s.db.triggers[q].id == s.db.triggers[r].id ==> q == r
    ensures var rows, t := CheckedRows(s.db.triggers, due, faults, s.db.clock, |due|), s.db.triggers[r];
            && rows.Keys == s.db.triggers.Keys
            && rows[r] == if exists i | 0 <= i < |due| :: due[i].ref == r && !FaultAt(faults, i).MarkRaised?
                                                          && (Unsent(t) ==> FaultAt(faults, i).NoFault?)
                          then t.(lastChecked := Some(s.db.clock)) else t
    ensures var t := s.db.triggers[r];
            var sent := Unsent(t) && exists i | 0 <= i < |due| :: due[i].ref == r && !FaultAt(faults, i).PublishRaised?;
            Part(CheckedTopic(s.topic, due, faults, |due|), t.id).log ==
            Part(s.topic, t.id).log + if sent then [TriggerMessage(r, t.templateId, t.payload)] else []
  {
    CheckedOutcome(s, due, faults, |due|, r);
    PublishedOutcome(s, due, faults, |due|, r);
  }

  lemma UnsentMeans(t: Trigger)
    ensures Unsent(t) <==> NeedsSending(t)
  {
  }

  function StartedRows(mailings: map<string, Mailing>, due: seq<Item>, faults: seq<Fault>, n: nat): map<string, Mailing>
    requires n <= |due| && forall x <- due :: x.MailingItem?
  {
    if n == 0 then mailings
    else if FaultAt(faults, n - 1).NoFault?
      then SetStatus(StartedRows(mailings, due, faults, n - 1), due[n - 1].id, Sending)
    else StartedRows(mailings, due, faults, n - 1)
  }

  function StartedTopic(topic: map<string, Partition>, due: seq<Item>, faults: seq<Fault>, n: nat): map<string,
      Partition>
    requires n <= |due| && forall x <- due :: x.MailingItem?
  {
    if n == 0 then topic
    else if FaultAt(faults, n - 1).PublishRaised? then StartedTopic(topic, due, faults, n - 1)
    else Publish(StartedTopic(topic, due, faults, n - 1), due[n - 1].id,
                 MailingMessageOf(due[n - 1].id, due[n - 1].mailing))
  }

  /** A pass turns exactly the due mailings whose two steps succeeded into `sending`, and
      gives every due mailing whose publication succeeded exactly one more message. */
  lemma {:induction false} PassOutcome(s: State, due: seq<Item>, faults: seq<Fault>, n: nat, id: string)
    requires DueMailings(s.db, due) && n <= |due| && id in s.db.mailings
    ensures var rows := StartedRows(s.db.mailings, due, faults, n);
            && rows.Keys == s.db.mailings.Keys
            && rows[id] == if exists i | 0 <= i < n :: due[i].id == id && FaultAt(faults, i).NoFault?
                           then s.db.mailings[id].(status := Sending) else s.db.mailings[id]
    ensures var m := s.db.mailings[id];
            var sent := exists i | 0 <= i < n :: due[i].id == id && !FaultAt(faults, i).PublishRaised?;
            Part(StartedTopic(s.topic, due, faults, n), id).log ==
            Part(s.topic, id).log + if sent then [MailingMessage(id, m.templateId, m.filter, m.payload)] else []
  {
    if n > 0 {
      PassOutcome(s, due, faults, n - 1, id);
      assert due[n - 1] in due;
      forall i | 0 <= i < n - 1 ensures due[i].id != due[n - 1].id {
        assert due[i] in due;
      }
    }
  }
}
