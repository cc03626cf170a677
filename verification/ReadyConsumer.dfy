/** The handler of notification-ready and notification-ready-bulk, in the order of its
    external calls, proved to be a run of the delivery protocol. */
module ReadyConsumers {
  import opened Options
  import opened Keys
  import opened Delivery
  import opened DeliveryOutcomes

  /** How many more calls a handling needs at most. */
  function Remaining(phase: Phase): nat {
    match phase
    case Idle => 6
    case Fetched(_) => 5
    case Claimed(_) => 4
    case Cleared(_, _) => 3
    case Broken(_) => 2
    case Delivered(_) => 1
    case Recorded(_) => 1
    case Done => 0
  }

  /** A handling that is not cut returns: six answered calls always suffice. */
  lemma {:induction false} SixCallsSuffice(topic: Topic, raw: Raw, g: Progress, worlds: seq<World>)
    requires |worlds| >= Remaining(g.phase)
    ensures After(topic, raw, g, worlds).phase.Done?
    decreases |worlds|
  {
    if g.phase.Done? {
      DoneStays(topic, raw, g, worlds);
    } else {
      AfterOne(topic, raw, g, worlds);
      SixCallsSuffice(topic, raw, Proceed(topic, raw, g, worlds[0]), worlds[1..]);
    }
  }

  /** The events of one handling of the head of `p`. */
  function Works(p: PartitionId, worlds: seq<World>): seq<Event> {
    if worlds == [] then [] else Works(p, worlds[..|worlds| - 1]) + [Work(p, worlds[|worlds| - 1])]
  }

  lemma {:induction false} WorksRun(s: State, p: PartitionId, worlds: seq<World>)
    requires p in s.parts && HasHead(s.parts[p])
    ensures var part := s.parts[p];
            var g := After(p.topic, part.log[part.committed], Progress(part.phase, part.fault, s.store), worlds);
            Run(s, Works(p, worlds)) == State(s.parts[p := part.(phase := g.phase, fault := g.fault)], g.store)
  {
    if worlds == [] {
      assert s.parts == s.parts[p := s.parts[p]];
    } else {
      var before := worlds[..|worlds| - 1];
      WorksRun(s, p, before);
      var es := Works(p, worlds);
      assert es[..|es| - 1] == Works(p, before);
    }
  }

  lemma LastOf(s: State, events: seq<Event>, e: Event)
    ensures Run(s, events + [e]) == Next(Run(s, events), e)
  {
    assert (events + [e])[..|events|] == events;
  }

  /** What an uncut handling leaves; a malformed message leaves everything as it was. */
  ghost predicate Outcome(topic: Topic, raw: Raw, worlds: seq<World>, st: Store, st': Store)
    requires |worlds| >= 6
  {
    if raw.Malformed? then st' == st else Handled(topic, raw.message, AnswersIn(worlds), st, st')
  }

  /** The offset of this partition alone moves, by one, and only on an acknowledgement. */
  ghost predicate Moved(parts: map<PartitionId, Partition>, parts': map<PartitionId, Partition>, p: PartitionId,
                        acked: bool)
    requires p in parts
  {
    if !acked then parts' == parts
    else
      && parts'.Keys == parts.Keys && (forall q <- parts :: q != p ==> parts'[q] == parts[q])
      && parts'[p].log == parts[p].log && parts'[p].committed == parts[p].committed + 1 && parts'[p].phase.Idle?
  }

  class ReadyConsumer {
    var parts: map<PartitionId, Partition>
    var rows: map<Key, Row>
    var dlq: seq<DeadLetter>
    ghost var sends: multiset<Key>
    ghost var cuts: multiset<Key>

    ghost function StoreView(): Store
      reads this
    {
      Store(rows, dlq, sends, cuts)
    }

    ghost function View(): State
      reads this
    {
      State(parts, StoreView())
    }

    ghost function Head(p: PartitionId): Raw
      requires p in parts && HasHead(parts[p])
      reads this
    {
      parts[p].log[parts[p].committed]
    }

    constructor ()
      ensures View() == INIT
    {
      parts, rows, dlq, sends, cuts := map[], map[], [], multiset{}, multiset{};
    }

    /** The row of the message's key, and whether this call created it. */
    method GetOrCreate(m: Message) returns (row: Row, created: bool)
      modifies this`rows
      ensures rows == Claim(old(rows), m) && m.key in rows && row == rows[m.key]
      ensures created <==> m.key !in old(rows)
    {
      created := m.key !in rows;
      if created {
        rows := rows[m.key := Row(m.user, m.templateId, m.channel, Pending, None, None)];
      }
      row := rows[m.key];
    }

    /** Whether the message may be rendered; a refused one is closed in its row. */
    method CheckDeliverable(topic: Topic, m: Message, template: Option<Template>, w: World) returns (phase: Phase)
      modifies this`rows
      ensures (phase, StoreView()) == Advance(Claimed(template), topic, Ready(m), old(StoreView()), w)
    {
      phase := Done;
      if template.None? || !template.value.isActive {
        rows := MarkFailed(rows, m.key, NoTemplate(m));
        return;
      }
      if m.channel !in CHANNELS {
        rows := MarkFailed(rows, m.key, NoSender(m));
        return;
      }
      if template.value.isMandatory {
        return Cleared(template.value, Mandatory);
      }
      if !ChannelAllowed(w.settings, m.channel) {
        rows := MarkSkipped(rows, m.key);
        return;
      }
      phase := Cleared(template.value, Allowed(w.settings.value));
    }

    /** Render, look up the address, send and record; an exception closes the row and goes
        to the dead letter topic instead of reaching the consumer. */
    method RenderAndSend(topic: Topic, m: Message, t: Template, c: Consent, worlds: seq<World>)
      returns (phase: Phase, fault: Option<string>)
      modifies this`rows, this`dlq, this`sends
      ensures Progress(phase, fault, StoreView())
           == After(topic, Ready(m), Progress(Cleared(t, c), None, old(StoreView())), worlds)
      ensures |worlds| >= 3 && m.key in old(rows) ==>
        Rendered(topic, m, worlds[0].email, worlds[0].fault, old(StoreView()), StoreView())
    {
      if |worlds| >= 3
          && m.key in rows { RenderedExactly(topic, m, Progress(Cleared(t, c), None, StoreView()), worlds); }
      phase, fault := Cleared(t, c), None;
      if worlds == [] {
        return;
      }
      AfterOne(topic, Ready(m), Progress(phase, fault, StoreView()), worlds);
      var rest := worlds[1..];
      if worlds[0].fault.Some? {
        fault := worlds[0].fault;
        phase := Broken(fault.value);
        if rest == [] {
          return;
        }
        AfterOne(topic, Ready(m), Progress(phase, fault, StoreView()), rest);
        rows := MarkFailed(rows, m.key, fault.value);
        phase := Recorded(fault.value);
        rest := rest[1..];
        if rest == [] {
          return;
        }
        AfterOne(topic, Ready(m), Progress(phase, fault, StoreView()), rest);
        dlq := dlq + [DeadLetter(topic, m, fault.value)];
        phase := Done;
        DoneStays(topic, Ready(m), Progress(phase, fault, StoreView()), rest[1..]);
        return;
      }
      var address := Address(m, worlds[0].email);
      if address.None? {
        rows := MarkFailed(rows, m.key, NoEmail(m));
        phase := Done;
        DoneStays(topic, Ready(m), Progress(phase, fault, StoreView()), rest);
        return;
      }
      sends := sends + multiset{m.key};
      phase := Delivered(address.value);
      if rest == [] {
        return;
      }
      AfterOne(topic, Ready(m), Progress(phase, fault, StoreView()), rest);
      rows := MarkSent(rows, m.key, address.value);
      phase := Done;
      DoneStays(topic, Ready(m), Progress(phase, fault, StoreView()), rest[1..]);
    }

    /** Check, render and send a claimed message. */
    method Deliver(topic: Topic, m: Message, template: Option<Template>, worlds: seq<World>)
      returns (phase: Phase, fault: Option<string>)
      modifies this`rows, this`dlq, this`sends
      ensures Progress(phase, fault, StoreView())
           == After(topic, Ready(m), Progress(Claimed(template), None, old(StoreView())), worlds)
    {
      phase, fault := Claimed(template), None;
      if worlds == [] {
        return;
      }
      AfterOne(topic, Ready(m), Progress(phase, fault, StoreView()), worlds);
      phase := CheckDeliverable(topic, m, template, worlds[0]);
      if phase.Done? {
        DoneStays(topic, Ready(m), Progress(phase, fault, StoreView()), worlds[1..]);
        return;
      }
      phase, fault := RenderAndSend(topic, m, phase.active, phase.consent, worlds[1..]);
    }

    /** Process one message; the process is cut after the call answered last. */
    method ProcessReadyMessage(topic: Topic, raw: Raw, worlds: seq<World>) returns (phase: Phase, fault: Option<string>)
      modifies this`rows, this`dlq, this`sends
      ensures Progress(phase, fault, StoreView())
           == After(topic, raw, Progress(Idle, None, old(StoreView())), worlds)
      ensures |worlds| >= 6 ==> Outcome(topic, raw, worlds, old(StoreView()), StoreView())
    {
      if |worlds| >= 6 && raw.Ready? { HandledExactly(topic, raw.message, StoreView(), worlds); }
      phase, fault := Idle, None;
      if worlds == [] {
        return;
      }
      AfterOne(topic, raw, Progress(phase, fault, StoreView()), worlds);
      if raw.Malformed? {
        phase := Done;
        DoneStays(topic, raw, Progress(phase, fault, StoreView()), worlds[1..]);
        return;
      }
      var message := raw.message;
      var template := worlds[0].template;
      phase := Fetched(template);
      var rest := worlds[1..];
      if rest == [] {
        return;
      }
      AfterOne(topic, raw, Progress(phase, fault, StoreView()), rest);
      var row, created := GetOrCreate(message);
      rest := rest[1..];
      if !created && Settled(row.status) {
        phase := Done;
        DoneStays(topic, raw, Progress(phase, fault, StoreView()), rest);
        return;
      }
      phase, fault := Deliver(topic, message, template, rest);
    }

    /** Consume the head message of `p`: the offset is committed when the handler returns,
        and the message stays for redelivery when it is cut. */
    method Handle(p: PartitionId, worlds: seq<World>) returns (acked: bool)
      requires p in parts && HasHead(parts[p]) && parts[p].phase.Idle? && parts[p].fault.None?
      modifies this
      ensures View() == Run(old(View()), Works(p, worlds) + [if acked then Commit(p) else Abort(p)])
      ensures |worlds| >= 6 ==> acked
      ensures |worlds| >= 6 ==> Outcome(p.topic, old(Head(p)), worlds, old(StoreView()), StoreView())
      ensures Moved(old(parts), parts, p, acked)
    {
      ghost var before := View();
      var part := parts[p];
      var raw := part.log[part.committed];
      var phase, fault := ProcessReadyMessage(p.topic, raw, worlds);
      WorksRun(before, p, worlds);
      if |worlds| >= 6 {
        SixCallsSuffice(p.topic, raw, Progress(Idle, None, before.store), worlds);
      }
      acked := phase.Done?;
      ghost var after := Run(before, Works(p, worlds));
      LastOf(before, Works(p, worlds), if acked then Commit(p) else Abort(p));
      End(p, part, phase, fault, after);
    }

    /** The offset moves when the handler has returned; a cut after a send is counted. */
    method End(p: PartitionId, part: Partition, phase: Phase, fault: Option<string>, ghost after: State)
      requires p in parts && parts[p] == part && HasHead(part) && part.phase.Idle? && part.fault.None?
      requires after == State(parts[p := part.(phase := phase, fault := fault)], StoreView())
      modifies this`parts, this`cuts
      ensures View() == Next(after, if phase.Done? then Commit(p) else Abort(p))
      ensures Moved(old(parts), parts, p, phase.Done?)
      ensures rows == old(rows) && dlq == old(dlq) && sends == old(sends) && (phase.Done? ==> cuts == old(cuts))
    {
      var raw := part.log[part.committed];
      if phase.Done? {
        parts := parts[p := part.(committed := part.committed + 1, acks := part.acks + [fault])];
        assert after.parts[p := parts[p]] == parts;
      } else {
        if phase.Delivered? && raw.Ready? {
          cuts := cuts + multiset{raw.message.key};
        }
        parts := parts[p := part];
        assert after.parts[p := part] == parts;
      }
    }
  }
}
