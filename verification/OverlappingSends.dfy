/** Calls that send codes to one destination at the same time. Each reads the cooldown and the
    counter, delivers, and only then records the delivery; between two of its commands the
    others go on. */
module OverlappingSends {
  import opened Options
  import opened RedisStore
  import opened Codes

  /** Where a call is: `checked` is when it found the cooldown over, `sends` the counter it saw,
      `index` its delivery. */
  datatype Phase =
    | Cooled(checked: nat)
    | Passed(checked: nat, sends: Option<nat>)
    | Sent(index: nat, sends: Option<nat>)
    | Counted                           // recorded; the counter still needs its expiry

  datatype Sending = Sending(checked: nat, at: nat, recorded: Option<nat>)

  /** `widest`: the most calls that were past the counter and not recorded at one time.
      `records`, `before`: how many sends were recorded, and how many before the counter of
      now was opened. */
  datatype State = State(store: Store<Key>, now: nat, calls: map<nat, Phase>, sent: seq<Sending>, widest: nat,
                         records: nat, before: nat)

  const INIT := State(map[], 0, map[], [], 0, 0, 0)

  datatype Event =
    | Tick
    | Begin(id: nat)                    // reads the cooldown
    | Look(id: nat)                     // reads the counter
    | Send(id: nat)
    | Note(id: nat)                     // records the delivery
    | Expire(id: nat)                   // gives the counter its expiry
    | Die(id: nat)                      // the delivery fails, or the process stops

  predicate Shut(s: State, ch: Channel) {
    Ttl(s.store, Cooldown(ch), s.now) > 0
  }

  function Counter(s: State, ch: Channel): Option<nat> {
    GetCount(s.store, Rate(ch), s.now)
  }

  predicate Pending(phase: Phase) {
    phase.Passed? || phase.Sent?
  }

  /** The calls that will record a send without looking at the counter again. */
  function PendingCalls(calls: map<nat, Phase>): set<nat> {
    set id | id in calls && Pending(calls[id])
  }

  function Max(a: nat, b: nat): nat {
    if a < b then b else a
  }

  function PassCounter(l: Limits, ch: Channel, s: State, id: nat): State
    requires id in s.calls && s.calls[id].Cooled?
  {
    var sends := Counter(s, ch);
    if sends.Some? && sends.value >= l.maxSends then s.(calls := s.calls - {id})
    else
      var calls := s.calls[id := Passed(s.calls[id].checked, sends)];
      s.(calls := calls, widest := Max(s.widest, |PendingCalls(calls)|))
  }

  function RecordCall(l: Limits, ch: Channel, s: State, id: nat): State
    requires id in s.calls && s.calls[id].Sent?
  {
    var i := s.calls[id].index;
    s.(store := SetEx(Incr(s.store, Rate(ch), s.now), Cooldown(ch), Text("1"), s.now, l.cooldown),
       calls := if s.calls[id].sends.None? then s.calls[id := Counted] else s.calls - {id},
       sent := if i < |s.sent| then s.sent[i := s.sent[i].(recorded := Some(s.now))] else s.sent,
       records := s.records + 1,
       before := if Counter(s, ch).None? then s.records else s.before)
  }

  function Next(l: Limits, ch: Channel, s: State, e: Event): State {
    match e
    case Tick => s.(now := s.now + 1)
    case Begin(id) => if id in s.calls || Shut(s, ch) then s else s.(calls := s.calls[id := Cooled(s.now)])
    case Look(id) => if id in s.calls && s.calls[id].Cooled? then PassCounter(l, ch, s, id) else s
    case Send(id) =>
      if id in s.calls && s.calls[id].Passed? then
        s.(calls := s.calls[id := Sent(|s.sent|, s.calls[id].sends)],
           sent := s.sent + [Sending(s.calls[id].checked, s.now, None)])
      else s
    case Note(id) => if id in s.calls && s.calls[id].Sent? then RecordCall(l, ch, s, id) else s
    case Expire(id) =>
      if id in s.calls && s.calls[id].Counted? then
        s.(store := RedisStore.Expire(s.store, Rate(ch), s.now, l.window), calls := s.calls - {id})
      else s
    case Die(id) => s.(calls := s.calls - {id})
  }

  function Run(l: Limits, ch: Channel, events: seq<Event>): State {
    if events == [] then INIT else Next(l, ch, Run(l, ch, events[..|events| - 1]), events[|events| - 1])
  }

  lemma RunStep(l: Limits, ch: Channel, events: seq<Event>, e: Event)
    ensures Run(l, ch, events + [e]) == Next(l, ch, Run(l, ch, events), e)
  {
  }

  // ---------- The cooldown ----------

  /** The key has the expiry of the last record. */
  ghost predicate CooldownOk(l: Limits, ch: Channel, s: State) {
    && (forall x <- s.sent :: x.recorded.Some? ==> x.at <= x.recorded.value <= s.now)
    && (if Cooldown(ch) in s.store then
          var until := s.store[Cooldown(ch)].expires;
          && until.Some?
          && (forall x <- s.sent :: x.recorded.Some? ==> x.recorded.value + l.cooldown <= until.value)
          && (exists x <- s.sent :: x.recorded.Some? && x.recorded.value + l.cooldown == until.value)
        else forall x <- s.sent :: x.recorded.None?)
  }

  /** Whatever was recorded when the cooldown was read, was so a cooldown before. */
  ghost predicate ReadOk(l: Limits, sent: seq<Sending>, checked: nat) {
    forall x <- sent :: x.recorded.Some? ==> x.recorded.value + l.cooldown <= checked || checked <= x.recorded.value
  }

  ghost predicate CallOk(l: Limits, s: State, phase: Phase) {
    match phase
    case Cooled(checked) => checked <= s.now && ReadOk(l, s.sent, checked)
    case Passed(checked, _) => checked <= s.now && ReadOk(l, s.sent, checked)
    case Sent(i, _) => i < |s.sent| && s.sent[i].recorded.None?
    case Counted => true
  }

  /** No two calls have the same delivery. */
  ghost predicate OwnSends(calls: map<nat, Phase>) {
    forall a <- calls, b <- calls :: calls[a].Sent? && calls[b].Sent? && calls[a].index == calls[b].index ==> a == b
  }

  ghost predicate SendsOk(l: Limits, s: State) {
    && (forall x <- s.sent :: x.checked <= x.at <= s.now && ReadOk(l, s.sent, x.checked))
    && (forall i, j :: 0 <= i < j < |s.sent| ==> s.sent[i].at <= s.sent[j].at)
  }

  ghost predicate Paced(l: Limits, ch: Channel, s: State) {
    && CooldownOk(l, ch, s) && SendsOk(l, s) && OwnSends(s.calls)
    && forall id <- s.calls :: CallOk(l, s, s.calls[id])
  }

  lemma RecordPaced(l: Limits, ch: Channel, s: State, id: nat)
    requires Paced(l, ch, s) && id in s.calls && s.calls[id].Sent?
    ensures Paced(l, ch, RecordCall(l, ch, s, id))
  {
    var t := RecordCall(l, ch, s, id);
    var i := s.calls[id].index;
    assert CallOk(l, s, s.calls[id]);
    forall j | 0 <= j < |t.sent|
      ensures t.sent[j] == if j == i then s.sent[i].(recorded := Some(s.now)) else s.sent[j]
    {
    }
    assert t.sent[i] in t.sent;
    RecordReads(l, s, i, s.now);
    forall q <- t.calls ensures CallOk(l, t, t.calls[q]) {
      if q != id { assert CallOk(l, s, s.calls[q]); }
    }
  }

  /** A record of now is after every read. */
  lemma RecordReads(l: Limits, s: State, i: nat, now: nat)
    requires i < |s.sent|
    ensures forall checked: nat :: checked <= now && ReadOk(l, s.sent, checked) ==>
                                  ReadOk(l, s.sent[i := s.sent[i].(recorded := Some(now))], checked)
  {
    var sent := s.sent[i := s.sent[i].(recorded := Some(now))];
    forall checked: nat, x | checked <= now && ReadOk(l, s.sent, checked) && x in sent && x.recorded.Some?
      ensures x.recorded.value + l.cooldown <= checked || checked <= x.recorded.value
    {
      if x !in s.sent { assert x.recorded == Some(now); }
    }
  }

  lemma SendPaced(l: Limits, ch: Channel, s: State, id: nat)
    requires Paced(l, ch, s) && id in s.calls && s.calls[id].Passed?
    ensures Paced(l, ch, Next(l, ch, s, Send(id)))
  {
    assert CallOk(l, s, s.calls[id]);
    OneMoreSend(l, ch, s, Sending(s.calls[id].checked, s.now, None));
    SendKeepsCalls(l, ch, s, id);
  }

  lemma SendKeepsCalls(l: Limits, ch: Channel, s: State, id: nat)
    requires Paced(l, ch, s) && id in s.calls && s.calls[id].Passed?
    requires forall checked :: ReadOk(l, s.sent, checked) ==>
                                 ReadOk(l, s.sent + [Sending(s.calls[id].checked, s.now, None)], checked)
    ensures var t := Next(l, ch, s, Send(id)); OwnSends(t.calls) && forall q <- t.calls :: CallOk(l, t, t.calls[q])
  {
    var t := Next(l, ch, s, Send(id));
    forall q <- t.calls
      ensures CallOk(l, t, t.calls[q]) && (q != id && t.calls[q].Sent? ==> t.calls[q].index < |s.sent|)
    {
      if q != id { assert CallOk(l, s, s.calls[q]); }
    }
  }

  /** A new delivery is not recorded yet, so no read is about it. */
  lemma OneMoreSend(l: Limits, ch: Channel, s: State, x: Sending)
    requires CooldownOk(l, ch, s) && SendsOk(l, s)
    requires x.recorded.None? && x.checked <= x.at == s.now && ReadOk(l, s.sent, x.checked)
    ensures var t := s.(sent := s.sent + [x]); CooldownOk(l, ch, t) && SendsOk(l, t)
    ensures forall checked :: ReadOk(l, s.sent, checked) ==> ReadOk(l, s.sent + [x], checked)
  {
    forall y <- s.sent + [x] ensures y in s.sent || y == x {
    }
    assert forall y <- s.sent :: y in s.sent + [x];
  }

  /** What touches neither the sends nor the cooldown. */
  lemma OtherPaced(l: Limits, ch: Channel, s: State, e: Event)
    requires Paced(l, ch, s) && !e.Send? && !e.Note?
    ensures Paced(l, ch, Next(l, ch, s, e))
  {
    var t := Next(l, ch, s, e);
    OtherCooldown(l, ch, s, e);
    OtherCalls(l, ch, s, e);
    forall q <- t.calls ensures CallOk(l, t, t.calls[q]) {
      if q in s.calls { assert CallOk(l, s, s.calls[q]); }
    }
  }

  lemma OtherCooldown(l: Limits, ch: Channel, s: State, e: Event)
    requires CooldownOk(l, ch, s) && SendsOk(l, s) && !e.Send? && !e.Note?
    ensures var t := Next(l, ch, s, e); CooldownOk(l, ch, t) && SendsOk(l, t) && t.sent == s.sent && s.now <= t.now
  {
  }

  /** A call is as it was, has passed the counter, or begins with the cooldown over. */
  lemma OtherCalls(l: Limits, ch: Channel, s: State, e: Event)
    requires CooldownOk(l, ch, s) && !e.Send? && !e.Note?
    ensures var t := Next(l, ch, s, e);
            forall q <- t.calls ::
              || (q in s.calls && t.calls[q] == s.calls[q])
              || (q in s.calls && s.calls[q].Cooled? && t.calls[q].Passed? && t.calls[q].checked == s.calls[q].checked)
              || (t.calls[q] == Cooled(s.now) && ReadOk(l, s.sent, s.now))
  {
  }

  lemma {:induction false} RunPaced(l: Limits, ch: Channel, events: seq<Event>)
    ensures Paced(l, ch, Run(l, ch, events))
  {
    if events != [] {
      var s, e := Run(l, ch, events[..|events| - 1]), events[|events| - 1];
      RunPaced(l, ch, events[..|events| - 1]);
      match e {
        case Send(id) => if id in s.calls && s.calls[id].Passed? { SendPaced(l, ch, s, id); }
        case Note(id) => if id in s.calls && s.calls[id].Sent? { RecordPaced(l, ch, s, id); }
        case _ => OtherPaced(l, ch, s, e);
      }
    }
  }

  /** In every reachable state the cooldown turns a call away if and only if some delivery was
      recorded less than a cooldown ago. */
  lemma ShutExactly(l: Limits, ch: Channel, events: seq<Event>)
    ensures var s := Run(l, ch, events);
            Shut(s, ch) <==> exists x <- s.sent :: x.recorded.Some? && s.now < x.recorded.value + l.cooldown
  {
    RunPaced(l, ch, events);
  }

  /** Two deliveries are less than a cooldown apart only if the later call had read the
      cooldown before the earlier delivery was recorded. */
  lemma CloseMeansOverlap(l: Limits, ch: Channel, events: seq<Event>, i: nat, j: nat)
    requires i < j < |Run(l, ch, events).sent|
    ensures var a, b := Run(l, ch, events).sent[i], Run(l, ch, events).sent[j];
            b.at < a.at + l.cooldown ==> a.recorded.None? || b.checked <= a.recorded.value
  {
    RunPaced(l, ch, events);
    var s := Run(l, ch, events);
    assert s.sent[i] in s.sent && s.sent[j] in s.sent;
  }

  // ---------- The counter ----------

  /** Once the counter is full, only the calls that passed it before can be recorded. */
  ghost predicate Capped(l: Limits, ch: Channel, s: State) {
    && |PendingCalls(s.calls)| <= s.widest && s.before <= s.records
    && (Counter(s, ch).Some? ==>
          && Counter(s, ch).value == s.records - s.before
          && (Counter(s, ch).value >= l.maxSends ==>
                Counter(s, ch).value + |PendingCalls(s.calls)| < l.maxSends + s.widest))
  }

  lemma PendingWithout(calls: map<nat, Phase>, id: nat)
    requires id in calls && Pending(calls[id])
    ensures |PendingCalls(calls - {id})| == |PendingCalls(calls)| - 1
    ensures |PendingCalls(calls[id := Counted])| == |PendingCalls(calls)| - 1
  {
    assert PendingCalls(calls - {id}) == PendingCalls(calls) - {id};
    assert PendingCalls(calls[id := Counted]) == PendingCalls(calls) - {id};
  }

  lemma RecordCapped(l: Limits, ch: Channel, s: State, id: nat)
    requires Capped(l, ch, s) && id in s.calls && s.calls[id].Sent?
    ensures Capped(l, ch, RecordCall(l, ch, s, id))
  {
    PendingWithout(s.calls, id);
    CounterAfter(l, ch, s, id);
  }

  lemma CounterAfter(l: Limits, ch: Channel, s: State, id: nat)
    requires id in s.calls && s.calls[id].Sent?
    ensures Counter(RecordCall(l, ch, s, id), ch) ==
              Some(if Counter(s, ch).None? then 1 else Counter(s, ch).value + 1)
  {
  }

  lemma SamePending(calls: map<nat, Phase>, id: nat, phase: Phase)
    requires id in calls && Pending(calls[id]) && Pending(phase)
    ensures PendingCalls(calls[id := phase]) == PendingCalls(calls)
  {
  }

  lemma FewerPending(calls: map<nat, Phase>, id: nat, phase: Phase)
    requires !Pending(phase)
    ensures |PendingCalls(calls[id := phase])| <= |PendingCalls(calls)|
    ensures |PendingCalls(calls - {id})| <= |PendingCalls(calls)|
  {
    assert PendingCalls(calls - {id}) == PendingCalls(calls) - {id};
    assert PendingCalls(calls[id := phase]) == PendingCalls(calls) - {id};
  }

  lemma OtherCapped(l: Limits, ch: Channel, s: State, e: Event)
    requires Capped(l, ch, s) && !e.Note?
    ensures Capped(l, ch, Next(l, ch, s, e))
  {
    match e {
      case Begin(id) => FewerPending(s.calls, id, Cooled(s.now));
      case Look(id) => FewerPending(s.calls, id, Counted);
      case Send(id) =>
        if id in s.calls && s.calls[id].Passed? { SamePending(s.calls, id, Sent(|s.sent|, s.calls[id].sends)); }
      case Expire(id) => FewerPending(s.calls, id, Counted);
      case Die(id) => FewerPending(s.calls, id, Counted);
      case _ =>
    }
  }

  lemma {:induction false} RunCapped(l: Limits, ch: Channel, events: seq<Event>)
    ensures Capped(l, ch, Run(l, ch, events))
  {
    if events != [] {
      var s, e := Run(l, ch, events[..|events| - 1]), events[|events| - 1];
      RunCapped(l, ch, events[..|events| - 1]);
      if e.Note? {
        if e.id in s.calls && s.calls[e.id].Sent? { RecordCapped(l, ch, s, e.id); }
      } else {
        OtherCapped(l, ch, s, e);
      }
    }
  }

  /** Of the sends recorded since the counter opened there are at most the limit, and one more
      for each call but one that was past the counter at the same time. */
  lemma OverlapCapped(l: Limits, ch: Channel, events: seq<Event>)
    requires Counter(Run(l, ch, events), ch).Some?
    ensures var s := Run(l, ch, events);
            && s.before <= s.records && Counter(s, ch) == Some(s.records - s.before)
            && s.records - s.before < l.maxSends + Max(s.widest, 1)
  {
    RunCapped(l, ch, events);
  }

  // ---------- Any number at once ----------

  ghost predicate AllDelivered(s: State, n: nat) {
    && s.now == 0 && s.store == map[] && |s.sent| == n && (forall x <- s.sent :: x.at == 0)
    && (forall i :: i in s.calls <==> 0 <= i < n) && (forall i <- s.calls :: s.calls[i] == Sent(i, None))
  }

  lemma OneDelivers(l: Limits, ch: Channel, s: State, n: nat)
    requires AllDelivered(s, n)
    ensures AllDelivered(Next(l, ch, Next(l, ch, Next(l, ch, s, Begin(n)), Look(n)), Send(n)), n + 1)
  {
    var a := Next(l, ch, s, Begin(n));
    assert a.calls == s.calls[n := Cooled(0)] && Counter(a, ch) == None;
    var b := Next(l, ch, a, Look(n));
    assert b.calls == s.calls[n := Passed(0, None)];
    assert Next(l, ch, b, Send(n)).calls == s.calls[n := Sent(n, None)];
  }

  lemma {:induction false} ManyDeliver(l: Limits, ch: Channel, n: nat) returns (events: seq<Event>)
    ensures AllDelivered(Run(l, ch, events), n)
  {
    if n == 0 {
      events := [];
    } else {
      var a := ManyDeliver(l, ch, n - 1);
      var b := a + [Begin(n - 1)];
      var c := b + [Look(n - 1)];
      events := c + [Send(n - 1)];
      RunStep(l, ch, a, Begin(n - 1));
      RunStep(l, ch, b, Look(n - 1));
      RunStep(l, ch, c, Send(n - 1));
      OneDelivers(l, ch, Run(l, ch, a), n - 1);
    }
  }

  /** After `k` of the `n` have recorded. */
  ghost predicate SomeRecorded(ch: Channel, s: State, n: nat, k: nat) {
    && s.now == 0 && k <= |s.sent| == n && (forall x <- s.sent :: x.at == 0)
    && (forall i | 0 <= i < k :: s.sent[i].recorded == Some(0))
    && (forall i | k <= i < n :: i in s.calls && s.calls[i] == Sent(i, None))
    && Counter(s, ch) == (if k == 0 then None else Some(k))
  }

  lemma NoneRecorded(ch: Channel, s: State, n: nat)
    requires AllDelivered(s, n)
    ensures SomeRecorded(ch, s, n, 0)
  {
  }

  lemma NextRecorded(l: Limits, ch: Channel, before: seq<Event>, n: nat, k: nat)
    requires 0 < k <= n && SomeRecorded(ch, Run(l, ch, before), n, k - 1)
    ensures SomeRecorded(ch, Run(l, ch, before + [Note(k - 1)]), n, k)
  {
    RunStep(l, ch, before, Note(k - 1));
    OneRecords(l, ch, Run(l, ch, before), n, k);
  }

  lemma {:induction false} ManyRecord(l: Limits, ch: Channel, delivered: seq<Event>, n: nat, k: nat)
    returns (events: seq<Event>)
    requires k <= n && SomeRecorded(ch, Run(l, ch, delivered), n, 0)
    ensures SomeRecorded(ch, Run(l, ch, events), n, k)
  {
    if k == 0 {
      events := delivered;
    } else {
      var before := ManyRecord(l, ch, delivered, n, k - 1);
      NextRecorded(l, ch, before, n, k);
      events := before + [Note(k - 1)];
    }
  }

  lemma OneRecords(l: Limits, ch: Channel, s: State, n: nat, k: nat)
    requires 0 < k <= n && SomeRecorded(ch, s, n, k - 1)
    ensures SomeRecorded(ch, Next(l, ch, s, Note(k - 1)), n, k)
  {
    CounterAfter(l, ch, s, k - 1);
  }

  /** The limits do not bind calls that overlap: for every `n`, whatever the limits, `n` codes
      go out in one second, every one of them recorded and counted. So with a limit of one
      the bound above is the best. */
  lemma OverlapUnlimited(l: Limits, ch: Channel, n: nat) returns (events: seq<Event>)
    requires 0 < n
    ensures var s := Run(l, ch, events);
            && |s.sent| == n && (forall x <- s.sent :: x.at == 0 && x.recorded == Some(0))
            && Counter(s, ch) == Some(n)
  {
    var delivered := ManyDeliver(l, ch, n);
    NoneRecorded(ch, Run(l, ch, delivered), n);
    events := ManyRecord(l, ch, delivered, n, n);
  }
}
