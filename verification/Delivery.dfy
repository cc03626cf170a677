/** The worker's delivery protocol: notification-ready and notification-ready-bulk
    messages become at most one settled row and one real send per deduplication key.

    A partition is handled serially and redelivers its head message until the handler
    returns. Every external call of the handler is one step; the process may be cut
    (crash, or an exception that reaches the consumer) between any two of them. */
module Delivery {
  import opened Options
  import opened Keys

  /** The registered senders. */
  const CHANNELS: set<string> := {"email", "push"}

  datatype Template = Template(id: string, isActive: bool, isMandatory: bool)

  datatype Settings = Settings(notifications: bool, email: bool, sms: bool, push: bool)

  datatype Message = Message(user: string, templateId: string, payload: string, channel: string, key: Key,
                             recipientEmail: Option<string>)

  datatype Raw = Malformed | Ready(message: Message)

  datatype Status = Pending | Sent | Skipped | Failed

  datatype Row = Row(user: string, templateId: string, channel: string, status: Status,
                     address: Option<string>, error: Option<string>)

  datatype Topic = ReadyTopic | BulkTopic

  /** Both topics are keyed by user. */
  datatype PartitionId = PartitionId(topic: Topic, user: string)

  datatype DeadLetter = DeadLetter(source: Topic, message: Message, error: string)

  /** Why a message may be rendered: its template overrides the settings, or they allow the channel. */
  datatype Consent = Mandatory | Allowed(settings: Settings)

  datatype Phase =
    | Idle
    | Fetched(template: Option<Template>)
    | Claimed(template: Option<Template>)
    | Cleared(active: Template, consent: Consent)
    | Delivered(address: string)
    | Broken(error: string)
    | Recorded(error: string)
    | Done

  /** What the outside world answers to the external call of one step. A `fault` is an
      exception of rendering, contact lookup or sending; a failed send reaches nobody. */
  datatype World = World(template: Option<Template>, settings: Option<Settings>,
                         email: Option<string>, fault: Option<string>)

  /** The notifications table and the dead letter topic, with the history of real sends
      and of cuts that fell between a send and the write that records it. */
  datatype Store = Store(rows: map<Key, Row>, dlq: seq<DeadLetter>,
                         sends: multiset<Key>, cuts: multiset<Key>)

  predicate Settled(status: Status) {
    status.Sent? || status.Skipped?
  }

  predicate ChannelAllowed(settings: Option<Settings>, channel: string) {
    match settings
    case None => false
    case Some(s) =>
      s.notifications && match channel
                         case "notifications" => s.notifications
                         case "email" => s.email
                         case "sms" => s.sms
                         case "push" => s.push
                         case _ => false
  }

  function MarkSent(rows: map<Key, Row>, key: Key, address: string): map<Key, Row> {
    if key in rows then rows[key := rows[key].(status := Sent, address := Some(address), error := None)] else rows
  }

  function MarkFailed(rows: map<Key, Row>, key: Key, error: string): map<Key, Row> {
    if key in rows then rows[key := rows[key].(status := Failed, error := Some(error))] else rows
  }

  function MarkSkipped(rows: map<Key, Row>, key: Key): map<Key, Row> {
    if key in rows then rows[key := rows[key].(status := Skipped)] else rows
  }

  /** Insert on the unique key, or leave the existing row alone. */
  function Claim(rows: map<Key, Row>, m: Message): map<Key, Row> {
    if m.key in rows then rows else rows[m.key := Row(m.user, m.templateId, m.channel, Pending, None, None)]
  }

  function Address(m: Message, email: Option<string>): Option<string> {
    if m.channel == "push" then Some(m.user)
    else if m.recipientEmail.Some? then m.recipientEmail
    else email
  }

  function NoTemplate(m: Message): string {
    "template " + m.templateId + " not found or inactive"
  }

  function NoSender(m: Message): string {
    "no sender registered for channel=" + m.channel
  }

  function NoEmail(m: Message): string {
    "no email for user " + m.user
  }

  /** One step of the handler on one message. */
  function Advance(phase: Phase, topic: Topic, raw: Raw, st: Store, w: World): (Phase, Store) {
    if raw.Malformed? || phase.Done? then (Done, st) else
    var m := raw.message;
    match phase
    case Idle => (Fetched(w.template), st)
    case Fetched(template) =>
      if m.key in st.rows && Settled(st.rows[m.key].status) then (Done, st)
      else (Claimed(template), st.(rows := Claim(st.rows, m)))
    case Claimed(template) =>
      if template.None? || !template.value.isActive then
        (Done, st.(rows := MarkFailed(st.rows, m.key, NoTemplate(m))))
      else if m.channel !in CHANNELS then
        (Done, st.(rows := MarkFailed(st.rows, m.key, NoSender(m))))
      else if template.value.isMandatory then (Cleared(template.value, Mandatory), st)
      else if !ChannelAllowed(w.settings, m.channel) then (Done, st.(rows := MarkSkipped(st.rows, m.key)))
      else (Cleared(template.value, Allowed(w.settings.value)), st)
    case Cleared(_, _) =>
      if w.fault.Some? then (Broken(w.fault.value), st)
      else if Address(m, w.email).None? then (Done, st.(rows := MarkFailed(st.rows, m.key, NoEmail(m))))
      else (Delivered(Address(m, w.email).value), st.(sends := st.sends + multiset{m.key}))
    case Delivered(address) => (Done, st.(rows := MarkSent(st.rows, m.key, address)))
    case Broken(error) => (Recorded(error), st.(rows := MarkFailed(st.rows, m.key, error)))
    case Recorded(error) => (Done, st.(dlq := st.dlq + [DeadLetter(topic, m, error)]))
    case Done => (Done, st)
  }

  /** How far one handling has come: its phase, the exception it caught, the shared store. */
  datatype Progress = Progress(phase: Phase, fault: Option<string>, store: Store)

  function Proceed(topic: Topic, raw: Raw, g: Progress, w: World): Progress {
    var (phase, store) := Advance(g.phase, topic, raw, g.store, w);
    Progress(phase, if phase.Broken? then Some(phase.error) else g.fault, store)
  }

  /** The handler's progress when its external calls were answered by `worlds`, one each. */
  function After(topic: Topic, raw: Raw, g: Progress, worlds: seq<World>): Progress {
    if worlds == [] then g
    else Proceed(topic, raw, After(topic, raw, g, worlds[..|worlds| - 1]), worlds[|worlds| - 1])
  }

  // ---------- The system of partitions ----------

  /** One partition: its messages, the committed offset, the handler's progress on the
      head message with the exception it caught, and the exception caught by the
      acknowledged handling of every message before the offset. */
  datatype Partition = Partition(log: seq<Raw>, committed: nat, phase: Phase,
                                 fault: Option<string>, acks: seq<Option<string>>)

  const NEW_PARTITION := Partition([], 0, Idle, None, [])

  datatype State = State(parts: map<PartitionId, Partition>, store: Store)

  const INIT := State(map[], Store(map[], [], multiset{}, multiset{}))

  datatype Event =
    | Publish(p: PartitionId, raw: Raw)
    | Work(p: PartitionId, world: World)
    | Commit(p: PartitionId)
    | Abort(p: PartitionId)

  function Part(s: State, p: PartitionId): Partition {
    if p in s.parts then s.parts[p] else NEW_PARTITION
  }

  predicate HasHead(part: Partition) {
    part.committed < |part.log|
  }

  /** One event of the system; an event that cannot happen changes nothing. */
  function Next(s: State, e: Event): State {
    var part := Part(s, e.p);
    match e
    case Publish(p, raw) => s.(parts := s.parts[p := part.(log := part.log + [raw])])
    case Work(p, w) =>
      if !HasHead(part) then s else
      var g := Proceed(p.topic, part.log[part.committed], Progress(part.phase, part.fault, s.store), w);
      State(s.parts[p := part.(phase := g.phase, fault := g.fault)], g.store)
    case Commit(p) =>
      if !part.phase.Done? then s else
      s.(parts := s.parts[p := part.(committed := part.committed + 1, phase := Idle, fault := None,
                                     acks := part.acks + [part.fault])])
    case Abort(p) =>
      var lost := if part.phase.Delivered? && HasHead(part) && part.log[part.committed].Ready?
                  then multiset{part.log[part.committed].message.key} else multiset{};
      State(s.parts[p := part.(phase := Idle, fault := None)], s.store.(cuts := s.store.cuts + lost))
  }

  function Run(s: State, events: seq<Event>): State {
    if events == [] then s else Next(Run(s, events[..|events| - 1]), events[|events| - 1])
  }

  /** Every publisher puts the messages with one key into one partition. */
  ghost predicate Homed(home: Key -> PartitionId, events: seq<Event>) {
    forall e <- events :: e.Publish? && e.raw.Ready? ==> home(e.raw.message.key) == e.p
  }

  // ---------- What every step keeps ----------

  predicate InFlight(phase: Phase) {
    phase.Claimed? || phase.Cleared? || phase.Delivered? || phase.Broken? || phase.Recorded?
  }

  predicate Closed(rows: map<Key, Row>, key: Key) {
    key in rows && !rows[key].status.Pending?
  }

  ghost predicate HeadOk(p: PartitionId, part: Partition, st: Store)
    requires HasHead(part)
  {
    var head := part.log[part.committed];
    && (!part.phase.Idle? && !part.phase.Done? ==> head.Ready?)
    && (InFlight(part.phase) ==> head.message.key in st.rows && !Settled(st.rows[head.message.key].status))
    && (part.phase.Recorded? ==> st.rows[head.message.key].status.Failed?)
    && (part.phase.Cleared? ==> Authorised(part.phase.active, part.phase.consent, head.message))
    && (part.phase.Broken? || part.phase.Recorded? ==> part.fault == Some(part.phase.error))
    && (part.phase.Done? && head.Ready? ==>
          && Closed(st.rows, head.message.key)
          && (part.fault.Some? ==> DeadLetter(p.topic, head.message, part.fault.value) in st.dlq))
    && (!part.phase.Broken? && !part.phase.Recorded? && !part.phase.Done? ==> part.fault.None?)
    && (part.phase.Done? && head.Malformed? ==> part.fault.None?)
  }

  /** The template is active, the channel has a sender, and the template overrides the
      recipient's settings or the settings consulted allow the channel. */
  predicate Authorised(t: Template, c: Consent, m: Message) {
    && t.isActive && m.channel in CHANNELS
    && (if c.Mandatory? then t.isMandatory else !t.isMandatory && ChannelAllowed(Some(c.settings), m.channel))
  }

  ghost predicate AcksOk(p: PartitionId, part: Partition, st: Store)
    requires part.committed <= |part.log| && |part.acks| == part.committed
  {
    forall i | 0 <= i < part.committed && part.log[i].Ready? ::
      && Closed(st.rows, part.log[i].message.key)
      && (part.acks[i].Some? ==> DeadLetter(p.topic, part.log[i].message, part.acks[i].value) in st.dlq)
  }

  ghost predicate PartOk(home: Key -> PartitionId, p: PartitionId, part: Partition, st: Store) {
    && part.committed <= |part.log|
    && |part.acks| == part.committed
    && (forall i | 0 <= i < |part.log| && part.log[i].Ready? :: home(part.log[i].message.key) == p)
    && (if HasHead(part) then HeadOk(p, part, st) else part.phase.Idle? && part.fault.None?)
    && AcksOk(p, part, st)
  }

  /** A real send not yet recorded in its row. */
  predicate Owed(part: Partition, key: Key) {
    part.phase.Delivered? && HasHead(part) && part.log[part.committed].Ready?
    && part.log[part.committed].message.key == key
  }

  function Bit(b: bool): nat {
    if b then 1 else 0
  }

  /** The exact number of real sends of one key. */
  ghost predicate Balanced(home: Key -> PartitionId, s: State, key: Key) {
    s.store.sends[key] == s.store.cuts[key]
                          + Bit(key in s.store.rows && s.store.rows[key].status.Sent?)
                          + Bit(Owed(Part(s, home(key)), key))
  }

  ghost predicate Inv(home: Key -> PartitionId, s: State) {
    && (forall p <- s.parts :: PartOk(home, p, s.parts[p], s.store))
    && (forall key :: Balanced(home, s, key))
  }

  /** A step touches the row of one key and only appends dead letters. */
  ghost predicate Touches(st: Store, st': Store, key: Key) {
    && (forall k :: k != key ==> (k in st.rows <==> k in st'.rows) && (k in st.rows ==> st.rows[k] == st'.rows[k]))
    && (forall d <- st.dlq :: d in st'.dlq)
    && (Closed(st.rows, key) ==> Closed(st'.rows, key))
  }

  lemma Frame(home: Key -> PartitionId, p: PartitionId, part: Partition, st: Store, st': Store, key: Key)
    requires PartOk(home, p, part, st) && Touches(st, st', key) && home(key) != p
    ensures PartOk(home, p, part, st')
  {
  }

  lemma AdvanceTouches(phase: Phase, topic: Topic, m: Message, st: Store, w: World)
    ensures Touches(st, Advance(phase, topic, Ready(m), st, w).1, m.key)
  {
  }

  /** One handler step on a partition with a head message. */
  function WorkPart(p: PartitionId, part: Partition, st: Store, w: World): (Partition, Store)
    requires HasHead(part)
  {
    var g := Proceed(p.topic, part.log[part.committed], Progress(part.phase, part.fault, st), w);
    (part.(phase := g.phase, fault := g.fault), g.store)
  }

  lemma WorkHead(p: PartitionId, part: Partition, st: Store, w: World)
    requires HasHead(part) && HeadOk(p, part, st)
    ensures var (part', st') := WorkPart(p, part, st, w); HeadOk(p, part', st')
  {
  }

  lemma WorkAcks(home: Key -> PartitionId, p: PartitionId, part: Partition, st: Store, w: World)
    requires HasHead(part) && PartOk(home, p, part, st) && part.log[part.committed].Ready?
    ensures var (part', st') := WorkPart(p, part, st, w); AcksOk(p, part', st')
  {
  }

  lemma WorkBalance(p: PartitionId, part: Partition, st: Store, w: World, key: Key)
    requires HasHead(part) && HeadOk(p, part, st) && part.log[part.committed].Ready?
    requires part.log[part.committed].message.key == key
    requires st.sends[key] == st.cuts[key] + Bit(key in st.rows && st.rows[key].status.Sent?) + Bit(Owed(part, key))
    ensures var (part', st') := WorkPart(p, part, st, w);
            st'.sends[key] == st'.cuts[key] + Bit(key in st'.rows && st'.rows[key].status.Sent?) + Bit(Owed(part', key))
  {
  }

  lemma AdvanceElsewhere(phase: Phase, topic: Topic, m: Message, st: Store, w: World, key: Key)
    requires key != m.key
    ensures var st' := Advance(phase, topic, Ready(m), st, w).1;
            && st'.sends[key] == st.sends[key] && st'.cuts[key] == st.cuts[key]
  {
  }

  lemma WorkKeeps(home: Key -> PartitionId, s: State, p: PartitionId, w: World)
    requires Inv(home, s) && p in s.parts && HasHead(s.parts[p]) && s.parts[p].log[s.parts[p].committed].Ready?
    ensures Inv(home, Next(s, Work(p, w)))
  {
    var part := s.parts[p];
    var m := part.log[part.committed].message;
    var s' := Next(s, Work(p, w));
    var (part', st') := WorkPart(p, part, s.store, w);
    assert s' == State(s.parts[p := part'], st');
    AdvanceTouches(part.phase, p.topic, m, s.store, w);
    assert home(m.key) == p;
    forall q <- s'.parts ensures PartOk(home, q, s'.parts[q], s'.store) {
      if q != p {
        Frame(home, q, s.parts[q], s.store, st', m.key);
      } else {
        WorkHead(p, part, s.store, w);
        WorkAcks(home, p, part, s.store, w);
      }
    }
    forall key ensures Balanced(home, s', key) {
      assert Balanced(home, s, key);
      if key == m.key {
        WorkBalance(p, part, s.store, w, key);
      } else {
        AdvanceElsewhere(part.phase, p.topic, m, s.store, w, key);
      }
    }
  }

  lemma PublishKeeps(home: Key -> PartitionId, s: State, p: PartitionId, raw: Raw)
    requires Inv(home, s) && (raw.Ready? ==> home(raw.message.key) == p)
    ensures Inv(home, Next(s, Publish(p, raw)))
  {
    var s' := Next(s, Publish(p, raw));
    assert PartOk(home, p, Part(s, p), s.store);
    assert PartOk(home, p, s'.parts[p], s.store);
    forall key ensures Balanced(home, s', key) {
      assert Balanced(home, s, key);
    }
  }

  lemma CommitKeeps(home: Key -> PartitionId, s: State, p: PartitionId)
    requires Inv(home, s)
    ensures Inv(home, Next(s, Commit(p)))
  {
    var s' := Next(s, Commit(p));
    var part := Part(s, p);
    if part.phase.Done? {
      var part' := s'.parts[p];
      assert AcksOk(p, part', s.store);
      assert PartOk(home, p, part', s.store);
      forall key ensures Balanced(home, s', key) {
        assert Balanced(home, s, key);
      }
    }
  }

  lemma AbortKeeps(home: Key -> PartitionId, s: State, p: PartitionId)
    requires Inv(home, s)
    ensures Inv(home, Next(s, Abort(p)))
  {
    var s' := Next(s, Abort(p));
    var part := Part(s, p);
    assert PartOk(home, p, part, s.store);
    forall q <- s'.parts ensures PartOk(home, q, s'.parts[q], s'.store) {
      if q in s.parts {
        assert PartOk(home, q, s.parts[q], s.store);
      }
    }
    forall key ensures Balanced(home, s', key) {
      assert Balanced(home, s, key);
    }
  }

  lemma StepKeeps(home: Key -> PartitionId, s: State, e: Event)
    requires Inv(home, s) && Homed(home, [e])
    ensures Inv(home, Next(s, e))
  {
    assert e in [e];
    match e
    case Publish(p, raw) => PublishKeeps(home, s, p, raw);
    case Work(p, w) =>
      var part := Part(s, p);
      if HasHead(part) && part.log[part.committed].Ready? {
        WorkKeeps(home, s, p, w);
      } else if HasHead(part) {
        var s' := Next(s, e);
        assert PartOk(home, p, s'.parts[p], s.store);
        forall key ensures Balanced(home, s', key) {
          assert Balanced(home, s, key);
        }
      }
    case Commit(p) => CommitKeeps(home, s, p);
    case Abort(p) => AbortKeeps(home, s, p);
  }

  // ---------- Theorems over every run ----------

  lemma {:induction false} RunKeeps(home: Key -> PartitionId, events: seq<Event>)
    requires Homed(home, events)
    ensures Inv(home, Run(INIT, events))
  {
    if events == [] {
      assert forall key :: Balanced(home, INIT, key);
    } else {
      var before := events[..|events| - 1];
      var last := events[|events| - 1];
      assert last in events;
      assert Homed(home, [last]);
      assert Homed(home, before) by {
        forall e <- before ensures e in events {
        }
      }
      RunKeeps(home, before);
      StepKeeps(home, Run(INIT, before), last);
    }
  }

  /** Effectively once: however often a key is published, redelivered or its handling
      restarted, its real sends are its row being sent, plus one in flight, plus one for
      every cut between a send and the write that records it. */
  lemma EffectivelyOnce(home: Key -> PartitionId, events: seq<Event>, key: Key)
    requires Homed(home, events)
    ensures var s := Run(INIT, events);
            && s.store.sends[key] == s.store.cuts[key]
                                     + Bit(key in s.store.rows && s.store.rows[key].status.Sent?)
                                     + Bit(Owed(Part(s, home(key)), key))
            && s.store.sends[key] <= s.store.cuts[key] + 1
  {
    RunKeeps(home, events);
    var s := Run(INIT, events);
    assert Balanced(home, s, key);
    var part := Part(s, home(key));
    if Owed(part, key) {
      assert PartOk(home, home(key), part, s.store);
    }
  }

  /** No silent loss: an acknowledged message was malformed or has a closed row, and if
      its handling caught an exception the dead letter topic holds it with that exception. */
  lemma NoSilentLoss(home: Key -> PartitionId, events: seq<Event>, p: PartitionId, i: nat)
    requires Homed(home, events)
    requires i < Part(Run(INIT, events), p).committed
    ensures var s := Run(INIT, events);
            var part := Part(s, p);
            && i < |part.log| && |part.acks| == part.committed
            && (part.log[i].Malformed? ||
                (&& Closed(s.store.rows, part.log[i].message.key)
                 && (part.acks[i].Some? ==>
                       DeadLetter(p.topic, part.log[i].message, part.acks[i].value) in s.store.dlq)))
  {
    RunKeeps(home, events);
    var s := Run(INIT, events);
    assert PartOk(home, p, s.parts[p], s.store);
  }

  lemma SettledStep(home: Key -> PartitionId, s: State, e: Event, key: Key)
    requires Inv(home, s) && Homed(home, [e])
    requires key in s.store.rows && Settled(s.store.rows[key].status)
    ensures var s' := Next(s, e);
            && key in s'.store.rows && s'.store.rows[key] == s.store.rows[key]
            && s'.store.sends[key] == s.store.sends[key]
  {
    assert e in [e];
    if e.Work? && HasHead(Part(s, e.p)) && Part(s, e.p).log[Part(s, e.p).committed].Ready? {
      var part := Part(s, e.p);
      var m := part.log[part.committed].message;
      assert PartOk(home, e.p, part, s.store);
      AdvanceTouches(part.phase, e.p.topic, m, s.store, e.world);
      if m.key != key {
        AdvanceElsewhere(part.phase, e.p.topic, m, s.store, e.world, key);
      }
    }
  }

  /** Sent and skipped are absorbing: the row never changes again and nothing more is sent. */
  lemma {:induction false} SettledForever(home: Key -> PartitionId, events: seq<Event>, more: seq<Event>, key: Key)
    requires Homed(home, events + more)
    requires var s := Run(INIT, events); key in s.store.rows && Settled(s.store.rows[key].status)
    ensures var s, s' := Run(INIT, events), Run(INIT, events + more);
            && key in s'.store.rows && s'.store.rows[key] == s.store.rows[key]
            && s'.store.sends[key] == s.store.sends[key]
    decreases |more|
  {
    if more == [] {
      assert events + more == events;
    } else {
      var n := |more| - 1;
      var before := events + more[..n];
      assert events + more == before + [more[n]];
      HomedParts(home, before, more[n]);
      SettledForever(home, events, more[..n], key);
      RunKeeps(home, before);
      RunOneMore(before, more[n]);
      SettledStep(home, Run(INIT, before), more[n], key);
    }
  }

  lemma HomedParts(home: Key -> PartitionId, events: seq<Event>, e: Event)
    requires Homed(home, events + [e])
    ensures Homed(home, events) && Homed(home, [e])
  {
    assert e in events + [e] && forall x <- events :: x in events + [e];
  }

  lemma RunOneMore(events: seq<Event>, e: Event)
    ensures Run(INIT, events + [e]) == Next(Run(INIT, events), e)
  {
    assert (events + [e])[..|events|] == events;
  }

  /** Only a step on a cleared message of the key sends under the key. */
  lemma SendNeedsClearance(phase: Phase, topic: Topic, raw: Raw, st: Store, w: World, key: Key)
    requires Advance(phase, topic, raw, st, w).1.sends[key] != st.sends[key]
    ensures raw.Ready? && raw.message.key == key && phase.Cleared?
    ensures Advance(phase, topic, raw, st, w).1.sends[key] == st.sends[key] + 1
  {
  }

  lemma OnlyWorkSends(s: State, e: Event, key: Key)
    requires Next(s, e).store.sends[key] != s.store.sends[key]
    ensures e.Work? && HasHead(Part(s, e.p))
    ensures var part := Part(s, e.p);
            Next(s, e).store == Advance(part.phase, e.p.topic, part.log[part.committed], s.store, e.world).1
  {
  }

  /** Nothing is sent without leave: the only event that sends works on a message of that key whose
      template is active, whose channel has a sender, and whose recipient allows the
      channel unless the template is mandatory. */
  lemma SendsAreAuthorised(home: Key -> PartitionId, events: seq<Event>, e: Event, key: Key)
    requires Homed(home, events + [e])
    requires Next(Run(INIT, events), e).store.sends[key] != Run(INIT, events).store.sends[key]
    ensures e.Work?
    ensures var part := Part(Run(INIT, events), e.p);
            && HasHead(part) && part.log[part.committed].Ready?
            && part.log[part.committed].message.key == key
            && part.phase.Cleared?
            && Authorised(part.phase.active, part.phase.consent, part.log[part.committed].message)
            && Next(Run(INIT, events), e).store.sends[key] == Run(INIT, events).store.sends[key] + 1
  {
    assert Homed(home, events) by {
      forall f <- events ensures f in events + [e] {
      }
    }
    RunKeeps(home, events);
    var s := Run(INIT, events);
    OnlyWorkSends(s, e, key);
    var part := Part(s, e.p);
    assert PartOk(home, e.p, part, s.store);
    SendNeedsClearance(part.phase, e.p.topic, part.log[part.committed], s.store, e.world, key);
  }
}
