/** What one uncut handling of a message does, case by case, in terms of the notifications
    table, the real sends and the dead letter topic. */
module DeliveryOutcomes {
  import opened Options
  import opened Keys
  import opened Delivery

  /** What the handler is told: the template, the recipient's settings, the contact, and the
      exception of rendering, contact lookup or sending. */
  datatype Answers = Answers(template: Option<Template>, settings: Option<Settings>, contact: Option<string>,
                             fault: Option<string>)

  /** The answers of the calls that ask for them. */
  function AnswersIn(worlds: seq<World>): Answers
    requires |worlds| >= 6
  {
    Answers(worlds[0].template, worlds[2].settings, worlds[3].email, worlds[3].fault)
  }

  predicate Usable(a: Answers) {
    a.template.Some? && a.template.value.isActive
  }

  predicate HasSender(m: Message) {
    m.channel == "email" || m.channel == "push"
  }

  /** Notifications are on, and the switch of the message's own channel. */
  predicate Wanted(m: Message, a: Answers) {
    && a.settings.Some? && a.settings.value.notifications
    && (m.channel == "email" ==> a.settings.value.email)
    && (m.channel == "push" ==> a.settings.value.push)
  }

  predicate Mandatory(a: Answers) {
    a.template.Some? && a.template.value.isMandatory
  }

  /** The message may be rendered. */
  predicate Deliverable(m: Message, a: Answers) {
    Usable(a) && HasSender(m) && (Mandatory(a) || Wanted(m, a))
  }

  /** Push goes to the user; mail to the address in the message, or else to the contact. */
  predicate Reachable(m: Message, contact: Option<string>, address: string) {
    if m.channel == "push" then address == m.user
    else if m.recipientEmail.Some? then address == m.recipientEmail.value
    else contact.Some? && address == contact.value
  }

  predicate NoAddress(m: Message, contact: Option<string>) {
    m.channel != "push" && m.recipientEmail.None? && contact.None?
  }

  /** The row as the handler finds it, or as it creates it. */
  function Before(st: Store, m: Message): Row {
    if m.key in st.rows then st.rows[m.key]
    else Row(m.user, m.templateId, m.channel, Status.Pending, None, None)
  }

  /** Only this row changed, and nothing was sent. */
  predicate ClosedAs(st: Store, st': Store, m: Message, row: Row) {
    st'.rows == st.rows[m.key := row] && st'.sends == st.sends && st'.cuts == st.cuts && st'.dlq == st.dlq
  }

  /** Only this row changed, with one real send of its key. */
  predicate SentAs(st: Store, st': Store, m: Message, row: Row) {
    && st'.rows == st.rows[m.key := row] && st'.sends == st.sends + multiset{m.key}
    && st'.cuts == st.cuts && st'.dlq == st.dlq
  }

  /** Only this row changed, nothing was sent, and the message is in the dead letter topic. */
  predicate DeadAs(topic: Topic, st: Store, st': Store, m: Message, row: Row, error: string) {
    && st'.rows == st.rows[m.key := row] && st'.sends == st.sends
    && st'.cuts == st.cuts && st'.dlq == st.dlq + [DeadLetter(topic, m, error)]
  }

  /** What becomes of a message that may be rendered, with its row there. */
  ghost predicate Rendered(topic: Topic, m: Message, contact: Option<string>, fault: Option<string>, st: Store,
                           st': Store)
    requires m.key in st.rows
  {
    var row := st.rows[m.key];
    if fault.Some? then DeadAs(topic, st, st', m, row.(status := Failed, error := fault), fault.value)
    else if NoAddress(m, contact) then
      ClosedAs(st, st', m, row.(status := Failed, error := Some("no email for user " + m.user)))
    else
      forall address :: Reachable(m, contact, address) ==>
        SentAs(st, st', m, row.(status := Sent, address := Some(address), error := None))
  }

  /** What a handling of the message leaves behind. */
  ghost predicate Handled(topic: Topic, m: Message, a: Answers, st: Store, st': Store) {
    var row := Before(st, m);
    if row.status.Sent? || row.status.Skipped? then st' == st
    else if !Usable(a) then
      ClosedAs(st, st', m,
               row.(status := Failed, error := Some("template " + m.templateId + " not found or inactive")))
    else if !HasSender(m) then
      ClosedAs(st, st', m, row.(status := Failed, error := Some("no sender registered for channel=" + m.channel)))
    else if !Mandatory(a) && !Wanted(m, a) then
      ClosedAs(st, st', m, row.(status := Skipped))
    else Rendered(topic, m, a.contact, a.fault, st.(rows := st.rows[m.key := row]), st')
  }

  // ---------- The answered calls of a handling ----------

  lemma {:induction false} DoneStays(topic: Topic, raw: Raw, g: Progress, worlds: seq<World>)
    requires g.phase.Done?
    ensures After(topic, raw, g, worlds) == g
  {
    if worlds != [] {
      DoneStays(topic, raw, g, worlds[..|worlds| - 1]);
    }
  }

  lemma {:induction false} AfterSplit(topic: Topic, raw: Raw, g: Progress, first: seq<World>, rest: seq<World>)
    ensures After(topic, raw, g, first + rest) == After(topic, raw, After(topic, raw, g, first), rest)
    decreases |rest|
  {
    if rest == [] {
      assert first + rest == first;
    } else {
      var all := first + rest;
      assert all[..|all| - 1] == first + rest[..|rest| - 1];
      AfterSplit(topic, raw, g, first, rest[..|rest| - 1]);
    }
  }

  lemma AfterOne(topic: Topic, raw: Raw, g: Progress, worlds: seq<World>)
    requires worlds != []
    ensures After(topic, raw, g, worlds) == After(topic, raw, Proceed(topic, raw, g, worlds[0]), worlds[1..])
  {
    assert worlds == worlds[..1] + worlds[1..];
    AfterSplit(topic, raw, g, worlds[..1], worlds[1..]);
    assert worlds[..1][..0] == [];
    assert After(topic, raw, g, worlds[..1]) == Proceed(topic, raw, g, worlds[0]);
  }

  /** One more answered call. */
  lemma AfterMore(topic: Topic, raw: Raw, g: Progress, worlds: seq<World>, n: nat)
    requires n < |worlds|
    ensures After(topic, raw, g, worlds[..n + 1]) == Proceed(topic, raw, After(topic, raw, g, worlds[..n]), worlds[n])
  {
    assert worlds[..n + 1][..n] == worlds[..n];
  }

  /** A handling that is over after some calls stays as it is. */
  lemma Over(topic: Topic, raw: Raw, g: Progress, worlds: seq<World>, n: nat)
    requires n <= |worlds| && After(topic, raw, g, worlds[..n]).phase.Done?
    ensures After(topic, raw, g, worlds) == After(topic, raw, g, worlds[..n])
  {
    AfterSplit(topic, raw, g, worlds[..n], worlds[n..]);
    DoneStays(topic, raw, After(topic, raw, g, worlds[..n]), worlds[n..]);
    assert worlds[..n] + worlds[n..] == worlds;
  }

  /** The handler claims the row before it checks anything. */
  lemma Claimed(topic: Topic, m: Message, st: Store, worlds: seq<World>)
    requires |worlds| >= 6
    ensures var g := After(topic, Ready(m), Progress(Idle, None, st), worlds[..2]);
            g == if m.key in st.rows && Settled(st.rows[m.key].status) then Progress(Done, None, st)
                 else Progress(Phase.Claimed(worlds[0].template), None, st.(rows := st.rows[m.key := Before(st, m)]))
  {
    AfterMore(topic, Ready(m), Progress(Idle, None, st), worlds, 0);
    AfterMore(topic, Ready(m), Progress(Idle, None, st), worlds, 1);
    assert worlds[..0] == [];
    if m.key in st.rows { assert st.rows[m.key := st.rows[m.key]] == st.rows; }
  }

  /** A cleared message, three calls before the end. */
  lemma RenderedExactly(topic: Topic, m: Message, g: Progress, worlds: seq<World>)
    requires |worlds| >= 3 && g.phase.Cleared? && g.fault.None? && m.key in g.store.rows
    ensures Rendered(topic, m, worlds[0].email, worlds[0].fault, g.store, After(topic, Ready(m), g, worlds).store)
  {
    AfterOne(topic, Ready(m), g, worlds);
    var g1 := Proceed(topic, Ready(m), g, worlds[0]);
    var rest := worlds[1..];
    if g1.phase.Done? {
      DoneStays(topic, Ready(m), g1, rest);
    } else {
      AfterOne(topic, Ready(m), g1, rest);
      var g2 := Proceed(topic, Ready(m), g1, rest[0]);
      if g2.phase.Done? {
        DoneStays(topic, Ready(m), g2, rest[1..]);
      } else {
        AfterOne(topic, Ready(m), g2, rest[1..]);
        DoneStays(topic, Ready(m), Proceed(topic, Ready(m), g2, rest[1..][0]), rest[1..][1..]);
      }
    }
  }

  /** Every uncut handling of a well-formed message: which messages are sent, where, and what
      becomes of those that are not. */
  lemma HandledExactly(topic: Topic, m: Message, st: Store, worlds: seq<World>)
    requires |worlds| >= 6
    ensures Handled(topic, m, AnswersIn(worlds), st, After(topic, Ready(m), Progress(Idle, None, st), worlds).store)
  {
    var start := Progress(Idle, None, st);
    Claimed(topic, m, st, worlds);
    if m.key in st.rows && Settled(st.rows[m.key].status) {
      Over(topic, Ready(m), start, worlds, 2);
    } else {
      Checked(topic, m, st, worlds);
    }
  }

  lemma Checked(topic: Topic, m: Message, st: Store, worlds: seq<World>)
    requires |worlds| >= 6 && !Settled(Before(st, m).status)
    ensures Handled(topic, m, AnswersIn(worlds), st, After(topic, Ready(m), Progress(Idle, None, st), worlds).store)
  {
    var start := Progress(Idle, None, st);
    Claimed(topic, m, st, worlds);
    AfterMore(topic, Ready(m), start, worlds, 2);
    if Deliverable(m, AnswersIn(worlds)) {
      var g := After(topic, Ready(m), start, worlds[..3]);
      RenderedExactly(topic, m, g, worlds[3..]);
      AfterSplit(topic, Ready(m), start, worlds[..3], worlds[3..]);
      assert worlds[..3] + worlds[3..] == worlds && worlds[3..][0] == worlds[3];
    } else {
      Over(topic, Ready(m), start, worlds, 3);
    }
  }

  /** A message that may be rendered, to a reachable recipient and without an exception, is
      sent: once, to that address, and its row says so. */
  lemma DeliverableIsSent(topic: Topic, m: Message, st: Store, worlds: seq<World>, address: string)
    requires |worlds| >= 6 && (m.key in st.rows ==> st.rows[m.key].status.Pending? || st.rows[m.key].status.Failed?)
    requires Deliverable(m, AnswersIn(worlds)) && worlds[3].fault.None? && Reachable(m, worlds[3].email, address)
    ensures var st' := After(topic, Ready(m), Progress(Idle, None, st), worlds).store;
            && m.key in st'.rows && st'.rows[m.key].status == Sent && st'.rows[m.key].address == Some(address)
            && st'.rows[m.key].error == None && st'.sends[m.key] == st.sends[m.key] + 1 && st'.dlq == st.dlq
  {
    HandledExactly(topic, m, st, worlds);
  }
}
