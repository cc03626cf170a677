/** Send limits over whole runs of the code services. The sends of a channel form a
    history, the history alone decides whether the channel is open, and it is paced: a
    cooldown between sends, a bounded number per window. */
module SendLimits {
  import opened Options
  import opened RedisStore
  import opened Codes

  /** A successful delivery. `opens`: it created the counter; `keeps`: the counter then got
      its expiry. */
  datatype Send = Send(at: nat, opens: bool, keeps: bool)

  function ChannelOf(s: Store<Key>, k: Call): Option<Channel> {
    match k
    case SendLogin(_, phone, _, _, _) => Some(LoginSms(phone))
    case RequestPhone(_, phone, _, _, _, _, _) => Some(ChangeSms(phone))
    case RequestEmail(user, _, _, _, _) => Some(OldEmail(user))
    case VerifyOldEmail(user, _, _, now, _) =>
      Some(NewEmail(Field(GetHash(s, Record(EmailChange, user), now), "new_email")))
    case _ => None
  }

  predicate SendsOn(c: Settings, s: Store<Key>, k: Call, ch: Channel) {
    Perform(c, s, k).1 == SentOut && ChannelOf(s, k) == Some(ch)
  }

  function SendOf(s: Store<Key>, k: Call, ch: Channel): Send
    requires Fated(k).Some?
  {
    Send(End(k), !Live(s, Rate(ch), End(k)), GetCount(s, Rate(ch), k.now).None? && k.fate.Delivered?)
  }

  function NewSend(c: Settings, s: Store<Key>, k: Call, ch: Channel): seq<Send> {
    if SendsOn(c, s, k, ch) && Fated(k).Some? then [SendOf(s, k, ch)] else []
  }

  /** The sends on a channel during a run, in order. */
  function Sends(c: Settings, calls: seq<Call>, ch: Channel): seq<Send> {
    if calls == [] then []
    else
      var before := calls[..|calls| - 1];
      var last := calls[|calls| - 1];
      Sends(c, before, ch) + NewSend(c, Run(c, before), last, ch)
  }

  /** Where the current counter began. */
  function LastOpening(h: seq<Send>): (p: nat)
    requires h != []
    ensures p < |h|
  {
    if |h| == 1 || h[|h| - 1].opens then |h| - 1 else LastOpening(h[..|h| - 1])
  }

  predicate MayFollow(h: seq<Send>, next: Send, l: Limits) {
    if h == [] then next.opens
    else
      var p := LastOpening(h);
      && h[|h| - 1].at + l.cooldown <= next.at
      && if next.opens then h[p].keeps && h[p].at + l.window <= next.at else |h| - p < l.maxSends && !next.keeps
  }

  predicate Paced(h: seq<Send>, l: Limits) {
    h == [] || (Paced(h[..|h| - 1], l) && MayFollow(h[..|h| - 1], h[|h| - 1], l))
  }

  // ---------- What pacing means ----------

  lemma {:induction false} SpacedOut(h: seq<Send>, l: Limits, i: nat, j: nat)
    requires Paced(h, l) && i < j < |h|
    ensures h[i].at + l.cooldown <= h[j].at
  {
    var shorter := h[..|h| - 1];
    if j < |h| - 1 {
      SpacedOut(shorter, l, i, j);
    } else if i < j - 1 {
      SpacedOut(shorter, l, i, j - 1);
    }
  }

  lemma {:induction false} PrefixPaced(h: seq<Send>, l: Limits, n: nat)
    requires Paced(h, l) && n <= |h|
    ensures Paced(h[..n], l)
  {
    if n < |h| {
      PrefixPaced(h[..|h| - 1], l, n);
      assert h[..|h| - 1][..n] == h[..n];
    } else {
      assert h[..n] == h;
    }
  }

  /** The counter counts the sends since it was opened, and stops at the maximum. */
  lemma {:induction false} WindowCapped(h: seq<Send>, l: Limits)
    requires Paced(h, l) && h != []
    ensures |h| - LastOpening(h) <= l.maxSends
    ensures h[LastOpening(h)].opens
    ensures forall i :: LastOpening(h) < i < |h| ==> !h[i].opens
  {
    if |h| > 1 && !h[|h| - 1].opens {
      var shorter := h[..|h| - 1];
      WindowCapped(shorter, l);
    }
  }

  lemma {:induction false} OpeningsApart(h: seq<Send>, l: Limits, p: nat)
    requires Paced(h, l) && 0 < p < |h| && h[p].opens
    ensures h[LastOpening(h[..p])].at + l.window <= h[p].at
  {
    PrefixPaced(h, l, p + 1);
    assert h[..p + 1][..p] == h[..p];
  }

  /** Every send has an opening fewer than MAX sends before it. */
  lemma {:induction false} OpeningNear(h: seq<Send>, l: Limits, j: nat) returns (p: nat)
    requires Paced(h, l) && j < |h|
    ensures j - l.maxSends < p <= j && h[p].opens && p == LastOpening(h[..j + 1])
  {
    PrefixPaced(h, l, j + 1);
    WindowCapped(h[..j + 1], l);
    p := LastOpening(h[..j + 1]);
  }

  /** Among 2 * MAX + 1 consecutive sends the last is a whole window after the first. */
  lemma {:induction false} IntervalCapped(h: seq<Send>, l: Limits, i: nat, j: nat)
    requires Paced(h, l) && i + 2 * l.maxSends <= j < |h|
    ensures h[i].at + l.window <= h[j].at
  {
    var p := OpeningNear(h, l, j);
    var q := OpeningNear(h, l, p - 1);
    OpeningsApart(h, l, p);
    SpacedOut(h, l, i, q);
    if p < j { SpacedOut(h, l, p, j); }
  }

  // ---------- The Redis keys mirror the history ----------

  function Counter(h: seq<Send>, l: Limits): Entry
    requires h != []
  {
    var p := LastOpening(h);
    Entry(Count(|h| - p), if h[p].keeps then Some(h[p].at + l.window) else None)
  }

  predicate Mirrors(s: Store<Key>, h: seq<Send>, ch: Channel, l: Limits) {
    if h == [] then Cooldown(ch) !in s && Rate(ch) !in s
    else
      && Cooldown(ch) in s && s[Cooldown(ch)] == Entry(Text("1"), Some(h[|h| - 1].at + l.cooldown))
      && Rate(ch) in s && s[Rate(ch)] == Counter(h, l)
  }

  predicate OpenByHistory(h: seq<Send>, l: Limits, now: nat) {
    h == [] || (
      var p := LastOpening(h);
      && h[|h| - 1].at + l.cooldown <= now
      && (|h| - p < l.maxSends || (h[p].keeps && h[p].at + l.window <= now)))
  }

  /** The gate is open exactly when the history allows another send. */
  lemma GateFollowsHistory(s: Store<Key>, h: seq<Send>, ch: Channel, l: Limits, now: nat)
    requires Mirrors(s, h, ch, l)
    ensures Gate(s, ch, l, now).Open? <==> OpenByHistory(h, l, now)
  {
  }

  predicate Same<K, V(==)>(s: map<K, V>, t: map<K, V>, k: K) {
    (k in s <==> k in t) && (k in s ==> s[k] == t[k])
  }

  ghost predicate SameLimits(s: Store<Key>, t: Store<Key>) {
    forall ch: Channel :: Same(s, t, Rate(ch)) && Same(s, t, Cooldown(ch))
  }

  lemma RecordTouches(s: Store<Key>, ch: Channel, l: Limits, sends: Option<nat>, fate: Fate)
    requires Recorded(fate)
    ensures forall other :: other != ch ==>
      Same(s, RecordSend(s, ch, l, sends, fate), Rate(other))
          && Same(s, RecordSend(s, ch, l, sends, fate), Cooldown(other))
  {
  }

  /** A sending call either stops before storing anything, or passes the gate, stores its
      codes beside the limits and delivers. */
  ghost predicate Shape(c: Settings, s: Store<Key>, k: Call, ch: Channel, result: (Store<Key>, Reply),
                        stored: Store<Key>)
    requires Fated(k).Some?
  {
    var l := LimitsOf(c, ServiceOf(ch));
    || (SameLimits(s, result.0) && !result.1.SentOut? && !result.1.SendFailed? && !result.1.Unrecorded?)
    || (&& SameLimits(s, stored)
        && Gate(s, ch, l, k.now).Open?
        && result == Deliver(stored, ch, l, GetCount(s, Rate(ch), k.now), k.fate))
  }

  lemma LoginShape(c: Settings, s: Store<Key>, k: Call) returns (stored: Store<Key>)
    requires k.SendLogin?
    ensures Shape(c, s, k, LoginSms(k.phone), PerformSendLogin(c, s, k), stored)
  {
    stored := Delete(SetEx(s, Record(TwoFactor, k.user), Text(k.code), k.now, c.twoFactor.codeTtl),
                     Attempts(TwoFactor, k.user));
  }

  lemma PhoneShape(c: Settings, s: Store<Key>, k: Call) returns (stored: Store<Key>)
    requires k.RequestPhone?
    ensures Shape(c, s, k, ChangeSms(k.phone), PerformRequestPhone(c, s, k), stored)
  {
    var record := Record(PhoneChange, k.user);
    stored := Delete(Expire(HSet(s, record, PhoneFields(k), k.now), record, k.now, c.phone.codeTtl),
                     Attempts(PhoneChange, k.user));
  }

  lemma RequestShape(c: Settings, s: Store<Key>, k: Call) returns (stored: Store<Key>)
    requires k.RequestEmail?
    ensures Shape(c, s, k, OldEmail(k.user), PerformRequestEmail(c, s, k), stored)
  {
    var record := Record(EmailChange, k.user);
    var fields := map["new_email" := k.address, "old_email_code" := k.code];
    stored := Delete(Expire(HSet(Delete(s, record), record, fields, k.now), record, k.now, c.email.codeTtl),
                     Attempts(EmailChange, k.user));
  }

  lemma VerifyOldShape(c: Settings, s: Store<Key>, k: Call) returns (stored: Store<Key>)
    requires k.VerifyOldEmail?
    ensures Shape(c, s, k, ChannelOf(s, k).value, PerformVerifyOldEmail(c, s, k), stored)
  {
    var record := Record(EmailChange, k.user);
    stored := Delete(Expire(HSet(s, record, map["new_email_code" := k.newCode], k.now), record, k.now,
                            c.email.codeTtl), Attempts(EmailChange, k.user));
    assert SameLimits(s, stored);
  }

  lemma ChecksTouchNoLimits(c: Settings, s: Store<Key>, k: Call)
    requires Fated(k).None?
    ensures SameLimits(s, Perform(c, s, k).0) && !Perform(c, s, k).1.SentOut? && !Perform(c, s, k).1.Unrecorded?
  {
  }

  lemma SendingShape(c: Settings, s: Store<Key>, k: Call) returns (stored: Store<Key>)
    requires Fated(k).Some?
    ensures Shape(c, s, k, ChannelOf(s, k).value, Perform(c, s, k), stored)
  {
    if k.SendLogin? { stored := LoginShape(c, s, k); }
    else if k.RequestPhone? { stored := PhoneShape(c, s, k); }
    else if k.RequestEmail? { stored := RequestShape(c, s, k); }
    else { stored := VerifyOldShape(c, s, k); }
  }

  /** A call that sends nothing on a channel leaves the keys of the channel alone. */
  lemma OthersStay(c: Settings, s: Store<Key>, k: Call, ch: Channel)
    requires !SendsOn(c, s, k, ch)
    ensures Same(s, Perform(c, s, k).0, Rate(ch)) && Same(s, Perform(c, s, k).0, Cooldown(ch))
  {
    if Fated(k).None? {
      ChecksTouchNoLimits(c, s, k);
    } else {
      var stored := SendingShape(c, s, k);
      var own := ChannelOf(s, k).value;
      var l := LimitsOf(c, ServiceOf(own));
      if Recorded(k.fate) { RecordTouches(stored, own, l, GetCount(s, Rate(own), k.now), k.fate); }
    }
  }

  /** A call that sends passed the gate and recorded the send. */
  lemma SendRecorded(c: Settings, s: Store<Key>, k: Call, ch: Channel) returns (stored: Store<Key>)
    requires SendsOn(c, s, k, ch)
    ensures Fated(k).Some? && Recorded(k.fate)
    ensures Gate(s, ch, LimitsOf(c, ServiceOf(ch)), k.now).Open?
    ensures SameLimits(s, stored)
    ensures Perform(c, s, k).0 ==
      RecordSend(stored, ch, LimitsOf(c, ServiceOf(ch)), GetCount(s, Rate(ch), k.now), k.fate)
  {
    if Fated(k).None? { ChecksTouchNoLimits(c, s, k); stored := s; } else { stored := SendingShape(c, s, k); }
  }

  lemma RecordMirrors(s: Store<Key>, stored: Store<Key>, ch: Channel, l: Limits, h: seq<Send>, now: nat, fate: Fate,
                      next: Send)
    requires Mirrors(s, h, ch, l) && Same(s, stored, Rate(ch)) && Same(s, stored, Cooldown(ch))
    requires Recorded(fate) && now <= fate.at && Gate(s, ch, l, now).Open?
    requires next == Send(fate.at, !Live(s, Rate(ch), fate.at), GetCount(s, Rate(ch), now).None? && fate.Delivered?)
    ensures MayFollow(h, next, l)
    ensures Mirrors(RecordSend(stored, ch, l, GetCount(s, Rate(ch), now), fate), h + [next], ch, l)
  {
  }

  lemma StepMirrors(c: Settings, s: Store<Key>, k: Call, ch: Channel, h: seq<Send>)
    requires Mirrors(s, h, ch, LimitsOf(c, ServiceOf(ch))) && Paced(h, LimitsOf(c, ServiceOf(ch)))
    requires k.now <= End(k)
    ensures Mirrors(Perform(c, s, k).0, h + NewSend(c, s, k, ch), ch, LimitsOf(c, ServiceOf(ch)))
    ensures Paced(h + NewSend(c, s, k, ch), LimitsOf(c, ServiceOf(ch)))
  {
    if SendsOn(c, s, k, ch) {
      var stored := SendRecorded(c, s, k, ch);
      RecordMirrors(s, stored, ch, LimitsOf(c, ServiceOf(ch)), h, k.now, k.fate, SendOf(s, k, ch));
      assert (h + NewSend(c, s, k, ch))[..|h|] == h;
    } else {
      OthersStay(c, s, k, ch);
      assert h + NewSend(c, s, k, ch) == h;
    }
  }

  /** On every run of the services each channel is paced and its keys mirror its history. */
  lemma {:induction false} RunPaced(c: Settings, calls: seq<Call>, ch: Channel)
    requires Ordered(calls)
    ensures Paced(Sends(c, calls, ch), LimitsOf(c, ServiceOf(ch)))
    ensures Mirrors(Run(c, calls), Sends(c, calls, ch), ch, LimitsOf(c, ServiceOf(ch)))
  {
    if calls != [] {
      var before := calls[..|calls| - 1];
      var last := calls[|calls| - 1];
      RunPaced(c, before, ch);
      StepMirrors(c, Run(c, before), last, ch, Sends(c, before, ch));
    }
  }

  // ---------- The limits ----------

  /** Sends on one channel are a cooldown apart, and any stretch shorter than a window
      holds at most 2 * MAX of them. */
  lemma RateLimited(c: Settings, calls: seq<Call>, ch: Channel)
    requires Ordered(calls)
    ensures var h := Sends(c, calls, ch);
            var l := LimitsOf(c, ServiceOf(ch));
            && (forall i, j :: 0 <= i < j < |h| ==> h[i].at + l.cooldown <= h[j].at)
            && (forall i, j :: 0 <= i < j < |h| && j - i >= 2 * l.maxSends ==> h[i].at + l.window <= h[j].at)
  {
    var h := Sends(c, calls, ch);
    var l := LimitsOf(c, ServiceOf(ch));
    RunPaced(c, calls, ch);
    forall i, j | 0 <= i < j < |h| ensures h[i].at + l.cooldown <= h[j].at {
      SpacedOut(h, l, i, j);
    }
    forall i, j | 0 <= i < j < |h| && j - i >= 2 * l.maxSends ensures h[i].at + l.window <= h[j].at {
      IntervalCapped(h, l, i, j);
    }
  }

  /** After any run the next call on a channel is let through exactly when its history says so. */
  lemma GateIsExact(c: Settings, calls: seq<Call>, ch: Channel, now: nat)
    requires Ordered(calls)
    ensures Gate(Run(c, calls), ch, LimitsOf(c, ServiceOf(ch)), now).Open? <==>
            OpenByHistory(Sends(c, calls, ch), LimitsOf(c, ServiceOf(ch)), now)
  {
    RunPaced(c, calls, ch);
    GateFollowsHistory(Run(c, calls), Sends(c, calls, ch), ch, LimitsOf(c, ServiceOf(ch)), now);
  }

  /** A counter is left without expiry exactly when the send that opened it did not set one. */
  lemma LostExpiry(c: Settings, calls: seq<Call>, ch: Channel)
    requires Ordered(calls)
    ensures var h := Sends(c, calls, ch);
            (Rate(ch) in Run(c, calls) && Run(c, calls)[Rate(ch)].expires.None?) <==>
            (h != [] && !h[LastOpening(h)].keeps)
  {
    RunPaced(c, calls, ch);
  }

  predicate NeverExpires(s: Store<Key>, ch: Channel) {
    Rate(ch) in s && s[Rate(ch)].expires.None?
  }

  /** A send leaves the counter without expiry exactly when it already was, or when it
      created the counter and was cut before setting the expiry or had seen, at the start of
      its slow delivery, a counter that has run out since. */
  lemma ExpiryLostExactly(c: Settings, calls: seq<Call>, k: Call, ch: Channel)
    requires Ordered(calls) && k.now <= End(k)
    requires SendsOn(c, Run(c, calls), k, ch)
    ensures var s := Run(c, calls);
            NeverExpires(Perform(c, s, k).0, ch) <==>
            (NeverExpires(s, ch) ||
             (!Live(s, Rate(ch), End(k)) && (k.fate.DeliveredThenCut? || Live(s, Rate(ch), k.now))))
  {
    var s := Run(c, calls);
    RunPaced(c, calls, ch);
    var stored := SendRecorded(c, s, k, ch);
  }

  lemma {:induction false} NoOpeningAfterLoss(h: seq<Send>, l: Limits, n: nat)
    requires Paced(h, l) && 0 < n <= |h|
    requires !h[LastOpening(h[..n])].keeps
    ensures LastOpening(h) == LastOpening(h[..n])
  {
    if n < |h| {
      var shorter := h[..|h| - 1];
      assert shorter[..n] == h[..n];
      NoOpeningAfterLoss(shorter, l, n);
    } else {
      assert h[..n] == h;
    }
  }

  /** A counter without expiry stays for ever: however the run goes on, the channel sends no
      more than MAX codes in all since the counter was opened. */
  lemma LossIsForEver(c: Settings, calls: seq<Call>, n: nat, ch: Channel)
    requires Ordered(calls)
    requires var h := Sends(c, calls, ch); 0 < n <= |h| && !h[LastOpening(h[..n])].keeps
    ensures var h := Sends(c, calls, ch);
            |h| - LastOpening(h[..n]) <= LimitsOf(c, ServiceOf(ch)).maxSends
  {
    var l := LimitsOf(c, ServiceOf(ch));
    var h := Sends(c, calls, ch);
    RunPaced(c, calls, ch);
    NoOpeningAfterLoss(h, l, n);
    WindowCapped(h, l);
  }

  /** A loss without any crash: the second delivery outlasts the counter it found. */
  lemma ExpiryCanBeLost(c: Settings)
    requires c.twoFactor.cooldown < c.twoFactor.window && 1 < c.twoFactor.maxSends
    ensures var w := c.twoFactor.window;
            var calls := [SendLogin("u", "p", "1", 0, Delivered(0)), SendLogin("u", "p", "2", w - 1, Delivered(w))];
            Ordered(calls) && NeverExpires(Run(c, calls), LoginSms("p"))
  {
    var w := c.twoFactor.window;
    var first := SendLogin("u", "p", "1", 0, Delivered(0));
    var second := SendLogin("u", "p", "2", w - 1, Delivered(w));
    assert [first, second][..1] == [first];
    assert [first][..0] == [];
    var ch := LoginSms("p");
    assert Run(c, [first]) == PerformSendLogin(c, map[], first).0;
    var s := Run(c, [first]);
    assert s[Rate(ch)] == Entry(Count(1), Some(w));
    assert s[Cooldown(ch)] == Entry(Text("1"), Some(c.twoFactor.cooldown));
    assert Run(c, [first, second]) == PerformSendLogin(c, s, second).0;
  }
}
