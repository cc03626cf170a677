/** The codes that were really delivered: those recorded in Redis, and those whose call was
    cut between the delivery and its recording. The limits bind the former; each of the
    latter is one send beyond them. */
module RealSends {
  import opened Options
  import opened RedisStore
  import opened Codes
  import opened SendLimits

  datatype RealSend = RealSend(at: nat, recorded: bool)

  predicate Delivers(c: Settings, s: Store<Key>, k: Call, ch: Channel) {
    (Perform(c, s, k).1.SentOut? || Perform(c, s, k).1.Unrecorded?) && ChannelOf(s, k) == Some(ch)
  }

  function NewReal(c: Settings, s: Store<Key>, k: Call, ch: Channel): seq<RealSend> {
    if Delivers(c, s, k, ch) then [RealSend(End(k), Perform(c, s, k).1.SentOut?)] else []
  }

  /** Every delivery on a channel during a run, in order. */
  function Real(c: Settings, calls: seq<Call>, ch: Channel): seq<RealSend> {
    if calls == [] then []
    else
      var n := |calls| - 1;
      Real(c, calls[..n], ch) + NewReal(c, Run(c, calls[..n]), calls[n], ch)
  }

  function RecordedTimes(sent: seq<RealSend>): (times: seq<nat>)
    ensures |times| <= |sent|
  {
    if sent == [] then []
    else RecordedTimes(sent[..|sent| - 1]) + (if sent[|sent| - 1].recorded then [sent[|sent| - 1].at] else [])
  }

  function Times(h: seq<Send>): (times: seq<nat>)
    ensures |times| == |h| && forall i :: 0 <= i < |h| ==> times[i] == h[i].at
  {
    if h == [] then [] else Times(h[..|h| - 1]) + [h[|h| - 1].at]
  }

  function Cuts(sent: seq<RealSend>): nat {
    |sent| - |RecordedTimes(sent)|
  }

  lemma {:induction false} RecordedAppend(xs: seq<RealSend>, ys: seq<RealSend>)
    ensures RecordedTimes(xs + ys) == RecordedTimes(xs) + RecordedTimes(ys)
  {
    if ys == [] {
      assert xs + ys == xs;
    } else {
      assert (xs + ys)[..|xs + ys| - 1] == xs + ys[..|ys| - 1];
      RecordedAppend(xs, ys[..|ys| - 1]);
    }
  }

  lemma OneRecorded(x: RealSend)
    ensures RecordedTimes([x]) == if x.recorded then [x.at] else []
  {
    assert [x][..0] == [];
  }

  /** What a call adds to the real sends and to the recorded ones. */
  lemma NewRecorded(c: Settings, s: Store<Key>, k: Call, ch: Channel)
    ensures RecordedTimes(NewReal(c, s, k, ch)) == Times(NewSend(c, s, k, ch))
  {
    if Fated(k).None? {
      ChecksTouchNoLimits(c, s, k);
    } else if Delivers(c, s, k, ch) {
      OneRecorded(RealSend(End(k), Perform(c, s, k).1.SentOut?));
    }
  }

  /** The real sends are the recorded ones and the cuts, in one order. */
  lemma {:induction false} RealAreRecordedAndCuts(c: Settings, calls: seq<Call>, ch: Channel)
    ensures RecordedTimes(Real(c, calls, ch)) == Times(Sends(c, calls, ch))
    ensures |Real(c, calls, ch)| == |Sends(c, calls, ch)| + Cuts(Real(c, calls, ch))
  {
    if calls != [] {
      var n := |calls| - 1;
      var s := Run(c, calls[..n]);
      RealAreRecordedAndCuts(c, calls[..n], ch);
      RecordedAppend(Real(c, calls[..n], ch), NewReal(c, s, calls[n], ch));
      NewRecorded(c, s, calls[n], ch);
      TimesAppend(Sends(c, calls[..n], ch), NewSend(c, s, calls[n], ch));
    }
  }

  lemma TimesAppend(xs: seq<Send>, ys: seq<Send>)
    ensures Times(xs + ys) == Times(xs) + Times(ys)
  {
  }

  // ---------- Order and cooldown ----------

  /** A delivery passed the gate at the start of its call. */
  lemma DeliveryPassedGate(c: Settings, s: Store<Key>, k: Call, ch: Channel)
    requires Delivers(c, s, k, ch)
    ensures Gate(s, ch, LimitsOf(c, ServiceOf(ch)), k.now).Open?
  {
    if Fated(k).None? { ChecksTouchNoLimits(c, s, k); } else { var stored := SendingShape(c, s, k); }
  }

  ghost predicate InOrder(sent: seq<RealSend>, l: Limits) {
    forall i, j :: 0 <= i < j < |sent| ==>
      sent[i].at <= sent[j].at && (sent[i].recorded ==> sent[i].at + l.cooldown <= sent[j].at)
  }

  lemma {:induction false} LastRecorded(sent: seq<RealSend>, i: nat)
    requires i < |sent| && sent[i].recorded && forall a, b :: 0 <= a < b < |sent| ==> sent[a].at <= sent[b].at
    ensures RecordedTimes(sent) != [] && sent[i].at <= RecordedTimes(sent)[|RecordedTimes(sent)| - 1]
    ensures RecordedTimes(sent)[|RecordedTimes(sent)| - 1] <= sent[|sent| - 1].at
  {
    var n := |sent| - 1;
    if i < n { LastRecorded(sent[..n], i); }
  }

  ghost predicate UpTo(sent: seq<RealSend>, t: nat) {
    forall x <- sent :: x.at <= t
  }

  /** An open channel is past the cooldown of every recorded send. */
  lemma AfterCooldown(h: seq<Send>, sent: seq<RealSend>, l: Limits, now: nat, i: nat)
    requires OpenByHistory(h, l, now) && RecordedTimes(sent) == Times(h) && InOrder(sent, l)
    requires i < |sent| && sent[i].recorded
    ensures sent[i].at + l.cooldown <= now
  {
    LastRecorded(sent, i);
    assert Times(h)[|h| - 1] == h[|h| - 1].at;
  }

  /** A call that delivers finds the channel open. */
  lemma DeliveryOpen(c: Settings, calls: seq<Call>, k: Call, ch: Channel)
    requires Ordered(calls) && Delivers(c, Run(c, calls), k, ch)
    ensures OpenByHistory(Sends(c, calls, ch), LimitsOf(c, ServiceOf(ch)), k.now)
  {
    DeliveryPassedGate(c, Run(c, calls), k, ch);
    GateIsExact(c, calls, ch, k.now);
  }

  lemma OneMoreInOrder(sent: seq<RealSend>, x: RealSend, l: Limits, t: nat)
    requires InOrder(sent, l) && UpTo(sent, t) && t <= x.at
    requires forall i :: 0 <= i < |sent| && sent[i].recorded ==> sent[i].at + l.cooldown <= x.at
    ensures InOrder(sent + [x], l)
  {
    forall i | 0 <= i < |sent| ensures sent[i].at <= x.at { assert sent[i] in sent; }
  }

  lemma {:induction false} RealInOrder(c: Settings, calls: seq<Call>, ch: Channel)
    requires Ordered(calls)
    ensures InOrder(Real(c, calls, ch), LimitsOf(c, ServiceOf(ch))) && UpTo(Real(c, calls, ch), EndOf(calls))
  {
    if calls != [] {
      var n := |calls| - 1;
      var before, k, l := calls[..n], calls[n], LimitsOf(c, ServiceOf(ch));
      var sent := Real(c, before, ch);
      RealInOrder(c, before, ch);
      if Delivers(c, Run(c, before), k, ch) {
        DeliveryOpen(c, before, k, ch);
        RealAreRecordedAndCuts(c, before, ch);
        forall i | 0 <= i < |sent| && sent[i].recorded ensures sent[i].at + l.cooldown <= End(k) {
          AfterCooldown(Sends(c, before, ch), sent, l, k.now, i);
        }
        OneMoreInOrder(sent, RealSend(End(k), Perform(c, Run(c, before), k).1.SentOut?), l, EndOf(before));
      } else {
        assert NewReal(c, Run(c, before), k, ch) == [];
      }
    }
  }

  // ---------- The limits on real sends ----------

  lemma FirstRecorded(sent: seq<RealSend>, x: nat)
    requires forall y <- sent :: x <= y.at
    ensures forall t <- RecordedTimes(sent) :: x <= t
  {
    if sent != [] { FirstRecorded(sent[..|sent| - 1], x); }
  }

  lemma NoneLater(sent: seq<RealSend>, x: nat)
    requires forall y <- sent :: y.at <= x
    ensures forall t <- RecordedTimes(sent) :: t <= x
  {
    if sent != [] { NoneLater(sent[..|sent| - 1], x); }
  }

  /** The recorded sends of a stretch are consecutive in the recorded history. */
  lemma StretchRecorded(sent: seq<RealSend>, times: seq<nat>, i: nat, j: nat) returns (first: nat)
    requires i <= j < |sent| && times == RecordedTimes(sent)
    ensures first + |RecordedTimes(sent[i..j + 1])| <= |times|
    ensures RecordedTimes(sent[i..j + 1]) == times[first..first + |RecordedTimes(sent[i..j + 1])|]
  {
    var stretch := sent[i..j + 1];
    assert sent == sent[..i] + stretch + sent[j + 1..];
    RecordedAppend(sent[..i] + stretch, sent[j + 1..]);
    RecordedAppend(sent[..i], stretch);
    first := |RecordedTimes(sent[..i])|;
  }

  predicate Within(times: seq<nat>, from: nat, to: nat) {
    forall t <- times :: from <= t <= to
  }

  lemma StretchWithin(sent: seq<RealSend>, l: Limits, i: nat, j: nat)
    requires i <= j < |sent| && InOrder(sent, l)
    ensures Within(RecordedTimes(sent[i..j + 1]), sent[i].at, sent[j].at)
  {
    FirstRecorded(sent[i..j + 1], sent[i].at);
    NoneLater(sent[i..j + 1], sent[j].at);
  }

  /** Among the sends from `i` to `j`, those beyond twice the maximum are cuts, unless the
      stretch is a whole window long. */
  lemma StretchCapped(h: seq<Send>, sent: seq<RealSend>, l: Limits, i: nat, j: nat)
    requires Paced(h, l) && RecordedTimes(sent) == Times(h) && InOrder(sent, l) && i <= j < |sent|
    ensures sent[i].at + l.window <= sent[j].at || j + 1 - i <= 2 * l.maxSends + Cuts(sent[i..j + 1])
  {
    var first := StretchRecorded(sent, Times(h), i, j);
    StretchWithin(sent, l, i, j);
    TimesCapped(h, l, first, RecordedTimes(sent[i..j + 1]), sent[i].at, sent[j].at);
  }

  lemma TimesCapped(h: seq<Send>, l: Limits, first: nat, times: seq<nat>, from: nat, to: nat)
    requires Paced(h, l) && first + |times| <= |h| && times == Times(h)[first..first + |times|]
        && Within(times, from, to)
    ensures from + l.window <= to || |times| <= 2 * l.maxSends
  {
    if |times| > 2 * l.maxSends {
      var n := |times| - 1;
      IntervalCapped(h, l, first, first + n);
      assert times[0] in times && times[n] in times;
    }
  }

  /** What the limits promise of real sends: a send that is recorded is followed by none
      before its cooldown is over, and a stretch shorter than a window holds at most twice
      the maximum, and one more for each of its cuts. */
  lemma RealRateLimited(c: Settings, calls: seq<Call>, ch: Channel)
    requires Ordered(calls)
    ensures var sent, l := Real(c, calls, ch), LimitsOf(c, ServiceOf(ch));
            && (forall i, j :: 0 <= i < j < |sent| && sent[i].recorded ==> sent[i].at + l.cooldown <= sent[j].at)
            && (forall i, j :: 0 <= i <= j < |sent| && sent[j].at < sent[i].at + l.window ==>
                  j + 1 - i <= 2 * l.maxSends + Cuts(sent[i..j + 1]))
  {
    var sent, l := Real(c, calls, ch), LimitsOf(c, ServiceOf(ch));
    RealInOrder(c, calls, ch);
    RealAreRecordedAndCuts(c, calls, ch);
    RunPaced(c, calls, ch);
    forall i, j | 0 <= i <= j < |sent| && sent[j].at < sent[i].at + l.window
      ensures j + 1 - i <= 2 * l.maxSends + Cuts(sent[i..j + 1])
    {
      StretchCapped(Sends(c, calls, ch), sent, l, i, j);
    }
  }

  // ---------- Exactly when the cooldown holds ----------

  lemma OpenStays(h: seq<Send>, l: Limits, now: nat, later: nat)
    requires OpenByHistory(h, l, now) && now <= later
    ensures OpenByHistory(h, l, later)
  {
  }

  /** After a cut, and until something is recorded, the channel is open. */
  predicate CutOpen(h: seq<Send>, sent: seq<RealSend>, l: Limits, t: nat) {
    sent != [] && !sent[|sent| - 1].recorded ==> OpenByHistory(h, l, t)
  }

  /** What one call adds. */
  lemma OneCallAdds(c: Settings, calls: seq<Call>, k: Call, ch: Channel)
    requires Ordered(calls)
    ensures var x := NewReal(c, Run(c, calls), k, ch);
            && |x| <= 1
            && (x == [] || !x[0].recorded ==> NewSend(c, Run(c, calls), k, ch) == [])
            && (x != [] ==> OpenByHistory(Sends(c, calls, ch), LimitsOf(c, ServiceOf(ch)), k.now))
  {
    if Delivers(c, Run(c, calls), k, ch) { DeliveryOpen(c, calls, k, ch); }
  }

  lemma CutOpenStep(h: seq<Send>, y: seq<Send>, sent: seq<RealSend>, x: seq<RealSend>, l: Limits, t: nat, now: nat,
                    end: nat)
    requires CutOpen(h, sent, l, t) && t <= now <= end && |x| <= 1
    requires x == [] || !x[0].recorded ==> y == []
    requires x != [] ==> OpenByHistory(h, l, now)
    ensures CutOpen(h + y, sent + x, l, end)
  {
    if x == [] || !x[0].recorded { assert h + y == h && (x == [] ==> sent + x == sent); }
    if sent != [] && !sent[|sent| - 1].recorded { OpenStays(h, l, t, end); }
    if x != [] { OpenStays(h, l, now, end); }
  }

  predicate AfterCutOpen(c: Settings, calls: seq<Call>, ch: Channel) {
    CutOpen(Sends(c, calls, ch), Real(c, calls, ch), LimitsOf(c, ServiceOf(ch)), EndOf(calls))
  }

  /** One more call, in terms of what it adds. */
  lemma NextCutOpen(c: Settings, calls: seq<Call>, k: Call, ch: Channel, x: seq<RealSend>, y: seq<Send>)
    requires Ordered(calls + [k]) && Ordered(calls) && AfterCutOpen(c, calls, ch)
    requires x == NewReal(c, Run(c, calls), k, ch) && y == NewSend(c, Run(c, calls), k, ch)
    ensures CutOpen(Sends(c, calls, ch) + y, Real(c, calls, ch) + x, LimitsOf(c, ServiceOf(ch)), End(k))
  {
    OneCallAdds(c, calls, k, ch);
    var all := calls + [k];
    assert k in all && all[|calls|] == k && (calls != [] ==> all[|calls| - 1] == calls[|calls| - 1]);
    CutOpenStep(Sends(c, calls, ch), y, Real(c, calls, ch), x, LimitsOf(c, ServiceOf(ch)), EndOf(calls), k.now, End(k));
  }

  lemma {:induction false} RunCutOpen(c: Settings, calls: seq<Call>, ch: Channel)
    requires Ordered(calls)
    ensures AfterCutOpen(c, calls, ch)
  {
    if calls != [] {
      var n := |calls| - 1;
      var before, k := calls[..n], calls[n];
      RunCutOpen(c, before, ch);
      assert calls == before + [k];
      NextCutOpen(c, before, k, ch, NewReal(c, Run(c, before), k, ch), NewSend(c, Run(c, before), k, ch));
      OneMoreReal(c, before, k, ch);
    }
  }

  ghost predicate AlwaysCool(h: seq<Send>, l: Limits, from: nat, last: nat) {
    forall now: nat :: from <= now && OpenByHistory(h, l, now) ==> last + l.cooldown <= now
  }

  ghost predicate Consistent(h: seq<Send>, sent: seq<RealSend>, l: Limits, t: nat) {
    RecordedTimes(sent) == Times(h) && InOrder(sent, l) && CutOpen(h, sent, l, t)
  }

  lemma RunConsistent(c: Settings, calls: seq<Call>, ch: Channel)
    requires Ordered(calls)
    ensures Consistent(Sends(c, calls, ch), Real(c, calls, ch), LimitsOf(c, ServiceOf(ch)), EndOf(calls))
  {
    RealInOrder(c, calls, ch);
    RealAreRecordedAndCuts(c, calls, ch);
    RunCutOpen(c, calls, ch);
  }

  lemma CoolByHistory(h: seq<Send>, sent: seq<RealSend>, l: Limits, from: nat)
    requires Consistent(h, sent, l, from) && sent != []
    ensures var last := sent[|sent| - 1];
            AlwaysCool(h, l, from, last.at) <==> last.recorded || last.at + l.cooldown <= from
  {
    var last := sent[|sent| - 1];
    if last.recorded {
      forall now: nat | OpenByHistory(h, l, now) ensures last.at + l.cooldown <= now {
        AfterCooldown(h, sent, l, now, |sent| - 1);
      }
    }
  }

  /** Whenever the gate is open after the run, the cooldown of this send is over. */
  ghost predicate NextIsCool(c: Settings, calls: seq<Call>, ch: Channel, last: nat) {
    var s, l := Run(c, calls), LimitsOf(c, ServiceOf(ch));
    forall now: nat :: EndOf(calls) <= now && Gate(s, ch, l, now).Open? ==> last + l.cooldown <= now
  }

  lemma CoolGate(c: Settings, calls: seq<Call>, ch: Channel, last: nat)
    requires Ordered(calls)
    ensures NextIsCool(c, calls, ch, last) <==>
            AlwaysCool(Sends(c, calls, ch), LimitsOf(c, ServiceOf(ch)), EndOf(calls), last)
  {
    var s, h, l := Run(c, calls), Sends(c, calls, ch), LimitsOf(c, ServiceOf(ch));
    RunPaced(c, calls, ch);
    SameGate(s, h, ch, l, EndOf(calls), last);
  }

  lemma SameGate(s: Store<Key>, h: seq<Send>, ch: Channel, l: Limits, from: nat, last: nat)
    requires Mirrors(s, h, ch, l)
    ensures (forall now: nat :: from <= now && Gate(s, ch, l, now).Open? ==> last + l.cooldown <= now) <==>
            AlwaysCool(h, l, from, last)
  {
    forall now: nat ensures Gate(s, ch, l, now).Open? <==> OpenByHistory(h, l, now) {
      GateFollowsHistory(s, h, ch, l, now);
    }
  }

  lemma CoolInRun(c: Settings, calls: seq<Call>, ch: Channel, h: seq<Send>, sent: seq<RealSend>)
    requires Ordered(calls) && h == Sends(c, calls, ch) && sent == Real(c, calls, ch) && sent != []
    ensures var last, l := sent[|sent| - 1], LimitsOf(c, ServiceOf(ch));
            AlwaysCool(h, l, EndOf(calls), last.at) <==> last.recorded || last.at + l.cooldown <= EndOf(calls)
  {
    RunConsistent(c, calls, ch);
    CoolByHistory(h, sent, LimitsOf(c, ServiceOf(ch)), EndOf(calls));
  }

  /** Whether the next send is sure to keep the cooldown can be told before it is asked for:
      the latest send was recorded, or its cooldown is over already. */
  lemma CooldownExactly(c: Settings, calls: seq<Call>, ch: Channel)
    requires Ordered(calls) && Real(c, calls, ch) != []
    ensures var sent, l := Real(c, calls, ch), LimitsOf(c, ServiceOf(ch));
            var last := sent[|sent| - 1];
            NextIsCool(c, calls, ch, last.at) <==> last.recorded || last.at + l.cooldown <= EndOf(calls)
  {
    var sent := Real(c, calls, ch);
    CoolInRun(c, calls, ch, Sends(c, calls, ch), sent);
    CoolGate(c, calls, ch, sent[|sent| - 1].at);
  }

  // ---------- A run without limit ----------

  function CutLogin(code: string): Call {
    SendLogin("u", "p", code, 0, DeliveredUnrecorded(0))
  }

  function CutLogins(n: nat): (calls: seq<Call>)
    ensures |calls| == n && forall k <- calls :: k == CutLogin("1")
  {
    if n == 0 then [] else CutLogins(n - 1) + [CutLogin("1")]
  }

  lemma OneMoreReal(c: Settings, calls: seq<Call>, k: Call, ch: Channel)
    ensures Real(c, calls + [k], ch) == Real(c, calls, ch) + NewReal(c, Run(c, calls), k, ch)
    ensures Sends(c, calls + [k], ch) == Sends(c, calls, ch) + NewSend(c, Run(c, calls), k, ch)
  {
    assert (calls + [k])[..|calls|] == calls;
  }

  lemma CutDelivers(c: Settings, s: Store<Key>)
    requires Gate(s, LoginSms("p"), c.twoFactor, 0).Open?
    ensures NewReal(c, s, CutLogin("1"), LoginSms("p")) == [RealSend(0, false)]
    ensures NewSend(c, s, CutLogin("1"), LoginSms("p")) == []
  {
    assert Perform(c, s, CutLogin("1")) == PerformSendLogin(c, s, CutLogin("1"));
  }

  lemma OneMoreCut(c: Settings, calls: seq<Call>)
    requires Ordered(calls) && Sends(c, calls, LoginSms("p")) == []
    ensures Real(c, calls + [CutLogin("1")], LoginSms("p")) == Real(c, calls, LoginSms("p")) + [RealSend(0, false)]
    ensures Sends(c, calls + [CutLogin("1")], LoginSms("p")) == []
  {
    GateIsExact(c, calls, LoginSms("p"), 0);
    CutDelivers(c, Run(c, calls));
    OneMoreReal(c, calls, CutLogin("1"), LoginSms("p"));
  }

  ghost predicate AllCuts(c: Settings, calls: seq<Call>, n: nat) {
    var sent := Real(c, calls, LoginSms("p"));
    && Ordered(calls) && (forall x <- sent :: x == RealSend(0, false)) && |sent| == n
    && Sends(c, calls, LoginSms("p")) == []
  }

  lemma NextCut(c: Settings, calls: seq<Call>, n: nat)
    requires AllCuts(c, calls, n) && forall k <- calls :: k == CutLogin("1")
    ensures AllCuts(c, calls + [CutLogin("1")], n + 1)
  {
    OneMoreCut(c, calls);
    SameCallsOrdered(calls + [CutLogin("1")]);
  }

  lemma SameCallsOrdered(calls: seq<Call>)
    requires forall k <- calls :: k == CutLogin("1")
    ensures Ordered(calls)
  {
    forall i | 0 < i < |calls| ensures End(calls[i - 1]) <= calls[i].now {
      assert calls[i - 1] in calls && calls[i] in calls;
    }
  }

  /** Calls that are cut before they record are neither spaced nor counted: any number of
      codes goes to one number in one second. */
  lemma {:induction false} UnrecordedUnlimited(c: Settings, n: nat)
    ensures AllCuts(c, CutLogins(n), n)
  {
    if n > 0 {
      UnrecordedUnlimited(c, n - 1);
      NextCut(c, CutLogins(n - 1), n - 1);
      assert CutLogins(n) == CutLogins(n - 1) + [CutLogin("1")];
    }
  }
}
