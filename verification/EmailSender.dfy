/** The e-mail sender: one throttle and one circuit breaker for all senders. The lock is held
    while a sender is admitted and while a result is recorded, but not in between, so other
    senders act during a delivery. Times are real seconds of a monotonic clock. */
module EmailSenders {
  import opened Options

  datatype Config = Config(interval: real, threshold: nat, cooldown: real)

  /** An admission reads the clock three times: for the circuit, for the throttle, and after
      the sleep. */
  datatype Event =
    | Try(checked: real, measured: real, admitted: real)
    | Result(success: bool, now: real)
    | Abandon(now: real)   // cancelled during delivery: nothing is recorded

  datatype State = State(last: real, failures: nat, openUntil: Option<real>, inFlight: nat,
                         admissions: seq<Admission>, results: seq<Recorded>)

  datatype Admission = Admission(checked: real, at: real)

  datatype Recorded = Recorded(success: bool, at: real)

  predicate IsOpen(s: State, now: real) {
    s.openUntil.Some? && now < s.openUntil.value
  }

  function Begins(e: Event): real {
    match e
    case Try(checked, _, _) => checked
    case Result(_, now) => now
    case Abandon(now) => now
  }

  function Ends(e: Event): real {
    match e
    case Try(_, _, admitted) => admitted
    case Result(_, now) => now
    case Abandon(now) => now
  }

  /** The clock never goes back, and sleeping lasts at least as long as asked. */
  predicate Possible(c: Config, s: State, e: Event) {
    e.Try? ==>
      && e.checked <= e.measured <= e.admitted
      && (e.measured - s.last < c.interval ==> e.measured + (c.interval - (e.measured - s.last)) <= e.admitted)
  }

  function Record(c: Config, s: State, success: bool, now: real): State {
    var t := s.(inFlight := if s.inFlight > 0 then s.inFlight - 1
        else 0, results := s.results + [Recorded(success, now)]);
    if success then t.(failures := 0, openUntil := None)
    else t.(failures := s.failures + 1,
            openUntil := if s.failures + 1 >= c.threshold then Some(now + c.cooldown) else s.openUntil)
  }

  function Next(c: Config, s: State, e: Event): State {
    match e
    case Try(checked, measured, admitted) =>
      if IsOpen(s, checked) then s
      else s.(last := admitted, inFlight := s.inFlight + 1, admissions := s.admissions + [Admission(checked, admitted)])
    case Result(success, now) => if s.inFlight == 0 then s else Record(c, s, success, now)
    case Abandon(_) => if s.inFlight == 0 then s else s.(inFlight := s.inFlight - 1)
  }

  const Start := State(0.0, 0, None, 0, [], [])

  function Run(c: Config, s: State, es: seq<Event>): State {
    if es == [] then s else Next(c, Run(c, s, es[..|es| - 1]), es[|es| - 1])
  }

  /** The events follow one another in time, each possible where it happens. */
  ghost predicate Timely(c: Config, s: State, es: seq<Event>, since: real) {
    es != [] ==>
      var n := |es| - 1;
      && Timely(c, s, es[..n], since)
      && Possible(c, Run(c, s, es[..n]), es[n])
      && (if n == 0 then since else Ends(es[n - 1])) <= Begins(es[n])
  }

  // ---------- Invariants ----------

  /** The failures since the last success. */
  function TrailingFailures(results: seq<Recorded>): nat {
    if results == [] || results[|results| - 1].success then 0 else TrailingFailures(results[..|results| - 1]) + 1
  }

  ghost predicate Spaced(c: Config, admissions: seq<Admission>) {
    forall i :: 0 < i < |admissions| ==> admissions[i - 1].at + c.interval <= admissions[i].at
  }

  predicate BreakerExact(c: Config, s: State) {
    && s.failures == TrailingFailures(s.results)
    && (s.openUntil.Some? <==>
        s.results != [] && !s.results[|s.results| - 1].success && c.threshold <= TrailingFailures(s.results))
    && (s.openUntil.Some? ==> s.openUntil.value == s.results[|s.results| - 1].at + c.cooldown)
  }

  ghost predicate Inv(c: Config, s: State) {
    && BreakerExact(c, s)
    && Spaced(c, s.admissions)
    && (if s.admissions == [] then s.last == 0.0 else s.last == s.admissions[|s.admissions| - 1].at)
  }

  lemma RecordExact(c: Config, s: State, success: bool, now: real)
    requires BreakerExact(c, s)
    ensures BreakerExact(c, Record(c, s, success, now))
  {
  }

  lemma StepKeeps(c: Config, s: State, e: Event)
    requires Inv(c, s) && Possible(c, s, e)
    ensures Inv(c, Next(c, s, e))
  {
    if e.Result? { RecordExact(c, s, e.success, e.now); }
  }

  lemma {:induction false} RunKeeps(c: Config, s: State, es: seq<Event>, since: real)
    requires Inv(c, s) && Timely(c, s, es, since)
    ensures Inv(c, Run(c, s, es))
  {
    if es != [] {
      RunKeeps(c, s, es[..|es| - 1], since);
      StepKeeps(c, Run(c, s, es[..|es| - 1]), es[|es| - 1]);
    }
  }

  // ---------- The throttle ----------

  lemma {:induction false} SpacedBy(c: Config, admissions: seq<Admission>, i: nat, k: nat)
    requires Spaced(c, admissions) && i + k < |admissions|
    ensures admissions[i].at + k as real * c.interval <= admissions[i + k].at
  {
    if k > 0 {
      SpacedBy(c, admissions, i, k - 1);
      assert k as real * c.interval == (k - 1) as real * c.interval + c.interval;
    }
  }

  /** Whatever the senders do, the k-th admission after one comes k intervals later at least. */
  lemma Throttled(c: Config, es: seq<Event>, i: nat, k: nat)
    requires Timely(c, Start, es, 0.0)
    requires i + k < |Run(c, Start, es).admissions|
    ensures var admissions := Run(c, Start, es).admissions;
            admissions[i].at + k as real * c.interval <= admissions[i + k].at
  {
    RunKeeps(c, Start, es, 0.0);
    SpacedBy(c, Run(c, Start, es).admissions, i, k);
  }

  // ---------- The breaker ----------

  /** A sender is turned away exactly when at least the threshold of deliveries failed since
      the last success and the cooldown after the latest failure is not over. */
  lemma AdmittedExactly(c: Config, es: seq<Event>, e: Event)
    requires Timely(c, Start, es, 0.0) && e.Try?
    ensures var s := Run(c, Start, es);
            |Next(c, s, e).admissions| == |s.admissions| <==>
            && s.results != [] && !s.results[|s.results| - 1].success
            && c.threshold <= TrailingFailures(s.results)
            && e.checked < s.results[|s.results| - 1].at + c.cooldown
  {
    RunKeeps(c, Start, es, 0.0);
  }

  ghost predicate NoSuccess(es: seq<Event>) {
    forall e <- es :: e.Result? ==> !e.success
  }

  lemma {:induction false} StaysOpen(c: Config, s: State, es: seq<Event>, since: real, until: real)
    requires s.openUntil.Some? && until <= s.openUntil.value && Inv(c, s)
    requires Timely(c, s, es, since) && NoSuccess(es)
    requires until <= since + c.cooldown
    ensures Run(c, s, es).openUntil.Some? && until <= Run(c, s, es).openUntil.value
    ensures s.admissions <= Run(c, s, es).admissions
    ensures forall i :: |s.admissions| <= i < |Run(c, s, es).admissions| ==>
        until <= Run(c, s, es).admissions[i].checked
    ensures es != [] ==> since <= Begins(es[|es| - 1])
  {
    if es != [] {
      var n := |es| - 1;
      StaysOpen(c, s, es[..n], since, until);
      RunKeeps(c, s, es[..n], since);
      EndsLater(c, s, es, since);
    }
  }

  lemma {:induction false} EndsLater(c: Config, s: State, es: seq<Event>, since: real)
    requires Timely(c, s, es, since) && es != []
    ensures since <= Begins(es[|es| - 1]) <= Ends(es[|es| - 1])
  {
    var n := |es| - 1;
    if n > 0 { EndsLater(c, s, es[..n], since); }
  }

  lemma {:induction false} ResultsPast(c: Config, es: seq<Event>)
    requires Timely(c, Start, es, 0.0)
    ensures var results := Run(c, Start, es).results;
            results != [] ==> es != [] && results[|results| - 1].at <= Ends(es[|es| - 1])
  {
    if es != [] {
      ResultsPast(c, es[..|es| - 1]);
      EndsLater(c, Start, es, 0.0);
    }
  }

  /** While the circuit is open nobody is admitted before it closes, unless a success is
      recorded: further failures only put the time off. */
  lemma NoneBefore(c: Config, es: seq<Event>, later: seq<Event>, since: real)
    requires Timely(c, Start, es, 0.0) && Run(c, Start, es).openUntil.Some?
    requires Timely(c, Run(c, Start, es), later, since) && NoSuccess(later)
    requires es != [] ==> Ends(es[|es| - 1]) <= since
    ensures var s := Run(c, Start, es);
            forall i :: |s.admissions| <= i < |Run(c, s, later).admissions| ==>
              s.openUntil.value <= Run(c, s, later).admissions[i].checked
  {
    RunKeeps(c, Start, es, 0.0);
    ResultsPast(c, es);
    StaysOpen(c, Run(c, Start, es), later, since, Run(c, Start, es).openUntil.value);
  }

  // ---------- The sender ----------

  class EmailSender {
    const config: Config
    var lastSentAt: real
    var consecutiveFailures: nat
    var circuitOpenUntil: Option<real>
    ghost var inFlight: nat
    ghost var admissions: seq<Admission>
    ghost var results: seq<Recorded>

    ghost function View(): State
      reads this
    {
      State(lastSentAt, consecutiveFailures, circuitOpenUntil, inFlight, admissions, results)
    }

    constructor (config: Config)
      ensures this.config == config && View() == Start
    {
      this.config := config;
      lastSentAt, consecutiveFailures, circuitOpenUntil := 0.0, 0, None;
      inFlight, admissions, results := 0, [], [];
    }

    /** `delay` is what the sender sleeps; the last reading of the clock comes after it. */
    method ThrottleAndCheckCircuit(checked: real, measured: real, overrun: real) returns (admitted: bool, at: real)
      requires checked <= measured && 0.0 <= overrun
      modifies this
      ensures admitted == !IsOpen(old(View()), checked)
      ensures Possible(config, old(View()), Try(checked, measured, at))
      ensures View() == Next(config, old(View()), Try(checked, measured, at))
      ensures measured < old(lastSentAt) + config.interval ==> at == old(lastSentAt) + config.interval + overrun
      ensures old(lastSentAt) + config.interval <= measured ==> at == measured + overrun
      ensures consecutiveFailures == old(consecutiveFailures) && circuitOpenUntil == old(circuitOpenUntil)
      ensures lastSentAt == if admitted then at else old(lastSentAt)
    {
      var elapsed := measured - lastSentAt;
      var delay := if elapsed < config.interval then config.interval - elapsed else 0.0;
      at := measured + delay + overrun;
      if circuitOpenUntil.Some? && checked < circuitOpenUntil.value {
        return false, at;
      }
      lastSentAt := at;
      inFlight := inFlight + 1;
      admissions := admissions + [Admission(checked, at)];
      return true, at;
    }

    method RecordResult(success: bool, now: real)
      requires inFlight > 0
      modifies this
      ensures View() == Next(config, old(View()), Result(success, now))
      ensures success ==> consecutiveFailures == 0 && circuitOpenUntil == None
      ensures !success ==>
                && consecutiveFailures == old(consecutiveFailures) + 1
                && circuitOpenUntil == if config.threshold <= consecutiveFailures then Some(now + config.cooldown)
                                       else old(circuitOpenUntil)
    {
      inFlight := inFlight - 1;
      results := results + [Recorded(success, now)];
      if success {
        consecutiveFailures := 0;
        circuitOpenUntil := None;
        return;
      }
      consecutiveFailures := consecutiveFailures + 1;
      if consecutiveFailures >= config.threshold {
        circuitOpenUntil := Some(now + config.cooldown);
      }
    }

    /** One delivery with no other sender about. */
    method Send(checked: real, measured: real, overrun: real, delivered: bool, now: real) returns (ok: bool, at: real)
      requires checked <= measured && 0.0 <= overrun
      modifies this
      ensures ok == (!IsOpen(old(View()), checked) && delivered)
      ensures View() ==
              var e := Try(checked, measured, at);
              if IsOpen(old(View()), checked) then old(View())
                  else Next(config, Next(config, old(View()), e), Result(delivered, now))
      ensures ok ==> lastSentAt == at && consecutiveFailures == 0 && circuitOpenUntil == None
      ensures !ok && (old(circuitOpenUntil).None? || old(circuitOpenUntil).value <= checked) ==>
                lastSentAt == at && consecutiveFailures == old(consecutiveFailures) + 1
    {
      var admitted;
      admitted, at := ThrottleAndCheckCircuit(checked, measured, overrun);
      if !admitted {
        return false, at;
      }
      RecordResult(delivered, now);
      return delivered, at;
    }
  }
}
