/** The worker's cache of one user's notification settings: a Redis value with a lifetime,
    a SET NX lock against stampedes, and readers that wait for the lock holder. Readers
    interleave freely; between two of a reader's calls anything may happen. */
module SettingsCache {
  import opened Options
  import Delivery

  type Settings = Delivery.Settings

  /** Lifetimes in seconds of the cached value and of the lock, and the longest wait. */
  const CACHE_TTL: nat := 900
  const LOCK_TTL: nat := 30
  const WAIT_INTERVAL: real := 0.1
  const WAIT_MAX: real := 5.0

  /** A settings value with the moment auth-service answered it. */
  datatype Answer = Answer(settings: Settings, fetched: nat)

  /** Where a returned value came from: this call's own fetch, or the cache entry it read. */
  datatype Origin = Own | Cached(written: nat, read: nat)

  datatype Result = NotFound | Found(answer: Answer, origin: Origin) | Raised

  /** A reader between two of its calls. */
  datatype Phase =
    | Start
    | Degraded                          // the first read failed
    | FetchingOnly                      // Redis is down: fetch and return, no write
    | Missed                            // about to try the lock
    | Checking(since: nat)              // lock taken: read once more
    | Fetching(since: nat)              // lock taken: ask auth-service
    | Writing(since: nat, answer: Answer)
    | Releasing(since: nat, result: Result)
    | Waiting(waited: real)             // lock taken by another reader
    | FetchingLate                      // waited too long: ask auth-service anyway
    | WritingLate(answer: Answer)
    | Done(result: Result)

  datatype Command = Get | SetNx | Fetch | Set(answer: Answer) | Delete | Nothing

  /** The answer to a command. `Down` is an error of Redis or of auth-service. */
  datatype Reply =
    | Down
    | Miss
    | Hit(answer: Answer, written: nat, read: nat)
    | Locked(at: nat)
    | Busy
    | Unknown                           // auth-service has no such user
    | Answered(answer: Answer)
    | Ok

  /** The call a reader makes next. */
  function CommandOf(phase: Phase): Command {
    match phase
    case Start => Get
    case Degraded => Get
    case FetchingOnly => Fetch
    case Missed => SetNx
    case Checking(_) => Get
    case Fetching(_) => Fetch
    case Writing(_, answer) => Set(answer)
    case Releasing(_, _) => Delete
    case Waiting(_) => Get
    case FetchingLate => Fetch
    case WritingLate(answer) => Set(answer)
    case Done(_) => Nothing
  }

  function HitResult(r: Reply): Result
    requires r.Hit?
  {
    Found(r.answer, Cached(r.written, r.read))
  }

  function WaitOn(waited: real): Phase {
    if waited < WAIT_MAX then Waiting(waited) else FetchingLate
  }

  /** Where the reply takes the reader. */
  function React(phase: Phase, r: Reply): Phase {
    match phase
    case Start => if r.Hit? then Done(HitResult(r)) else if r.Down? then Degraded else Missed
    case Degraded => if r.Hit? then Done(HitResult(r)) else FetchingOnly
    case FetchingOnly =>
      if r.Answered? then Done(Found(r.answer, Own)) else if r.Unknown? then Done(NotFound) else Done(Raised)
    case Missed => if r.Locked? then Checking(r.at) else WaitOn(0.0)
    case Checking(since) =>
      if r.Hit? then Releasing(since, HitResult(r)) else if r.Down? then Releasing(since, Raised) else Fetching(since)
    case Fetching(since) =>
      if r.Answered? then Writing(since, r.answer)
      else Releasing(since, if r.Unknown? then NotFound else Raised)
    case Writing(since, answer) => Releasing(since, if r.Down? then Raised else Found(answer, Own))
    case Releasing(_, result) => Done(result)
    case Waiting(waited) => if r.Hit? then Done(HitResult(r)) else WaitOn(waited + WAIT_INTERVAL)
    case FetchingLate =>
      if r.Answered? then WritingLate(r.answer) else if r.Unknown? then Done(NotFound) else Done(Raised)
    case WritingLate(answer) => Done(Found(answer, Own))
    case Done(_) => phase
  }

  // ---------- The shared system ----------

  datatype Entry = Entry(answer: Answer, written: nat)

  /** When a call began and when it returned. */
  datatype Span = Span(began: nat, ended: Option<nat>)

  /** The cached value, the lock's expiry, the clock and the readers; the history holds auth's
      answers, the longest time any write took after its fetch, the last invalidation,
      whether any lock holder ever outlived the lock, and the span of every call. */
  datatype State = State(cache: Option<Entry>, lock: Option<nat>, now: nat, readers: map<nat, Phase>,
                         answers: set<Answer>, slowest: nat, invalidated: Option<nat>, overran: bool,
                         spans: map<nat, Span>)

  const INIT := State(None, None, 0, map[], {}, 0, None, false, map[])

  /** `down`: the call of this step fails. `auth`: auth-service's answer if it is asked. */
  datatype Event =
    | Tick
    | Call(reader: nat)
    | Die(reader: nat)
    | Step(reader: nat, down: bool, auth: Option<Settings>)
    | Invalidate

  predicate CacheLive(s: State) {
    s.cache.Some? && s.now < s.cache.value.written + CACHE_TTL
  }

  predicate LockLive(s: State) {
    s.lock.Some? && s.now < s.lock.value
  }

  predicate Holds(phase: Phase) {
    phase.Checking? || phase.Fetching? || phase.Writing? || phase.Releasing?
  }

  /** Redis and auth-service execute a command. */
  function Execute(s: State, c: Command, down: bool, auth: Option<Settings>): (State, Reply) {
    if down then (s, Down) else
    match c
    case Get => (s, if CacheLive(s) then Hit(s.cache.value.answer, s.cache.value.written, s.now) else Miss)
    case SetNx => if LockLive(s) then (s, Busy) else (s.(lock := Some(s.now + LOCK_TTL)), Locked(s.now))
    case Fetch =>
      if auth.None? then (s, Unknown)
      else var a := Answer(auth.value, s.now); (s.(answers := s.answers + {a}), Answered(a))
    case Set(a) =>
      var delay := s.now - a.fetched;
      (s.(cache := Some(Entry(a, s.now)), slowest := if delay > s.slowest then delay else s.slowest), Ok)
    case Delete => (s.(lock := None), Ok)
    case Nothing => (s, Ok)
  }

  /** A call that returns now. */
  function Timed(spans: map<nat, Span>, r: nat, over: bool, now: nat): map<nat, Span> {
    if over && r in spans then spans[r := spans[r].(ended := Some(now))] else spans
  }

  function Next(s: State, e: Event): State {
    match e
    case Tick =>
      s.(now := s.now + 1,
         overran := s.overran || exists r <- s.readers ::
             Holds(s.readers[r]) && s.readers[r].since + LOCK_TTL <= s.now + 1)
    case Call(r) =>
      if r in s.readers then s else s.(readers := s.readers[r := Start], spans := s.spans[r := Span(s.now, None)])
    case Die(r) => s.(readers := s.readers - {r})
    case Step(r, down, auth) =>
      if r !in s.readers then s else
      var (s', reply) := Execute(s, CommandOf(s.readers[r]), down, auth);
      var phase := React(s.readers[r], reply);
      s'.(readers := s.readers[r := phase], spans := Timed(s.spans, r, phase.Done? && !s.readers[r].Done?, s.now))
    case Invalidate => s.(cache := None, invalidated := Some(s.now))
  }

  function Run(events: seq<Event>): State {
    if events == [] then INIT else Next(Run(events[..|events| - 1]), events[|events| - 1])
  }

  // ---------- What every step keeps ----------

  ghost predicate AnswerOk(s: State, a: Answer) {
    a in s.answers && a.fetched <= s.now
  }

  /** A cached result was written within the slowest delay and read within its lifetime. */
  ghost predicate ResultOk(s: State, r: Result) {
    r.Found? ==>
      && AnswerOk(s, r.answer)
      && (r.origin.Cached? ==>
            && r.answer.fetched <= r.origin.written <= r.origin.read <= s.now
            && r.origin.read < r.origin.written + CACHE_TTL
            && r.origin.written - r.answer.fetched <= s.slowest)
  }

  ghost predicate PhaseOk(s: State, phase: Phase) {
    match phase
    case Writing(_, a) => AnswerOk(s, a)
    case WritingLate(a) => AnswerOk(s, a)
    case Releasing(_, r) => ResultOk(s, r)
    case Done(r) => ResultOk(s, r)
    case _ => true
  }

  ghost predicate CacheOk(s: State) {
    s.cache.Some? ==>
      var e := s.cache.value;
      && AnswerOk(s, e.answer)
      && e.answer.fetched <= e.written <= s.now
      && e.written - e.answer.fetched <= s.slowest
      && (s.invalidated.Some? ==> s.invalidated.value <= e.written)
  }

  /** While no holder outlived its lock: at most one holder, and the lock is its own. */
  ghost predicate LockOk(s: State) {
    !s.overran ==>
      && (forall r <- s.readers :: Holds(s.readers[r]) ==>
            && s.lock == Some(s.readers[r].since + LOCK_TTL)
            && s.now < s.readers[r].since + LOCK_TTL)
      && (forall r, q | r in s.readers && q in s.readers && Holds(s.readers[r]) && Holds(s.readers[q]) :: r == q)
  }

  ghost predicate Inv(s: State) {
    && CacheOk(s)
    && (forall r <- s.readers :: PhaseOk(s, s.readers[r]))
    && (s.invalidated.Some? ==> s.invalidated.value <= s.now)
    && LockOk(s)
  }

  /** Time, answers and delays only grow. */
  predicate Later(s: State, s': State) {
    s.now <= s'.now && s.answers <= s'.answers && s.slowest <= s'.slowest
  }

  lemma PhaseStays(s: State, s': State, phase: Phase)
    requires Later(s, s') && PhaseOk(s, phase)
    ensures PhaseOk(s', phase)
  {
  }

  lemma ExecuteKeeps(s: State, c: Command, down: bool, auth: Option<Settings>)
    requires CacheOk(s) && (c.Set? ==> AnswerOk(s, c.answer)) && (s.invalidated.Some? ==> s.invalidated.value <= s.now)
    ensures var (s', reply) := Execute(s, c, down, auth);
            && Later(s, s') && s'.now == s.now && s'.invalidated == s.invalidated && CacheOk(s')
            && (reply.Answered? ==> AnswerOk(s', reply.answer))
            && (reply.Hit? ==> ResultOk(s', HitResult(reply)))
  {
  }

  lemma ReactOk(s: State, phase: Phase, r: Reply)
    requires PhaseOk(s, phase)
    requires r.Answered? ==> AnswerOk(s, r.answer)
    requires r.Hit? ==> ResultOk(s, HitResult(r))
    ensures PhaseOk(s, React(phase, r))
  {
  }

  lemma PhaseFields(s: State, s': State, phase: Phase)
    requires PhaseOk(s, phase) && s'.answers == s.answers && s'.slowest == s.slowest && s'.now == s.now
    ensures PhaseOk(s', phase)
  {
  }

  lemma StepKeepsPhases(s: State, r: nat, down: bool, auth: Option<Settings>)
    requires Inv(s) && r in s.readers
    ensures var s' := Next(s, Step(r, down, auth));
            && CacheOk(s') && (forall q <- s'.readers :: PhaseOk(s', s'.readers[q]))
            && s'.now == s.now && s'.invalidated == s.invalidated
  {
    var c := CommandOf(s.readers[r]);
    var (mid, reply) := Execute(s, c, down, auth);
    var s' := Next(s, Step(r, down, auth));
    assert PhaseOk(s, s.readers[r]);
    ExecuteKeeps(s, c, down, auth);
    PhaseStays(s, mid, s.readers[r]);
    ReactOk(mid, s.readers[r], reply);
    forall q <- s'.readers ensures PhaseOk(s', s'.readers[q]) {
      if q != r {
        PhaseStays(s, mid, s.readers[q]);
      }
      PhaseFields(mid, s', s'.readers[q]);
    }
  }

  predicate Takes(s: State, e: Event) {
    e.Step? && !e.down && e.reader in s.readers && s.readers[e.reader].Missed? && !LockLive(s)
  }

  predicate Frees(s: State, e: Event) {
    e.Step? && !e.down && e.reader in s.readers && s.readers[e.reader].Releasing?
  }

  lemma StepLock(s: State, e: Event)
    ensures Next(s, e).lock == if Takes(s, e) then Some(s.now + LOCK_TTL) else if Frees(s, e) then None else s.lock
    ensures s.now <= Next(s, e).now
  {
  }

  /** A holder is one that has just taken the lock, or was one before. */
  lemma StepHolder(s: State, e: Event, r: nat)
    requires r in Next(s, e).readers && Holds(Next(s, e).readers[r])
    ensures if Takes(s, e) && e.reader == r then Next(s, e).readers[r].since == s.now
            else r in s.readers && Holds(s.readers[r]) && s.readers[r].since == Next(s, e).readers[r].since
  {
  }

  lemma StepKeepsLock(s: State, r: nat, down: bool, auth: Option<Settings>)
    requires LockOk(s) && r in s.readers
    ensures LockOk(Next(s, Step(r, down, auth)))
  {
    var e := Step(r, down, auth);
    var s' := Next(s, e);
    if !s'.overran {
      StepLock(s, e);
      forall q <- s'.readers | Holds(s'.readers[q])
        ensures s'.lock == Some(s'.readers[q].since + LOCK_TTL) && s'.now < s'.readers[q].since + LOCK_TTL
        ensures (Takes(s, e) && q == r) || (q in s.readers && Holds(s.readers[q]) && !Takes(s, e))
      {
        StepHolder(s, e, q);
      }
    }
  }

  lemma TickKeeps(s: State)
    requires Inv(s)
    ensures Inv(Next(s, Tick))
  {
  }

  lemma StepKeeps(s: State, e: Event)
    requires Inv(s)
    ensures Inv(Next(s, e))
  {
    var s' := Next(s, e);
    match e
    case Tick => TickKeeps(s);
    case Step(r, down, auth) =>
      if r in s.readers {
        StepKeepsPhases(s, r, down, auth);
        StepKeepsLock(s, r, down, auth);
      }
    case _ =>
      forall r <- s'.readers ensures PhaseOk(s', s'.readers[r]) {
        if r in s.readers {
          PhaseFields(s, s', s.readers[r]);
        }
      }
  }

  lemma {:induction false} RunKeeps(events: seq<Event>)
    ensures Inv(Run(events))
  {
    if events != [] {
      RunKeeps(events[..|events| - 1]);
      StepKeeps(Run(events[..|events| - 1]), events[|events| - 1]);
    }
  }

  // ---------- Theorems over every interleaving ----------

  /** What a result took from the world it took between these moments. */
  predicate TakenWithin(from: nat, to: nat, r: Result) {
    r.Found? ==>
      match r.origin
      case Own => from <= r.answer.fetched <= to
      case Cached(_, read) => from <= read <= to
  }

  predicate SpanOk(span: Span, phase: Phase, now: nat) {
    span.began <= now && (
      match phase
      case Writing(_, a) => span.began <= a.fetched <= now
      case WritingLate(a) => span.began <= a.fetched <= now
      case Releasing(_, r) => TakenWithin(span.began, now, r)
      case Done(r) => span.ended.Some? && span.ended.value <= now && TakenWithin(span.began, span.ended.value, r)
      case _ => true)
  }

  ghost predicate SpansOk(s: State) {
    forall r <- s.readers :: r in s.spans && SpanOk(s.spans[r], s.readers[r], s.now)
  }

  lemma ReactInTime(span: Span, phase: Phase, r: Reply, now: nat)
    requires SpanOk(span, phase, now) && (r.Hit? ==> r.read == now) && (r.Answered? ==> r.answer.fetched == now)
    ensures SpanOk(if React(phase, r).Done?
        && !phase.Done? then span.(ended := Some(now)) else span, React(phase, r), now)
  {
  }

  lemma ExecuteInTime(s: State, c: Command, down: bool, auth: Option<Settings>)
    ensures var (s', reply) := Execute(s, c, down, auth);
            && s'.now == s.now && s'.spans == s.spans && s'.readers == s.readers
            && (reply.Hit? ==> reply.read == s.now) && (reply.Answered? ==> reply.answer.fetched == s.now)
  {
  }

  lemma StepKeepsSpans(s: State, e: Event)
    requires SpansOk(s)
    ensures SpansOk(Next(s, e))
  {
    match e {
      case Step(r, down, auth) =>
        if r in s.readers {
          var (mid, reply) := Execute(s, CommandOf(s.readers[r]), down, auth);
          ExecuteInTime(s, CommandOf(s.readers[r]), down, auth);
          ReactInTime(s.spans[r], s.readers[r], reply, s.now);
        }
      case _ =>
    }
  }

  lemma {:induction false} RunKeepsSpans(events: seq<Event>)
    ensures SpansOk(Run(events))
  {
    if events != [] {
      RunKeepsSpans(events[..|events| - 1]);
      StepKeepsSpans(Run(events[..|events| - 1]), events[|events| - 1]);
    }
  }

  /** Bounded staleness: a returned value is one that auth-service really answered, either
      within this very call, or less than the cache lifetime plus the slowest fetch-to-write
      delay before this call read it. So when the call returns, the answer is older than
      that sum by less than the call took. */
  lemma BoundedStaleness(events: seq<Event>, reader: nat)
    requires var s := Run(events);
             reader in s.readers && s.readers[reader].Done? && s.readers[reader].result.Found?
    ensures var s := Run(events);
            var found := s.readers[reader].result;
            && reader in s.spans && s.spans[reader].ended.Some?
            && var began, ended := s.spans[reader].began, s.spans[reader].ended.value;
            && began <= ended <= s.now && found.answer in s.answers
            && (match found.origin
                case Own => began <= found.answer.fetched <= ended
                case Cached(_, read) =>
                  && began <= read <= ended
                  && found.answer.fetched <= read < found.answer.fetched + CACHE_TTL + s.slowest)
            && ended - found.answer.fetched < CACHE_TTL + s.slowest + (ended - began)
  {
    RunKeeps(events);
    RunKeepsSpans(events);
    var s := Run(events);
    assert PhaseOk(s, s.readers[reader]);
  }

  /** An invalidation removes everything written before it: a value still served from the
      cache was written afterwards, so only a fetch that straddles the invalidation can
      bring back what it meant to remove. */
  lemma InvalidationRemoves(events: seq<Event>)
    requires var s := Run(events); CacheLive(s) && s.invalidated.Some?
    ensures var s := Run(events); s.invalidated.value <= s.cache.value.written
  {
    RunKeeps(events);
  }

  /** One reader at a time asks auth-service under the lock, as long as no holder outlives
      the lock's lifetime. */
  lemma OneHolder(events: seq<Event>, r: nat, q: nat)
    requires var s := Run(events);
             !s.overran && r in s.readers && q in s.readers && Holds(s.readers[r]) && Holds(s.readers[q])
    ensures r == q
  {
    RunKeeps(events);
  }

  // ---------- What the cache holds ----------

  predicate Writes(s: State, e: Event) {
    && e.Step? && !e.down && e.reader in s.readers
    && (s.readers[e.reader].Writing? || s.readers[e.reader].WritingLate?)
  }

  /** The step at which the cache was written or invalidated last. */
  function LastChange(events: seq<Event>): (i: Option<nat>)
    ensures i.Some? ==> i.value < |events|
    ensures i.Some? ==> events[i.value].Invalidate? || Writes(Run(events[..i.value]), events[i.value])
  {
    if events == [] then None
    else
      var n := |events| - 1;
      if events[n].Invalidate? || Writes(Run(events[..n]), events[n]) then Some(n)
      else
        var i := LastChange(events[..n]);
        assert i.Some? ==> events[..n][..i.value] == events[..i.value];
        i
  }

  /** What that change left. */
  function LeftInCache(events: seq<Event>): Option<Entry> {
    var i := LastChange(events);
    if i.None? || events[i.value].Invalidate? then None
    else
      var before := Run(events[..i.value]);
      Some(Entry(before.readers[events[i.value].reader].answer, before.now))
  }

  lemma StepCache(s: State, e: Event)
    ensures Next(s, e).cache ==
              if e.Invalidate? then None
              else if Writes(s, e) then Some(Entry(s.readers[e.reader].answer, s.now))
              else s.cache
  {
  }

  lemma LeftStep(events: seq<Event>)
    requires events != []
    ensures var n := |events| - 1;
            LeftInCache(events) ==
              if events[n].Invalidate? then None
              else if Writes(Run(events[..n]), events[n])
                then Some(Entry(Run(events[..n]).readers[events[n].reader].answer, Run(events[..n]).now))
              else LeftInCache(events[..n])
  {
    var n := |events| - 1;
    var i := LastChange(events[..n]);
    assert i.Some? ==> events[..n][..i.value] == events[..i.value];
  }

  /** The cache holds what was written last, unless an invalidation came after it. */
  lemma {:induction false} CacheIsLastWritten(events: seq<Event>)
    ensures Run(events).cache == LeftInCache(events)
  {
    if events != [] {
      var n := |events| - 1;
      CacheIsLastWritten(events[..n]);
      LeftStep(events);
      StepCache(Run(events[..n]), events[n]);
    }
  }

  /** A read that is answered finds the cached value exactly while it is younger than its
      lifetime; otherwise it misses. */
  lemma ReadExactly(events: seq<Event>)
    ensures var s, entry := Run(events), LeftInCache(events);
            Execute(s, Get, false, None) ==
            (s, if entry.Some? && s.now < entry.value.written + CACHE_TTL
                then Hit(entry.value.answer, entry.value.written, s.now) else Miss)
  {
    CacheIsLastWritten(events);
  }

  // ---------- When a newcomer gets in beside a holder ----------

  /** The step at which somebody took the lock last. */
  function LastTaking(events: seq<Event>): (i: Option<nat>)
    ensures i.Some? ==> i.value < |events|
  {
    if events == [] then None
    else
      var n := |events| - 1;
      if Takes(Run(events[..n]), events[n]) then Some(n) else LastTaking(events[..n])
  }

  function TakenAt(events: seq<Event>): nat
    requires LastTaking(events).Some?
  {
    Run(events[..LastTaking(events).value]).now
  }

  /** Somebody released the lock after this step, whoever had taken it. */
  ghost predicate FreedAfter(events: seq<Event>, i: nat) {
    exists k | i < k < |events| :: Frees(Run(events[..k]), events[k])
  }

  lemma FreedBefore(events: seq<Event>, i: nat)
    requires events != [] && i < |events| - 1
    ensures var n := |events| - 1;
            FreedAfter(events, i) <==> FreedAfter(events[..n], i) || Frees(Run(events[..n]), events[n])
  {
    var n := |events| - 1;
    forall k | i < k < n ensures events[..n][..k] == events[..k] && events[..n][k] == events[k] {
    }
  }

  lemma TakingBefore(events: seq<Event>)
    requires events != [] && LastTaking(events[..|events| - 1]).Some?
    requires !Takes(Run(events[..|events| - 1]), events[|events| - 1])
    ensures LastTaking(events) == LastTaking(events[..|events| - 1])
        && TakenAt(events) == TakenAt(events[..|events| - 1])
  {
    assert events[..|events| - 1][..LastTaking(events).value] == events[..LastTaking(events).value];
  }

  /** The lock that this history leaves. */
  ghost function LockOf(events: seq<Event>): Option<nat> {
    var i := LastTaking(events);
    if i.None? || FreedAfter(events, i.value) then None else Some(TakenAt(events) + LOCK_TTL)
  }

  lemma LockOfStep(events: seq<Event>)
    requires events != []
    ensures var n := |events| - 1;
            LockOf(events) ==
              if Takes(Run(events[..n]), events[n]) then Some(Run(events[..n]).now + LOCK_TTL)
              else if Frees(Run(events[..n]), events[n]) then None
              else LockOf(events[..n])
  {
    var n := |events| - 1;
    if !Takes(Run(events[..n]), events[n]) && LastTaking(events[..n]).Some? {
      TakingBefore(events);
      FreedBefore(events, LastTaking(events).value);
    }
  }

  /** The lock is the last one taken, unless a release came after it. */
  lemma {:induction false} LockIsLastTaken(events: seq<Event>)
    ensures Run(events).lock == LockOf(events)
  {
    if events != [] {
      var n := |events| - 1;
      LockIsLastTaken(events[..n]);
      LockOfStep(events);
      StepLock(Run(events[..n]), events[n]);
    }
  }

  /** The last taking is no earlier than that of any holder. */
  lemma {:induction false} HolderTook(events: seq<Event>, r: nat)
    requires r in Run(events).readers && Holds(Run(events).readers[r])
    ensures LastTaking(events).Some? && Run(events).readers[r].since <= TakenAt(events) <= Run(events).now
  {
    var n := |events| - 1;
    var s, e := Run(events[..n]), events[n];
    StepLock(s, e);
    StepHolder(s, e, r);
    if !(Takes(s, e) && e.reader == r) {
      HolderTook(events[..n], r);
      if !Takes(s, e) { TakingBefore(events); }
    }
  }

  /** The newcomer's SET NX. */
  lemma TriesLock(s: State, q: nat, auth: Option<Settings>)
    requires q in s.readers && s.readers[q].Missed?
    ensures var s' := Next(s, Step(q, false, auth));
            && s'.readers == s.readers[q := if LockLive(s) then Waiting(0.0) else Checking(s.now)]
  {
  }

  lemma LostMeansOverran(events: seq<Event>, r: nat)
    requires r in Run(events).readers && Holds(Run(events).readers[r])
    ensures LockLive(Run(events)) || Run(events).overran
  {
    RunKeeps(events);
  }

  /** A reader that has missed the cache, and whose call is answered, gets in beside a holder
      if and only if the lock taken last, the holder's own or a later one, has run out or
      has been released by somebody; and that happens only after some holder outlived a lock. */
  lemma NewcomerEntersExactly(events: seq<Event>, r: nat, q: nat, auth: Option<Settings>)
    requires var s := Run(events); r in s.readers && Holds(s.readers[r]) && q in s.readers && s.readers[q].Missed?
    ensures LastTaking(events).Some? && Run(events).readers[r].since <= TakenAt(events) <= Run(events).now
    ensures var s, s' := Run(events), Run(events + [Step(q, false, auth)]);
            && q in s'.readers && r in s'.readers && Holds(s'.readers[r])
            && (Holds(s'.readers[q]) <==>
                TakenAt(events) + LOCK_TTL <= s.now || FreedAfter(events, LastTaking(events).value))
            && (Holds(s'.readers[q]) ==> s.overran)
  {
    HolderTook(events, r);
    LockIsLastTaken(events);
    RunStep(events, Step(q, false, auth));
    TriesLock(Run(events), q, auth);
    LostMeansOverran(events, r);
  }

  function Ticks(n: nat): seq<Event> {
    if n == 0 then [] else Ticks(n - 1) + [Tick]
  }

  lemma RunStep(events: seq<Event>, e: Event)
    ensures Run(events + [e]) == Next(Run(events), e)
  {
    assert (events + [e])[..|events|] == events;
  }

  /** The same but for the time, and for holders that have outlived their lock. */
  predicate Waited(s: State, s': State, n: nat) {
    s' == s.(now := s.now + n, overran := s'.overran)
  }

  lemma OneTick(s: State, s': State, n: nat)
    requires 0 < n && Waited(s, s', n - 1)
    ensures Waited(s, Next(s', Tick), n)
  {
  }

  lemma TicksLast(events: seq<Event>, n: nat)
    requires 0 < n
    ensures Run(events + Ticks(n)) == Next(Run(events + Ticks(n - 1)), Tick)
  {
    RunStep(events + Ticks(n - 1), Tick);
    assert events + Ticks(n) == events + Ticks(n - 1) + [Tick];
  }

  lemma {:induction false} TicksPass(events: seq<Event>, n: nat)
    ensures Waited(Run(events), Run(events + Ticks(n)), n)
  {
    if n == 0 {
      assert events + Ticks(0) == events;
    } else {
      TicksPass(events, n - 1);
      TicksLast(events, n);
      OneTick(Run(events), Run(events + Ticks(n - 1)), n);
    }
  }

  /** The first reader takes the lock. */
  lemma FirstTakes() returns (events: seq<Event>)
    ensures var s := Run(events);
            s.readers == map[0 := Checking(0)] && s.lock == Some(LOCK_TTL) && s.now == 0 && s.cache.None?
  {
    var go := Step(0, false, None);
    var a := [Call(0)];
    assert [] + [Call(0)] == a;
    RunStep([], Call(0));
    RunStep(a, go);
    RunStep(a + [go], go);
    events := a + [go] + [go];
  }

  /** It outlives the lock. */
  lemma Overstays() returns (events: seq<Event>)
    ensures var s := Run(events);
            && s.readers == map[0 := Checking(0)] && s.lock == Some(LOCK_TTL) && s.now == LOCK_TTL && s.cache.None?
  {
    var taken := FirstTakes();
    TicksPass(taken, LOCK_TTL);
    events := taken + Ticks(LOCK_TTL);
  }

  lemma SecondTakes(before: seq<Event>) returns (events: seq<Event>)
    requires var s := Run(before);
             s.readers == map[0 := Checking(0)] && s.lock == Some(LOCK_TTL) && s.now == LOCK_TTL && s.cache.None?
    ensures var s := Run(events);
            s.readers == map[0 := Checking(0), 1 := Checking(LOCK_TTL)] && s.now == LOCK_TTL
                && s.lock == Some(LOCK_TTL + LOCK_TTL)
  {
    var go := Step(1, false, None);
    RunStep(before, Call(1));
    RunStep(before + [Call(1)], go);
    RunStep(before + [Call(1)] + [go], go);
    events := before + [Call(1)] + [go] + [go];
  }

  lemma FirstReleases(before: seq<Event>) returns (events: seq<Event>)
    requires var s := Run(before); s.readers == map[0 := Checking(0), 1 := Checking(LOCK_TTL)] && s.now == LOCK_TTL
    ensures var s := Run(before + events);
            s.lock.None? && s.now == LOCK_TTL && 1 in s.readers && s.readers[1] == Checking(LOCK_TTL)
  {
    var fail, release := Step(0, true, None), Step(0, false, None);
    RunStep(before, fail);
    RunStep(before + [fail], release);
    events := [fail, release];
    assert before + events == before + [fail] + [release];
  }

  /** A run with two holders, in which the release of the late one then frees the lock that
      the other has just taken. */
  lemma LateRelease() returns (events: seq<Event>, later: seq<Event>)
    ensures var s := Run(events); s.readers.Keys == {0, 1} && Holds(s.readers[0]) && Holds(s.readers[1]) && LockLive(s)
    ensures var s := Run(events + later); 1 in s.readers && s.readers[1] == Checking(s.now) && !LockLive(s)
  {
    var first := Overstays();
    events := SecondTakes(first);
    later := FirstReleases(events);
  }

  // ---------- One reader's conversation ----------

  /** The reader after the first `n` replies to its calls. */
  function After(replies: seq<Reply>, n: nat): Phase
    requires n <= |replies|
  {
    if n == 0 then Start else React(After(replies, n - 1), replies[n - 1])
  }

  /** The calls that got these replies. */
  function Issued(replies: seq<Reply>, n: nat): (calls: seq<Command>)
    requires n <= |replies|
    ensures |calls| == n
  {
    if n == 0 then [] else Issued(replies, n - 1) + [CommandOf(After(replies, n - 1))]
  }

  /** A reader that took the lock and has returned issued the release last. */
  lemma LockIsReleased(replies: seq<Reply>, n: nat, m: nat)
    requires n < m <= |replies| && Holds(After(replies, n))
    requires After(replies, m).Done? && !After(replies, m - 1).Done?
    ensures Issued(replies, m)[m - 1] == Delete
  {
    HoldsUntilDone(replies, n, m - 1);
    DoneByRelease(After(replies, m - 1), replies[m - 1]);
  }

  lemma DoneByRelease(phase: Phase, r: Reply)
    requires Holds(phase) && React(phase, r).Done?
    ensures CommandOf(phase) == Delete
  {
  }

  lemma StillHolds(phase: Phase, r: Reply)
    ensures Holds(phase) || phase.Done? ==> Holds(React(phase, r)) || React(phase, r).Done?
  {
  }

  lemma {:induction false} HoldsUntilDone(replies: seq<Reply>, n: nat, m: nat)
    requires n <= m < |replies| && Holds(After(replies, n))
    ensures Holds(After(replies, m)) || After(replies, m).Done?
    decreases m
  {
    if n < m {
      HoldsUntilDone(replies, n, m - 1);
      StillHolds(After(replies, m - 1), replies[m - 1]);
    }
  }

  class SettingsReader {
    /** The calls made so far. */
    var commands: seq<Command>

    constructor ()
      ensures commands == []
    {
      commands := [];
    }

    /** Read the settings through the cache; `replies` answer the calls in order, and the
        reader is cut off after the last. */
    method GetNotificationSettings(replies: seq<Reply>) returns (phase: Phase, used: nat)
      requires commands == []
      modifies this
      ensures used <= |replies| && phase == After(replies, used) && commands == Issued(replies, used)
      ensures phase.Done? || used == |replies|
    {
      phase, used := Start, 0;
      if replies == [] {
        return;
      }
      commands := commands + [Get];
      used := 1;
      if replies[0].Hit? {
        var hit := replies[0];
        return Done(Found(hit.answer, Cached(hit.written, hit.read))), used;
      }
      if replies[0].Down? {
        phase, used := ReadWithoutRedis(replies);
        return;
      }
      if used == |replies| {
        return Missed, used;
      }
      commands := commands + [SetNx];
      used := 2;
      if replies[1].Locked? {
        phase, used := FetchUnderLock(replies, replies[1].at);
      } else {
        phase, used := WaitForHolder(replies);
      }
    }

    /** Redis does not answer: one more read, then auth-service, and nothing is written. */
    method ReadWithoutRedis(replies: seq<Reply>) returns (phase: Phase, used: nat)
      requires |replies| >= 1 && After(replies, 1) == Degraded && commands == Issued(replies, 1)
      modifies this
      ensures used <= |replies| && phase == After(replies, used) && commands == Issued(replies, used)
      ensures phase.Done? || used == |replies|
    {
      phase, used := Degraded, 1;
      if used == |replies| {
        return;
      }
      commands := commands + [Get];
      used := 2;
      if replies[1].Hit? {
        return Done(Found(replies[1].answer, Cached(replies[1].written, replies[1].read))), used;
      }
      phase := FetchingOnly;
      if used == |replies| {
        return;
      }
      commands := commands + [Fetch];
      used := 3;
      match replies[2]
      case Answered(answer) => phase := Done(Found(answer, Own));
      case Unknown => phase := Done(NotFound);
      case _ => phase := Done(Raised);
    }

    /** Read again, fetch and write; the lock is released whatever happens. */
    method FetchUnderLock(replies: seq<Reply>, since: nat) returns (phase: Phase, used: nat)
      requires |replies| >= 2 && After(replies, 2) == Checking(since) && commands == Issued(replies, 2)
      modifies this
      ensures used <= |replies| && phase == After(replies, used) && commands == Issued(replies, used)
      ensures phase.Done? || used == |replies|
    {
      phase, used := Checking(since), 2;
      if used == |replies| {
        return;
      }
      commands := commands + [Get];
      used := 3;
      match replies[2] {
        case Hit(answer, written, read) => phase := Releasing(since, Found(answer, Cached(written, read)));
        case Down => phase := Releasing(since, Raised);
        case _ =>
          phase := Fetching(since);
          if used == |replies| {
            return;
          }
          phase, used := FetchAndWrite(replies, since);
      }
      if phase.Releasing? && used < |replies| {
        phase, used := Release(replies, phase, used);
      }
    }

    method Release(replies: seq<Reply>, holding: Phase, calls: nat) returns (phase: Phase, used: nat)
      requires calls < |replies| && holding.Releasing? && holding == After(replies, calls)
          && commands == Issued(replies, calls)
      modifies this
      ensures phase == Done(holding.result) && used == calls + 1
      ensures phase == After(replies, used) && commands == Issued(replies, used)
    {
      commands := commands + [Delete];
      used := calls + 1;
      phase := Done(holding.result);
    }

    method FetchAndWrite(replies: seq<Reply>, since: nat) returns (phase: Phase, used: nat)
      requires |replies| >= 4 && After(replies, 3) == Fetching(since) && commands == Issued(replies, 3)
      modifies this
      ensures used <= |replies| && phase == After(replies, used) && commands == Issued(replies, used)
      ensures phase.Releasing? || used == |replies|
    {
      commands := commands + [Fetch];
      used := 4;
      match replies[3] {
        case Answered(answer) =>
          phase := Writing(since, answer);
          if used == |replies| {
            return;
          }
          commands := commands + [Set(answer)];
          used := 5;
          phase := Releasing(since, if replies[4].Down? then Raised else Found(answer, Own));
        case Unknown => phase := Releasing(since, NotFound);
        case _ => phase := Releasing(since, Raised);
      }
    }

    /** Poll the cache while another reader holds the lock, then fetch all the same. */
    method WaitForHolder(replies: seq<Reply>) returns (phase: Phase, used: nat)
      requires |replies| >= 2 && After(replies, 2) == WaitOn(0.0) && commands == Issued(replies, 2)
      modifies this
      ensures used <= |replies| && phase == After(replies, used) && commands == Issued(replies, used)
      ensures phase.Done? || used == |replies|
    {
      var waited := 0.0;
      used := 2;
      while waited < WAIT_MAX
        invariant 2 <= used <= |replies|
        invariant After(replies, used) == WaitOn(waited) && commands == Issued(replies, used)
        decreases |replies| - used
      {
        if used == |replies| {
          return WaitOn(waited), used;
        }
        waited := waited + WAIT_INTERVAL;
        commands := commands + [Get];
        used := used + 1;
        if replies[used - 1].Hit? {
          var hit := replies[used - 1];
          return Done(Found(hit.answer, Cached(hit.written, hit.read))), used;
        }
      }
      phase, used := FetchLate(replies, used);
    }

    /** Fetch without the lock, after waiting too long. */
    method FetchLate(replies: seq<Reply>, n: nat) returns (phase: Phase, used: nat)
      requires n <= |replies| && After(replies, n) == FetchingLate && commands == Issued(replies, n)
      modifies this
      ensures used <= |replies| && phase == After(replies, used) && commands == Issued(replies, used)
      ensures phase.Done? || used == |replies|
    {
      used := n;
      phase := FetchingLate;
      if used == |replies| {
        return;
      }
      commands := commands + [Fetch];
      used := used + 1;
      match replies[used - 1]
      case Answered(answer) =>
        phase := WritingLate(answer);
        if used == |replies| {
          return;
        }
        commands := commands + [Set(answer)];
        used := used + 1;
        phase := Done(Found(answer, Own));
      case Unknown => phase := Done(NotFound);
      case _ => phase := Done(Raised);
    }
  }
}
