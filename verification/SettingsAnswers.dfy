/** What a reader of the settings asks for and returns, call by call: every conversation that
    ends has one of a few shapes. */
module SettingsAnswers {
  import opened Options
  import opened SettingsCache

  /** The replies that a call can get. */
  predicate Suits(c: Command, r: Reply) {
    match c
    case Get => r.Down? || r.Miss? || r.Hit?
    case SetNx => r.Down? || r.Locked? || r.Busy?
    case Fetch => r.Down? || r.Unknown? || r.Answered?
    case Set(_) => r.Down? || r.Ok?
    case Delete => r.Down? || r.Ok?
    case Nothing => true
  }

  predicate Suited(replies: seq<Reply>, n: nat)
    requires n <= |replies|
  {
    n > 0 ==> Suited(replies, n - 1) && Suits(CommandOf(After(replies, n - 1)), replies[n - 1])
  }

  lemma {:induction false} SuitedAt(replies: seq<Reply>, n: nat, k: nat)
    requires k < n <= |replies| && Suited(replies, n)
    ensures Suits(CommandOf(After(replies, k)), replies[k])
  {
    if k < n - 1 { SuitedAt(replies, n - 1, k); }
  }

  /** Redis and auth-service give only such replies. */
  lemma ExecuteSuits(s: State, c: Command, down: bool, auth: Option<Settings>)
    ensures Suits(c, Execute(s, c, down, auth).1)
  {
  }

  /** The value that was in the cache. */
  predicate FromCache(r: Reply, result: Result) {
    r.Hit? && result == Found(r.answer, Cached(r.written, r.read))
  }

  /** No such user only if auth-service said so; an error only if it did not answer. */
  predicate FromAuth(r: Reply, result: Result) {
    match r
    case Answered(answer) => result == Found(answer, Own)
    case Unknown => result == NotFound
    case Down => result == Raised
    case _ => false
  }

  /** Redis fails at the first read: one more read, then auth-service. */
  predicate WithoutRedis(replies: seq<Reply>, calls: seq<Command>, result: Result)
    requires |calls| <= |replies|
  {
    || (calls == [Get, Get] && FromCache(replies[1], result))
    || (calls == [Get, Get, Fetch] && !replies[1].Hit? && FromAuth(replies[2], result))
  }

  /** With the lock: read again, fetch, write what was answered, and release in any case. */
  predicate UnderLock(replies: seq<Reply>, calls: seq<Command>, result: Result)
    requires |calls| <= |replies|
  {
    || (calls == [Get, SetNx, Get, Delete] && (FromCache(replies[2], result) || (replies[2].Down? && result == Raised)))
    || (calls == [Get, SetNx, Get, Fetch, Delete] && replies[2].Miss?
        && !replies[3].Answered? && FromAuth(replies[3], result))
    || (|calls| == 6 && replies[2].Miss? && replies[3].Answered?
        && calls == [Get, SetNx, Get, Fetch, Set(replies[3].answer), Delete]
        && if replies[4].Down? then result == Raised else FromAuth(replies[3], result))
  }

  /** How often the cache is polled while another reader holds the lock. */
  const POLLS: nat := 50

  ghost predicate Polled(replies: seq<Reply>, calls: seq<Command>, m: nat)
    requires |calls| <= |replies|
  {
    2 + m <= |calls| && forall i | 2 <= i < 2 + m :: calls[i] == Get && !replies[i].Hit?
  }

  /** A poll found the value. */
  ghost predicate PollHit(replies: seq<Reply>, calls: seq<Command>, result: Result)
    requires |calls| <= |replies|
  {
    var n := |calls|;
    2 < n <= 2 + POLLS && Polled(replies, calls, n - 3) && calls[n - 1] == Get && FromCache(replies[n - 1], result)
  }

  /** None did, and auth-service was asked in vain, or answered and the answer was written. */
  ghost predicate AllMissed(replies: seq<Reply>, calls: seq<Command>, result: Result)
    requires |calls| <= |replies|
  {
    && 3 + POLLS <= |calls| <= 4 + POLLS && Polled(replies, calls, POLLS) && calls[2 + POLLS] == Fetch
    && FromAuth(replies[2 + POLLS], result)
    && (|calls| == 4 + POLLS <==> replies[2 + POLLS].Answered?)
    && (|calls| == 4 + POLLS ==> calls[3 + POLLS] == Set(replies[2 + POLLS].answer))
  }

  /** Without the lock: poll, and after the last poll fetch all the same and write. */
  ghost predicate Waited(replies: seq<Reply>, calls: seq<Command>, result: Result)
    requires |calls| <= |replies|
  {
    && |calls| >= 2 && calls[..2] == [Get, SetNx]
    && (PollHit(replies, calls, result) || AllMissed(replies, calls, result))
  }

  /** The calls of a reader that has returned, and what it returned. */
  ghost predicate Conversation(replies: seq<Reply>, calls: seq<Command>, result: Result)
    requires 0 < |calls| <= |replies|
  {
    if replies[0].Hit? then calls == [Get] && FromCache(replies[0], result)
    else if replies[0].Down? then WithoutRedis(replies, calls, result)
    else if |calls| > 1 && replies[1].Locked? then UnderLock(replies, calls, result)
    else Waited(replies, calls, result)
  }

  /** The reader returns after its `n`-th reply. */
  predicate Returns(replies: seq<Reply>, n: nat)
    requires n <= |replies|
  {
    0 < n && After(replies, n).Done? && !After(replies, n - 1).Done?
  }

  lemma {:induction false} NotYet(replies: seq<Reply>, i: nat, n: nat)
    requires i < n <= |replies| && !After(replies, n - 1).Done?
    ensures !After(replies, i).Done?
    decreases n - i
  {
    if i < n - 1 { NotYet(replies, i + 1, n); }
  }

  /** A reader that has not returned makes its next call. */
  lemma GoesOn(replies: seq<Reply>, n: nat, k: nat)
    requires k <= n <= |replies| && Returns(replies, n) && Suited(replies, n) && !After(replies, k).Done?
    ensures k < n && Suits(CommandOf(After(replies, k)), replies[k])
    ensures After(replies, k + 1) == React(After(replies, k), replies[k])
    ensures Issued(replies, k + 1) == Issued(replies, k) + [CommandOf(After(replies, k))]
  {
    SuitedAt(replies, n, k);
  }

  lemma Ends(replies: seq<Reply>, n: nat, k: nat)
    requires k <= n <= |replies| && Returns(replies, n) && After(replies, k).Done?
    ensures k == n
  {
    if k < n { NotYet(replies, k, n); }
  }

  lemma FirstCalls(replies: seq<Reply>, n: nat)
    requires 2 <= n <= |replies|
    ensures Issued(replies, n)[..2] == Issued(replies, 2)
    decreases n
  {
    if n > 2 { FirstCalls(replies, n - 1); }
  }

  lemma WithoutRedisReturns(replies: seq<Reply>, n: nat)
    requires 1 <= n <= |replies| && Returns(replies, n) && Suited(replies, n)
    requires After(replies, 1) == Degraded && Issued(replies, 1) == [Get]
    ensures WithoutRedis(replies, Issued(replies, n), After(replies, n).result)
  {
    GoesOn(replies, n, 1);
    if replies[1].Hit? {
      Ends(replies, n, 2);
    } else {
      GoesOn(replies, n, 2);
      Ends(replies, n, 3);
    }
  }

  lemma UnderLockReturns(replies: seq<Reply>, n: nat, since: nat)
    requires 2 <= n <= |replies| && Returns(replies, n) && Suited(replies, n)
    requires After(replies, 2) == Checking(since) && Issued(replies, 2) == [Get, SetNx]
    ensures UnderLock(replies, Issued(replies, n), After(replies, n).result)
  {
    GoesOn(replies, n, 2);
    if replies[2].Miss? {
      FetchReturns(replies, n, since);
    } else {
      GoesOn(replies, n, 3);
      Ends(replies, n, 4);
    }
  }

  lemma FetchReturns(replies: seq<Reply>, n: nat, since: nat)
    requires 3 <= n <= |replies| && Returns(replies, n) && Suited(replies, n) && replies[2].Miss?
    requires After(replies, 3) == Fetching(since) && Issued(replies, 3) == [Get, SetNx, Get]
    ensures UnderLock(replies, Issued(replies, n), After(replies, n).result)
  {
    GoesOn(replies, n, 3);
    GoesOn(replies, n, 4);
    if replies[3].Answered? {
      GoesOn(replies, n, 5);
      Ends(replies, n, 6);
    } else {
      Ends(replies, n, 5);
    }
  }

  /** While it polls without a hit. */
  lemma {:induction false} Polling(replies: seq<Reply>, m: nat)
    requires m <= POLLS && 2 + m <= |replies| && After(replies, 2) == WaitOn(0.0)
    requires forall i | 2 <= i < 2 + m :: !replies[i].Hit?
    ensures After(replies, 2 + m) == WaitOn(m as real * WAIT_INTERVAL)
    ensures Polled(replies, Issued(replies, 2 + m), m)
    decreases m
  {
    if m > 0 {
      Polling(replies, m - 1);
      assert (m - 1) as real * WAIT_INTERVAL + WAIT_INTERVAL == m as real * WAIT_INTERVAL;
    }
  }

  /** How many of the replies from the third on come before the first hit. */
  function Misses(replies: seq<Reply>, n: nat): (m: nat)
    requires 2 <= n <= |replies|
    ensures 2 + m <= n && forall i | 2 <= i < 2 + m :: !replies[i].Hit?
    ensures 2 + m < n ==> replies[2 + m].Hit?
  {
    if n == 2 then 0
    else
      var m := Misses(replies, n - 1);
      if 2 + m < n - 1 || replies[n - 1].Hit? then m else m + 1
  }

  lemma WaitedReturns(replies: seq<Reply>, n: nat)
    requires 2 <= n <= |replies| && Returns(replies, n) && Suited(replies, n) && After(replies, 2) == WaitOn(0.0)
    requires Issued(replies, 2) == [Get, SetNx]
    ensures Waited(replies, Issued(replies, n), After(replies, n).result)
  {
    var m := Misses(replies, n);
    FirstCalls(replies, n);
    if m >= POLLS { LateReturns(replies, n); } else { PollReturns(replies, n, m); }
  }

  lemma PollReturns(replies: seq<Reply>, n: nat, m: nat)
    requires 2 <= n <= |replies| && Returns(replies, n) && Suited(replies, n) && After(replies, 2) == WaitOn(0.0)
    requires m < POLLS && 2 + m <= n && (2 + m < n ==> replies[2 + m].Hit?)
    requires forall i | 2 <= i < 2 + m :: !replies[i].Hit?
    ensures PollHit(replies, Issued(replies, n), After(replies, n).result)
  {
    var k := 2 + m;
    StillPolling(replies, m, k);
    PollEnds(replies, n, k);
    PollHitShape(replies, Issued(replies, k), m, After(replies, n).result);
  }

  lemma StillPolling(replies: seq<Reply>, m: nat, k: nat)
    requires m < POLLS && k == 2 + m <= |replies| && After(replies, 2) == WaitOn(0.0)
    requires forall i | 2 <= i < 2 + m :: !replies[i].Hit?
    ensures After(replies, k).Waiting? && Polled(replies, Issued(replies, k), m)
  {
    Polling(replies, m);
  }

  lemma PollEnds(replies: seq<Reply>, n: nat, k: nat)
    requires k <= n <= |replies| && Returns(replies, n) && Suited(replies, n)
    requires After(replies, k).Waiting? && (k < n ==> replies[k].Hit?)
    ensures n == k + 1 && Issued(replies, n) == Issued(replies, k) + [Get]
    ensures FromCache(replies[k], After(replies, n).result)
  {
    GoesOn(replies, n, k);
    Ends(replies, n, k + 1);
  }

  lemma PollHitShape(replies: seq<Reply>, calls: seq<Command>, m: nat, result: Result)
    requires |calls| == 2 + m < |replies| && m < POLLS && Polled(replies, calls, m)
    requires FromCache(replies[2 + m], result)
    ensures PollHit(replies, calls + [Get], result)
  {
  }

  lemma LateReturns(replies: seq<Reply>, n: nat)
    requires 2 + POLLS <= n <= |replies| && Returns(replies, n) && Suited(replies, n)
        && After(replies, 2) == WaitOn(0.0)
    requires forall i | 2 <= i < 2 + POLLS :: !replies[i].Hit?
    ensures AllMissed(replies, Issued(replies, n), After(replies, n).result)
  {
    Polling(replies, POLLS);
    LateEnds(replies, n, 2 + POLLS);
    LateShape(replies, Issued(replies, 2 + POLLS), Issued(replies, n), After(replies, n).result);
  }

  lemma LateEnds(replies: seq<Reply>, n: nat, k: nat)
    requires k <= n <= |replies| && Returns(replies, n) && Suited(replies, n) && After(replies, k) == FetchingLate
    ensures k < n && FromAuth(replies[k], After(replies, n).result)
    ensures n == k + (if replies[k].Answered? then 2 else 1)
    ensures Issued(replies, n) == Issued(replies, k) + [Fetch] +
                                    if replies[k].Answered? then [Set(replies[k].answer)] else []
  {
    GoesOn(replies, n, k);
    if replies[k].Answered? {
      GoesOn(replies, n, k + 1);
      Ends(replies, n, k + 2);
    } else {
      Ends(replies, n, k + 1);
    }
  }

  lemma LateShape(replies: seq<Reply>, polls: seq<Command>, calls: seq<Command>, result: Result)
    requires |polls| == 2 + POLLS && |polls| < |calls| <= |replies| && Polled(replies, polls, POLLS)
    requires FromAuth(replies[2 + POLLS], result)
    requires calls == polls + [Fetch] +
                        if replies[2 + POLLS].Answered? then [Set(replies[2 + POLLS].answer)] else []
    ensures AllMissed(replies, calls, result)
  {
  }

  /** Every reader that returns had a conversation of one of these shapes: what it returns is
      what the cache or auth-service told it, there is no such user only if auth-service said
      so, it raises only if a call failed, whoever took the lock releases it, and whoever did
      not fetches only after all polls missed. */
  lemma ConversationExactly(replies: seq<Reply>, n: nat)
    requires n <= |replies| && Returns(replies, n) && Suited(replies, n)
    ensures Conversation(replies, Issued(replies, n), After(replies, n).result)
  {
    GoesOn(replies, n, 0);
    if replies[0].Hit? {
      Ends(replies, n, 1);
    } else if replies[0].Down? {
      WithoutRedisReturns(replies, n);
    } else {
      GoesOn(replies, n, 1);
      if replies[1].Locked? {
        UnderLockReturns(replies, n, replies[1].at);
      } else {
        WaitedReturns(replies, n);
      }
    }
  }

  lemma {:induction false} StaysDone(replies: seq<Reply>, i: nat, n: nat)
    requires i <= n <= |replies| && After(replies, i).Done?
    ensures After(replies, n).Done?
    decreases n
  {
    if i < n { StaysDone(replies, i, n - 1); }
  }

  /** The longest conversation. */
  const LONGEST: nat := 4 + POLLS

  /** A reader whose calls are all answered returns: after that many calls at the latest. */
  lemma AlwaysReturns(replies: seq<Reply>, n: nat)
    requires LONGEST <= n <= |replies|
    ensures After(replies, n).Done?
  {
    var first := React(After(replies, 0), replies[0]);
    assert After(replies, 1) == first;
    if replies[0].Hit? {
      StaysDone(replies, 1, n);
    } else if replies[0].Down? {
      assert After(replies, 2).Done? || After(replies, 2) == FetchingOnly;
      assert After(replies, 3).Done?;
      StaysDone(replies, 3, n);
    } else if replies[1].Locked? {
      LockedReturns(replies);
      StaysDone(replies, 6, n);
    } else {
      assert After(replies, 2) == WaitOn(0.0);
      WaitingReturns(replies);
      StaysDone(replies, LONGEST, n);
    }
  }

  lemma LockedReturns(replies: seq<Reply>)
    requires 6 <= |replies| && !replies[0].Hit? && !replies[0].Down? && replies[1].Locked?
    ensures After(replies, 6).Done?
  {
    assert After(replies, 0) == Start;
    assert After(replies, 1) == Missed;
    assert After(replies, 2).Checking?;
    assert After(replies, 3).Releasing? || After(replies, 3).Fetching?;
    assert After(replies, 4).Done? || After(replies, 4).Releasing? || After(replies, 4).Writing?;
    assert After(replies, 5).Done? || After(replies, 5).Releasing?;
  }

  lemma WaitingReturns(replies: seq<Reply>)
    requires LONGEST <= |replies| && After(replies, 2) == WaitOn(0.0)
    ensures After(replies, LONGEST).Done?
  {
    var m := Misses(replies, LONGEST);
    if m >= POLLS {
      Polling(replies, POLLS);
      LateDone(replies, 2 + POLLS);
    } else {
      Polling(replies, m);
      HitDone(replies, 2 + m);
      StaysDone(replies, 3 + m, LONGEST);
    }
  }

  lemma HitDone(replies: seq<Reply>, k: nat)
    requires k < |replies| && After(replies, k).Waiting? && replies[k].Hit?
    ensures After(replies, k + 1).Done?
  {
  }

  lemma LateDone(replies: seq<Reply>, k: nat)
    requires k + 2 <= |replies| && After(replies, k) == FetchingLate
    ensures After(replies, k + 2).Done?
  {
    assert After(replies, k + 1).Done? || After(replies, k + 1).WritingLate?;
  }
}
