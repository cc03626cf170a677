/** Which answer each call of the code services gets, in terms of the calls and answers
    before it: when a code is sent out or refused, and what a check says. */
module CodeAnswers {
  import opened Options
  import opened RedisStore
  import opened Codes
  import opened SendLimits
  import opened CodeHistory

  /** The last recorded send is less than a cooldown ago. */
  predicate Cooling(h: seq<Send>, l: Limits, now: nat) {
    h != [] && now < h[|h| - 1].at + l.cooldown
  }

  /** The counter of now holds the limit, and has not run out. */
  predicate Full(h: seq<Send>, l: Limits, now: nat) {
    && h != [] && l.maxSends <= |h| - LastOpening(h)
    && (h[LastOpening(h)].keeps ==> now < h[LastOpening(h)].at + l.window)
  }

  /** What a call that wants to send is told, after these recorded sends. */
  ghost predicate SendAnswer(r: Reply, h: seq<Send>, l: Limits, now: nat, fate: Fate) {
    && (forall left :: r == CoolingDown(left) <==> Cooling(h, l, now) && now + left == h[|h| - 1].at + l.cooldown)
    && (r == TooMany <==> !Cooling(h, l, now) && Full(h, l, now))
    && (r == SendFailed <==> OpenByHistory(h, l, now) && fate.Undelivered?)
    && (r == Unrecorded <==> OpenByHistory(h, l, now) && fate.DeliveredUnrecorded?)
    && (r == SentOut <==> OpenByHistory(h, l, now) && (fate.Delivered? || fate.DeliveredThenCut?))
  }

  lemma GateAnswer(s: Store<Key>, h: seq<Send>, ch: Channel, l: Limits, now: nat, fate: Fate)
    requires Mirrors(s, h, ch, l)
    ensures var gate := Gate(s, ch, l, now);
            SendAnswer(if gate.Open? then Deliver(s, ch, l, gate.sends, fate).1 else gate.reply, h, l, now, fate)
  {
    GateFollowsHistory(s, h, ch, l, now);
  }

  /** A login code is issued exactly when the number's recorded sends allow it; otherwise the
      answer says how long to wait, or that there were too many. */
  lemma LoginRequestedExactly(c: Settings, calls: seq<Call>, k: Call)
    requires Ordered(calls) && k.SendLogin?
    ensures SendAnswer(Perform(c, Run(c, calls), k).1, Sends(c, calls, LoginSms(k.phone)), c.twoFactor, k.now, k.fate)
  {
    RunPaced(c, calls, LoginSms(k.phone));
    GateAnswer(Run(c, calls), Sends(c, calls, LoginSms(k.phone)), LoginSms(k.phone), c.twoFactor, k.now, k.fate);
  }

  /** A change of phone needs an e-mail address; with one it is issued exactly when the new
      number's recorded sends allow it. */
  lemma PhoneRequestedExactly(c: Settings, calls: seq<Call>, k: Call)
    requires Ordered(calls) && k.RequestPhone?
    ensures var r, h := Perform(c, Run(c, calls), k).1, Sends(c, calls, ChangeSms(k.phone));
            && (r == EmailRequired <==> k.email == None || k.email == Some(""))
            && (r != EmailRequired ==> SendAnswer(r, h, c.phone, k.now, k.fate))
            && (Issues(Done(k, r), PhoneChange, k.user) <==>
                k.email.Some? && |k.email.value| > 0 && OpenByHistory(h, c.phone, k.now))
  {
    RunPaced(c, calls, ChangeSms(k.phone));
    GateAnswer(Run(c, calls), Sends(c, calls, ChangeSms(k.phone)), ChangeSms(k.phone), c.phone, k.now, k.fate);
  }

  /** A change of e-mail is issued exactly when the user's recorded sends to the old address
      allow it. */
  lemma EmailRequestedExactly(c: Settings, calls: seq<Call>, k: Call)
    requires Ordered(calls) && k.RequestEmail?
    ensures SendAnswer(Perform(c, Run(c, calls), k).1, Sends(c, calls, OldEmail(k.user)), c.email, k.now, k.fate)
  {
    RunPaced(c, calls, OldEmail(k.user));
    GateAnswer(Run(c, calls), Sends(c, calls, OldEmail(k.user)), OldEmail(k.user), c.email, k.now, k.fate);
  }

  // ---------- Checks ----------

  /** The answer when no code is pending: the lock may outlive the code that it guarded. */
  predicate NoneAnswer(c: Settings, h: seq<Done>, service: Service, user: string, r: Reply) {
    || r == NothingPending
    || (r == TooMany && !StageOf(h, service, user).Idle?
        && Wrongs(h, service, user) == LimitsOf(c, service).maxAttempts)
  }

  /** A code of the service is pending for the user. */
  predicate Pending(c: Settings, h: seq<Done>, service: Service, user: string, now: nat) {
    var stage := StageOf(h, service, user);
    !stage.Idle? && now < Expiry(c, stage, service)
  }

  /** What a check is told: `right` says whether its code is the pending one. */
  predicate CheckAnswer(c: Settings, h: seq<Done>, service: Service, user: string, now: nat, right: bool, value: string,
                        r: Reply)
  {
    if !Pending(c, h, service, user, now) then NoneAnswer(c, h, service, user, r)
    else if Wrongs(h, service, user) == LimitsOf(c, service).maxAttempts then r == TooMany
    else r == if right then Accepted(value) else Wrong
  }

  lemma LockSeen(c: Settings, s: Store<Key>, stage: Stage, wrongs: nat, service: Service, user: string, t: nat,
                 now: nat)
    requires HoldsIn(c, s, stage, wrongs, service, user, t)
    ensures Locked(s, service, user, LimitsOf(c, service), now) ==>
              !stage.Idle? && wrongs == LimitsOf(c, service).maxAttempts
  {
  }

  lemma LoginAnswer(c: Settings, calls: seq<Call>, k: Call)
    requires Ordered(calls) && k.VerifyLogin?
    ensures var h := History(c, calls);
            var stage := StageOf(h, TwoFactor, k.user);
            CheckAnswer(c, h, TwoFactor, k.user, k.now,
                        stage.Asked? && stage.request.SendLogin? && stage.request.code == k.code, "",
                        Perform(c, Run(c, calls), k).1)
  {
    var s, h, t := Run(c, calls), History(c, calls), EndOf(calls);
    RunHolds(c, calls, TwoFactor, k.user);
    var stage, wrongs := StageOf(h, TwoFactor, k.user), Wrongs(h, TwoFactor, k.user);
    if stage.Idle? || Expiry(c, stage, TwoFactor) <= k.now {
      NothingLive(c, s, stage, wrongs, TwoFactor, k.user, t, k.now);
      LockSeen(c, s, stage, wrongs, TwoFactor, k.user, t, k.now);
    } else {
      GuardIsExact(c, s, stage, wrongs, TwoFactor, k.user, t, k.now);
    }
  }

  lemma PhoneAnswer(c: Settings, calls: seq<Call>, k: Call)
    requires Ordered(calls) && k.ConfirmPhone?
    ensures var h := History(c, calls);
            var stage := StageOf(h, PhoneChange, k.user);
            var known := stage.Asked? && stage.request.RequestPhone?;
            CheckAnswer(c, h, PhoneChange, k.user, k.now,
                        known && stage.request.smsCode == k.smsCode && stage.request.emailCode == k.emailCode,
                        if known then stage.request.phone else "", Perform(c, Run(c, calls), k).1)
  {
    var s, h, t := Run(c, calls), History(c, calls), EndOf(calls);
    RunHolds(c, calls, PhoneChange, k.user);
    var stage, wrongs := StageOf(h, PhoneChange, k.user), Wrongs(h, PhoneChange, k.user);
    if stage.Idle? || Expiry(c, stage, PhoneChange) <= k.now {
      NothingLive(c, s, stage, wrongs, PhoneChange, k.user, t, k.now);
      LockSeen(c, s, stage, wrongs, PhoneChange, k.user, t, k.now);
    } else {
      GuardIsExact(c, s, stage, wrongs, PhoneChange, k.user, t, k.now);
      PhoneFieldsSeen(c, s, stage, wrongs, k.user, t, k.now);
    }
  }

  /** What the record says decides. */
  lemma OldEmailReply(c: Settings, s: Store<Key>, k: Call, address: string, code: string)
    requires k.VerifyOldEmail?
    requires var data := GetHash(s, Record(EmailChange, k.user), k.now);
             "old_email_code" in data && data["old_email_code"] == code && Field(data, "new_email") == address
    ensures var r, gate := Perform(c, s, k).1, Gate(s, NewEmail(address), c.email, k.now);
            r == if Locked(s, EmailChange, k.user, c.email, k.now) then TooMany
                 else if code != k.code then Wrong
                 else if gate.Shut? then gate.reply
                 else Deliver(s, NewEmail(address), c.email, gate.sends, k.fate).1
  {
  }

  lemma OldEmailLive(c: Settings, s: Store<Key>, k: Call, stage: Stage, wrongs: nat, t: nat)
    requires k.VerifyOldEmail? && HoldsIn(c, s, stage, wrongs, EmailChange, k.user, t)
    requires !stage.Idle? && k.now < Expiry(c, stage, EmailChange)
    ensures stage.request.RequestEmail?
    ensures var r, gate := Perform(c, s, k).1, Gate(s, NewEmail(stage.request.address), c.email, k.now);
            r == if wrongs == c.email.maxAttempts then TooMany
                 else if stage.request.code != k.code then Wrong
                 else if gate.Shut? then gate.reply
                 else Deliver(s, NewEmail(stage.request.address), c.email, gate.sends, k.fate).1
  {
    GuardIsExact(c, s, stage, wrongs, EmailChange, k.user, t, k.now);
    EmailFields(c, s, stage, wrongs, k.user, t, k.now);
    OldEmailReply(c, s, k, stage.request.address, stage.request.code);
  }

  lemma OldEmailDead(c: Settings, s: Store<Key>, k: Call, stage: Stage, wrongs: nat, t: nat)
    requires k.VerifyOldEmail? && HoldsIn(c, s, stage, wrongs, EmailChange, k.user, t)
    requires stage.Idle? || Expiry(c, stage, EmailChange) <= k.now
    ensures var r := Perform(c, s, k).1;
            r == NothingPending || (r == TooMany && !stage.Idle? && wrongs == c.email.maxAttempts)
  {
    NothingLive(c, s, stage, wrongs, EmailChange, k.user, t, k.now);
    LockSeen(c, s, stage, wrongs, EmailChange, k.user, t, k.now);
  }

  /** The old address's code: a right one is answered like a request to send to the new one. */
  lemma OldEmailAnswer(c: Settings, calls: seq<Call>, k: Call)
    requires Ordered(calls) && k.VerifyOldEmail?
    ensures var h, r := History(c, calls), Perform(c, Run(c, calls), k).1;
            if !Pending(c, h, EmailChange, k.user, k.now) then NoneAnswer(c, h, EmailChange, k.user, r)
            else if Wrongs(h, EmailChange, k.user) == c.email.maxAttempts then r == TooMany
            else
              var request := StageOf(h, EmailChange, k.user).request;
              && request.RequestEmail?
              && if request.code != k.code then r == Wrong
                 else SendAnswer(r, Sends(c, calls, NewEmail(request.address)), c.email, k.now, k.fate)
  {
    var s, h, t := Run(c, calls), History(c, calls), EndOf(calls);
    RunHolds(c, calls, EmailChange, k.user);
    var stage, wrongs := StageOf(h, EmailChange, k.user), Wrongs(h, EmailChange, k.user);
    if stage.Idle? || Expiry(c, stage, EmailChange) <= k.now {
      OldEmailDead(c, s, k, stage, wrongs, t);
    } else {
      OldEmailLive(c, s, k, stage, wrongs, t);
      SentToNew(c, calls, k, stage.request.address);
    }
  }

  lemma SentToNew(c: Settings, calls: seq<Call>, k: Call, address: string)
    requires Ordered(calls) && k.VerifyOldEmail?
    ensures var ch, s := NewEmail(address), Run(c, calls);
            var gate := Gate(s, ch, c.email, k.now);
            SendAnswer(if gate.Open? then Deliver(s, ch, c.email, gate.sends, k.fate).1 else gate.reply,
                       Sends(c, calls, ch), c.email, k.now, k.fate)
  {
    RunPaced(c, calls, NewEmail(address));
    GateAnswer(Run(c, calls), Sends(c, calls, NewEmail(address)), NewEmail(address), c.email, k.now, k.fate);
  }

  /** The new address's code, once the old address is confirmed. */
  lemma NewEmailAnswer(c: Settings, calls: seq<Call>, k: Call)
    requires Ordered(calls) && k.VerifyNewEmail?
    ensures var h, r := History(c, calls), Perform(c, Run(c, calls), k).1;
            var stage := StageOf(h, EmailChange, k.user);
            if Pending(c, h, EmailChange, k.user, k.now) && stage.Asked?
              && Wrongs(h, EmailChange, k.user) < c.email.maxAttempts then r == NothingPending
            else
              var known := stage.Confirmed? && stage.request.RequestEmail? && stage.extension.VerifyOldEmail?;
              CheckAnswer(c, h, EmailChange, k.user, k.now, known && stage.extension.newCode == k.code,
                          if known then stage.request.address else "", r)
  {
    var s, h, t := Run(c, calls), History(c, calls), EndOf(calls);
    RunHolds(c, calls, EmailChange, k.user);
    var stage, wrongs := StageOf(h, EmailChange, k.user), Wrongs(h, EmailChange, k.user);
    if stage.Idle? || Expiry(c, stage, EmailChange) <= k.now {
      NothingLive(c, s, stage, wrongs, EmailChange, k.user, t, k.now);
      LockSeen(c, s, stage, wrongs, EmailChange, k.user, t, k.now);
    } else {
      GuardIsExact(c, s, stage, wrongs, EmailChange, k.user, t, k.now);
      EmailFields(c, s, stage, wrongs, k.user, t, k.now);
    }
  }
}
