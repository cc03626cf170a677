/** What the answers of the code services say about the past: an answer depends only on the
    calls and answers before it, a code is accepted exactly when it is the latest, and
    guesses are bounded between two issues. */
module CodeHistory {
  import opened Options
  import opened RedisStore
  import opened Codes
  import opened SendLimits

  predicate Concerns(k: Call, service: Service, user: string) {
    k.user == user && (
      match k
      case SendLogin(_, _, _, _, _) => service == TwoFactor
      case VerifyLogin(_, _, _) => service == TwoFactor
      case RequestPhone(_, _, _, _, _, _, _) => service == PhoneChange
      case ConfirmPhone(_, _, _, _) => service == PhoneChange
      case _ => service == EmailChange)
  }

  /** The call stored a new code, whether or not its delivery then succeeded. */
  predicate Issues(d: Done, service: Service, user: string) {
    Concerns(d.call, service, user) && (d.reply.SentOut? || d.reply.SendFailed? || d.reply.Unrecorded?)
  }

  predicate Accepts(d: Done, service: Service, user: string) {
    Concerns(d.call, service, user) && d.reply.Accepted?
  }

  predicate IsWrong(d: Done, service: Service, user: string) {
    Concerns(d.call, service, user) && d.reply.Wrong?
  }

  /** What is pending for a user: call number `i` asked for it; for an e-mail change, call
      number `j` then confirmed the old address. */
  datatype Stage = Idle | Asked(i: nat, request: Call) | Confirmed(i: nat, request: Call, j: nat, extension: Call)

  function Move(stage: Stage, n: nat, d: Done, service: Service, user: string): Stage {
    if Issues(d, service, user) then
      if !d.call.VerifyOldEmail? then Asked(n, d.call)
      else if stage.Idle? then Idle
      else Confirmed(stage.i, stage.request, n, d.call)
    else if Accepts(d, service, user) then Idle
    else stage
  }

  function StageOf(h: seq<Done>, service: Service, user: string): Stage {
    if h == [] then Idle
    else Move(StageOf(h[..|h| - 1], service, user), |h| - 1, h[|h| - 1], service, user)
  }

  function Tally(wrongs: nat, d: Done, service: Service, user: string): nat {
    if Issues(d, service, user) then 0 else if IsWrong(d, service, user) then wrongs + 1 else wrongs
  }

  /** Wrong guesses since the last issue. */
  function Wrongs(h: seq<Done>, service: Service, user: string): nat {
    if h == [] then 0 else Tally(Wrongs(h[..|h| - 1], service, user), h[|h| - 1], service, user)
  }

  // ---------- Redis holds the stage and the tally ----------

  function At(s: Store<Key>, k: Key): Option<Entry> {
    if k in s then Some(s[k]) else None
  }

  predicate Opens(k: Call, service: Service) {
    match service
    case TwoFactor => k.SendLogin?
    case PhoneChange => k.RequestPhone?
    case EmailChange => k.RequestEmail?
  }

  predicate WellStaged(stage: Stage, service: Service) {
    && (!stage.Idle? ==> Opens(stage.request, service))
    && (stage.Confirmed? ==>
        service == EmailChange && stage.extension.VerifyOldEmail? && stage.extension.code == stage.request.code)
  }

  function Stored(request: Call): Value
    requires request.SendLogin? || request.RequestPhone? || request.RequestEmail?
  {
    match request
    case SendLogin(_, _, code, _, _) => Text(code)
    case RequestPhone(_, _, _, _, _, _, _) => Hash(PhoneFields(request))
    case RequestEmail(_, address, code, _, _) => Hash(map["new_email" := address, "old_email_code" := code])
  }

  function Expiry(c: Settings, stage: Stage, service: Service): nat
    requires !stage.Idle?
  {
    (if stage.Asked? then stage.request.now else stage.extension.now) + LimitsOf(c, service).codeTtl
  }

  function RecordFor(c: Settings, stage: Stage, service: Service): Option<Entry>
    requires WellStaged(stage, service)
  {
    match stage
    case Idle => None
    case Asked(_, request) => Some(Entry(Stored(request), Some(Expiry(c, stage, service))))
    case Confirmed(_, request, _, extension) =>
      Some(Entry(Hash(Stored(request).fields + map["new_email_code" := extension.newCode]),
                 Some(Expiry(c, stage, service))))
  }

  /** The attempt counter outlives the code that it guards. */
  predicate Guards(attempts: Option<Entry>, wrongs: nat, until: nat) {
    if wrongs == 0 then attempts.None?
    else
      && attempts.Some? && attempts.value.value == Count(wrongs)
      && attempts.value.expires.Some? && until <= attempts.value.expires.value
  }

  predicate Holds(c: Settings, record: Option<Entry>, attempts: Option<Entry>, stage: Stage, wrongs: nat,
                  service: Service, t: nat) {
    && WellStaged(stage, service)
    && record == RecordFor(c, stage, service)
    && wrongs <= LimitsOf(c, service).maxAttempts
    && (if stage.Idle? then attempts.None?
        else && Guards(attempts, wrongs, Expiry(c, stage, service))
             && Expiry(c, stage, service) <= t + LimitsOf(c, service).codeTtl)
  }

  predicate HoldsIn(c: Settings, s: Store<Key>, stage: Stage, wrongs: nat, service: Service, user: string, t: nat) {
    Holds(c, At(s, Record(service, user)), At(s, Attempts(service, user)), stage, wrongs, service, t)
  }

  // ---------- One call ----------

  predicate SameUser(s: Store<Key>, t: Store<Key>, service: Service, user: string) {
    At(s, Record(service, user)) == At(t, Record(service, user))
        && At(s, Attempts(service, user)) == At(t, Attempts(service, user))
  }

  lemma DeliverStays(s: Store<Key>, ch: Channel, l: Limits, sends: Option<nat>, fate: Fate, service: Service,
                     user: string)
    ensures SameUser(s, Deliver(s, ch, l, sends, fate).0, service, user)
  {
  }

  ghost predicate Kept(c: Settings, result: (Store<Key>, Reply), k: Call, n: nat, stage: Stage, wrongs: nat,
                       service: Service) {
    var d := Done(k, result.1);
    HoldsIn(c, result.0, Move(stage, n, d, service, k.user), Tally(wrongs, d, service, k.user), service, k.user, End(k))
  }

  lemma SendLoginKeeps(c: Settings, s: Store<Key>, k: Call, n: nat, stage: Stage, wrongs: nat, t: nat)
    requires k.SendLogin? && HoldsIn(c, s, stage, wrongs, TwoFactor, k.user, t) && t <= k.now <= End(k)
    ensures Kept(c, PerformSendLogin(c, s, k), k, n, stage, wrongs, TwoFactor)
  {
  }

  lemma RequestPhoneKeeps(c: Settings, s: Store<Key>, k: Call, n: nat, stage: Stage, wrongs: nat, t: nat)
    requires k.RequestPhone? && HoldsIn(c, s, stage, wrongs, PhoneChange, k.user, t) && t <= k.now <= End(k)
    ensures Kept(c, PerformRequestPhone(c, s, k), k, n, stage, wrongs, PhoneChange)
  {
    var l := c.phone;
    var gate := Gate(s, ChangeSms(k.phone), l, k.now);
    if k.email.Some? && k.email.value != "" && gate.Open? {
      var record := Record(PhoneChange, k.user);
      var stored := Delete(Expire(HSet(s, record, PhoneFields(k), k.now), record, k.now, l.codeTtl),
                           Attempts(PhoneChange, k.user));
      if stage.Asked? { assert PhoneFields(stage.request) + PhoneFields(k) == PhoneFields(k); }
      assert At(stored, record) == Some(Entry(Hash(PhoneFields(k)), Some(k.now + l.codeTtl)));
      DeliverStays(stored, ChangeSms(k.phone), l, gate.sends, k.fate, PhoneChange, k.user);
    }
  }

  lemma RequestEmailKeeps(c: Settings, s: Store<Key>, k: Call, n: nat, stage: Stage, wrongs: nat, t: nat)
    requires k.RequestEmail? && HoldsIn(c, s, stage, wrongs, EmailChange, k.user, t) && t <= k.now <= End(k)
    ensures Kept(c, PerformRequestEmail(c, s, k), k, n, stage, wrongs, EmailChange)
  {
    var l := c.email;
    var gate := Gate(s, OldEmail(k.user), l, k.now);
    if gate.Open? {
      var record := Record(EmailChange, k.user);
      var fields := map["new_email" := k.address, "old_email_code" := k.code];
      var stored := Delete(Expire(HSet(Delete(s, record), record, fields, k.now), record, k.now, l.codeTtl),
                           Attempts(EmailChange, k.user));
      DeliverStays(stored, OldEmail(k.user), l, gate.sends, k.fate, EmailChange, k.user);
    }
  }

  /** What a check sees: unlocked exactly while fewer than MAX guesses were wrong. */
  lemma GuardIsExact(c: Settings, s: Store<Key>, stage: Stage, wrongs: nat, service: Service, user: string, t: nat,
                     now: nat)
    requires HoldsIn(c, s, stage, wrongs, service, user, t) && !stage.Idle? && now < Expiry(c, stage, service)
    ensures Locked(s, service, user, LimitsOf(c, service), now) <==> wrongs == LimitsOf(c, service).maxAttempts
    ensures Get(s, Record(service, user), now) == Some(RecordFor(c, stage, service).value.value)
  {
  }

  lemma WrongKeeps(c: Settings, s: Store<Key>, stage: Stage, wrongs: nat, service: Service, user: string, t: nat,
                   now: nat)
    requires HoldsIn(c, s, stage, wrongs, service, user, t) && !stage.Idle? && now < Expiry(c, stage, service)
        && t <= now
    requires !Locked(s, service, user, LimitsOf(c, service), now)
    ensures HoldsIn(c, CountWrong(s, service, user, LimitsOf(c, service), now), stage, wrongs + 1, service, user, now)
  {
  }

  lemma NothingLive(c: Settings, s: Store<Key>, stage: Stage, wrongs: nat, service: Service, user: string, t: nat,
                    now: nat)
    requires HoldsIn(c, s, stage, wrongs, service, user, t)
    requires stage.Idle? || Expiry(c, stage, service) <= now
    ensures Get(s, Record(service, user), now).None?
  {
  }

  lemma ConsumeKeeps(c: Settings, s: Store<Key>, stage: Stage, wrongs: nat, service: Service, user: string, t: nat,
                     now: nat)
    requires HoldsIn(c, s, stage, wrongs, service, user, t)
    ensures HoldsIn(c, Consume(s, service, user), Idle, wrongs, service, user, now)
  {
  }

  lemma VerifyLoginKeeps(c: Settings, s: Store<Key>, k: Call, n: nat, stage: Stage, wrongs: nat, t: nat)
    requires k.VerifyLogin? && HoldsIn(c, s, stage, wrongs, TwoFactor, k.user, t) && t <= k.now
    ensures Kept(c, PerformVerifyLogin(c, s, k), k, n, stage, wrongs, TwoFactor)
  {
  }

  lemma ConfirmPhoneKeeps(c: Settings, s: Store<Key>, k: Call, n: nat, stage: Stage, wrongs: nat, t: nat)
    requires k.ConfirmPhone? && HoldsIn(c, s, stage, wrongs, PhoneChange, k.user, t) && t <= k.now
    ensures Kept(c, PerformConfirmPhone(c, s, k), k, n, stage, wrongs, PhoneChange)
  {
  }

  lemma VerifyNewKeeps(c: Settings, s: Store<Key>, k: Call, n: nat, stage: Stage, wrongs: nat, t: nat)
    requires k.VerifyNewEmail? && HoldsIn(c, s, stage, wrongs, EmailChange, k.user, t) && t <= k.now
    ensures Kept(c, PerformVerifyNewEmail(c, s, k), k, n, stage, wrongs, EmailChange)
  {
    ConsumeKeeps(c, s, stage, wrongs, EmailChange, k.user, t, k.now);
    if stage.Idle? || Expiry(c, stage, EmailChange) <= k.now {
      NothingLive(c, s, stage, wrongs, EmailChange, k.user, t, k.now);
    } else if !Locked(s, EmailChange, k.user, c.email, k.now) {
      WrongKeeps(c, s, stage, wrongs, EmailChange, k.user, t, k.now);
    }
  }

  /** The fields of an e-mail record at either stage. */
  lemma EmailFields(c: Settings, s: Store<Key>, stage: Stage, wrongs: nat, user: string, t: nat, now: nat)
    requires HoldsIn(c, s, stage, wrongs, EmailChange, user, t) && !stage.Idle? && now < Expiry(c, stage, EmailChange)
    ensures var data := GetHash(s, Record(EmailChange, user), now);
            && "new_email" in data && data["new_email"] == stage.request.address
            && "old_email_code" in data && data["old_email_code"] == stage.request.code
            && ("new_email_code" in data <==> stage.Confirmed?)
            && (stage.Confirmed? ==> data["new_email_code"] == stage.extension.newCode)
  {
  }

  lemma ExtendKeeps(c: Settings, s: Store<Key>, k: Call, n: nat, stage: Stage, wrongs: nat, t: nat)
      returns (stored: Store<Key>)
    requires k.VerifyOldEmail? && HoldsIn(c, s, stage, wrongs, EmailChange, k.user, t) && t <= k.now <= End(k)
    requires !stage.Idle? && k.now < Expiry(c, stage, EmailChange) && k.code == stage.request.code
    ensures stored == Delete(Expire(HSet(s, Record(EmailChange, k.user), map["new_email_code" := k.newCode], k.now),
                                    Record(EmailChange, k.user), k.now, c.email.codeTtl), Attempts(EmailChange, k.user))
    ensures HoldsIn(c, stored, Confirmed(stage.i, stage.request, n, k), 0, EmailChange, k.user, End(k))
  {
    var record := Record(EmailChange, k.user);
    stored := Delete(Expire(HSet(s, record, map["new_email_code" := k.newCode], k.now), record, k.now,
                            c.email.codeTtl), Attempts(EmailChange, k.user));
    var base := Stored(stage.request).fields;
    var extra := map["new_email_code" := k.newCode];
    if stage.Confirmed? { assert base + map["new_email_code" := stage.extension.newCode] + extra == base + extra; }
    assert At(stored, record) == Some(Entry(Hash(base + extra), Some(k.now + c.email.codeTtl)));
  }

  lemma VerifyOldKeeps(c: Settings, s: Store<Key>, k: Call, n: nat, stage: Stage, wrongs: nat, t: nat)
    requires k.VerifyOldEmail? && HoldsIn(c, s, stage, wrongs, EmailChange, k.user, t) && t <= k.now <= End(k)
    ensures Kept(c, PerformVerifyOldEmail(c, s, k), k, n, stage, wrongs, EmailChange)
  {
    if stage.Idle? || Expiry(c, stage, EmailChange) <= k.now {
      NothingLive(c, s, stage, wrongs, EmailChange, k.user, t, k.now);
    } else if !Locked(s, EmailChange, k.user, c.email, k.now) {
      EmailFields(c, s, stage, wrongs, k.user, t, k.now);
      if k.code != stage.request.code {
        WrongKeeps(c, s, stage, wrongs, EmailChange, k.user, t, k.now);
      } else {
        RightOldKeeps(c, s, k, n, stage, wrongs, t);
      }
    }
  }

  /** The old address is confirmed, and the second code sent if the gate is open. */
  lemma RightOldKeeps(c: Settings, s: Store<Key>, k: Call, n: nat, stage: Stage, wrongs: nat, t: nat)
    requires k.VerifyOldEmail? && HoldsIn(c, s, stage, wrongs, EmailChange, k.user, t) && t <= k.now <= End(k)
    requires !stage.Idle? && k.now < Expiry(c, stage, EmailChange) && !Locked(s, EmailChange, k.user, c.email, k.now)
    requires k.code == stage.request.code
    ensures Kept(c, PerformVerifyOldEmail(c, s, k), k, n, stage, wrongs, EmailChange)
  {
    EmailFields(c, s, stage, wrongs, k.user, t, k.now);
    var ch := NewEmail(stage.request.address);
    var gate := Gate(s, ch, c.email, k.now);
    if gate.Open? {
      var stored := ExtendKeeps(c, s, k, n, stage, wrongs, t);
      DeliverStays(stored, ch, c.email, gate.sends, k.fate, EmailChange, k.user);
    }
  }

  lemma CheckOfOther(c: Settings, s: Store<Key>, k: Call, service: Service, user: string)
    requires !Concerns(k, service, user) && Fated(k).None?
    ensures SameUser(s, Perform(c, s, k).0, service, user)
  {
  }

  lemma SendLoginOfOther(c: Settings, s: Store<Key>, k: Call, service: Service, user: string)
    requires k.SendLogin? && !Concerns(k, service, user)
    ensures SameUser(s, Perform(c, s, k).0, service, user)
  {
  }

  lemma RequestPhoneOfOther(c: Settings, s: Store<Key>, k: Call, service: Service, user: string)
    requires k.RequestPhone? && !Concerns(k, service, user)
    ensures SameUser(s, Perform(c, s, k).0, service, user)
  {
  }

  lemma RequestEmailOfOther(c: Settings, s: Store<Key>, k: Call, service: Service, user: string)
    requires k.RequestEmail? && !Concerns(k, service, user)
    ensures SameUser(s, Perform(c, s, k).0, service, user)
  {
  }

  lemma VerifyOldOfOther(c: Settings, s: Store<Key>, k: Call, service: Service, user: string)
    requires k.VerifyOldEmail? && !Concerns(k, service, user)
    ensures SameUser(s, Perform(c, s, k).0, service, user)
  {
  }

  /** Users and services do not touch each other's codes. */
  lemma OtherUsersStay(c: Settings, s: Store<Key>, k: Call, service: Service, user: string)
    requires !Concerns(k, service, user)
    ensures SameUser(s, Perform(c, s, k).0, service, user)
  {
    match k {
      case SendLogin(_, _, _, _, _) => SendLoginOfOther(c, s, k, service, user);
      case RequestPhone(_, _, _, _, _, _, _) => RequestPhoneOfOther(c, s, k, service, user);
      case RequestEmail(_, _, _, _, _) => RequestEmailOfOther(c, s, k, service, user);
      case VerifyOldEmail(_, _, _, _, _) => VerifyOldOfOther(c, s, k, service, user);
      case _ => CheckOfOther(c, s, k, service, user);
    }
  }

  lemma OwnKeeps(c: Settings, s: Store<Key>, k: Call, n: nat, stage: Stage, wrongs: nat, service: Service, t: nat)
    requires Concerns(k, service, k.user) && HoldsIn(c, s, stage, wrongs, service, k.user, t) && t <= k.now <= End(k)
    ensures Kept(c, Perform(c, s, k), k, n, stage, wrongs, service)
  {
    match k {
      case SendLogin(_, _, _, _, _) => SendLoginKeeps(c, s, k, n, stage, wrongs, t);
      case VerifyLogin(_, _, _) => VerifyLoginKeeps(c, s, k, n, stage, wrongs, t);
      case RequestPhone(_, _, _, _, _, _, _) => RequestPhoneKeeps(c, s, k, n, stage, wrongs, t);
      case ConfirmPhone(_, _, _, _) => ConfirmPhoneKeeps(c, s, k, n, stage, wrongs, t);
      case RequestEmail(_, _, _, _, _) => RequestEmailKeeps(c, s, k, n, stage, wrongs, t);
      case VerifyOldEmail(_, _, _, _, _) => VerifyOldKeeps(c, s, k, n, stage, wrongs, t);
      case VerifyNewEmail(_, _, _) => VerifyNewKeeps(c, s, k, n, stage, wrongs, t);
    }
  }

  // ---------- Runs ----------

  lemma {:induction false} HistoryAligned(c: Settings, calls: seq<Call>)
    ensures forall i :: 0 <= i < |calls| ==> History(c, calls)[i].call == calls[i]
  {
    if calls != [] { HistoryAligned(c, calls[..|calls| - 1]); }
  }

  lemma HistoryGrows(c: Settings, calls: seq<Call>)
    requires calls != []
    ensures var before := calls[..|calls| - 1]; var last := calls[|calls| - 1];
            var h := History(c, calls);
            && |h| == |calls| && h[..|h| - 1] == History(c, before)
            && h[|h| - 1] == Done(last, Perform(c, Run(c, before), last).1)
  {
  }

  lemma StepHolds(c: Settings, s: Store<Key>, k: Call, n: nat, stage: Stage, wrongs: nat, service: Service,
                  user: string, t: nat)
    requires HoldsIn(c, s, stage, wrongs, service, user, t) && t <= k.now <= End(k)
    ensures var d := Done(k, Perform(c, s, k).1);
            HoldsIn(c, Perform(c, s, k).0, Move(stage, n, d, service, user), Tally(wrongs, d, service, user), service,
                    user, End(k))
  {
    if Concerns(k, service, user) {
      OwnKeeps(c, s, k, n, stage, wrongs, service, t);
    } else {
      OtherUsersStay(c, s, k, service, user);
    }
  }

  /** The last answer moves the stage and the tally. */
  lemma HistoryMoves(h: seq<Done>, service: Service, user: string)
    requires h != []
    ensures var n := |h| - 1;
            && StageOf(h, service, user) == Move(StageOf(h[..n], service, user), n, h[n], service, user)
            && Wrongs(h, service, user) == Tally(Wrongs(h[..n], service, user), h[n], service, user)
  {
  }

  lemma LastHolds(c: Settings, calls: seq<Call>, service: Service, user: string, stage: Stage, wrongs: nat)
    requires Ordered(calls) && calls != []
    requires var before := calls[..|calls| - 1];
             HoldsIn(c, Run(c, before), stage, wrongs, service, user, EndOf(before))
    ensures var n := |calls| - 1;
            var d := History(c, calls)[n];
            HoldsIn(c, Run(c, calls), Move(stage, n, d, service, user), Tally(wrongs, d, service, user), service,
                    user, EndOf(calls))
  {
    var n := |calls| - 1;
    HistoryGrows(c, calls);
    StepHolds(c, Run(c, calls[..n]), calls[n], n, stage, wrongs, service, user, EndOf(calls[..n]));
  }

  /** Redis holds, of this user and service, the stage and the tally that the history gives. */
  predicate HistoryHolds(c: Settings, calls: seq<Call>, service: Service, user: string) {
    var h := History(c, calls);
    HoldsIn(c, Run(c, calls), StageOf(h, service, user), Wrongs(h, service, user), service, user, EndOf(calls))
  }

  lemma NextHolds(c: Settings, calls: seq<Call>, service: Service, user: string)
    requires Ordered(calls) && calls != [] && HistoryHolds(c, calls[..|calls| - 1], service, user)
    ensures HistoryHolds(c, calls, service, user)
  {
    var h := History(c, calls[..|calls| - 1]);
    LastHolds(c, calls, service, user, StageOf(h, service, user), Wrongs(h, service, user));
    HistoryGrows(c, calls);
    HistoryMoves(History(c, calls), service, user);
  }

  /** In every reachable state, for every user and service. */
  lemma {:induction false} RunHolds(c: Settings, calls: seq<Call>, service: Service, user: string)
    requires Ordered(calls)
    ensures HistoryHolds(c, calls, service, user)
  {
    if calls != [] {
      RunHolds(c, calls[..|calls| - 1], service, user);
      NextHolds(c, calls, service, user);
    }
  }

  // ---------- Guesses ----------

  function WrongCount(h: seq<Done>, service: Service, user: string): nat {
    if h == [] then 0
    else WrongCount(h[..|h| - 1], service, user) + (if IsWrong(h[|h| - 1], service, user) then 1 else 0)
  }

  lemma {:induction false} StretchTallied(h: seq<Done>, i: nat, service: Service, user: string)
    requires i <= |h|
    requires forall m :: i <= m < |h| ==> !Issues(h[m], service, user)
    ensures WrongCount(h[i..], service, user) <= Wrongs(h, service, user)
  {
    if i < |h| {
      var shorter := h[..|h| - 1];
      StretchTallied(shorter, i, service, user);
      assert h[i..][..|h[i..]| - 1] == shorter[i..];
    }
  }

  /** Between two issues at most MAX guesses are compared and found wrong. For an e-mail
      change the guesses at both addresses count together. */
  lemma GuessesBounded(c: Settings, calls: seq<Call>, i: nat, service: Service, user: string)
    requires Ordered(calls) && i <= |calls|
    requires forall m :: i <= m < |calls| ==> !Issues(History(c, calls)[m], service, user)
    ensures WrongCount(History(c, calls)[i..], service, user) <= LimitsOf(c, service).maxAttempts
  {
    RunHolds(c, calls, service, user);
    StretchTallied(History(c, calls), i, service, user);
  }

  /** While a code is alive, checks are refused exactly when MAX guesses were wrong. */
  lemma LockedExactly(c: Settings, calls: seq<Call>, service: Service, user: string, now: nat)
    requires Ordered(calls)
    requires var stage := StageOf(History(c, calls), service, user); !stage.Idle? && now < Expiry(c, stage, service)
    ensures Locked(Run(c, calls), service, user, LimitsOf(c, service), now) <==>
            Wrongs(History(c, calls), service, user) == LimitsOf(c, service).maxAttempts
  {
    var h := History(c, calls);
    RunHolds(c, calls, service, user);
    GuardIsExact(c, Run(c, calls), StageOf(h, service, user), Wrongs(h, service, user), service, user, EndOf(calls),
                 now);
  }

  // ---------- Acceptance ----------

  /** A code is pending and can still be matched. */
  predicate Alive(c: Settings, h: seq<Done>, service: Service, user: string, now: nat) {
    var stage := StageOf(h, service, user);
    && !stage.Idle? && now < Expiry(c, stage, service)
    && Wrongs(h, service, user) < LimitsOf(c, service).maxAttempts
  }

  lemma LoginAcceptedExactly(c: Settings, calls: seq<Call>, k: Call, value: string)
    requires Ordered(calls) && k.VerifyLogin?
    ensures var h := History(c, calls);
            Perform(c, Run(c, calls), k).1 == Accepted(value) <==>
            && value == "" && Alive(c, h, TwoFactor, k.user, k.now)
            && var request := StageOf(h, TwoFactor, k.user).request;
            && request.SendLogin? && request.code == k.code
  {
    var s, h, t := Run(c, calls), History(c, calls), EndOf(calls);
    RunHolds(c, calls, TwoFactor, k.user);
    var stage, wrongs := StageOf(h, TwoFactor, k.user), Wrongs(h, TwoFactor, k.user);
    if stage.Idle? || Expiry(c, stage, TwoFactor) <= k.now {
      NothingLive(c, s, stage, wrongs, TwoFactor, k.user, t, k.now);
    } else {
      GuardIsExact(c, s, stage, wrongs, TwoFactor, k.user, t, k.now);
    }
  }

  lemma PhoneFieldsSeen(c: Settings, s: Store<Key>, stage: Stage, wrongs: nat, user: string, t: nat, now: nat)
    requires HoldsIn(c, s, stage, wrongs, PhoneChange, user, t) && !stage.Idle? && now < Expiry(c, stage, PhoneChange)
    ensures var data := GetHash(s, Record(PhoneChange, user), now);
            && data != map[]
            && Field(data, "new_phone") == stage.request.phone
            && Field(data, "sms_code") == stage.request.smsCode
            && Field(data, "email_code") == stage.request.emailCode
  {
    assert "new_phone" in PhoneFields(stage.request);
  }

  lemma PhoneAcceptedExactly(c: Settings, calls: seq<Call>, k: Call, phone: string)
    requires Ordered(calls) && k.ConfirmPhone?
    ensures var h := History(c, calls);
            Perform(c, Run(c, calls), k).1 == Accepted(phone) <==>
            && Alive(c, h, PhoneChange, k.user, k.now)
            && var request := StageOf(h, PhoneChange, k.user).request;
            && request.RequestPhone? && request.phone == phone
            && request.smsCode == k.smsCode && request.emailCode == k.emailCode
  {
    var s, h, t := Run(c, calls), History(c, calls), EndOf(calls);
    RunHolds(c, calls, PhoneChange, k.user);
    var stage, wrongs := StageOf(h, PhoneChange, k.user), Wrongs(h, PhoneChange, k.user);
    if stage.Idle? || Expiry(c, stage, PhoneChange) <= k.now {
      NothingLive(c, s, stage, wrongs, PhoneChange, k.user, t, k.now);
    } else {
      GuardIsExact(c, s, stage, wrongs, PhoneChange, k.user, t, k.now);
      PhoneFieldsSeen(c, s, stage, wrongs, k.user, t, k.now);
    }
  }

  lemma ReplyOfVerifyOld(c: Settings, s: Store<Key>, k: Call)
    requires k.VerifyOldEmail?
    ensures Perform(c, s, k) == PerformVerifyOldEmail(c, s, k)
  {
  }

  lemma Extends(c: Settings, s: Store<Key>, k: Call, data: map<string, string>)
    requires k.VerifyOldEmail? && data == GetHash(s, Record(EmailChange, k.user), k.now)
    ensures Issues(Done(k, PerformVerifyOldEmail(c, s, k).1), EmailChange, k.user) <==>
            && !Locked(s, EmailChange, k.user, c.email, k.now)
            && "old_email_code" in data && data["old_email_code"] == k.code
            && Gate(s, NewEmail(Field(data, "new_email")), c.email, k.now).Open?
  {
  }

  lemma OldEmailByStage(c: Settings, s: Store<Key>, k: Call, stage: Stage, wrongs: nat, t: nat)
    requires k.VerifyOldEmail? && HoldsIn(c, s, stage, wrongs, EmailChange, k.user, t)
    ensures Issues(Done(k, PerformVerifyOldEmail(c, s, k).1), EmailChange, k.user) <==>
            && !stage.Idle? && k.now < Expiry(c, stage, EmailChange) && wrongs < c.email.maxAttempts
            && stage.request.code == k.code && Gate(s, NewEmail(stage.request.address), c.email, k.now).Open?
  {
    if stage.Idle? || Expiry(c, stage, EmailChange) <= k.now {
      NothingLive(c, s, stage, wrongs, EmailChange, k.user, t, k.now);
    } else {
      GuardIsExact(c, s, stage, wrongs, EmailChange, k.user, t, k.now);
      EmailFields(c, s, stage, wrongs, k.user, t, k.now);
    }
    Extends(c, s, k, GetHash(s, Record(EmailChange, k.user), k.now));
  }

  /** The first stage issues the second code exactly when the old address's code of the
      pending request is given in time and the new address may be sent to. */
  lemma OldEmailConfirmedExactly(c: Settings, calls: seq<Call>, k: Call)
    requires Ordered(calls) && k.VerifyOldEmail?
    ensures var h := History(c, calls);
            Issues(Done(k, Perform(c, Run(c, calls), k).1), EmailChange, k.user) <==>
            && Alive(c, h, EmailChange, k.user, k.now)
            && var request := StageOf(h, EmailChange, k.user).request;
            && request.RequestEmail? && request.code == k.code
            && OpenByHistory(Sends(c, calls, NewEmail(request.address)), c.email, k.now)
  {
    var s, h := Run(c, calls), History(c, calls);
    var stage, wrongs := StageOf(h, EmailChange, k.user), Wrongs(h, EmailChange, k.user);
    RunHolds(c, calls, EmailChange, k.user);
    ReplyOfVerifyOld(c, s, k);
    OldEmailByStage(c, s, k, stage, wrongs, EndOf(calls));
    if !stage.Idle? { GateIsExact(c, calls, NewEmail(stage.request.address), k.now); }
  }

  lemma NewEmailAcceptedExactly(c: Settings, calls: seq<Call>, k: Call, address: string)
    requires Ordered(calls) && k.VerifyNewEmail?
    ensures var h := History(c, calls);
            Perform(c, Run(c, calls), k).1 == Accepted(address) <==>
            && Alive(c, h, EmailChange, k.user, k.now)
            && var stage := StageOf(h, EmailChange, k.user);
            && stage.Confirmed? && stage.request.RequestEmail? && stage.extension.VerifyOldEmail?
            && stage.request.address == address && stage.extension.newCode == k.code
  {
    var s, h, t := Run(c, calls), History(c, calls), EndOf(calls);
    RunHolds(c, calls, EmailChange, k.user);
    var stage, wrongs := StageOf(h, EmailChange, k.user), Wrongs(h, EmailChange, k.user);
    if stage.Idle? || Expiry(c, stage, EmailChange) <= k.now {
      NothingLive(c, s, stage, wrongs, EmailChange, k.user, t, k.now);
    } else {
      GuardIsExact(c, s, stage, wrongs, EmailChange, k.user, t, k.now);
      EmailFields(c, s, stage, wrongs, k.user, t, k.now);
    }
  }

  // ---------- Provenance ----------

  ghost predicate Quiet(h: seq<Done>, i: nat, service: Service, user: string) {
    forall m :: i < m < |h| ==> !Issues(h[m], service, user) && !Accepts(h[m], service, user)
  }

  /** Only confirmations of the old address, and no acceptance, since call `i`. */
  ghost predicate OnlyConfirmations(h: seq<Done>, i: nat, service: Service, user: string) {
    forall m :: i < m < |h| ==>
        (Issues(h[m], service, user) ==> h[m].call.VerifyOldEmail?) && !Accepts(h[m], service, user)
  }

  /** A stage names the latest request, and the latest confirmation after it. */
  lemma {:induction false} StageExplained(h: seq<Done>, service: Service, user: string)
    ensures var stage := StageOf(h, service, user);
            match stage
            case Idle => true
            case Asked(i, request) =>
              i < |h| && h[i].call == request && Issues(h[i], service, user) && Quiet(h, i, service, user)
            case Confirmed(i, request, j, extension) =>
              && i < j < |h|
              && h[i].call == request && Issues(h[i], service, user) && OnlyConfirmations(h, i, service, user)
              && h[j].call == extension && Issues(h[j], service, user) && Quiet(h, j, service, user)
  {
    if h != [] { StageExplained(h[..|h| - 1], service, user); }
  }

  /** An accepted e-mail change returns the address of the user's latest request `i`; the
      code sent to the old address for that same request was matched afterwards, in call
      `j`, the latest to do so; and the code that call issued is matched before it expires. */
  lemma EmailProvenance(c: Settings, calls: seq<Call>, k: Call, address: string) returns (i: nat, j: nat)
    requires Ordered(calls) && k.VerifyNewEmail?
    requires Perform(c, Run(c, calls), k).1 == Accepted(address)
    ensures i < j < |calls|
    ensures calls[i].RequestEmail? && calls[i].user == k.user && calls[i].address == address
    ensures Issues(History(c, calls)[i], EmailChange, k.user)
    ensures OnlyConfirmations(History(c, calls), i, EmailChange, k.user)
    ensures calls[j].VerifyOldEmail? && calls[j].user == k.user && calls[j].code == calls[i].code
    ensures Issues(History(c, calls)[j], EmailChange, k.user) && Quiet(History(c, calls), j, EmailChange, k.user)
    ensures k.code == calls[j].newCode && k.now < calls[j].now + c.email.codeTtl
  {
    var h := History(c, calls);
    NewEmailAcceptedExactly(c, calls, k, address);
    RunHolds(c, calls, EmailChange, k.user);
    StageExplained(h, EmailChange, k.user);
    HistoryAligned(c, calls);
    var stage := StageOf(h, EmailChange, k.user);
    i, j := stage.i, stage.j;
  }
}
