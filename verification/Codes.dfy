/** The three one-time-code services on one shared Redis: two-factor login, change of phone
    and change of e-mail. Every call is given the codes it draws, its start time and the
    fate of its delivery. */
module Codes {
  import opened Options
  import opened RedisStore

  /** A destination with its own cooldown and send counter. */
  datatype Channel = LoginSms(phone: string) | ChangeSms(phone: string) | OldEmail(user: string)
      | NewEmail(address: string)

  datatype Service = TwoFactor | PhoneChange | EmailChange

  datatype Key =
    | Record(service: Service, user: string)
    | Attempts(service: Service, user: string)
    | Cooldown(channel: Channel)
    | Rate(channel: Channel)

  type Positive = n: nat | n > 0 witness 1

  datatype Limits = Limits(codeTtl: Positive, maxAttempts: Positive, cooldown: Positive,
                           maxSends: Positive, window: Positive)

  datatype Settings = Settings(twoFactor: Limits, phone: Limits, email: Limits)

  function LimitsOf(c: Settings, service: Service): Limits {
    match service
    case TwoFactor => c.twoFactor
    case PhoneChange => c.phone
    case EmailChange => c.email
  }

  function ServiceOf(ch: Channel): Service {
    match ch
    case LoginSms(_) => TwoFactor
    case ChangeSms(_) => PhoneChange
    case _ => EmailChange
  }

  /** A delivery takes until `at`. The process may die, or Redis fail, after it and before it
      is recorded, or after the recording and before the counter gets its expiry. */
  datatype Fate = Undelivered | DeliveredUnrecorded(at: nat) | Delivered(at: nat) | DeliveredThenCut(at: nat)

  predicate Recorded(fate: Fate) {
    fate.Delivered? || fate.DeliveredThenCut?
  }

  datatype Call =
    | SendLogin(user: string, phone: string, code: string, now: nat, fate: Fate)
    | VerifyLogin(user: string, code: string, now: nat)
    | RequestPhone(user: string, phone: string, email: Option<string>, smsCode: string, emailCode: string, now: nat,
                   fate: Fate)
    | ConfirmPhone(user: string, smsCode: string, emailCode: string, now: nat)
    | RequestEmail(user: string, address: string, code: string, now: nat, fate: Fate)
    | VerifyOldEmail(user: string, code: string, newCode: string, now: nat, fate: Fate)
    | VerifyNewEmail(user: string, code: string, now: nat)

  datatype Reply =
    | SentOut                  // the code was delivered
    | SendFailed               // the code was stored, its delivery raised
    | Unrecorded               // the code was delivered, and that is not recorded
    | CoolingDown(ttl: nat)
    | TooMany
    | NothingPending
    | EmailRequired
    | Wrong                    // compared, and different
    | Accepted(value: string)

  // ---------- Sending: a gate before, a record after ----------

  datatype GateReply = Open(sends: Option<nat>) | Shut(reply: Reply)

  function Gate(s: Store<Key>, ch: Channel, l: Limits, now: nat): GateReply {
    if Ttl(s, Cooldown(ch), now) > 0 then Shut(CoolingDown(Ttl(s, Cooldown(ch), now)))
    else
      var sends := GetCount(s, Rate(ch), now);
      if sends.Some? && sends.value >= l.maxSends then Shut(TooMany) else Open(sends)
  }

  /** The counter gets an expiry only if it did not exist when the call began. */
  function RecordSend(s: Store<Key>, ch: Channel, l: Limits, sends: Option<nat>, fate: Fate): Store<Key>
    requires Recorded(fate)
  {
    var counted := SetEx(Incr(s, Rate(ch), fate.at), Cooldown(ch), Text("1"), fate.at, l.cooldown);
    if sends.None? && fate.Delivered? then Expire(counted, Rate(ch), fate.at, l.window) else counted
  }

  function Deliver(s: Store<Key>, ch: Channel, l: Limits, sends: Option<nat>, fate: Fate): (Store<Key>, Reply) {
    if fate.Undelivered? then (s, SendFailed)
    else if fate.DeliveredUnrecorded? then (s, Unrecorded)
    else (RecordSend(s, ch, l, sends, fate), SentOut)
  }

  // ---------- Checking: an attempt counter guards the record ----------

  predicate Locked(s: Store<Key>, service: Service, user: string, l: Limits, now: nat) {
    var attempts := GetCount(s, Attempts(service, user), now);
    attempts.Some? && attempts.value >= l.maxAttempts
  }

  function CountWrong(s: Store<Key>, service: Service, user: string, l: Limits, now: nat): Store<Key> {
    Expire(Incr(s, Attempts(service, user), now), Attempts(service, user), now, l.codeTtl)
  }

  function Consume(s: Store<Key>, service: Service, user: string): Store<Key> {
    s - {Record(service, user), Attempts(service, user)}
  }

  // ---------- The calls ----------

  function PerformSendLogin(c: Settings, s: Store<Key>, k: Call): (Store<Key>, Reply)
    requires k.SendLogin?
  {
    var l := c.twoFactor;
    var gate := Gate(s, LoginSms(k.phone), l, k.now);
    if gate.Shut? then (s, gate.reply) else
    var stored :=
        Delete(SetEx(s, Record(TwoFactor, k.user), Text(k.code), k.now, l.codeTtl), Attempts(TwoFactor, k.user));
    Deliver(stored, LoginSms(k.phone), l, gate.sends, k.fate)
  }

  function PerformVerifyLogin(c: Settings, s: Store<Key>, k: Call): (Store<Key>, Reply)
    requires k.VerifyLogin?
  {
    var l := c.twoFactor;
    if Locked(s, TwoFactor, k.user, l, k.now) then (s, TooMany) else
    match Get(s, Record(TwoFactor, k.user), k.now)
    case Some(Text(code)) =>
      if code != k.code then (CountWrong(s, TwoFactor, k.user, l, k.now), Wrong)
      else (Consume(s, TwoFactor, k.user), Accepted(""))
    case _ => (s, NothingPending)
  }

  function PhoneFields(k: Call): map<string, string>
    requires k.RequestPhone?
  {
    map["new_phone" := k.phone, "sms_code" := k.smsCode, "email_code" := k.emailCode]
  }

  function PerformRequestPhone(c: Settings, s: Store<Key>, k: Call): (Store<Key>, Reply)
    requires k.RequestPhone?
  {
    var l := c.phone;
    if k.email.None? || k.email.value == "" then (s, EmailRequired) else
    var gate := Gate(s, ChangeSms(k.phone), l, k.now);
    if gate.Shut? then (s, gate.reply) else
    var record := Record(PhoneChange, k.user);
    var stored := Delete(Expire(HSet(s, record, PhoneFields(k), k.now), record, k.now, l.codeTtl),
                         Attempts(PhoneChange, k.user));
    Deliver(stored, ChangeSms(k.phone), l, gate.sends, k.fate)
  }

  function Field(fields: map<string, string>, name: string): string {
    if name in fields then fields[name] else ""
  }

  function PerformConfirmPhone(c: Settings, s: Store<Key>, k: Call): (Store<Key>, Reply)
    requires k.ConfirmPhone?
  {
    var l := c.phone;
    if Locked(s, PhoneChange, k.user, l, k.now) then (s, TooMany) else
    var data := GetHash(s, Record(PhoneChange, k.user), k.now);
    if data == map[] then (s, NothingPending)
    else if Field(data, "sms_code") != k.smsCode || Field(data, "email_code") != k.emailCode
      then (CountWrong(s, PhoneChange, k.user, l, k.now), Wrong)
    else (Consume(s, PhoneChange, k.user), Accepted(Field(data, "new_phone")))
  }

  function PerformRequestEmail(c: Settings, s: Store<Key>, k: Call): (Store<Key>, Reply)
    requires k.RequestEmail?
  {
    var l := c.email;
    var gate := Gate(s, OldEmail(k.user), l, k.now);
    if gate.Shut? then (s, gate.reply) else
    var record := Record(EmailChange, k.user);
    var fields := map["new_email" := k.address, "old_email_code" := k.code];
    var stored := Delete(Expire(HSet(Delete(s, record), record, fields, k.now), record, k.now, l.codeTtl),
                         Attempts(EmailChange, k.user));
    Deliver(stored, OldEmail(k.user), l, gate.sends, k.fate)
  }

  function PerformVerifyOldEmail(c: Settings, s: Store<Key>, k: Call): (Store<Key>, Reply)
    requires k.VerifyOldEmail?
  {
    var l := c.email;
    var record := Record(EmailChange, k.user);
    if Locked(s, EmailChange, k.user, l, k.now) then (s, TooMany) else
    var data := GetHash(s, record, k.now);
    if "old_email_code" !in data then (s, NothingPending)
    else if data["old_email_code"] != k.code then (CountWrong(s, EmailChange, k.user, l, k.now), Wrong)
    else
      var ch := NewEmail(Field(data, "new_email"));
      var gate := Gate(s, ch, l, k.now);
      if gate.Shut? then (s, gate.reply) else
      var stored := Delete(Expire(HSet(s, record, map["new_email_code" := k.newCode], k.now), record, k.now, l.codeTtl),
                           Attempts(EmailChange, k.user));
      Deliver(stored, ch, l, gate.sends, k.fate)
  }

  function PerformVerifyNewEmail(c: Settings, s: Store<Key>, k: Call): (Store<Key>, Reply)
    requires k.VerifyNewEmail?
  {
    var l := c.email;
    if Locked(s, EmailChange, k.user, l, k.now) then (s, TooMany) else
    var data := GetHash(s, Record(EmailChange, k.user), k.now);
    if "new_email_code" !in data then (s, NothingPending)
    else if data["new_email_code"] != k.code then (CountWrong(s, EmailChange, k.user, l, k.now), Wrong)
    else (Consume(s, EmailChange, k.user), Accepted(Field(data, "new_email")))
  }

  function Perform(c: Settings, s: Store<Key>, k: Call): (Store<Key>, Reply) {
    match k
    case SendLogin(_, _, _, _, _) => PerformSendLogin(c, s, k)
    case VerifyLogin(_, _, _) => PerformVerifyLogin(c, s, k)
    case RequestPhone(_, _, _, _, _, _, _) => PerformRequestPhone(c, s, k)
    case ConfirmPhone(_, _, _, _) => PerformConfirmPhone(c, s, k)
    case RequestEmail(_, _, _, _, _) => PerformRequestEmail(c, s, k)
    case VerifyOldEmail(_, _, _, _, _) => PerformVerifyOldEmail(c, s, k)
    case VerifyNewEmail(_, _, _) => PerformVerifyNewEmail(c, s, k)
  }

  // ---------- Runs ----------

  datatype Done = Done(call: Call, reply: Reply)

  function Fated(k: Call): Option<Fate> {
    if k.SendLogin? || k.RequestPhone? || k.RequestEmail? || k.VerifyOldEmail? then Some(k.fate) else None
  }

  /** When the call is over. */
  function End(k: Call): nat {
    match Fated(k)
    case Some(DeliveredUnrecorded(at)) => at
    case Some(Delivered(at)) => at
    case Some(DeliveredThenCut(at)) => at
    case _ => k.now
  }

  /** The calls come one after the other. */
  ghost predicate Ordered(calls: seq<Call>) {
    && (forall k <- calls :: k.now <= End(k))
    && (forall i | 0 < i < |calls| :: End(calls[i - 1]) <= calls[i].now)
  }

  function Run(c: Settings, calls: seq<Call>): Store<Key> {
    if calls == [] then map[] else Perform(c, Run(c, calls[..|calls| - 1]), calls[|calls| - 1]).0
  }

  /** What every call was answered. */
  function History(c: Settings, calls: seq<Call>): (h: seq<Done>)
    ensures |h| == |calls|
  {
    if calls == [] then []
    else
      var before := calls[..|calls| - 1];
      var last := calls[|calls| - 1];
      History(c, before) + [Done(last, Perform(c, Run(c, before), last).1)]
  }

  function EndOf(calls: seq<Call>): nat {
    if calls == [] then 0 else End(calls[|calls| - 1])
  }
}
