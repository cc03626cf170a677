/** The services as they work: one Redis command after another, proved to give the store and
    the answer that `Codes.Perform` defines. The outcome of a delivery is a parameter. */
module CodeServices {
  import opened Options
  import opened RedisStore
  import opened RedisClients
  import opened Codes

  /** The cooldown and the send counter, as each service keeps them. */
  class SendGuard {
    const redis: Redis<Key>
    const limits: Limits

    constructor (redis: Redis<Key>, limits: Limits)
      ensures this.redis == redis && this.limits == limits
    {
      this.redis := redis;
      this.limits := limits;
    }

    method Check(ch: Channel, now: nat) returns (r: GateReply)
      ensures r == Gate(redis.db, ch, limits, now)
    {
      var left := redis.TimeToLive(Cooldown(ch), now);
      if left > 0 {
        return Shut(CoolingDown(left));
      }
      var sends := redis.ReadCount(Rate(ch), now);
      if sends.Some? && sends.value >= limits.maxSends {
        return Shut(TooMany);
      }
      return Open(sends);
    }

    /** Delivers, and records the delivery only if it succeeded. */
    method Deliver(ch: Channel, sends: Option<nat>, fate: Fate) returns (reply: Reply)
      modifies redis
      ensures (redis.db, reply) == Codes.Deliver(old(redis.db), ch, limits, sends, fate)
    {
      if fate.Undelivered? {
        return SendFailed;
      }
      if fate.DeliveredUnrecorded? {
        return Unrecorded;
      }
      redis.Increment(Rate(ch), fate.at);
      redis.SetWithTtl(Cooldown(ch), Text("1"), fate.at, limits.cooldown);
      if sends.None? && fate.Delivered? {
        redis.ExpireIn(Rate(ch), fate.at, limits.window);
      }
      return SentOut;
    }

    method TooManyAttempts(service: Service, user: string, now: nat) returns (locked: bool)
      ensures locked == Locked(redis.db, service, user, limits, now)
    {
      var attempts := redis.ReadCount(Attempts(service, user), now);
      locked := attempts.Some? && attempts.value >= limits.maxAttempts;
    }

    method CountWrong(service: Service, user: string, now: nat)
      modifies redis
      ensures redis.db == Codes.CountWrong(old(redis.db), service, user, limits, now)
    {
      redis.Increment(Attempts(service, user), now);
      redis.ExpireIn(Attempts(service, user), now, limits.codeTtl);
    }

    method Consume(service: Service, user: string)
      modifies redis
      ensures redis.db == Codes.Consume(old(redis.db), service, user)
    {
      redis.Remove(Record(service, user));
      redis.Remove(Attempts(service, user));
      assert old(redis.db) - {Record(service, user)} - {Attempts(service, user)} ==
             old(redis.db) - {Record(service, user), Attempts(service, user)};
    }
  }

  class TwoFactorService {
    const redis: Redis<Key>
    const guard: SendGuard
    const settings: Settings

    ghost predicate Valid() {
      guard.redis == redis && guard.limits == settings.twoFactor
    }

    constructor (redis: Redis<Key>, settings: Settings)
      ensures Valid() && this.redis == redis && this.settings == settings
    {
      this.redis := redis;
      this.settings := settings;
      guard := new SendGuard(redis, settings.twoFactor);
    }

    method SendCode(user: string, phone: string, code: string, now: nat, fate: Fate) returns (reply: Reply)
      requires Valid()
      modifies redis
      ensures (redis.db, reply) == Perform(settings, old(redis.db), SendLogin(user, phone, code, now, fate))
    {
      var gate := guard.Check(LoginSms(phone), now);
      if gate.Shut? {
        return gate.reply;
      }
      redis.SetWithTtl(Record(TwoFactor, user), Text(code), now, settings.twoFactor.codeTtl);
      redis.Remove(Attempts(TwoFactor, user));
      reply := guard.Deliver(LoginSms(phone), gate.sends, fate);
    }

    method VerifyCode(user: string, code: string, now: nat) returns (reply: Reply)
      requires Valid()
      modifies redis
      ensures (redis.db, reply) == Perform(settings, old(redis.db), VerifyLogin(user, code, now))
    {
      var locked := guard.TooManyAttempts(TwoFactor, user, now);
      if locked {
        return TooMany;
      }
      var stored := redis.Read(Record(TwoFactor, user), now);
      match stored {
        case Some(Text(expected)) =>
          if expected != code {
            guard.CountWrong(TwoFactor, user, now);
            return Wrong;
          }
          guard.Consume(TwoFactor, user);
          return Accepted("");
        case _ =>
          return NothingPending;
      }
    }
  }

  class PhoneChangeService {
    const redis: Redis<Key>
    const guard: SendGuard
    const settings: Settings

    ghost predicate Valid() {
      guard.redis == redis && guard.limits == settings.phone
    }

    constructor (redis: Redis<Key>, settings: Settings)
      ensures Valid() && this.redis == redis && this.settings == settings
    {
      this.redis := redis;
      this.settings := settings;
      guard := new SendGuard(redis, settings.phone);
    }

    method RequestChange(user: string, phone: string, email: Option<string>, smsCode: string, emailCode: string,
                         now: nat, fate: Fate) returns (reply: Reply)
      requires Valid()
      modifies redis
      ensures (redis.db, reply) ==
              Perform(settings, old(redis.db), RequestPhone(user, phone, email, smsCode, emailCode, now, fate))
    {
      if email.None? || email.value == "" {
        return EmailRequired;
      }
      var gate := guard.Check(ChangeSms(phone), now);
      if gate.Shut? {
        return gate.reply;
      }
      var record := Record(PhoneChange, user);
      redis.SetFields(record, map["new_phone" := phone, "sms_code" := smsCode, "email_code" := emailCode], now);
      redis.ExpireIn(record, now, settings.phone.codeTtl);
      redis.Remove(Attempts(PhoneChange, user));
      reply := guard.Deliver(ChangeSms(phone), gate.sends, fate);
    }

    method ConfirmChange(user: string, smsCode: string, emailCode: string, now: nat) returns (reply: Reply)
      requires Valid()
      modifies redis
      ensures (redis.db, reply) == Perform(settings, old(redis.db), ConfirmPhone(user, smsCode, emailCode, now))
    {
      var locked := guard.TooManyAttempts(PhoneChange, user, now);
      if locked {
        return TooMany;
      }
      var data := redis.HGetAll(Record(PhoneChange, user), now);
      if data == map[] {
        return NothingPending;
      }
      var smsOk := Field(data, "sms_code") == smsCode;
      var emailOk := Field(data, "email_code") == emailCode;
      if !(smsOk && emailOk) {
        guard.CountWrong(PhoneChange, user, now);
        return Wrong;
      }
      guard.Consume(PhoneChange, user);
      return Accepted(Field(data, "new_phone"));
    }
  }

  class EmailChangeService {
    const redis: Redis<Key>
    const guard: SendGuard
    const settings: Settings

    ghost predicate Valid() {
      guard.redis == redis && guard.limits == settings.email
    }

    constructor (redis: Redis<Key>, settings: Settings)
      ensures Valid() && this.redis == redis && this.settings == settings
    {
      this.redis := redis;
      this.settings := settings;
      guard := new SendGuard(redis, settings.email);
    }

    method RequestChange(user: string, address: string, code: string, now: nat, fate: Fate) returns (reply: Reply)
      requires Valid()
      modifies redis
      ensures (redis.db, reply) == Perform(settings, old(redis.db), RequestEmail(user, address, code, now, fate))
    {
      var gate := guard.Check(OldEmail(user), now);
      if gate.Shut? {
        return gate.reply;
      }
      var record := Record(EmailChange, user);
      redis.Remove(record);
      redis.SetFields(record, map["new_email" := address, "old_email_code" := code], now);
      redis.ExpireIn(record, now, settings.email.codeTtl);
      redis.Remove(Attempts(EmailChange, user));
      reply := guard.Deliver(OldEmail(user), gate.sends, fate);
    }

    /** Checks the old address's code; if it matches, sends a code to the new address. */
    method VerifyOld(user: string, code: string, newCode: string, now: nat, fate: Fate) returns (reply: Reply)
      requires Valid()
      modifies redis
      ensures (redis.db, reply) == Perform(settings, old(redis.db), VerifyOldEmail(user, code, newCode, now, fate))
    {
      var locked := guard.TooManyAttempts(EmailChange, user, now);
      if locked {
        return TooMany;
      }
      var record := Record(EmailChange, user);
      var data := redis.HGetAll(record, now);
      if "old_email_code" !in data {
        return NothingPending;
      }
      if data["old_email_code"] != code {
        guard.CountWrong(EmailChange, user, now);
        return Wrong;
      }
      var ch := NewEmail(Field(data, "new_email"));
      var gate := guard.Check(ch, now);
      if gate.Shut? {
        return gate.reply;
      }
      redis.SetFields(record, map["new_email_code" := newCode], now);
      redis.ExpireIn(record, now, settings.email.codeTtl);
      redis.Remove(Attempts(EmailChange, user));
      reply := guard.Deliver(ch, gate.sends, fate);
    }

    method VerifyNew(user: string, code: string, now: nat) returns (reply: Reply)
      requires Valid()
      modifies redis
      ensures (redis.db, reply) == Perform(settings, old(redis.db), VerifyNewEmail(user, code, now))
    {
      var locked := guard.TooManyAttempts(EmailChange, user, now);
      if locked {
        return TooMany;
      }
      var data := redis.HGetAll(Record(EmailChange, user), now);
      if "new_email_code" !in data {
        return NothingPending;
      }
      if data["new_email_code"] != code {
        guard.CountWrong(EmailChange, user, now);
        return Wrong;
      }
      guard.Consume(EmailChange, user);
      return Accepted(Field(data, "new_email"));
    }
  }
}
