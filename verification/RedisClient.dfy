/** The Redis client that the services hold. */
module RedisClients {
  import opened Options
  import opened RedisStore

  class Redis<K(==)> {
    var db: Store<K>

    constructor ()
      ensures db == map[]
    {
      db := map[];
    }

    method TimeToLive(k: K, now: nat) returns (seconds: nat)
      ensures seconds == Ttl(db, k, now)
    {
      seconds := Ttl(db, k, now);
    }

    method ReadCount(k: K, now: nat) returns (n: Option<nat>)
      ensures n == GetCount(db, k, now)
    {
      n := GetCount(db, k, now);
    }

    method Read(k: K, now: nat) returns (value: Option<Value>)
      ensures value == Get(db, k, now)
    {
      value := Get(db, k, now);
    }

    method HGetAll(k: K, now: nat) returns (fields: map<string, string>)
      ensures fields == GetHash(db, k, now)
    {
      fields := GetHash(db, k, now);
    }

    method SMembers(k: K, now: nat) returns (members: set<string>)
      ensures members == GetMembers(db, k, now)
    {
      members := GetMembers(db, k, now);
    }

    method SetWithTtl(k: K, v: Value, now: nat, ttl: nat)
      modifies this
      ensures db == SetEx(old(db), k, v, now, ttl)
    {
      db := SetEx(db, k, v, now, ttl);
    }

    method Increment(k: K, now: nat)
      modifies this
      ensures db == Incr(old(db), k, now)
    {
      db := Incr(db, k, now);
    }

    method ExpireIn(k: K, now: nat, ttl: nat)
      modifies this
      ensures db == Expire(old(db), k, now, ttl)
    {
      db := Expire(db, k, now, ttl);
    }

    method Remove(k: K)
      modifies this
      ensures db == Delete(old(db), k)
    {
      db := Delete(db, k);
    }

    method SetFields(k: K, fields: map<string, string>, now: nat)
      modifies this
      ensures db == HSet(old(db), k, fields, now)
    {
      db := HSet(db, k, fields, now);
    }

    method AddMember(k: K, member: string, now: nat)
      modifies this
      ensures db == SAdd(old(db), k, member, now)
    {
      db := SAdd(db, k, member, now);
    }

    method RemoveMember(k: K, member: string, now: nat)
      modifies this
      ensures db == SRem(old(db), k, member, now)
    {
      db := SRem(db, k, member, now);
    }
  }
}
