/** Redis as far as the services use it: keys with a value and an optional expiry. An
    expired key behaves as absent. Times are whole seconds. */
module RedisStore {
  import opened Options

  datatype Value = Text(text: string) | Count(n: nat) | Hash(fields: map<string, string>)
      | Members(members: set<string>)

  datatype Entry = Entry(value: Value, expires: Option<nat>)

  type Store<!K> = map<K, Entry>

  predicate Live<K>(s: Store<K>, k: K, now: nat) {
    k in s && (s[k].expires.None? || now < s[k].expires.value)
  }

  function Get<K>(s: Store<K>, k: K, now: nat): Option<Value> {
    if Live(s, k, now) then Some(s[k].value) else None
  }

  function GetCount<K>(s: Store<K>, k: K, now: nat): Option<nat> {
    match Get(s, k, now)
    case Some(Count(n)) => Some(n)
    case _ => None
  }

  function GetHash<K>(s: Store<K>, k: K, now: nat): map<string, string> {
    match Get(s, k, now)
    case Some(Hash(fields)) => fields
    case _ => map[]
  }

  function GetMembers<K>(s: Store<K>, k: K, now: nat): set<string> {
    match Get(s, k, now)
    case Some(Members(members)) => members
    case _ => {}
  }

  /** Seconds left of a live key that expires, otherwise zero. */
  function Ttl<K>(s: Store<K>, k: K, now: nat): nat {
    if Live(s, k, now) && s[k].expires.Some? then s[k].expires.value - now else 0
  }

  function SetEx<K>(s: Store<K>, k: K, v: Value, now: nat, ttl: nat): Store<K> {
    s[k := Entry(v, Some(now + ttl))]
  }

  /** A live counter keeps its expiry; a new one has none. */
  function Incr<K>(s: Store<K>, k: K, now: nat): Store<K> {
    match Get(s, k, now)
    case Some(Count(n)) => s[k := s[k].(value := Count(n + 1))]
    case _ => s[k := Entry(Count(1), None)]
  }

  function Expire<K>(s: Store<K>, k: K, now: nat, ttl: nat): Store<K> {
    if Live(s, k, now) then s[k := s[k].(expires := Some(now + ttl))] else s
  }

  function Delete<K>(s: Store<K>, k: K): Store<K> {
    s - {k}
  }

  /** Fields are merged into a live hash, which keeps its expiry; a new one has none. */
  function HSet<K>(s: Store<K>, k: K, fields: map<string, string>, now: nat): Store<K> {
    match Get(s, k, now)
    case Some(Hash(old_fields)) => s[k := s[k].(value := Hash(old_fields + fields))]
    case _ => s[k := Entry(Hash(fields), None)]
  }

  function SAdd<K>(s: Store<K>, k: K, member: string, now: nat): Store<K> {
    match Get(s, k, now)
    case Some(Members(members)) => s[k := s[k].(value := Members(members + {member}))]
    case _ => s[k := Entry(Members({member}), None)]
  }

  function SRem<K>(s: Store<K>, k: K, member: string, now: nat): Store<K> {
    match Get(s, k, now)
    case Some(Members(members)) => s[k := s[k].(value := Members(members - {member}))]
    case _ => s
  }
}
