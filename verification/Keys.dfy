/** Deduplication keys. The protocols use them structured; `Text` is what is stored, and
    the lemmas show that nothing is lost by it. */
module Keys {
  /** A key of a mailing's recipient, of a recipient of one update of a trigger, or the
      fresh identifier of a personal notification. */
  datatype Key =
    | ForMailing(mailing: string, user: string)
    | ForTrigger(trigger: string, stamp: nat, user: string)
    | Direct(id: string)

  /** Length of the canonical text of a UUID. */
  const UUID_LENGTH: nat := 36

  predicate Uuid(s: string) {
    |s| == UUID_LENGTH
  }

  predicate WellFormed(k: Key) {
    match k
    case ForMailing(m, u) => Uuid(m) && Uuid(u)
    case ForTrigger(t, _, u) => Uuid(t) && Uuid(u)
    case Direct(id) => Uuid(id)
  }

  /** A timestamp as text. Decimal digits stand for the ISO form: only that different
      times have different texts matters. */
  function Iso(t: nat): string {
    if t < 10 then [Digit(t)] else Iso(t / 10) + [Digit(t % 10)]
  }

  function Digit(d: nat): char
    requires d < 10
  {
    "0123456789"[d]
  }

  /** The stored form: identifiers joined by colons. */
  function Text(k: Key): string {
    match k
    case ForMailing(m, u) => m + ":" + u
    case ForTrigger(t, stamp, u) => t + ":" + Iso(stamp) + ":" + u
    case Direct(id) => id
  }

  lemma {:induction false} IsoInjective(a: nat, b: nat)
    requires Iso(a) == Iso(b)
    ensures a == b
    decreases a
  {
    var s, t := Iso(a), Iso(b);
    assert s[|s| - 1] == t[|t| - 1];
    assert a % 10 == b % 10;
    IsoLength(a);
    IsoLength(b);
    if a >= 10 {
      assert Iso(a / 10) == s[..|s| - 1] && Iso(b / 10) == t[..|t| - 1];
      IsoInjective(a / 10, b / 10);
    }
  }

  lemma IsoLength(t: nat)
    ensures |Iso(t)| > 1 <==> t >= 10
    ensures |Iso(t)| > 0
  {
  }

  /** Two keys with the same text are the same key. */
  lemma TextIdentifies(k: Key, k': Key)
    requires WellFormed(k) && WellFormed(k') && Text(k) == Text(k')
    ensures k == k'
  {
    var text := Text(k);
    assert |text| == UUID_LENGTH <==> k.Direct?;
    assert |text| == UUID_LENGTH <==> k'.Direct?;
    assert |text| == 2 * UUID_LENGTH + 1 <==> k.ForMailing?;
    assert |text| == 2 * UUID_LENGTH + 1 <==> k'.ForMailing?;
    if k.ForMailing? {
      assert k.mailing == text[..UUID_LENGTH] && k'.mailing == text[..UUID_LENGTH];
      assert k.user == text[UUID_LENGTH + 1..] && k'.user == text[UUID_LENGTH + 1..];
    } else if k.ForTrigger? {
      assert k.trigger == text[..UUID_LENGTH] && k'.trigger == text[..UUID_LENGTH];
      assert k.user == text[|text| - UUID_LENGTH..] && k'.user == text[|text| - UUID_LENGTH..];
      assert Iso(k.stamp) == text[UUID_LENGTH + 1..|text| - UUID_LENGTH - 1];
      assert Iso(k'.stamp) == text[UUID_LENGTH + 1..|text| - UUID_LENGTH - 1];
      IsoInjective(k.stamp, k'.stamp);
    }
  }
}
