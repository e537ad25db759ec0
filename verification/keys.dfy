/** The cache's key names: the RedisConstants the shop code uses and the
    decimal rendering Java applies when a Long id is appended to a prefix. */
module Keys {

  /** Prefix of a cached shop, "cache:shop:" + id. */
  const CACHE_SHOP_KEY: string := "cache:shop:"
  /** Prefix of a shop's rebuild mutex, "lock:shop:" + id. */
  const LOCK_SHOP_KEY: string := "lock:shop:"
  /** Lifetime of the "" null marker, in minutes. */
  const CACHE_NULL_TTL: int := 2
  /** Logical lifetime of a cached shop, in minutes. */
  const CACHE_SHOP_TTL: int := 30

  function DigitChar(d: int): (c: char)
    requires 0 <= d < 10
    ensures '0' <= c <= '9'
  {
    (48 + d) as char
  }

  /** Decimal digits of a natural number, most significant first, no leading zero. */
  function NatText(n: nat): (s: string)
    ensures 1 <= |s|
    ensures n >= 10 <==> |s| >= 2
    ensures forall i :: 0 <= i < |s| ==> '0' <= s[i] <= '9'
    decreases n
  {
    if n < 10 then [DigitChar(n)] else NatText(n / 10) + [DigitChar(n % 10)]
  }

  /** Long.toString: a minus sign before the digits of a negative number. */
  function LongText(n: int): (s: string)
    ensures 1 <= |s|
    ensures (s[0] == '-') <==> n < 0
  {
    if n < 0 then "-" + NatText(-n) else NatText(n)
  }

  /** Different naturals have different decimal renderings. */
  lemma {:induction false} NatTextInjective(a: nat, b: nat)
    requires NatText(a) == NatText(b)
    ensures a == b
    decreases a
  {
    if a >= 10 {
      var sa, sb := NatText(a), NatText(b);
      assert sa == NatText(a / 10) + [DigitChar(a % 10)];
      assert sb == NatText(b / 10) + [DigitChar(b % 10)];
      assert sa[..|sa| - 1] == NatText(a / 10);
      assert sb[..|sb| - 1] == NatText(b / 10);
      assert sa[|sa| - 1] == DigitChar(a % 10);
      assert sb[|sb| - 1] == DigitChar(b % 10);
      NatTextInjective(a / 10, b / 10);
    } else {
      assert NatText(a)[0] == DigitChar(a);
      assert NatText(b)[0] == DigitChar(b);
    }
  }

  /** Different ids have different renderings, so different keys under one prefix. */
  lemma {:induction false} LongTextInjective(a: int, b: int)
    requires LongText(a) == LongText(b)
    ensures a == b
  {
    if a < 0 {
      assert LongText(a)[1..] == NatText(-a);
      assert LongText(b)[1..] == NatText(-b);
      NatTextInjective(-a, -b);
    } else {
      NatTextInjective(a, b);
    }
  }

  /** `prefix + id` as the source builds its keys. */
  function KeyOf(prefix: string, id: int): (k: string)
    ensures |k| > |prefix|
    ensures k[..|prefix|] == prefix && k[|prefix|..] == LongText(id)
  {
    prefix + LongText(id)
  }

  /** Two keys under the same prefix are equal only for the same id. */
  lemma {:induction false} KeyOfInjective(prefix: string, a: int, b: int)
    requires KeyOf(prefix, a) == KeyOf(prefix, b)
    ensures a == b
  {
    assert KeyOf(prefix, a)[|prefix|..] == LongText(a);
    assert KeyOf(prefix, b)[|prefix|..] == LongText(b);
    LongTextInjective(a, b);
  }

  /** No shop cache key is a shop lock key: the prefixes differ in their first character. */
  lemma CacheAndLockKeysDisjoint(a: int, b: int)
    ensures KeyOf(CACHE_SHOP_KEY, a) != KeyOf(LOCK_SHOP_KEY, b)
  {
  }
}
