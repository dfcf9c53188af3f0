/** The colon-joined business key of an action receipt. */
module IdempotencyKey {

  predicate ColonFree(s: string) {
    forall i | 0 <= i < |s| :: s[i] != ':'
  }

  /** `str(n)` of a Python integer. */
  function Decimal(n: int): string
    decreases if n < 0 then 1 - n else n
  {
    if n < 0 then "-" + Digits(-n) else Digits(n)
  }

  function Digits(n: nat): (s: string)
    ensures s != [] && forall i | 0 <= i < |s| :: '0' <= s[i] <= '9'
  {
    if n < 10 then [Digit(n)] else Digits(n / 10) + [Digit(n % 10)]
  }

  function Digit(d: nat): (c: char)
    requires d < 10
    ensures '0' <= c <= '9'
  {
    ('0' as int + d) as char
  }

  lemma {:induction false} DigitsInjective(m: nat, n: nat)
    requires Digits(m) == Digits(n)
    ensures m == n
  {
    if m >= 10 && n >= 10 {
      var a, b := Digits(m / 10), Digits(n / 10);
      assert (a + [Digit(m % 10)])[..|a|] == a && (b + [Digit(n % 10)])[..|b|] == b;
      assert |a| == |b|;
      assert Digits(m)[|a|] == Digit(m % 10) && Digits(n)[|b|] == Digit(n % 10);
      DigitsInjective(m / 10, n / 10);
    } else if m < 10 && n < 10 {
      assert Digits(m)[0] == Digit(m) && Digits(n)[0] == Digit(n);
    } else {
      assert false;
    }
  }

  lemma DecimalSign(n: int)
    ensures Decimal(n) != [] && (Decimal(n)[0] == '-' <==> n < 0)
  {
  }

  lemma DecimalInjective(m: int, n: int)
    requires Decimal(m) == Decimal(n)
    ensures m == n
  {
    DecimalSign(m);
    DecimalSign(n);
    if m < 0 && n < 0 {
      assert Decimal(m)[1..] == Digits(-m) && Decimal(n)[1..] == Digits(-n);
      DigitsInjective(-m, -n);
    } else {
      DigitsInjective(m, n);
    }
  }

  /** `":".join((merchant_id, task_id, str(plan_version), action_id))` */
  function Key(merchantId: string, taskId: string, planVersion: int, actionId: string): string {
    merchantId + ":" + taskId + ":" + Decimal(planVersion) + ":" + actionId
  }

  /** A string is cut in one way only at its last colon. */
  lemma LastColon(a: string, b: string, a': string, b': string)
    requires ColonFree(b) && ColonFree(b')
    requires a + ":" + b == a' + ":" + b'
    ensures a == a' && b == b'
  {
    var s, s' := a + ":" + b, a' + ":" + b';
    assert s[|a|] == ':' && s'[|a'|] == ':';
    if |a| < |a'| || |a| > |a'| {
      assert false;
    }
    assert s[..|a|] == a && s'[..|a'|] == a';
    assert s[|a| + 1..] == b && s'[|a'| + 1..] == b';
  }

  /** Two actions share a key only if they are the same action: merchant ids may even hold colons,
    * because the key is read from its right end. */
  lemma KeyInjective(m: string, t: string, v: int, a: string, m': string, t': string, v': int, a': string)
    requires ColonFree(t) && ColonFree(a) && ColonFree(t') && ColonFree(a')
    requires Key(m, t, v, a) == Key(m', t', v', a')
    ensures m == m' && t == t' && v == v' && a == a'
  {
    LastColon(m + ":" + t + ":" + Decimal(v), a, m' + ":" + t' + ":" + Decimal(v'), a');
    LastColon(m + ":" + t, Decimal(v), m' + ":" + t', Decimal(v'));
    LastColon(m, t, m', t');
    DecimalInjective(v, v');
  }

  /** The condition is needed: a task id with a colon in it always shares its key with another task
    * of another merchant. */
  lemma KeyCollides(m: string, x: string, y: string, v: int, a: string)
    ensures Key(m, x + ":" + y, v, a) == Key(m + ":" + x, y, v, a)
    ensures m != m + ":" + x && x + ":" + y != y
  {
  }
}
