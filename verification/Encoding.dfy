/**
  The text that is hashed: idempotency request hashes (internal/transaction/service.go,
  internal/funding/service.go) and dead-letter ids (internal/deadletter/recorder.go).
  Fields are joined by a separator that validated fields cannot contain, so equal
  texts mean equal fields.
 */
module Encoding {
  import opened Domain

  // ----- decimal numbers, as %d and strconv print them -----

  function Digit(d: int): char
    requires 0 <= d < 10
  {
    ('0' as int + d) as char
  }

  function Digits(n: nat): (s: string)
    ensures |s| >= 1 && forall i :: 0 <= i < |s| ==> '0' <= s[i] <= '9'
  {
    if n < 10 then [Digit(n)] else Digits(n / 10) + [Digit(n % 10)]
  }

  function Decimal(n: int): string {
    if n < 0 then "-" + Digits(-n) else Digits(n)
  }

  /** The number that a run of digits denotes. */
  function Value(s: string): nat
    requires forall i :: 0 <= i < |s| ==> '0' <= s[i] <= '9'
  {
    if s == [] then 0 else 10 * Value(s[..|s| - 1]) + (s[|s| - 1] as int - '0' as int)
  }

  lemma {:induction false} DigitsRoundTrip(n: nat)
    ensures Value(Digits(n)) == n
  {
    if n < 10 {
      assert [Digit(n)][..0] == [];
    } else {
      DigitsRoundTrip(n / 10);
      assert Digits(n)[..|Digits(n)| - 1] == Digits(n / 10);
    }
  }

  lemma DigitsInjective(m: nat, n: nat)
    requires Digits(m) == Digits(n)
    ensures m == n
  {
    DigitsRoundTrip(m);
    DigitsRoundTrip(n);
  }

  lemma DecimalInjective(m: int, n: int)
    requires Decimal(m) == Decimal(n)
    ensures m == n
  {
    var s := Decimal(m);
    assert m < 0 <==> s[0] == '-';
    assert n < 0 <==> s[0] == '-';
    if m < 0 {
      assert Digits(-m) == s[1..] && Digits(-n) == s[1..];
      DigitsInjective(-m, -n);
    } else {
      DigitsInjective(m, n);
    }
  }

  // ----- joined fields -----

  predicate Lacks(s: string, c: char) {
    forall i :: 0 <= i < |s| ==> s[i] != c
  }

  lemma DecimalLacks(n: int, c: char)
    requires c != '-' && !('0' <= c <= '9')
    ensures Lacks(Decimal(n), c)
  {
  }

  /** A text splits at its first separator in one way only. */
  lemma SplitsOnce(a: string, x: string, b: string, y: string, c: char)
    requires Lacks(a, c) && Lacks(b, c) && a + [c] + x == b + [c] + y
    ensures a == b && x == y
  {
    var s := a + [c] + x;
    assert s[|a|] == c && s[|b|] == c;
    assert forall i :: 0 <= i < |a| ==> s[i] == a[i];
    assert forall i :: 0 <= i < |b| ==> s[i] == b[i];
    assert |a| == |b|;
    assert a == s[..|a|] && b == s[..|b|];
    assert x == s[|a| + 1..] && y == s[|b| + 1..];
  }

  function PaymentText(account: Id, merchant: Id, amount: int, currency: string): string {
    account + ['|'] + (merchant + ['|'] + (Decimal(amount) + ['|'] + currency))
  }

  function DepositText(account: Id, amount: int, currency: string, source: Id, reference: Id): string {
    "deposit" + ['|'] + (account + ['|'] + (Decimal(amount) + ['|'] + (currency + ['|'] + (source + ['|'] + reference))))
  }

  /** The hashed text of a dead letter's id. */
  function SourceText(consumer: string, topic: string, partition: int, offset: int): string {
    consumer + ['\0'] + (topic + ['\0'] + (Decimal(partition) + ['\0'] + Decimal(offset)))
  }

  /** Two validated payment requests have the same text exactly when they ask for the same thing. */
  lemma PaymentTextsDiffer(a: Id, m: Id, n: int, c: string, a': Id, m': Id, n': int, c': string)
    requires SafeToken(a) && SafeToken(m) && SafeToken(a') && SafeToken(m')
    ensures PaymentText(a, m, n, c) == PaymentText(a', m', n', c') <==> a == a' && m == m' && n == n' && c == c'
  {
    if PaymentText(a, m, n, c) == PaymentText(a', m', n', c') {
      SplitsOnce(a, m + ['|'] + (Decimal(n) + ['|'] + c), a', m' + ['|'] + (Decimal(n') + ['|'] + c'), '|');
      SplitsOnce(m, Decimal(n) + ['|'] + c, m', Decimal(n') + ['|'] + c', '|');
      DecimalLacks(n, '|');
      DecimalLacks(n', '|');
      SplitsOnce(Decimal(n), c, Decimal(n'), c', '|');
      DecimalInjective(n, n');
    }
  }

  lemma DepositTextsDiffer(a: Id, n: int, c: string, s: Id, r: Id, a': Id, n': int, c': string, s': Id, r': Id)
    requires SafeToken(a) && SafeToken(s) && SafeToken(a') && SafeToken(s') && IsCurrency(c) && IsCurrency(c')
    ensures DepositText(a, n, c, s, r) == DepositText(a', n', c', s', r') <==>
            a == a' && n == n' && c == c' && s == s' && r == r'
  {
    if DepositText(a, n, c, s, r) == DepositText(a', n', c', s', r') {
      var e, e' := s + ['|'] + r, s' + ['|'] + r';
      var f, f' := Decimal(n) + ['|'] + (c + ['|'] + e), Decimal(n') + ['|'] + (c' + ['|'] + e');
      SplitsOnce("deposit", a + ['|'] + f, "deposit", a' + ['|'] + f', '|');
      SplitsOnce(a, f, a', f', '|');
      DecimalLacks(n, '|');
      DecimalLacks(n', '|');
      SplitsOnce(Decimal(n), c + ['|'] + e, Decimal(n'), c' + ['|'] + e', '|');
      DecimalInjective(n, n');
      SplitsOnce(c, e, c', e', '|');
      SplitsOnce(s, r, s', r', '|');
    }
  }

  /** Names without NUL bytes: two deliveries share a dead-letter id text only if they are the same delivery. */
  lemma SourceTextsDiffer(c: string, t: string, p: int, o: int, c': string, t': string, p': int, o': int)
    requires Lacks(c, '\0') && Lacks(t, '\0') && Lacks(c', '\0') && Lacks(t', '\0')
    ensures SourceText(c, t, p, o) == SourceText(c', t', p', o') <==> c == c' && t == t' && p == p' && o == o'
  {
    if SourceText(c, t, p, o) == SourceText(c', t', p', o') {
      var e, e' := Decimal(p) + ['\0'] + Decimal(o), Decimal(p') + ['\0'] + Decimal(o');
      SplitsOnce(c, t + ['\0'] + e, c', t' + ['\0'] + e', '\0');
      SplitsOnce(t, e, t', e', '\0');
      DecimalLacks(p, '\0');
      DecimalLacks(p', '\0');
      SplitsOnce(Decimal(p), Decimal(o), Decimal(p'), Decimal(o'), '\0');
      DecimalInjective(p, p');
      DecimalInjective(o, o');
    }
  }
}
