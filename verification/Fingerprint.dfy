/**
 The text that is hashed into a request fingerprint. Order ids and keys may
 contain the separator, so injectivity is not obvious; it holds for a fixed key.
 The SHA-256 hex digest itself is the parameter `sha`.
 */
module Fingerprint {
  import opened Ids
  import opened Rows
  import opened Text

  function FingerprintText(merchant: Uuid, orderId: string, amount: int, currency: string, key: string): string {
    AsPrefixed(MERCHANT, merchant) + "|" + orderId + "|" + Decimal(amount) + "|" + currency + "|" + key
  }

  function RequestText(c: CreateCommand): string {
    FingerprintText(c.merchant, c.orderId, c.amount, c.currency, c.idempotencyKey)
  }

  function PaymentText(p: Payment): string {
    FingerprintText(p.merchant, p.orderId, p.amount, p.currency, p.idempotencyKey)
  }

  function RequestFingerprint(sha: string -> string, c: CreateCommand): string { sha(RequestText(c)) }

  function PaymentFingerprint(sha: string -> string, p: Payment): string { sha(PaymentText(p)) }

  /** Two different texts with one digest. */
  predicate Collides(sha: string -> string, c: CreateCommand, p: Payment) {
    RequestText(c) != PaymentText(p) && sha(RequestText(c)) == sha(PaymentText(p))
  }

  lemma PrefixedInjective(prefix: string, a: Uuid, b: Uuid)
    requires AsPrefixed(prefix, a) == AsPrefixed(prefix, b)
    ensures a == b
  {
    PrefixedRoundTrip(prefix, a);
    PrefixedRoundTrip(prefix, b);
  }

  lemma SplitAtLength(a: string, b: string, a': string, b': string)
    requires a + b == a' + b' && |b| == |b'|
    ensures a == a' && b == b'
  {
    var s, s' := a + b, a' + b';
    assert |s| == |s'|;
    assert a == s[..|a|] && a' == s'[..|a'|];
    assert b == s[|a|..] && b' == s'[|a'|..];
  }

  lemma AmountHasNoSeparator(amount: int)
    ensures '|' !in Decimal(amount)
  {
    DecimalShape(amount);
  }

  /** For one key the text determines merchant, order id, amount and currency, '|' or not. */
  lemma TextInjective(m: Uuid, o: string, a: int, c: string, m': Uuid, o': string, a': int, c': string, key: string)
    requires |c| == 3 && |c'| == 3
    requires FingerprintText(m, o, a, c, key) == FingerprintText(m', o', a', c', key)
    ensures m == m' && o == o' && a == a' && c == c'
  {
    var h, h' := AsPrefixed(MERCHANT, m) + "|", AsPrefixed(MERCHANT, m') + "|";
    var d, d' := Decimal(a), Decimal(a');
    SplitAtLength(h + o + "|" + d + "|" + c + "|", key, h' + o' + "|" + d' + "|" + c' + "|", key);
    SplitAtLength(h + o + "|" + d + "|" + c, "|", h' + o' + "|" + d' + "|" + c', "|");
    SplitAtLength(h + o + "|" + d + "|", c, h' + o' + "|" + d' + "|", c');
    SplitAtLength(h + o + "|" + d, "|", h' + o' + "|" + d', "|");
    AmountHasNoSeparator(a);
    AmountHasNoSeparator(a');
    SplitAtLast('|', h + o, d, h' + o', d');
    SplitAtLength(h, o, h', o');
    SplitAtLength(AsPrefixed(MERCHANT, m), "|", AsPrefixed(MERCHANT, m'), "|");
    PrefixedInjective(MERCHANT, m, m');
    DecimalInjective(a, a');
  }

  lemma WithKey(m: Uuid, o: string, a: int, c: string, key: string) returns (head: string)
    ensures FingerprintText(m, o, a, c, key) == head + "|" + key
  {
    head := AsPrefixed(MERCHANT, m) + "|" + o + "|" + Decimal(a) + "|" + c;
  }

  /** For keys of one length, and for keys without '|', the text determines the key too, and so all five values. */
  lemma TextDeterminesKey(m: Uuid, o: string, a: int, c: string, key: string,
                          m': Uuid, o': string, a': int, c': string, key': string)
    requires |c| == 3 && |c'| == 3
    requires |key| == |key'| || ('|' !in key && '|' !in key')
    requires FingerprintText(m, o, a, c, key) == FingerprintText(m', o', a', c', key')
    ensures m == m' && o == o' && a == a' && c == c' && key == key'
  {
    hide FingerprintText;
    var h := WithKey(m, o, a, c, key);
    var h' := WithKey(m', o', a', c', key');
    if |key| == |key'| {
      SplitAtLength(h + "|", key, h' + "|", key');
    } else {
      SplitAtLast('|', h, key, h', key');
    }
    TextInjective(m, o, a, c, m', o', a', c', key);
  }

  /** Across keys the text is not injective: the separator can move between the key and the rest. */
  lemma TextNotInjectiveAcrossKeys(m: Uuid)
    ensures FingerprintText(m, "o", 1, "EUR", "2|EUR|k") == FingerprintText(m, "o|1|EUR", 2, "EUR", "k")
  {
    hide AsPrefixed;
    assert Decimal(1) == ['1'] && Decimal(2) == ['2'];
    hide Decimal, Digits;
    var h := AsPrefixed(MERCHANT, m);
    assert FingerprintText(m, "o", 1, "EUR", "2|EUR|k") == h + "|o|1|EUR|2|EUR|k";
    assert FingerprintText(m, "o|1|EUR", 2, "EUR", "k") == h + "|o|1|EUR|2|EUR|k";
  }
}
