/** Array positions and the property keys that name them.

    JavaScript stores `wrapper[index] = source` under the decimal text of
    `index`, and `sparseArray` checks every key with the helper
    `Utils.isInteger` before using it as a position. `lib/utils` is not part of
    this model; its integer check on a key is taken to accept exactly the
    canonical decimal texts of non-negative integers (digits only, no leading
    zero except in "0"). Positions are unbounded: JavaScript's limit of
    2^32 - 2 on array indices is not modelled. */
module Indices {
  import opened Wrappers

  predicate IsDigit(c: char)
  {
    '0' <= c <= '9'
  }

  function DigitValue(c: char): nat
    requires IsDigit(c)
  {
    c as int - '0' as int
  }

  function DigitChar(d: nat): (c: char)
    requires d < 10
    ensures IsDigit(c) && DigitValue(c) == d
  {
    ('0' as int + d) as char
  }

  predicate AllDigits(k: string)
  {
    forall i | 0 <= i < |k| :: IsDigit(k[i])
  }

  /** The property key under which JavaScript stores array position `n`. */
  function KeyOf(n: nat): (k: string)
    ensures |k| > 0
  {
    if n < 10 then [DigitChar(n)] else KeyOf(n / 10) + [DigitChar(n % 10)]
  }

  function DecimalValue(k: string): nat
    requires AllDigits(k)
  {
    if |k| == 0 then 0 else DecimalValue(k[..|k| - 1]) * 10 + DigitValue(k[|k| - 1])
  }

  /** The integer check applied to a key: the position it names, if any. */
  function ParseIndex(k: string): Option<nat>
  {
    if |k| == 0 || (|k| > 1 && k[0] == '0') || !AllDigits(k) then None
    else Some(DecimalValue(k))
  }

  predicate IsIndexKey(k: string)
  {
    ParseIndex(k).Some?
  }

  /** A decimal text whose first digit is not zero denotes a positive number. */
  lemma {:induction false} LeadingDigitPositive(k: string)
    requires |k| > 0 && AllDigits(k) && k[0] != '0'
    ensures DecimalValue(k) > 0
  {
    if |k| > 1 {
      LeadingDigitPositive(k[..|k| - 1]);
    }
  }

  /** The key of a position reads back as that position. */
  lemma {:induction false} ParseKeyOf(n: nat)
    ensures ParseIndex(KeyOf(n)) == Some(n)
    decreases n
  {
    var k := KeyOf(n);
    if n < 10 {
      assert k[..|k| - 1] == [];
    } else {
      var prefix := KeyOf(n / 10);
      ParseKeyOf(n / 10);
      assert k == prefix + [DigitChar(n % 10)];
      assert k[..|k| - 1] == prefix;
      assert AllDigits(k);
      assert k[0] == prefix[0];
      if |prefix| == 1 {
        assert DecimalValue(prefix) == DigitValue(prefix[0]) by {
          assert prefix[..0] == [];
        }
      }
    }
  }

  /** Every key that passes the integer check is the key of the position it
      names: keys and positions are in one-to-one correspondence. */
  lemma {:induction false} KeyOfParse(k: string)
    requires IsIndexKey(k)
    ensures KeyOf(ParseIndex(k).value) == k
    decreases |k|
  {
    var n := DecimalValue(k);
    var last := k[|k| - 1];
    if |k| == 1 {
      assert k[..0] == [];
      assert DecimalValue(k[..0]) == 0;
      assert n == DigitValue(last) < 10;
      assert [DigitChar(n)] == k;
    } else {
      var prefix := k[..|k| - 1];
      assert AllDigits(prefix);
      assert prefix[0] == k[0];
      LeadingDigitPositive(prefix);
      KeyOfParse(prefix);
      assert n / 10 == DecimalValue(prefix) && n % 10 == DigitValue(last);
      assert DigitChar(DigitValue(last)) == last;
      assert k == prefix + [last];
    }
  }

  /** Distinct positions have distinct keys. */
  lemma KeyOfInjective(m: nat, n: nat)
    requires KeyOf(m) == KeyOf(n)
    ensures m == n
  {
    ParseKeyOf(m);
    ParseKeyOf(n);
  }
}
