/** The keys under which the daemon remembers what it has processed. */
module Keys {
  function HexDigits(): string {
    "0123456789abcdef"
  }

  predicate IsHex(s: string) {
    forall c | c in s :: c in HexDigits()
  }

  /** A Zion transaction hash: the hex encoding of a SHA-256 digest. */
  predicate ZionHash(s: string) {
    |s| == 64 && IsHex(s)
  }

  /** An EVM transaction hash: the same with a prefix. */
  predicate EvmHash(s: string) {
    |s| == 66 && s[..2] == "0x" && IsHex(s[2..])
  }

  function DispatchKey(txHash: string, kind: string): string {
    txHash + ":" + kind
  }

  function FailedKey(txHash: string, kind: string): string {
    "failed:" + txHash + ":" + kind
  }

  function RagequitKey(txHash: string, logIndex: nat): string {
    "evm_ragequit:" + txHash + ":" + Decimal(logIndex)
  }

  function RagequitFailedKey(txHash: string, logIndex: nat): string {
    "failed:evm_ragequit:" + txHash + ":" + Decimal(logIndex)
  }

  function Digit(d: nat): char
    requires d < 10
  {
    "0123456789"[d]
  }

  function Decimal(n: nat): string {
    if n < 10 then [Digit(n)] else Decimal(n / 10) + [Digit(n % 10)]
  }

  /** The number that a string of digits stands for. */
  function Parsed(s: string): int {
    if s == [] then 0 else 10 * Parsed(s[..|s| - 1]) + (s[|s| - 1] as int - '0' as int)
  }

  lemma {:induction false} DecimalParses(n: nat)
    ensures Parsed(Decimal(n)) == n
  {
    var s := Decimal(n);
    DigitIs(n % 10);
    if n < 10 {
      assert Parsed(s[..0]) == 0;
    } else {
      DecimalParses(n / 10);
      assert s[..|s| - 1] == Decimal(n / 10);
    }
  }

  lemma DigitIs(d: nat)
    requires d < 10
    ensures Digit(d) as int == '0' as int + d
  {
  }

  lemma {:induction false} DecimalInjective(m: nat, n: nat)
    requires Decimal(m) == Decimal(n)
    ensures m == n
  {
    var s, t := Decimal(m), Decimal(n);
    assert s[|s| - 1] == Digit(m % 10) && t[|t| - 1] == Digit(n % 10);
    DecimalLength(m);
    DecimalLength(n);
    if m >= 10 {
      assert Decimal(m / 10) == s[..|s| - 1] == t[..|t| - 1] == Decimal(n / 10);
      DecimalInjective(m / 10, n / 10);
    }
  }

  lemma DecimalLength(n: nat)
    ensures n < 10 <==> |Decimal(n)| == 1
    ensures |Decimal(n)| >= 1
  {
  }

  lemma SplitAt(a: string, b: string, a': string, b': string)
    requires |a| == |a'| && a + b == a' + b'
    ensures a == a' && b == b'
  {
    assert a == (a + b)[..|a|] && b == (a + b)[|a|..];
    assert a' == (a' + b')[..|a|] && b' == (a' + b')[|a|..];
  }

  /** Two events share a key exactly if they have the same transaction and the same type. */
  lemma DispatchKeyInjective(h: string, k: string, h': string, k': string)
    requires ZionHash(h) && ZionHash(h')
    ensures DispatchKey(h, k) == DispatchKey(h', k') <==> h == h' && k == k'
    ensures FailedKey(h, k) == FailedKey(h', k') <==> h == h' && k == k'
  {
    assert FailedKey(h, k) == "failed:" + DispatchKey(h, k) && FailedKey(h', k') == "failed:" + DispatchKey(h', k');
    if FailedKey(h, k) == FailedKey(h', k') {
      SplitAt("failed:", DispatchKey(h, k), "failed:", DispatchKey(h', k'));
    }
    if DispatchKey(h, k) == DispatchKey(h', k') {
      SplitAt(h + ":", k, h' + ":", k');
      SplitAt(h, ":", h', ":");
    }
  }

  lemma RagequitKeyInjective(h: string, i: nat, h': string, i': nat)
    requires EvmHash(h) && EvmHash(h')
    ensures RagequitKey(h, i) == RagequitKey(h', i') <==> h == h' && i == i'
    ensures RagequitFailedKey(h, i) == RagequitFailedKey(h', i') <==> h == h' && i == i'
  {
    if RagequitKey(h, i) == RagequitKey(h', i') {
      SamePrefix("evm_ragequit:", h, i, h', i');
    }
    if RagequitFailedKey(h, i) == RagequitFailedKey(h', i') {
      SamePrefix("failed:evm_ragequit:", h, i, h', i');
    }
  }

  lemma SamePrefix(p: string, h: string, i: nat, h': string, i': nat)
    requires |h| == |h'| && p + h + ":" + Decimal(i) == p + h' + ":" + Decimal(i')
    ensures h == h' && i == i'
  {
    SplitAt(p + h + ":", Decimal(i), p + h' + ":", Decimal(i'));
    SplitAt(p + h, ":", p + h', ":");
    SplitAt(p, h, p, h');
    DecimalInjective(i, i');
  }

  // The four kinds of keys never meet: hex digits spell neither "failed" nor "evm".

  lemma KeysApart(h: string, k: string, h': string, k': string)
    requires ZionHash(h)
    ensures DispatchKey(h, k) != FailedKey(h', k')
  {
    assert h[2] in h && DispatchKey(h, k)[2] == h[2];
    assert FailedKey(h', k')[2] == 'i';
  }

  lemma KindsApart(e: string, i: nat, e': string, i': nat)
    ensures RagequitKey(e, i) != RagequitFailedKey(e', i')
  {
    hide Decimal;
    assert RagequitKey(e, i)[1] == 'v' && RagequitFailedKey(e', i')[1] == 'a';
  }

  lemma ChainsApart(h: string, k: string, e: string, i: nat)
    requires ZionHash(h)
    ensures DispatchKey(h, k) != RagequitKey(e, i) && DispatchKey(h, k) != RagequitFailedKey(e, i)
    ensures FailedKey(h, k) != RagequitKey(e, i) && FailedKey(h, k) != RagequitFailedKey(e, i)
  {
    hide Decimal;
    assert h[1] in h && h[2] in h;
    assert DispatchKey(h, k)[1] == h[1] && DispatchKey(h, k)[2] == h[2] && FailedKey(h, k)[8] == h[1];
    assert FailedKey(h, k)[2] == RagequitFailedKey(e, i)[2] == 'i';
    assert RagequitKey(e, i)[1] == 'v' && RagequitFailedKey(e, i)[8] == 'v';
  }
}
