/** Ids that sort by time: version 7 UUIDs (section 5.7 of RFC 9562) whose twelve bits after
    the version are a counter within one millisecond. Random bytes are parameters. */
module TimeOrderedId {
  import opened Prelude

  /** The two module variables that persist between calls. */
  datatype Memory = Memory(lastTimestamp: nat, sequence: nat)

  const AtLoad := Memory(0, 0)

  /** `seed` is the random 16-bit number drawn for a new millisecond. */
  function Remember(m: Memory, now: nat, seed: nat): Memory {
    if now == m.lastTimestamp then m.(sequence := (m.sequence + 1) % 4096) else Memory(now, seed % 4096)
  }

  predicate IsRandom(random: seq<Byte>) { |random| == 16 }

  function IdBytes(now: nat, sequence: nat, random: seq<Byte>): (r: seq<Byte>)
    requires IsRandom(random) && sequence < 4096
    ensures |r| == 16
  {
    BigEndian(now, 6) + [112 + sequence / 256, sequence % 256, 128 + random[8] % 64] + random[9..]
  }

  lemma AssembledIs(bytes: seq<Byte>, now: nat, sequence: nat, random: seq<Byte>)
    requires IsRandom(random) && sequence < 4096 && |bytes| == 16
    requires bytes[..6] == BigEndian(now, 6) && bytes[9..] == random[9..]
    requires bytes[6] == 112 + sequence / 256 && bytes[7] == sequence % 256 && bytes[8] == 128 + random[8] % 64
    ensures bytes == IdBytes(now, sequence, random)
  {
    assert bytes == bytes[..6] + [bytes[6], bytes[7], bytes[8]] + bytes[9..];
  }

  function HexDigit(n: nat): char
    requires n < 16
  {
    "0123456789abcdef"[n]
  }

  function TwoDigits(b: Byte): string { [HexDigit(b / 16), HexDigit(b % 16)] }

  function Hex(bytes: seq<Byte>): (r: string)
    ensures |r| == 2 * |bytes|
  {
    if bytes == [] then "" else Hex(bytes[..|bytes| - 1]) + TwoDigits(bytes[|bytes| - 1])
  }

  function Text(bytes: seq<Byte>): string
    requires |bytes| == 16
  {
    var hex := Hex(bytes);
    hex[..8] + "-" + hex[8..12] + "-" + hex[12..16] + "-" + hex[16..20] + "-" + hex[20..]
  }

  class IdSource {
    var lastTimestamp: nat
    var sequence: nat

    constructor ()
      ensures Now() == AtLoad
    {
      lastTimestamp, sequence := 0, 0;
    }

    function Now(): Memory
      reads this
    {
      Memory(lastTimestamp, sequence)
    }

    method UuidV7(now: nat, seed: nat, random: seq<Byte>) returns (id: string)
      requires IsRandom(random)
      modifies this
      ensures Now() == Remember(old(Now()), now, seed) && sequence < 4096
      ensures lastTimestamp == now && sequence == (if now == old(lastTimestamp) then old(sequence) + 1 else seed) % 4096
      ensures id == Text(IdBytes(now, sequence, random))
    {
      if now == lastTimestamp {
        sequence := (sequence + 1) % 4096;
      } else {
        lastTimestamp, sequence := now, seed % 4096;
      }
      var bytes := new Byte[16](i requires 0 <= i < 16 => random[i]);
      FillTimestamp(bytes, now);
      assert bytes[6..] == random[6..];
      assert bytes[8] == bytes[6..][2] == random[8];
      bytes[6] := 112 + sequence / 256;
      bytes[7] := sequence % 256;
      bytes[8] := 128 + bytes[8] % 64;
      assert bytes[9..] == random[9..];
      assert bytes[..6] == BigEndian(now, 6);
      AssembledIs(bytes[..], now, sequence, random);
      var hex := Hex(bytes[..]);
      id := hex[..8] + "-" + hex[8..12] + "-" + hex[12..16] + "-" + hex[16..20] + "-" + hex[20..];
    }

    /** Byte by byte, from the last of six. */
    method FillTimestamp(bytes: array<Byte>, now: nat)
      requires bytes.Length == 16
      modifies bytes
      ensures bytes[..6] == BigEndian(now, 6) && bytes[6..] == old(bytes[6..])
    {
      var timestamp := now;
      var index := 5;
      assert BigEndian(now, 6) == BigEndian(timestamp, 6) + bytes[6..6];
      while index >= 0
        invariant -1 <= index <= 5 && bytes[6..] == old(bytes[6..])
        invariant BigEndian(now, 6) == BigEndian(timestamp, index + 1) + bytes[index + 1..6]
      {
        bytes[index] := timestamp % 256;
        assert BigEndian(timestamp, index + 1) == BigEndian(timestamp / 256, index) + [bytes[index]];
        assert [bytes[index]] + bytes[index + 1..6] == bytes[index..6];
        timestamp := timestamp / 256;
        index := index - 1;
      }
    }
  }

  // ---- layout ----

  /** The twelve bits after the version. */
  function Counter(id: seq<Byte>): nat
    requires |id| == 16
  {
    var high: nat, low: nat := id[6] % 16, id[7];
    high * 256 + low
  }

  /** Version 7, the RFC's variant, and the timestamp back from the first 48 bits. */
  lemma Layout(now: nat, sequence: nat, random: seq<Byte>)
    requires IsRandom(random) && sequence < 4096 && now < Power(256, 6)
    ensures var id := IdBytes(now, sequence, random);
      && id[6] / 16 == 7 && id[8] / 64 == 2 && Number(id[..6]) == now && Counter(id) == sequence
      && id[8] % 64 == random[8] % 64 && id[9..] == random[9..]
  {
    NumberOfBigEndian(now, 6);
    assert IdBytes(now, sequence, random)[..6] == BigEndian(now, 6);
  }

  // ---- order ----

  /** Lexicographic order of byte strings. */
  ghost predicate BytesBefore(a: seq<Byte>, b: seq<Byte>) {
    exists k :: 0 <= k < |a| && k < |b| && a[..k] == b[..k] && a[k] < b[k]
  }

  /** Lexicographic order of strings of one length. */
  ghost predicate Before(a: string, b: string) {
    exists k :: 0 <= k < |a| && k < |b| && a[..k] == b[..k] && a[k] < b[k]
  }

  lemma BeforeWithMore(a: seq<Byte>, b: seq<Byte>, c: seq<Byte>, d: seq<Byte>)
    requires BytesBefore(a, b) && a <= c && b <= d
    ensures BytesBefore(c, d)
  {
    var k :| 0 <= k < |a| && k < |b| && a[..k] == b[..k] && a[k] < b[k];
    assert c[..k] == a[..k] && d[..k] == b[..k];
  }

  lemma {:induction false} SmallerNumberIsBefore(n: nat, m: nat, size: nat)
    requires n < m < Power(256, size)
    ensures BytesBefore(BigEndian(n, size), BigEndian(m, size))
  {
    var a, b := BigEndian(n, size), BigEndian(m, size);
    var high, low := BigEndian(n / 256, size - 1), BigEndian(m / 256, size - 1);
    assert a[..size - 1] == high && b[..size - 1] == low;
    if n / 256 < m / 256 {
      SmallerNumberIsBefore(n / 256, m / 256, size - 1);
      BeforeWithMore(high, low, a, b);
    } else {
      assert a[..size - 1] == b[..size - 1] && a[size - 1] < b[size - 1];
    }
  }

  /** Where a byte's two digits stand. */
  lemma {:induction false} HexAt(s: seq<Byte>, k: nat)
    requires k < |s|
    ensures Hex(s)[..2 * k] == Hex(s[..k]) && Hex(s)[2 * k] == HexDigit(s[k] / 16) && Hex(s)[2 * k + 1] == HexDigit(s[k] % 16)
  {
    var n := |s| - 1;
    var high := Hex(s[..n]);
    assert Hex(s)[..2 * n] == high;
    if k < n {
      HexAt(s[..n], k);
      assert s[..n][..k] == s[..k];
      assert Hex(s)[..2 * k] == high[..2 * k] && Hex(s)[2 * k] == high[2 * k] && Hex(s)[2 * k + 1] == high[2 * k + 1];
    }
  }

  lemma HexInOrder(a: seq<Byte>, b: seq<Byte>, k: nat) returns (i: nat)
    requires k < |a| == |b| && a[..k] == b[..k] && a[k] < b[k]
    ensures i < 2 * |a| && Hex(a)[..i] == Hex(b)[..i] && Hex(a)[i] < Hex(b)[i]
  {
    HexAt(a, k);
    HexAt(b, k);
    DigitsInOrder(a[k], b[k]);
    i := if a[k] / 16 < b[k] / 16 then 2 * k else 2 * k + 1;
    if a[k] / 16 == b[k] / 16 { OneLonger(Hex(a), Hex(b), 2 * k); }
  }

  lemma OneLonger(x: string, y: string, i: nat)
    requires i < |x| && i < |y| && x[..i] == y[..i] && x[i] == y[i]
    ensures x[..i + 1] == y[..i + 1]
  {
    assert x[..i + 1] == x[..i] + [x[i]] && y[..i + 1] == y[..i] + [y[i]];
  }

  lemma DigitsInOrder(x: Byte, y: Byte)
    requires x < y
    ensures if x / 16 < y / 16 then HexDigit(x / 16) < HexDigit(y / 16)
            else HexDigit(x / 16) == HexDigit(y / 16) && HexDigit(x % 16) < HexDigit(y % 16)
  {
    assert forall n: nat, m: nat :: n < m < 16 ==> HexDigit(n) < HexDigit(m);
  }

  lemma BeforeStays(a: string, b: string, x: string, y: string)
    requires Before(a, b)
    ensures Before(a + x, b + y)
  {
    var k :| 0 <= k < |a| && k < |b| && a[..k] == b[..k] && a[k] < b[k];
    assert (a + x)[..k] == a[..k] && (b + y)[..k] == b[..k];
  }

  lemma BeforeBehind(p: string, a: string, b: string)
    requires Before(a, b)
    ensures Before(p + a, p + b)
  {
    var k :| 0 <= k < |a| && k < |b| && a[..k] == b[..k] && a[k] < b[k];
    assert (p + a)[..|p| + k] == p + a[..k] && (p + b)[..|p| + k] == p + b[..k];
    assert (p + a)[|p| + k] < (p + b)[|p| + k];
  }

  /** Hyphens at the same places do not change the order. */
  lemma HyphensKeepOrder(a: string, b: string, i: nat)
    requires Before(a, b) && i <= |a| && i <= |b|
    ensures Before(a[..i] + "-" + a[i..], b[..i] + "-" + b[i..])
  {
    var k :| 0 <= k < |a| && k < |b| && a[..k] == b[..k] && a[k] < b[k];
    if k < i {
      assert a[..i][..k] == a[..k] && b[..i][..k] == b[..k];
      assert Before(a[..i], b[..i]);
      BeforeStays(a[..i], b[..i], "-" + a[i..], "-" + b[i..]);
      assert a[..i] + ("-" + a[i..]) == a[..i] + "-" + a[i..] && b[..i] + ("-" + b[i..]) == b[..i] + "-" + b[i..];
    } else {
      assert a[..i] == a[..k][..i] == b[..k][..i] == b[..i];
      assert a[i..][..k - i] == a[..k][i..] && b[i..][..k - i] == b[..k][i..];
      assert Before(a[i..], b[i..]) by { assert a[i..][k - i] == a[k] && b[i..][k - i] == b[k]; }
      BeforeBehind(a[..i] + "-", a[i..], b[i..]);
    }
  }

  function Hyphenated(s: string, i: nat): string
    requires i <= |s|
  {
    s[..i] + "-" + s[i..]
  }

  lemma TextIsHyphenatedHex(bytes: seq<Byte>)
    requires |bytes| == 16
    ensures Text(bytes) == Hyphenated(Hyphenated(Hyphenated(Hyphenated(Hex(bytes), 8), 13), 18), 23)
  {
    var hex := Hex(bytes);
    var first := hex[..8] + "-";
    HyphenBehind(first, hex[8..], 4);
    assert hex[8..][..4] == hex[8..12] && hex[8..][4..] == hex[12..];
    var second := first + hex[8..12] + "-";
    HyphenBehind(second, hex[12..], 4);
    assert hex[12..][..4] == hex[12..16] && hex[12..][4..] == hex[16..];
    var third := second + hex[12..16] + "-";
    HyphenBehind(third, hex[16..], 4);
    assert hex[16..][..4] == hex[16..20] && hex[16..][4..] == hex[20..];
  }

  lemma HyphenBehind(p: string, s: string, n: nat)
    requires n <= |s|
    ensures Hyphenated(p + s, |p| + n) == p + s[..n] + "-" + s[n..]
  {
    assert (p + s)[..|p| + n] == p + s[..n] && (p + s)[|p| + n..] == s[n..];
  }

  /** The value of a lower-case hexadecimal digit. */
  function DigitValue(c: char): int {
    if '0' <= c <= '9' then c as int - '0' as int else if 'a' <= c <= 'f' then c as int - 'a' as int + 10 else -1
  }

  /** Where the digits of a byte stand between the hyphens: 8, 4, 4, 4 and 12 digits. */
  function PlaceOf(k: nat): nat {
    2 * k + if k < 4 then 0 else if k < 6 then 1 else if k < 8 then 2 else if k < 10 then 3 else 4
  }

  lemma PlaceInText(bytes: seq<Byte>, k: nat)
    requires |bytes| == 16 && k < 16
    ensures |Text(bytes)| == 36
    ensures Text(bytes)[PlaceOf(k)] == Hex(bytes)[2 * k] && Text(bytes)[PlaceOf(k) + 1] == Hex(bytes)[2 * k + 1]
  {
    var hex := Hex(bytes);
    assert Text(bytes) == hex[..8] + "-" + hex[8..12] + "-" + hex[12..16] + "-" + hex[16..20] + "-" + hex[20..];
  }

  lemma ValueOfDigit(n: nat)
    requires n < 16
    ensures DigitValue(HexDigit(n)) == n
  {
  }

  /** The text is the usual one and reads back: hyphens at their four places, and every byte
      as two lower-case hexadecimal digits. */
  lemma TextReadsBack(bytes: seq<Byte>)
    requires |bytes| == 16
    ensures var text := Text(bytes);
      && |text| == 36 && text[8] == text[13] == text[18] == text[23] == '-'
      && forall k :: 0 <= k < 16 ==> 16 * DigitValue(text[PlaceOf(k)]) + DigitValue(text[PlaceOf(k) + 1]) == bytes[k]
  {
    var text := Text(bytes);
    PlaceInText(bytes, 0);
    forall k | 0 <= k < 16 ensures 16 * DigitValue(text[PlaceOf(k)]) + DigitValue(text[PlaceOf(k) + 1]) == bytes[k] {
      PlaceInText(bytes, k);
      HexAt(bytes, k);
      ValueOfDigit(bytes[k] / 16);
      ValueOfDigit(bytes[k] % 16);
    }
  }

  /** An earlier timestamp gives a lexicographically smaller id, whatever the counter and
      the random bytes. */
  lemma EarlierIsSmaller(now: nat, later: nat, s: nat, t: nat, r: seq<Byte>, q: seq<Byte>)
    requires IsRandom(r) && IsRandom(q) && s < 4096 && t < 4096 && now < later < Power(256, 6)
    ensures Before(Text(IdBytes(now, s, r)), Text(IdBytes(later, t, q)))
  {
    var a, b := IdBytes(now, s, r), IdBytes(later, t, q);
    SmallerNumberIsBefore(now, later, 6);
    var x, y := BigEndian(now, 6), BigEndian(later, 6);
    var k :| 0 <= k < 6 && x[..k] == y[..k] && x[k] < y[k];
    assert a[..k] == x[..k] && b[..k] == y[..k] && a[k] == x[k] && b[k] == y[k];
    var i := HexInOrder(a, b, k);
    InOrderWithHyphens(Hex(a), Hex(b));
    TextIsHyphenatedHex(a);
    TextIsHyphenatedHex(b);
  }

  lemma InOrderWithHyphens(a: string, b: string)
    requires Before(a, b) && |a| == 32 && |b| == 32
    ensures Before(Hyphenated(Hyphenated(Hyphenated(Hyphenated(a, 8), 13), 18), 23), Hyphenated(Hyphenated(Hyphenated(Hyphenated(b, 8), 13), 18), 23))
  {
    HyphensKeepOrder(a, b, 8);
    HyphensKeepOrder(Hyphenated(a, 8), Hyphenated(b, 8), 13);
    HyphensKeepOrder(Hyphenated(Hyphenated(a, 8), 13), Hyphenated(Hyphenated(b, 8), 13), 18);
    HyphensKeepOrder(Hyphenated(Hyphenated(Hyphenated(a, 8), 13), 18), Hyphenated(Hyphenated(Hyphenated(b, 8), 13), 18), 23);
  }

  // ---- distinctness ----

  datatype Call = Call(now: nat, seed: nat, random: seq<Byte>)

  ghost predicate Callable(calls: seq<Call>) { forall i :: 0 <= i < |calls| ==> IsRandom(calls[i].random) }

  function After(m: Memory, calls: seq<Call>): Memory {
    if calls == [] then m
    else var last := calls[|calls| - 1]; Remember(After(m, calls[..|calls| - 1]), last.now, last.seed)
  }

  /** The id of the i-th call. */
  ghost function IdAt(m: Memory, calls: seq<Call>, i: nat): string
    requires Callable(calls) && i < |calls|
  {
    Text(IdBytes(calls[i].now, After(m, calls[..i + 1]).sequence % 4096, calls[i].random))
  }

  ghost predicate SameTime(calls: seq<Call>, i: nat, j: nat, now: nat) {
    j < |calls| && forall k :: i <= k <= j ==> calls[k].now == now
  }

  lemma OneMoreWraps(s: nat, d: nat)
    ensures ((s + d) % 4096 + 1) % 4096 == (s + d + 1) % 4096
  {
  }

  lemma {:induction false} SequenceAdvances(m: Memory, calls: seq<Call>, i: nat, j: nat, now: nat)
    requires i <= j && SameTime(calls, i, j, now)
    ensures After(m, calls[..j + 1]).lastTimestamp == now && After(m, calls[..j + 1]).sequence < 4096
    ensures After(m, calls[..j + 1]).sequence == (After(m, calls[..i + 1]).sequence + (j - i)) % 4096
  {
    assert calls[..j + 1][..j] == calls[..j];
    if i < j {
      SequenceAdvances(m, calls, i, j - 1, now);
      OneMoreWraps(After(m, calls[..i + 1]).sequence, j - 1 - i);
    }
  }

  lemma HexIsInjective(a: seq<Byte>, b: seq<Byte>)
    requires |a| == |b| && Hex(a) == Hex(b)
    ensures a == b
  {
    forall k | 0 <= k < |a| ensures a[k] == b[k] { SameByte(a, b, k); }
  }

  lemma SameByte(a: seq<Byte>, b: seq<Byte>, k: nat)
    requires k < |a| == |b| && Hex(a) == Hex(b)
    ensures a[k] == b[k]
  {
    HexAt(a, k);
    HexAt(b, k);
    SameDigit(a[k] / 16, b[k] / 16);
    SameDigit(a[k] % 16, b[k] % 16);
  }

  lemma SameDigit(n: nat, m: nat)
    requires n < 16 && m < 16
    ensures HexDigit(n) == HexDigit(m) ==> n == m
  {
  }

  lemma TextIsInjective(a: seq<Byte>, b: seq<Byte>)
    requires |a| == 16 && |b| == 16 && Text(a) == Text(b)
    ensures a == b
  {
    var x, y := Hex(a), Hex(b);
    TextIsHyphenatedHex(a);
    TextIsHyphenatedHex(b);
    SameHyphenated(Hyphenated(Hyphenated(Hyphenated(x, 8), 13), 18), Hyphenated(Hyphenated(Hyphenated(y, 8), 13), 18), 23);
    SameHyphenated(Hyphenated(Hyphenated(x, 8), 13), Hyphenated(Hyphenated(y, 8), 13), 18);
    SameHyphenated(Hyphenated(x, 8), Hyphenated(y, 8), 13);
    SameHyphenated(x, y, 8);
    HexIsInjective(a, b);
  }

  lemma SameHyphenated(x: string, y: string, i: nat)
    requires i <= |x| && i <= |y| && Hyphenated(x, i) == Hyphenated(y, i)
    ensures x == y
  {
    var s := Hyphenated(x, i);
    assert x[..i] == s[..i] == y[..i] && x[i..] == s[i + 1..] == y[i..];
    assert x == x[..i] + x[i..] && y == y[..i] + y[i..];
  }

  /** Of any 4096 consecutive ids of one millisecond, no two are equal, whatever the random
      bytes … */
  lemma DistinctWithinMillisecond(m: Memory, calls: seq<Call>, i: nat, j: nat, now: nat)
    requires Callable(calls) && i < j && j - i < 4096 && SameTime(calls, i, j, now)
    ensures IdAt(m, calls, i) != IdAt(m, calls, j)
  {
    SequenceAdvances(m, calls, i, i, now);
    SequenceAdvances(m, calls, i, j, now);
    var s, t := After(m, calls[..i + 1]).sequence, After(m, calls[..j + 1]).sequence;
    WrapsLater(s, j - i);
    IdOf(m, calls, i, now, s);
    IdOf(m, calls, j, now, t);
    OtherCounterOtherText(now, s, t, calls[i].random, calls[j].random);
  }

  lemma IdOf(m: Memory, calls: seq<Call>, i: nat, now: nat, s: nat)
    requires Callable(calls) && i < |calls| && calls[i].now == now && s == After(m, calls[..i + 1]).sequence < 4096
    ensures IdAt(m, calls, i) == Text(IdBytes(now, s, calls[i].random))
  {
    assert s % 4096 == s;
  }

  lemma WrapsLater(s: nat, d: nat)
    requires s < 4096 && 0 < d < 4096
    ensures s != (s + d) % 4096
  {
  }

  lemma OtherCounterOtherText(now: nat, s: nat, t: nat, r: seq<Byte>, q: seq<Byte>)
    requires IsRandom(r) && IsRandom(q) && s < 4096 && t < 4096 && s != t
    ensures Text(IdBytes(now, s, r)) != Text(IdBytes(now, t, q))
  {
    CounterOf(now, s, r);
    CounterOf(now, t, q);
    if Text(IdBytes(now, s, r)) == Text(IdBytes(now, t, q)) {
      TextIsInjective(IdBytes(now, s, r), IdBytes(now, t, q));
    }
  }

  lemma CounterOf(now: nat, sequence: nat, random: seq<Byte>)
    requires IsRandom(random) && sequence < 4096
    ensures Counter(IdBytes(now, sequence, random)) == sequence
  {
  }

  /** … and the 4097th repeats the first as soon as the random bytes do. */
  lemma CounterWrapsAround(m: Memory, calls: seq<Call>, i: nat, now: nat)
    requires Callable(calls) && SameTime(calls, i, i + 4096, now) && calls[i].random == calls[i + 4096].random
    ensures IdAt(m, calls, i) == IdAt(m, calls, i + 4096)
  {
    SequenceAdvances(m, calls, i, i, now);
    SequenceAdvances(m, calls, i, i + 4096, now);
    WrapsFully(After(m, calls[..i + 1]).sequence);
  }

  lemma WrapsFully(s: nat)
    requires s < 4096
    ensures (s + 4096) % 4096 == s
  {
  }
}
