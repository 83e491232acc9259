/**
 Platform versions: "OpenCL <major>.<minor> <vendor>" packed into one 32-bit number, major in the upper half.

 Whatever stands in the place of the two numbers is read, digits or not; the code's integers are taken to wrap
 around.
 */
module PlatformVersion {

  const HALF: nat := 0x10000
  const WORD: nat := 0x1_0000_0000

  /** Where the digits of the major number start. */
  const START: nat := 7

  // ---------------------------------------------------------------------------------------------
  // Decimal numbers
  // ---------------------------------------------------------------------------------------------

  /** What the reading loops make of a text, digit by digit. */
  function Value(s: string): int {
    if s == [] then 0 else Value(s[..|s| - 1]) * 10 + (s[|s| - 1] as int - '0' as int)
  }

  /** Ten to the power of `n`. */
  function Power(n: nat): nat {
    if n == 0 then 1 else 10 * Power(n - 1)
  }

  /** Positional notation, for any text: each part counts for itself, shifted by the length of what follows. */
  lemma {:induction false} ValueIsPositional(a: string, b: string)
    ensures Value(a + b) == Value(a) * Power(|b|) + Value(b)
    decreases |b|
  {
    if b == [] {
      assert a + b == a;
    } else {
      var front := b[..|b| - 1];
      ValueIsPositional(a, front);
      assert (a + b)[..|a + b| - 1] == a + front;
      assert Value(a) * Power(|b|) == Value(a) * Power(|front|) * 10;
    }
  }

  lemma ValueOfOne(c: char)
    ensures Value([c]) == c as int - '0' as int
  {
    assert [c][..0] == [];
  }

  predicate AllDigits(s: string) {
    forall i | 0 <= i < |s| :: '0' <= s[i] <= '9'
  }

  function Decimal(n: nat): (s: string)
    ensures AllDigits(s) && s != []
  {
    var last := [('0' as int + n % 10) as char];
    if n < 10 then last else Decimal(n / 10) + last
  }

  lemma {:induction false} ValueOfDecimal(n: nat)
    ensures Value(Decimal(n)) == n
  {
    var s := Decimal(n);
    if n >= 10 {
      ValueOfDecimal(n / 10);
      assert s[..|s| - 1] == Decimal(n / 10);
    } else {
      assert s[..0] == [];
    }
  }

  // ---------------------------------------------------------------------------------------------
  // Packing
  // ---------------------------------------------------------------------------------------------

  /** The bitwise "or" of two numbers. */
  function Or(a: nat, b: nat): nat {
    if a == 0 && b == 0 then 0 else 2 * Or(a / 2, b / 2) + (if a % 2 == 1 || b % 2 == 1 then 1 else 0)
  }

  function Shifted(a: nat, bits: nat): nat {
    if bits == 0 then a else 2 * Shifted(a, bits - 1)
  }

  /** Bit `k` of a number in two's complement, of any width. */
  predicate Bit(x: int, k: nat)
    decreases k
  {
    if k == 0 then x % 2 == 1 else Bit(x / 2, k - 1)
  }

  lemma {:induction false} NoBits(k: nat)
    ensures !Bit(0, k)
  {
    if k > 0 {
      NoBits(k - 1);
    }
  }

  lemma {:induction false} OrBits(a: nat, b: nat, k: nat)
    ensures Bit(Or(a, b), k) <==> Bit(a, k) || Bit(b, k)
    decreases k
  {
    if a == 0 && b == 0 {
      NoBits(k);
    } else if k > 0 {
      OrBits(a / 2, b / 2, k - 1);
      assert Or(a, b) / 2 == Or(a / 2, b / 2);
    }
  }

  lemma {:induction false} ShiftedBits(a: int, bits: nat, k: nat)
    ensures Bit(a * Shifted(1, bits), k) <==> k >= bits && Bit(a, k - bits)
    decreases bits
  {
    if bits > 0 {
      var half := a * Shifted(1, bits - 1);
      assert a * Shifted(1, bits) == 2 * half;
      if k > 0 {
        ShiftedBits(a, bits - 1, k - 1);
      }
    }
  }

  /** Cutting a number to `bits` bits keeps those. */
  lemma {:induction false} CutBits(x: int, bits: nat, k: nat)
    requires k < bits
    ensures Shifted(1, bits) > 0 && (Bit(x % Shifted(1, bits), k) <==> Bit(x, k))
    decreases bits
  {
    ShiftedIsPositive(bits);
    ShiftedIsPositive(bits - 1);
    CutHalves(x, Shifted(1, bits - 1));
    if k > 0 {
      CutBits(x / 2, bits - 1, k - 1);
    }
  }

  lemma {:induction false} ShiftedIsPositive(bits: nat)
    ensures Shifted(1, bits) > 0
  {
    if bits > 0 {
      ShiftedIsPositive(bits - 1);
    }
  }

  lemma CutHalves(x: int, n: nat)
    requires n > 0
    ensures (x % (2 * n)) / 2 == (x / 2) % n && (x % (2 * n)) % 2 == x % 2
  {
    var q, r := x / (2 * n), x % (2 * n);
    assert x == 2 * (n * q) + r;
    assert x / 2 == n * q + r / 2 && x % 2 == r % 2;
    assert 0 <= r / 2 < n;
    RemainderIsUnique(x / 2, n, q, r / 2);
  }

  lemma ProductIsLarge(n: nat, d: nat)
    requires d >= 1
    ensures n * d >= n
  {
    assert n * d == n + n * (d - 1);
  }

  lemma RemainderIsUnique(x: int, n: nat, q: int, r: nat)
    requires n > 0 && x == n * q + r && r < n
    ensures x % n == r
  {
    var q', r' := x / n, x % n;
    var d := q - q';
    assert n * d == n * q - n * q' == r' - r;
    if d >= 1 {
      ProductIsLarge(n, d);
    } else if d <= -1 {
      ProductIsLarge(n, -d);
    }
  }

  lemma {:induction false} OrWithNothing(a: nat)
    ensures Or(a, 0) == a
  {
    if a != 0 {
      OrWithNothing(a / 2);
    }
  }

  /** Where the bits do not meet, "or" adds. */
  lemma {:induction false} OrAdds(a: nat, bits: nat, b: nat)
    requires b < Shifted(1, bits)
    ensures Or(Shifted(a, bits), b) == Shifted(a, bits) + b
  {
    if bits == 0 {
      OrWithNothing(a);
    } else {
      OrAdds(a, bits - 1, b / 2);
      assert Shifted(a, bits) / 2 == Shifted(a, bits - 1);
    }
  }

  lemma {:induction false} ShiftedScales(a: nat, bits: nat)
    ensures Shifted(a, bits) == a * Shifted(1, bits)
  {
    if bits != 0 {
      ShiftedScales(a, bits - 1);
    }
  }

  lemma HalfIsSixteenBits()
    ensures Shifted(1, 16) == HALF
  {
    assert Shifted(1, 4) == 16;
    assert Shifted(1, 8) == 256;
    assert Shifted(1, 12) == 4096;
  }

  /** A number in two's complement. */
  function Word(x: int): (w: nat)
    ensures w < WORD && (0 <= x < WORD ==> w == x)
  {
    x % WORD
  }

  /** A 32-bit word as a signed number. */
  function Signed(word: nat): int {
    if word < 0x8000_0000 then word else word - WORD
  }

  /** The major number shifted by 16 bits, "or" the minor number. */
  function Pack(major: int, minor: int): nat {
    Or(Word(major * HALF), Word(minor))
  }

  lemma WordIsThirtyTwoBits()
    ensures Shifted(1, 32) == WORD
  {
    HalfIsSixteenBits();
    assert Shifted(1, 20) == 0x10_0000;
    assert Shifted(1, 24) == 0x100_0000;
    assert Shifted(1, 28) == 0x1000_0000;
  }

  /** For any two numbers: the lower bits are those of the minor number, the upper ones have the major number's as well. */
  lemma PackBits(major: int, minor: int, k: nat)
    requires k < 32
    ensures Bit(Pack(major, minor), k) <==> Bit(minor, k) || (k >= 16 && Bit(major, k - 16))
  {
    HalfIsSixteenBits();
    WordIsThirtyTwoBits();
    OrBits(Word(major * HALF), Word(minor), k);
    CutBits(major * HALF, 32, k);
    CutBits(minor, 32, k);
    ShiftedBits(major, 16, k);
  }

  lemma PackAdds(major: nat, minor: nat)
    requires major < HALF && minor < HALF
    ensures Pack(major, minor) == major * HALF + minor < WORD
  {
    HalfIsSixteenBits();
    ShiftedScales(major, 16);
    OrAdds(major, 16, minor);
  }

  /** Packed versions compare like pairs. */
  lemma PackKeepsOrder(major: nat, minor: nat, major': nat, minor': nat)
    requires major < HALF && minor < HALF && major' < HALF && minor' < HALF
    ensures Pack(major, minor) < Pack(major', minor') <==> major < major' || (major == major' && minor < minor')
    ensures Pack(major, minor) == Pack(major', minor') <==> major == major' && minor == minor'
  {
    PackAdds(major, minor);
    PackAdds(major', minor');
  }

  /** The test for platforms that count references to devices: signed, and for more than version 1.1. */
  predicate CountsReferences(version: nat) {
    Signed(version) > Shifted(1, 16) + 1
  }

  /** The test for platforms that create images the newer way: unsigned, and for version 1.2. */
  predicate CreatesImages(version: nat) {
    version >= 0x10002
  }

  /** Up to major number 32767 both tests ask for version 1.2 or later; beyond, the signed one fails. */
  lemma TestsAgreeIff(major: nat, minor: nat)
    requires major < HALF && minor < HALF
    ensures CreatesImages(Pack(major, minor)) <==> major > 1 || (major == 1 && minor >= 2)
    ensures (CountsReferences(Pack(major, minor)) <==> CreatesImages(Pack(major, minor))) <==> major <= 32767
  {
    HalfIsSixteenBits();
    PackAdds(major, minor);
  }

  // ---------------------------------------------------------------------------------------------
  // Reading a version text
  // ---------------------------------------------------------------------------------------------

  predicate Ends(c: char) {
    c == ' ' || c == '\0'
  }

  /** The first number ends with the first dot, at `dot`, and the second with the first blank or NUL behind it, at `end`. */
  ghost predicate Reads(info: string, dot: nat, end: nat) {
    && START <= dot < end < |info|
    && info[dot] == '.' && (forall i | START <= i < dot :: info[i] != '.')
    && Ends(info[end]) && (forall i | dot < i < end :: !Ends(info[i]))
  }

  lemma ReadsOneWay(info: string, dot: nat, end: nat, dot': nat, end': nat)
    requires Reads(info, dot, end) && Reads(info, dot', end')
    ensures dot == dot' && end == end'
  {
  }

  /** One more digit. */
  lemma ValueGrows(s: string, from: nat, i: nat)
    requires from <= i < |s|
    ensures Value(s[from..i + 1]) == Value(s[from..i]) * 10 + (s[i] as int - '0' as int)
  {
    assert s[from..i + 1][..i - from] == s[from..i];
  }

  /** Reads the major number: everything up to the dot. */
  method ReadMajor(info: string, ghost dot: nat, ghost end: nat) returns (number: int, index: nat)
    requires Reads(info, dot, end)
    ensures index == dot && number == Value(info[START..dot])
  {
    number, index := 0, START;
    while info[index] != '.'
      invariant START <= index <= dot && number == Value(info[START..index])
      decreases dot - index as int
    {
      ValueGrows(info, START, index);
      number := number * 10;
      number := number + (info[index] as int - '0' as int);
      index := index + 1;
    }
  }

  /** Reads the minor number: everything from behind the dot up to a blank or the end of the text. */
  method ReadMinor(info: string, from: nat, ghost dot: nat, ghost end: nat) returns (number: int)
    requires Reads(info, dot, end) && from == dot + 1
    ensures number == Value(info[from..end])
  {
    var index := from;
    number := 0;
    while info[index] != ' ' && info[index] != '\0'
      invariant from <= index <= end && number == Value(info[from..index])
      decreases end - index as int
    {
      ValueGrows(info, from, index);
      number := number * 10;
      number := number + (info[index] as int - '0' as int);
      index := index + 1;
    }
  }

  /** Packs the two numbers of a version text, which has to have a dot and an end for the code to stay inside it. */
  method GetVersion(info: string) returns (version: nat)
    requires exists dot: nat, end: nat :: Reads(info, dot, end)
    ensures forall dot: nat, end: nat | Reads(info, dot, end) ::
      version == Pack(Value(info[START..dot]), Value(info[dot + 1..end]))
  {
    ghost var dot: nat, end: nat :| Reads(info, dot, end);
    var major, index := ReadMajor(info, dot, end);
    index := index + 1;
    var minor := ReadMinor(info, index, dot, end);
    forall dot': nat, end': nat | Reads(info, dot', end') ensures dot' == dot && end' == end {
      ReadsOneWay(info, dot, end, dot', end');
    }
    version := Pack(major, minor);
  }

  /** A version text as platforms print it, with its closing NUL. */
  function Printed(major: nat, minor: nat, vendor: string): string {
    "OpenCL " + Decimal(major) + "." + Decimal(minor) + (if vendor == "" then "" else " " + vendor) + "\0"
  }

  lemma JoinedParts(head: string, a: string, b: string, tail: string)
    requires |head| == START
    ensures var dot := START + |a|; var end := dot + 1 + |b|; var info := head + a + "." + b + tail;
            info[START..dot] == a && info[dot] == '.' && info[dot + 1..end] == b && info[end..] == tail
  {
  }

  lemma JoinedReads(info: string, a: string, b: string, dot: nat, end: nat)
    requires START <= dot < end < |info| && info[START..dot] == a && info[dot] == '.' && info[dot + 1..end] == b
    requires Ends(info[end]) && AllDigits(a) && AllDigits(b)
    ensures Reads(info, dot, end)
  {
    forall i | START <= i < dot ensures info[i] != '.' {
      assert info[i] == a[i - START];
    }
    forall i | dot < i < end ensures !Ends(info[i]) {
      assert info[i] == b[i - dot - 1];
    }
  }

  lemma PrintedReads(major: nat, minor: nat, vendor: string)
    ensures var dot := START + |Decimal(major)|; var end := dot + 1 + |Decimal(minor)|; var info := Printed(major, minor, vendor);
            Reads(info, dot, end) && info[START..dot] == Decimal(major) && info[dot + 1..end] == Decimal(minor)
  {
    var a, b := Decimal(major), Decimal(minor);
    var end := START + |a| + 1 + |b|;
    var tail := (if vendor == "" then "" else " " + vendor) + "\0";
    var info := "OpenCL " + a + "." + b + tail;
    assert info == Printed(major, minor, vendor);
    JoinedParts("OpenCL ", a, b, tail);
    assert info[end] == info[end..][0] == tail[0];
    JoinedReads(info, a, b, START + |a|, end);
  }

  /** Reading a printed version gives the numbers back. */
  method RoundTrip(major: nat, minor: nat, vendor: string) returns (version: nat)
    requires major < HALF && minor < HALF
    ensures version == major * HALF + minor
  {
    PrintedReads(major, minor, vendor);
    version := GetVersion(Printed(major, minor, vendor));
    ValueOfDecimal(major);
    ValueOfDecimal(minor);
    PackAdds(major, minor);
  }
}
