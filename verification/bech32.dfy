/**
 `terra_address`: the Bech32 check of a Terra address (BIP 173, without witness version).

 A symbol is five bits. The checksum is a linear map over GF(2): its step respects exclusive or,
 and its step on a zero symbol loses nothing.
 */
module Bech32 {
  import opened Wrappers

  type Symbol = bv5

  const PREFIX: string := "terra1"
  const CHARSET: string := "qpzry9x8gf2tvdw0s3jn54khce6mua7l"

  /** The human-readable part "terra" as symbols: high bits, a zero, low bits. */
  const HEADER: seq<Symbol> := [3, 3, 3, 3, 3, 0, 20, 5, 18, 18, 1]

  // ---------------------------------------------------------------- the checksum

  /** Addition over GF(2). */
  function Plus(a: bv30, b: bv30): bv30 { a ^ b }

  const GENERATORS: seq<bv30> := [0x3b6a57b2, 0x26508e6d, 0x1ea119fa, 0x3d4233dd, 0x2a1462b3]

  /** The generator that one top bit brings in. */
  function Chosen(top: bv30, index: nat): bv30
    requires index < 5
  {
    if (top >> index) & 1 == 1 then GENERATORS[index] else 0
  }

  /** The generators of the first top bits. */
  function ChosenUpTo(top: bv30, index: nat): bv30
    requires index <= 5
  {
    if index == 0 then 0 else Plus(ChosenUpTo(top, index - 1), Chosen(top, index - 1))
  }

  function Generator(top: bv30): bv30 {
    ChosenUpTo(top, 5)
  }

  function Shifted(c: bv30): bv30 { (c & 0x1ffffff) << 5 }

  function Top(c: bv30): bv30 { c >> 25 }

  /** One step of the checksum. */
  function Step(c: bv30, s: bv30): bv30 {
    Plus(Plus(Shifted(c), s), Generator(Top(c)))
  }

  function Wide(s: Symbol): bv30 { s as bv30 }

  function Fold(c: bv30, data: seq<Symbol>): bv30
    decreases |data|
  {
    if data == [] then c else Fold(Step(c, Wide(data[0])), data[1..])
  }

  lemma {:induction false} FoldConcat(c: bv30, a: seq<Symbol>, b: seq<Symbol>)
    ensures Fold(c, a + b) == Fold(Fold(c, a), b)
    decreases |a|
  {
    hide Step, Wide;
    if a == [] {
      assert a + b == b;
    } else {
      assert (a + b)[0] == a[0] && (a + b)[1..] == a[1..] + b;
      FoldConcat(Step(c, Wide(a[0])), a[1..], b);
    }
  }

  lemma ShiftLinear(a: bv30, b: bv30)
    ensures Shifted(Plus(a, b)) == Plus(Shifted(a), Shifted(b))
    ensures Top(Plus(a, b)) == Plus(Top(a), Top(b))
  {
  }

  lemma PlusAssociates(a: bv30, b: bv30, c: bv30)
    ensures Plus(Plus(a, b), c) == Plus(a, Plus(b, c))
  {
  }

  lemma PlusCommutes(a: bv30, b: bv30)
    ensures Plus(a, b) == Plus(b, a)
  {
  }

  lemma PlusSwap(a: bv30, b: bv30, s: bv30, t: bv30)
    ensures Plus(Plus(a, b), Plus(s, t)) == Plus(Plus(a, s), Plus(b, t))
  {
    hide Plus;
    PlusAssociates(a, b, Plus(s, t));
    PlusAssociates(b, s, t);
    PlusCommutes(b, s);
    PlusAssociates(s, b, t);
    PlusAssociates(a, s, Plus(b, t));
  }

  lemma PlusSelf(a: bv30, b: bv30)
    ensures Plus(a, b) == 0 <==> a == b
  {
  }

  /** A generator behind one bit. */
  function Tap(top: bv30, mask: bv30, generator: bv30): bv30 {
    if top & mask == mask then generator else 0
  }

  lemma TapLinear(a: bv30, b: bv30, mask: bv30, generator: bv30)
    requires mask == 1 || mask == 2 || mask == 4 || mask == 8 || mask == 16
    ensures Tap(Plus(a, b), mask, generator) == Plus(Tap(a, mask, generator), Tap(b, mask, generator))
  {
    TapBit(a, b, mask);
    PlusSelf(generator, generator);
  }

  lemma TapBit(a: bv30, b: bv30, mask: bv30)
    requires mask == 1 || mask == 2 || mask == 4 || mask == 8 || mask == 16
    ensures Plus(a, b) & mask == mask <==> (a & mask == mask) != (b & mask == mask)
  {
  }

  lemma ChosenTap(top: bv30)
    ensures Chosen(top, 0) == Tap(top, 1, 0x3b6a57b2)
    ensures Chosen(top, 1) == Tap(top, 2, 0x26508e6d)
    ensures Chosen(top, 2) == Tap(top, 4, 0x1ea119fa)
    ensures Chosen(top, 3) == Tap(top, 8, 0x3d4233dd)
    ensures Chosen(top, 4) == Tap(top, 16, 0x2a1462b3)
  {
  }

  lemma ChosenLinear(a: bv30, b: bv30, index: nat)
    requires index < 5
    ensures Chosen(Plus(a, b), index) == Plus(Chosen(a, index), Chosen(b, index))
  {
    hide Plus, Chosen, Tap;
    ChosenTap(a);
    ChosenTap(b);
    ChosenTap(Plus(a, b));
    TapLinear(a, b, 1, 0x3b6a57b2);
    TapLinear(a, b, 2, 0x26508e6d);
    TapLinear(a, b, 4, 0x1ea119fa);
    TapLinear(a, b, 8, 0x3d4233dd);
    TapLinear(a, b, 16, 0x2a1462b3);
  }

  lemma {:induction false} ChosenUpToLinear(a: bv30, b: bv30, index: nat)
    requires index <= 5
    ensures ChosenUpTo(Plus(a, b), index) == Plus(ChosenUpTo(a, index), ChosenUpTo(b, index))
  {
    hide Plus, Chosen;
    if index == 0 {
      PlusSelf(0, 0);
    } else {
      ChosenUpToLinear(a, b, index - 1);
      ChosenLinear(a, b, index - 1);
      PlusSwap(ChosenUpTo(a, index - 1), ChosenUpTo(b, index - 1), Chosen(a, index - 1), Chosen(b, index - 1));
    }
  }

  lemma GeneratorLinear(a: bv30, b: bv30)
    ensures Generator(Plus(a, b)) == Plus(Generator(a), Generator(b))
  {
    ChosenUpToLinear(a, b, 5);
  }

  /** The generators written out bit by bit. */
  function Taps(top: bv30): bv30 {
    Plus(Plus(Plus(Plus(Plus(0, Tap(top, 1, 0x3b6a57b2)), Tap(top, 2, 0x26508e6d)), Tap(top, 4, 0x1ea119fa)),
              Tap(top, 8, 0x3d4233dd)), Tap(top, 16, 0x2a1462b3))
  }

  lemma GeneratorTaps(top: bv30)
    ensures Generator(top) == Taps(top)
  {
    hide Chosen, Plus, Tap;
    ChosenTap(top);
    assert ChosenUpTo(top, 0) == 0;
    assert ChosenUpTo(top, 1) == Plus(0, Chosen(top, 0));
    assert ChosenUpTo(top, 2) == Plus(ChosenUpTo(top, 1), Chosen(top, 1));
    assert ChosenUpTo(top, 3) == Plus(ChosenUpTo(top, 2), Chosen(top, 2));
    assert ChosenUpTo(top, 4) == Plus(ChosenUpTo(top, 3), Chosen(top, 3));
  }

  /** The step respects exclusive or. */
  lemma StepLinear(a: bv30, b: bv30, s: bv30, t: bv30)
    ensures Step(Plus(a, b), Plus(s, t)) == Plus(Step(a, s), Step(b, t))
  {
    hide Generator, Shifted, Top, Plus;
    ShiftLinear(a, b);
    GeneratorLinear(Top(a), Top(b));
    PlusSwap(Shifted(a), Shifted(b), s, t);
    PlusSwap(Plus(Shifted(a), s), Plus(Shifted(b), t), Generator(Top(a)), Generator(Top(b)));
  }

  /** A step on a zero symbol is injective. */
  lemma ZeroStepInjective(c: bv30)
    ensures Step(c, 0) == 0 <==> c == 0
  {
    hide Generator;
    GeneratorTaps(Top(c));
  }

  function Mix(s: Symbol, t: Symbol): Symbol { s ^ t }

  lemma WideMix(s: Symbol, t: Symbol)
    ensures Wide(Mix(s, t)) == Plus(Wide(s), Wide(t))
  {
  }

  function Difference(x: seq<Symbol>, y: seq<Symbol>): (z: seq<Symbol>)
    requires |x| == |y|
    ensures |z| == |x| && forall i :: 0 <= i < |x| ==> z[i] == Mix(x[i], y[i])
  {
    seq(|x|, i requires 0 <= i < |x| => Mix(x[i], y[i]))
  }

  lemma {:induction false} FoldLinear(a: bv30, b: bv30, x: seq<Symbol>, y: seq<Symbol>)
    requires |x| == |y|
    ensures Fold(Plus(a, b), Difference(x, y)) == Plus(Fold(a, x), Fold(b, y))
    decreases |x|
  {
    hide Step, Wide, Plus, Mix;
    if x != [] {
      StepLinear(a, b, Wide(x[0]), Wide(y[0]));
      WideMix(x[0], y[0]);
      assert Difference(x, y)[1..] == Difference(x[1..], y[1..]);
      FoldLinear(Step(a, Wide(x[0])), Step(b, Wide(y[0])), x[1..], y[1..]);
    }
  }

  predicate AllZero(x: seq<Symbol>) {
    forall i :: 0 <= i < |x| ==> x[i] == 0
  }

  /** Zero symbols keep a zero state at zero and a nonzero state nonzero. */
  lemma {:induction false} ZerosKeep(c: bv30, x: seq<Symbol>)
    requires AllZero(x)
    ensures Fold(c, x) == 0 <==> c == 0
    decreases |x|
  {
    hide Step;
    if x != [] {
      assert Wide(x[0]) == 0;
      ZeroStepInjective(c);
      ZerosKeep(Step(c, 0), x[1..]);
    }
  }

  /** Six symbols are exactly the thirty bits of the state. */
  function Pack(w: seq<Symbol>): bv30
    requires |w| == 6
  {
    Push(Push(Push(Push(Push(Wide(w[0]), w[1]), w[2]), w[3]), w[4]), w[5])
  }

  function Push(c: bv30, s: Symbol): bv30 { (c << 5) | Wide(s) }

  function Unpack(c: bv30): (w: seq<Symbol>)
    ensures |w| == 6
  {
    [Low(c >> 25), Low(c >> 20), Low(c >> 15), Low(c >> 10), Low(c >> 5), Low(c)]
  }

  function Low(c: bv30): Symbol { (c & 31) as bv5 }

  lemma PackBijective(c: bv30, w: seq<Symbol>)
    requires |w| == 6
    ensures Pack(Unpack(c)) == c
    ensures Unpack(Pack(w)) == w
  {
    PackUnpack(c);
    UnpackPack(w[0], w[1], w[2], w[3], w[4], w[5]);
    assert w == [w[0], w[1], w[2], w[3], w[4], w[5]];
  }

  lemma PackUnpack(c: bv30)
    ensures Pack(Unpack(c)) == c
  {
  }

  lemma UnpackPack(a: Symbol, b: Symbol, c: Symbol, d: Symbol, e: Symbol, f: Symbol)
    ensures Unpack(Pack([a, b, c, d, e, f])) == [a, b, c, d, e, f]
  {
  }

  /** While the top symbol is free, a step only shifts. */
  lemma SmallStep(c: bv30, s: Symbol)
    requires c >> 25 == 0
    ensures Step(c, Wide(s)) == Push(c, s)
  {
    hide Plus, Generator, Wide;
    KeepsAll(c);
    GeneratorZero();
    PlusZero(Plus(Shifted(c), Wide(s)));
    LowBits(c, s);
  }

  lemma KeepsAll(c: bv30)
    requires c >> 25 == 0
    ensures Shifted(c) == c << 5
  {
  }

  lemma GeneratorZero()
    ensures Generator(0) == 0
  {
    hide Generator;
    GeneratorTaps(0);
  }

  lemma LowBits(c: bv30, s: Symbol)
    ensures Plus(c << 5, Wide(s)) == (c << 5) | Wide(s)
  {
  }

  lemma PushBounds(c: bv30, s: Symbol)
    ensures Wide(s) < 0x20 && Push(0, s) == Wide(s)
    ensures c < 0x20 ==> Push(c, s) < 0x400
    ensures c < 0x400 ==> Push(c, s) < 0x8000
    ensures c < 0x8000 ==> Push(c, s) < 0x100000
    ensures c < 0x100000 ==> Push(c, s) < 0x2000000
  {
  }

  lemma TopFree(c: bv30)
    ensures c < 0x20 || c < 0x400 || c < 0x8000 || c < 0x100000 || c < 0x2000000 ==> c >> 25 == 0
  {
  }

  lemma SmallPush(c: bv30, s: Symbol)
    requires c == 0 || c < 0x20 || c < 0x400 || c < 0x8000 || c < 0x100000 || c < 0x2000000
    ensures Step(c, Wide(s)) == Push(c, s)
  {
    hide Step, Push;
    TopFree(c);
    SmallStep(c, s);
  }

  lemma SixSteps(a: Symbol, b: Symbol, c: Symbol, d: Symbol, e: Symbol, f: Symbol)
    ensures Step(Step(Step(Step(Step(Step(0, Wide(a)), Wide(b)), Wide(c)), Wide(d)), Wide(e)), Wide(f))
            == Pack([a, b, c, d, e, f])
  {
    hide Step, Push, Wide;
    var c1 := Wide(a);
    var c2 := Push(c1, b);
    var c3 := Push(c2, c);
    var c4 := Push(c3, d);
    var c5 := Push(c4, e);
    PushBounds(0, a);
    PushBounds(c1, b);
    PushBounds(c2, c);
    PushBounds(c3, d);
    PushBounds(c4, e);
    SmallPush(0, a);
    SmallPush(c1, b);
    SmallPush(c2, c);
    SmallPush(c3, d);
    SmallPush(c4, e);
    SmallPush(c5, f);
  }

  /** From the zero state, six symbols are simply packed. */
  lemma FoldPacks(w: seq<Symbol>)
    requires |w| == 6
    ensures Fold(0, w) == Pack(w)
  {
    hide Step, Wide, Pack;
    SixSteps(w[0], w[1], w[2], w[3], w[4], w[5]);
    assert w == [w[0], w[1], w[2], w[3], w[4], w[5]];
    var c1 := Step(0, Wide(w[0]));
    var c2 := Step(c1, Wide(w[1]));
    var c3 := Step(c2, Wide(w[2]));
    var c4 := Step(c3, Wide(w[3]));
    var c5 := Step(c4, Wide(w[4]));
    FoldAt(0, w, 0);
    FoldAt(c1, w, 1);
    FoldAt(c2, w, 2);
    FoldAt(c3, w, 3);
    FoldAt(c4, w, 4);
    FoldAt(c5, w, 5);
  }

  lemma FoldAt(c: bv30, w: seq<Symbol>, i: nat)
    requires i < |w|
    ensures Fold(c, w[i..]) == Fold(Step(c, Wide(w[i])), w[i + 1..])
    ensures i == 0 ==> w[i..] == w
    ensures i + 1 == |w| ==> Fold(Step(c, Wide(w[i])), w[i + 1..]) == Step(c, Wide(w[i]))
  {
    hide Step, Wide;
    assert w[i..][1..] == w[i + 1..];
  }

  lemma PackZero(w: seq<Symbol>)
    requires |w| == 6 && Pack(w) == 0
    ensures AllZero(w)
  {
    PackBijective(0, w);
    assert AllZero(Unpack(0));
  }

  /** A burst: the two differ at most inside the six positions from `i` on. */
  predicate Burst(x: seq<Symbol>, y: seq<Symbol>, i: nat) {
    && |x| == |y| && i + 6 <= |x|
    && x[..i] == y[..i] && x[i + 6..] == y[i + 6..]
  }

  /** Every burst changes the checksum. */
  lemma BurstDetected(c: bv30, x: seq<Symbol>, y: seq<Symbol>, i: nat)
    requires Burst(x, y, i) && Fold(c, x) == Fold(c, y)
    ensures x == y
  {
    hide Step, Wide, Pack, Plus, Fold;
    var z := Difference(x, y);
    FoldLinear(c, c, x, y);
    PlusSelf(c, c);
    PlusSelf(Fold(c, x), Fold(c, y));
    SplitZero(z, x, y, i);
    var w := z[i..i + 6];
    assert z == z[..i] + w + z[i + 6..];
    FoldConcat(0, z[..i] + w, z[i + 6..]);
    FoldConcat(0, z[..i], w);
    ZerosKeep(0, z[..i]);
    ZerosKeep(Fold(0, w), z[i + 6..]);
    FoldPacks(w);
    PackZero(w);
    forall k | 0 <= k < |x|
      ensures x[k] == y[k]
    {
      if i <= k < i + 6 {
        assert w[k - i] == z[k] == Mix(x[k], y[k]);
        MixZero(x[k], y[k]);
      } else if k < i {
        assert x[..i][k] == y[..i][k];
      } else {
        assert x[i + 6..][k - i - 6] == y[i + 6..][k - i - 6];
      }
    }
  }

  lemma MixZero(s: Symbol, t: Symbol)
    ensures Mix(s, t) == 0 <==> s == t
  {
  }

  lemma SplitZero(z: seq<Symbol>, x: seq<Symbol>, y: seq<Symbol>, i: nat)
    requires Burst(x, y, i) && z == Difference(x, y)
    ensures AllZero(z[..i]) && AllZero(z[i + 6..])
  {
    hide Mix;
    forall k | 0 <= k < i
      ensures z[..i][k] == 0
    {
      assert x[..i][k] == y[..i][k];
      MixZero(x[k], y[k]);
    }
    var after := z[i + 6..];
    forall k | 0 <= k < |after|
      ensures after[k] == 0
    {
      assert x[i + 6..][k] == y[i + 6..][k];
      MixZero(x[i + 6 + k], y[i + 6 + k]);
    }
  }

  // ---------------------------------------------------------------- checksums exist and are unique

  const ZEROS: seq<Symbol> := [0, 0, 0, 0, 0, 0]

  /** The six symbols that bring a state to one. */
  function ChecksumFrom(c: bv30): (w: seq<Symbol>)
    ensures |w| == 6
  {
    Unpack(Plus(Fold(c, ZEROS), 1))
  }

  lemma ChecksumUnique(c: bv30, w: seq<Symbol>)
    requires |w| == 6
    ensures Fold(c, w) == 1 <==> w == ChecksumFrom(c)
  {
    hide Step, Wide, Pack, Unpack, Plus, Fold, Mix;
    FoldFromState(c, w);
    var z := Fold(c, ZEROS);
    PackBijective(Plus(z, 1), w);
    PlusMoves(z, Pack(w));
  }

  lemma PlusMoves(z: bv30, p: bv30)
    ensures Plus(z, p) == 1 <==> p == Plus(z, 1)
  {
    hide Plus;
    PlusAssociates(z, z, p);
    PlusAssociates(z, z, 1);
    PlusSelf(z, z);
    PlusZero(1);
    PlusZero(p);
    PlusCommutes(1, 0);
    PlusCommutes(p, 0);
  }

  lemma FoldFromState(c: bv30, w: seq<Symbol>)
    requires |w| == 6
    ensures Fold(c, w) == Plus(Fold(c, ZEROS), Pack(w))
  {
    hide Step, Wide, Pack, Plus, Fold, Mix;
    FoldLinear(c, 0, ZEROS, w);
    PlusZero(c);
    forall k | 0 <= k < 6
      ensures Difference(ZEROS, w)[k] == w[k]
    {
      MixWithZero(w[k]);
    }
    assert Difference(ZEROS, w) == w;
    FoldPacks(w);
  }

  lemma PlusZero(c: bv30)
    ensures Plus(c, 0) == c
  {
  }

  lemma MixWithZero(s: Symbol)
    ensures Mix(0, s) == s
  {
  }

  // ---------------------------------------------------------------- characters

  /** The position of a character in the alphabet. */
  function Find(c: char, from: nat): (i: nat)
    requires from <= 32
    ensures from <= i <= 32
    ensures i < 32 ==> CHARSET[i] == c
    ensures forall k :: from <= k < i ==> CHARSET[k] != c
    decreases 32 - from
  {
    if from == 32 then 32 else if CHARSET[from] == c then from else Find(c, from + 1)
  }

  predicate InCharset(c: char) { Find(c, 0) < 32 }

  function FromChar(c: char): Symbol
    requires InCharset(c)
  {
    Find(c, 0) as Symbol
  }

  function ToChar(s: Symbol): char { CHARSET[s as int] }

  lemma CharsetDistinct(i: nat, k: nat)
    requires i < k < 32
    ensures CHARSET[i] != CHARSET[k]
  {
  }

  lemma CharRoundTrip(c: char)
    requires InCharset(c)
    ensures ToChar(FromChar(c)) == c
  {
    hide Find, CHARSET;
  }

  lemma SymbolRoundTrip(s: Symbol)
    ensures InCharset(ToChar(s)) && FromChar(ToChar(s)) == s
  {
    hide Find, CHARSET;
    var i := Find(ToChar(s), 0);
    if i < s as int {
      CharsetDistinct(i, s as int);
    }
  }

  predicate Decodable(text: string) {
    forall i :: 0 <= i < |text| ==> InCharset(text[i])
  }

  function Symbols(text: string): (x: seq<Symbol>)
    requires Decodable(text)
    ensures |x| == |text| && forall i :: 0 <= i < |x| ==> x[i] == FromChar(text[i])
  {
    seq(|text|, i requires 0 <= i < |text| => FromChar(text[i]))
  }

  function Text(x: seq<Symbol>): (t: string)
    ensures |t| == |x| && forall i :: 0 <= i < |x| ==> t[i] == ToChar(x[i])
  {
    seq(|x|, i requires 0 <= i < |x| => ToChar(x[i]))
  }

  lemma TextRoundTrip(t: string, x: seq<Symbol>)
    ensures Decodable(Text(x)) && Symbols(Text(x)) == x
    ensures Decodable(t) ==> Text(Symbols(t)) == t
  {
    hide InCharset, FromChar, ToChar;
    forall i | 0 <= i < |x|
      ensures InCharset(Text(x)[i]) && FromChar(Text(x)[i]) == x[i]
    {
      SymbolRoundTrip(x[i]);
    }
    if Decodable(t) {
      forall i | 0 <= i < |t|
        ensures Text(Symbols(t))[i] == t[i]
      {
        CharRoundTrip(t[i]);
      }
    }
  }

  // ---------------------------------------------------------------- acceptance

  /** A payload of 20 bytes, or one of 32 bytes followed by four zero bits. */
  predicate WholeBytes(payload: seq<Symbol>) {
    |payload| == 32 || (|payload| == 52 && payload[51] & 15 == 0)
  }

  predicate ChecksumOk(data: seq<Symbol>) {
    Fold(Fold(1, HEADER), data) == 1
  }

  /** What `terra_address` accepts. */
  predicate Accepts(value: string) {
    && PREFIX <= value && Decodable(value[6..])
    && var data := Symbols(value[6..]);
    && |data| >= 6 && ChecksumOk(data) && WholeBytes(data[..|data| - 6])
  }

  lemma AcceptedBurst(value: string, other: string, i: nat)
    requires Accepts(value) && Accepts(other) && |other| == |value|
    requires 6 <= i && i + 6 <= |value|
    requires other[..i] == value[..i] && other[i + 6..] == value[i + 6..]
    ensures other == value
  {
    hide InCharset, FromChar, WholeBytes, Fold;
    var x, y := Symbols(value[6..]), Symbols(other[6..]);
    forall k | 0 <= k < i - 6
      ensures x[k] == y[k]
    {
      assert value[..i][6 + k] == other[..i][6 + k];
    }
    forall k | i <= k < |x|
      ensures x[k] == y[k]
    {
      assert value[i + 6..][k - i] == other[i + 6..][k - i];
    }
    assert Burst(x, y, i - 6);
    BurstDetected(Fold(1, HEADER), x, y, i - 6);
    TextRoundTrip(value[6..], x);
    TextRoundTrip(other[6..], y);
    assert value == PREFIX + value[6..] && other == PREFIX + other[6..];
  }

  /** A change within a window of at most six consecutive data symbols is always noticed. */
  lemma BurstRejected(value: string, other: string, i: nat)
    requires Accepts(value) && |other| == |value| && other != value
    requires 6 <= i && i + 6 <= |value|
    requires other[..i] == value[..i] && other[i + 6..] == value[i + 6..]
    ensures !Accepts(other)
  {
    hide Accepts;
    if Accepts(other) { AcceptedBurst(value, other, i); }
  }

  // ---------------------------------------------------------------- addresses and payloads correspond one to one

  type Byte = bv8

  function SymbolBits(x: Symbol): (b: seq<bool>)
    ensures |b| == 5
  {
    [x & 16 != 0, x & 8 != 0, x & 4 != 0, x & 2 != 0, x & 1 != 0]
  }

  function BitsSymbol(b: seq<bool>): Symbol
    requires |b| == 5
  {
    (if b[0] then 16 else 0) | (if b[1] then 8 else 0) | (if b[2] then 4 else 0)
    | (if b[3] then 2 else 0) | (if b[4] then 1 else 0)
  }

  function ByteBits(x: Byte): (b: seq<bool>)
    ensures |b| == 8
  {
    [x & 128 != 0, x & 64 != 0, x & 32 != 0, x & 16 != 0, x & 8 != 0, x & 4 != 0, x & 2 != 0, x & 1 != 0]
  }

  function BitsByte(b: seq<bool>): Byte
    requires |b| == 8
  {
    FromEight(b[0], b[1], b[2], b[3], b[4], b[5], b[6], b[7])
  }

  lemma SymbolBitsRoundTrip(x: Symbol, b: seq<bool>)
    requires |b| == 5
    ensures BitsSymbol(SymbolBits(x)) == x
    ensures SymbolBits(BitsSymbol(b)) == b
  {
  }

  lemma ByteFromBits(x: Byte)
    ensures BitsByte(ByteBits(x)) == x
  {
  }

  function FromEight(a: bool, b: bool, c: bool, d: bool, e: bool, f: bool, g: bool, h: bool): Byte {
    (if a then 128 else 0) | (if b then 64 else 0) | (if c then 32 else 0) | (if d then 16 else 0)
    | (if e then 8 else 0) | (if f then 4 else 0) | (if g then 2 else 0) | (if h then 1 else 0)
  }

  lemma EightBits(a: bool, b: bool, c: bool, d: bool, e: bool, f: bool, g: bool, h: bool)
    ensures var r := ByteBits(FromEight(a, b, c, d, e, f, g, h));
            r[0] == a && r[1] == b && r[2] == c && r[3] == d && r[4] == e && r[5] == f && r[6] == g && r[7] == h
  {
  }

  lemma BitsOfEight(b: seq<bool>)
    requires |b| == 8
    ensures ByteBits(BitsByte(b)) == b
  {
    hide FromEight, ByteBits;
    EightBits(b[0], b[1], b[2], b[3], b[4], b[5], b[6], b[7]);
  }

  lemma ByteBitsRoundTrip(x: Byte, b: seq<bool>)
    requires |b| == 8
    ensures BitsByte(ByteBits(x)) == x
    ensures ByteBits(BitsByte(b)) == b
  {
    hide ByteBits, BitsByte;
    ByteFromBits(x);
    BitsOfEight(b);
  }

  function Unroll5(x: seq<Symbol>): (b: seq<bool>)
    ensures |b| == 5 * |x|
  {
    if x == [] then [] else SymbolBits(x[0]) + Unroll5(x[1..])
  }

  function Group5(b: seq<bool>): (x: seq<Symbol>)
    requires |b| % 5 == 0
    ensures 5 * |x| == |b|
  {
    if b == [] then [] else [BitsSymbol(b[..5])] + Group5(b[5..])
  }

  function Unroll8(x: seq<Byte>): (b: seq<bool>)
    ensures |b| == 8 * |x|
  {
    if x == [] then [] else ByteBits(x[0]) + Unroll8(x[1..])
  }

  function Group8(b: seq<bool>): (x: seq<Byte>)
    requires |b| % 8 == 0
    ensures 8 * |x| == |b|
  {
    if b == [] then [] else [BitsByte(b[..8])] + Group8(b[8..])
  }

  lemma {:induction false} GroupUnroll5(x: seq<Symbol>)
    ensures Group5(Unroll5(x)) == x
  {
    hide SymbolBits, BitsSymbol;
    if x != [] {
      SymbolBitsRoundTrip(x[0], [false, false, false, false, false]);
      assert Unroll5(x)[..5] == SymbolBits(x[0]) && Unroll5(x)[5..] == Unroll5(x[1..]);
      GroupUnroll5(x[1..]);
    }
  }

  lemma {:induction false} UnrollGroup5(b: seq<bool>)
    requires |b| % 5 == 0
    ensures Unroll5(Group5(b)) == b
  {
    hide SymbolBits, BitsSymbol;
    if b != [] {
      SymbolBitsRoundTrip(0, b[..5]);
      UnrollGroup5(b[5..]);
      assert Group5(b)[1..] == Group5(b[5..]);
    }
  }

  lemma {:induction false} GroupUnroll8(x: seq<Byte>)
    ensures Group8(Unroll8(x)) == x
  {
    hide ByteBits, BitsByte;
    if x != [] {
      ByteBitsRoundTrip(x[0], [false, false, false, false, false, false, false, false]);
      assert Unroll8(x)[..8] == ByteBits(x[0]) && Unroll8(x)[8..] == Unroll8(x[1..]);
      GroupUnroll8(x[1..]);
    }
  }

  lemma {:induction false} UnrollGroup8(b: seq<bool>)
    requires |b| % 8 == 0
    ensures Unroll8(Group8(b)) == b
  {
    hide ByteBits, BitsByte;
    if b != [] {
      ByteBitsRoundTrip(0, b[..8]);
      UnrollGroup8(b[8..]);
      assert Group8(b)[1..] == Group8(b[8..]);
    }
  }

  const PADDING: seq<bool> := [false, false, false, false]

  predicate PayloadSize(n: nat) { n == 20 || n == 32 }

  /** The payload symbols of an account or contract key. */
  function Regroup(bytes: seq<Byte>): (x: seq<Symbol>)
    requires PayloadSize(|bytes|)
    ensures |x| == if |bytes| == 20 then 32 else 52
  {
    Group5(Unroll8(bytes) + if |bytes| == 20 then [] else PADDING)
  }

  /** The bytes in the payload symbols. */
  function Bytes(x: seq<Symbol>): (bytes: seq<Byte>)
    requires |x| == 32 || |x| == 52
    ensures |bytes| == if |x| == 32 then 20 else 32
  {
    Group8(Unroll5(x)[..if |x| == 32 then 160 else 256])
  }

  /** The one address of a payload. */
  function Address(bytes: seq<Byte>): string
    requires PayloadSize(|bytes|)
  {
    var x := Regroup(bytes);
    PREFIX + Text(x + ChecksumFrom(Fold(Fold(1, HEADER), x)))
  }

  /** The payload of an accepted address. */
  function Payload(value: string): (bytes: seq<Byte>)
    requires Accepts(value)
    ensures PayloadSize(|bytes|)
  {
    var data := Symbols(value[6..]);
    Bytes(data[..|data| - 6])
  }

  lemma {:induction false} LastBits(x: seq<Symbol>)
    requires x != []
    ensures Unroll5(x)[5 * (|x| - 1)..] == SymbolBits(x[|x| - 1])
  {
    hide SymbolBits;
    if |x| == 1 {
      assert x[1..] == [];
    } else {
      LastBits(x[1..]);
      assert Unroll5(x)[5 * (|x| - 1)..] == Unroll5(x[1..])[5 * (|x| - 2)..];
    }
  }

  lemma PadBits(s: Symbol)
    ensures s & 15 == 0 <==> SymbolBits(s)[1..] == PADDING
  {
    assert SymbolBits(s)[1..] == [s & 8 != 0, s & 4 != 0, s & 2 != 0, s & 1 != 0];
    NoLowBits(s);
    if SymbolBits(s)[1..] == PADDING {
      assert SymbolBits(s)[1..][0] == false && SymbolBits(s)[1..][1] == false
             && SymbolBits(s)[1..][2] == false && SymbolBits(s)[1..][3] == false;
    }
  }

  lemma NoLowBits(s: Symbol)
    ensures s & 15 == 0 <==> s & 8 == 0 && s & 4 == 0 && s & 2 == 0 && s & 1 == 0
  {
  }

  /** The padding condition on symbols is the one on bits. */
  lemma PaddingBits(x: seq<Symbol>)
    requires |x| == 52
    ensures x[51] & 15 == 0 <==> Unroll5(x)[256..] == PADDING
  {
    hide SymbolBits, Unroll5;
    LastBits(x);
    PadBits(x[51]);
    assert Unroll5(x)[256..] == Unroll5(x)[255..][1..];
  }

  lemma RegroupBytes(x: seq<Symbol>)
    requires WholeBytes(x)
    ensures Regroup(Bytes(x)) == x
  {
    hide Unroll5, Unroll8, Group5, Group8;
    var bits := Unroll5(x);
    var n := if |x| == 32 then 160 else 256;
    UnrollGroup8(bits[..n]);
    if |x| == 52 { PaddingBits(x); }
    assert bits == bits[..n] + if |x| == 32 then [] else PADDING;
    GroupUnroll5(x);
  }

  lemma BytesRegroup(bytes: seq<Byte>)
    requires PayloadSize(|bytes|)
    ensures WholeBytes(Regroup(bytes)) && Bytes(Regroup(bytes)) == bytes
  {
    hide Unroll5, Unroll8, Group5, Group8;
    var bits := Unroll8(bytes) + if |bytes| == 20 then [] else PADDING;
    UnrollGroup5(bits);
    var n := if |bytes| == 20 then 160 else 256;
    assert bits[..n] == Unroll8(bytes);
    GroupUnroll8(bytes);
    if |bytes| == 32 {
      assert bits[256..] == PADDING;
      PaddingBits(Regroup(bytes));
    }
  }

  /** The check accepts exactly the addresses of 20-byte and 32-byte payloads, one address each. */
  lemma PayloadOfAddress(bytes: seq<Byte>)
    requires PayloadSize(|bytes|)
    ensures Accepts(Address(bytes)) && Payload(Address(bytes)) == bytes
  {
    hide Regroup, Bytes, ChecksumFrom, WholeBytes, Fold, InCharset, FromChar, ToChar;
    var x := Regroup(bytes);
    var c := Fold(Fold(1, HEADER), x);
    var w := ChecksumFrom(c);
    var value := Address(bytes);
    assert value[6..] == Text(x + w);
    TextRoundTrip("", x + w);
    FoldConcat(Fold(1, HEADER), x, w);
    ChecksumUnique(c, w);
    BytesRegroup(bytes);
    assert (x + w)[..|x + w| - 6] == x;
  }

  lemma AddressOfPayload(value: string)
    requires Accepts(value)
    ensures Address(Payload(value)) == value
  {
    hide Regroup, Bytes, ChecksumFrom, Fold, InCharset, FromChar, ToChar;
    var data := Symbols(value[6..]);
    var x, w := data[..|data| - 6], data[|data| - 6..];
    assert data == x + w;
    RegroupBytes(x);
    FoldConcat(Fold(1, HEADER), x, w);
    ChecksumUnique(Fold(Fold(1, HEADER), x), w);
    TextRoundTrip(value[6..], data);
    assert value == PREFIX + value[6..];
  }

  // ---------------------------------------------------------------- the procedure

  lemma AcceptedIsLower(value: string)
    requires Accepts(value)
    ensures IsLower(value) && 14 <= |value| <= 90
  {
    hide Find, Fold;
    forall i | 0 <= i < |value|
      ensures !('A' <= value[i] <= 'Z')
    {
      if i < 6 {
        assert value[i] == PREFIX[i];
      } else {
        assert InCharset(value[6..][i - 6]);
        LowerCharset(Find(value[6..][i - 6], 0));
      }
    }
  }

  lemma LowerCharset(i: nat)
    requires i < 32
    ensures !('A' <= CHARSET[i] <= 'Z')
  {
  }

  /** No capital letter; other characters with case are outside the alphabet anyway. */
  predicate IsLower(value: string) {
    forall i :: 0 <= i < |value| ==> !('A' <= value[i] <= 'Z')
  }

  /** The position of a character in the alphabet, by a walk over it. */
  method Search(c: char) returns (s: Option<Symbol>)
    ensures s.Some? <==> InCharset(c)
    ensures s.Some? ==> s.value == FromChar(c)
  {
    var i := 0;
    while i < 32
      invariant i <= 32 && Find(c, 0) == Find(c, i)
    {
      if CHARSET[i] == c {
        return Some(i as Symbol);
      }
      i := i + 1;
    }
    return None;
  }

  method DecodeSymbols(text: string) returns (data: Option<seq<Symbol>>)
    ensures data.Some? <==> Decodable(text)
    ensures data.Some? ==> data.value == Symbols(text)
  {
    hide InCharset, FromChar;
    var x: seq<Symbol> := [];
    for i := 0 to |text|
      invariant Decodable(text[..i]) && x == Symbols(text[..i])
    {
      var s := Search(text[i]);
      if s.None? {
        return None;
      }
      x := x + [s.value];
    }
    assert text[..|text|] == text;
    return Some(x);
  }

  /** The checksum of a run of symbols, generator by generator. */
  method Checksum(items: seq<Symbol>) returns (checksum: bv30)
    ensures checksum == Fold(1, items)
  {
    hide Plus, Shifted, Top, Chosen, Wide;
    checksum := 1;
    for i := 0 to |items|
      invariant checksum == Fold(1, items[..i])
    {
      var top := Top(checksum);
      ghost var mixed := Plus(Shifted(checksum), Wide(items[i]));
      ghost var before := checksum;
      checksum := Plus(Shifted(checksum), Wide(items[i]));
      PlusZero(mixed);
      for index := 0 to 5
        invariant checksum == Plus(mixed, ChosenUpTo(top, index))
      {
        PlusAssociates(mixed, ChosenUpTo(top, index), Chosen(top, index));
        checksum := Plus(checksum, Chosen(top, index));
      }
      FoldConcat(1, items[..i], [items[i]]);
      assert items[..i + 1] == items[..i] + [items[i]];
      assert Fold(before, [items[i]]) == Fold(Step(before, Wide(items[i])), []);
    }
    assert items[..|items|] == items;
  }

  function Accumulate(accumulator: bv32, item: Symbol): bv32 {
    ((accumulator << 5) | (item as bv32)) & 8191
  }

  lemma AccumulateLow(accumulator: bv32, item: Symbol)
    ensures Accumulate(accumulator, item) & 31 == item as bv32
  {
  }

  /** The leftover bits below the last whole byte. */
  lemma LeftoverBits(accumulator: bv32, item: Symbol)
    requires accumulator & 31 == item as bv32
    ensures (accumulator << 4) & 255 == 0 <==> item & 15 == 0
    ensures (accumulator << 8) & 255 == 0
  {
  }

  /** The payload regrouping: whole bytes of a permitted length, and zero padding. */
  method Regrouped(payload: seq<Symbol>) returns (ok: bool)
    ensures ok <==> WholeBytes(payload)
  {
    hide Accumulate;
    var accumulator: bv32, bits, length := 0, 0, 0;
    for i := 0 to |payload|
      invariant 0 <= bits < 8 && 8 * length + bits == 5 * i
      invariant i > 0 ==> accumulator & 31 == payload[i - 1] as bv32
    {
      AccumulateLow(accumulator, payload[i]);
      accumulator := Accumulate(accumulator, payload[i]);
      bits := bits + 5;
      while bits >= 8
        invariant bits >= 0 && 8 * length + bits == 5 * (i + 1)
      {
        bits := bits - 8;
        length := length + 1;
      }
    }
    if !((length == 20 || length == 32) && bits < 5) {
      return false;
    }
    assert |payload| == 32 || |payload| == 52;
    LeftoverBits(accumulator, payload[|payload| - 1]);
    if bits == 0 {
      assert accumulator << (8 - bits) == accumulator << 8;
    } else {
      assert accumulator << (8 - bits) == accumulator << 4;
    }
    return (accumulator << (8 - bits)) & 255 == 0;
  }

  /** The whole check. */
  method TerraAddress(value: string) returns (ok: bool)
    ensures ok <==> Accepts(value)
  {
    hide IsLower, Decodable, ChecksumOk, WholeBytes, Fold;
    if Accepts(value) { AcceptedIsLower(value); }
    if !(14 <= |value| <= 90) || !IsLower(value) || !(PREFIX <= value) {
      return false;
    }
    var data := DecodeSymbols(value[6..]);
    if data.None? || |data.value| < 6 {
      return false;
    }
    var checksum := Checksum(HEADER + data.value);
    FoldConcat(1, HEADER, data.value);
    ChecksumMeans(data.value);
    if checksum != 1 {
      return false;
    }
    ok := Regrouped(data.value[..|data.value| - 6]);
  }

  lemma ChecksumMeans(data: seq<Symbol>)
    ensures ChecksumOk(data) <==> Fold(Fold(1, HEADER), data) == 1
  {
  }
}
