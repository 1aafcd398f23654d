/** The instrument generators of `Instr`: each builds one cycle block of
    `l` samples at amplitude `v`, filling an array from the last index down
    (`while(--n >= 0) a[n] = ...`). */
module Instruments {
  import opened JsNumbers

  /** The instruments the tone generator can select. */
  datatype Instrument = Square | Sawtooth | Vibrosaw

  function Abs(x: int): nat
  {
    if x < 0 then -x else x
  }

  function RAbs(x: real): real
  {
    if x < 0.0 then -x else x
  }

  /** Sample `n` of a sawtooth block of length `l` at amplitude `v`: the
      source's expression `v - (v*(Math.abs(l/2-n)/l)-.5>>0)` read on exact
      reals. */
  function SawSampleJs(v: int, l: int, n: int): int
    requires l >= 1
  {
    v - Int32((v as real) * (RAbs((l as real) / 2.0 - (n as real)) / (l as real)) - 0.5)
  }

  /** The same sample in integers. The subtracted term is
      `(v*|l-2n| - l) / (2l)` truncated; it is never below -1/2, so it
      truncates to 0 when negative and to the floor otherwise. */
  function SawSample(v: int, l: int, n: int): int
    requires l >= 1
  {
    var k := v * Abs(l - 2 * n);
    v - (if k < l then 0 else (k - l) / (2 * l))
  }

  /** Sample `n` of a vibrosaw block: `(n%4?1:0)*(sawtooth sample)`. */
  function VibroSample(v: int, l: int, n: int): int
    requires l >= 1
  {
    if n % 4 == 0 then 0 else SawSample(v, l, n)
  }

  /** The block an instrument generates for amplitude `v` and length `l`. */
  function Cycle(inst: Instrument, v: int, l: nat): (c: seq<int>)
    ensures |c| == l
  {
    match inst
    case Square => seq(l, _ => v)
    case Sawtooth => seq(l, n requires 0 <= n < l => SawSample(v, l, n))
    case Vibrosaw => seq(l, n requires 0 <= n < l => VibroSample(v, l, n))
  }

  lemma MulLeft(a: int, b: int, c: int)
    requires a <= b && 0 <= c
    ensures c * a <= c * b
  {
  }

  /** The integer restatement agrees with the source's expression evaluated
      on exact reals, for every amplitude the generators can be given; IEEE
      rounding can make the source's sample one larger. */
  lemma SawSampleMatchesJs(v: int, l: int, n: int)
    requires 0 <= v < TwoTo31 && 1 <= l && 0 <= n < l
    ensures SawSampleJs(v, l, n) == SawSample(v, l, n)
  {
    var k := v * Abs(l - 2 * n);
    var x := (v as real) * (RAbs((l as real) / 2.0 - (n as real)) / (l as real)) - 0.5;
    SawTermAsQuotient(v, l, n);
    SawSampleBounds(v, l, n);
    if k < l {
      QuotientBelowOne((l - k) as real, (2 * l) as real);
      assert x == -(((l - k) as real) / ((2 * l) as real));
      assert Trunc(x) == 0;
    } else {
      FloorOfQuotient(k - l, 2 * l);
      assert Trunc(x) == (k - l) / (2 * l);
    }
  }

  lemma SawTermAsQuotient(v: int, l: int, n: int)
    requires 1 <= l
    ensures (v as real) * (RAbs((l as real) / 2.0 - (n as real)) / (l as real)) - 0.5
         == ((v * Abs(l - 2 * n) - l) as real) / ((2 * l) as real)
  {
    var L := l as real;
    var d := Abs(l - 2 * n);
    assert RAbs(L / 2.0 - (n as real)) == (d as real) / 2.0;
    assert ((v * d) as real) == (v as real) * (d as real);
    Scale(v as real, d as real, L);
  }

  lemma Scale(v: real, d: real, L: real)
    requires 0.0 < L
    ensures v * ((d / 2.0) / L) - 0.5 == (v * d - L) / (2.0 * L)
  {
    var w := (d / 2.0) / L;
    assert w * (2.0 * L) == d;
    var rhs := (v * d - L) / (2.0 * L);
    assert rhs * (2.0 * L) == v * d - L;
    assert (v * w - 0.5) * (2.0 * L) == v * (w * (2.0 * L)) - L;
    assert (v * w - 0.5 - rhs) * (2.0 * L) == (v * w - 0.5) * (2.0 * L) - rhs * (2.0 * L);
    CancelPositive(v * w - 0.5 - rhs, 2.0 * L);
  }

  lemma QuotientBounds(a: int, b: int)
    requires 0 <= a && 0 < b
    ensures 0 <= a / b && a / b * b <= a
  {
  }

  /** Every sawtooth sample of a non-negative amplitude lies in `[v/2, v]`. */
  lemma SawSampleBounds(v: int, l: int, n: int)
    requires 0 <= v && 1 <= l && 0 <= n < l
    ensures v <= 2 * SawSample(v, l, n) && SawSample(v, l, n) <= v
  {
    var d := Abs(l - 2 * n);
    var k := v * d;
    MulLeft(d, l, v);
    if l <= k {
      var t := (k - l) / (2 * l);
      QuotientBounds(k - l, 2 * l);
      if v <= 2 * t {
        MulLeft(v, 2 * t, l);
        assert false;
      }
    }
  }

  /** Every sample of a block lies between 0 and its non-negative amplitude. */
  lemma CycleBounds(inst: Instrument, v: int, l: nat)
    requires 0 <= v
    ensures forall n :: 0 <= n < l ==> 0 <= Cycle(inst, v, l)[n] <= v
  {
    forall n | 0 <= n < l
      ensures 0 <= Cycle(inst, v, l)[n] <= v
    {
      if inst != Square {
        SawSampleBounds(v, l, n);
      }
    }
  }

  /** `Instr.square`: `l` samples, each equal to `v`. */
  method SquareBlock(v: int, l: nat) returns (s: seq<int>)
    ensures |s| == l
    ensures forall n :: 0 <= n < l ==> s[n] == v
  {
    var a := new int[l];
    var k := l;
    while k > 0
      invariant 0 <= k <= l
      invariant forall n :: k <= n < l ==> a[n] == v
    {
      k := k - 1;
      a[k] := v;
    }
    s := a[..];
  }

  /** `Instr.sawtooth`. */
  method SawtoothBlock(v: int, l: nat) returns (s: seq<int>)
    ensures |s| == l
    ensures forall n :: 0 <= n < l ==> s[n] == SawSample(v, l, n)
  {
    var a := new int[l];
    var k := l;
    while k > 0
      invariant 0 <= k <= l
      invariant forall n :: k <= n < l ==> a[n] == SawSample(v, l, n)
    {
      k := k - 1;
      a[k] := SawSample(v, l, k);
    }
    s := a[..];
  }

  /** `Instr.vibrosaw`: the sawtooth with every index divisible by 4 forced
      to 0 and every other index keeping its sawtooth sample. */
  method VibrosawBlock(v: int, l: nat) returns (s: seq<int>)
    ensures |s| == l
    ensures forall n :: 0 <= n < l && n % 4 == 0 ==> s[n] == 0
    ensures forall n :: 0 <= n < l && n % 4 != 0 ==> s[n] == SawSample(v, l, n)
  {
    var a := new int[l];
    var k := l;
    while k > 0
      invariant 0 <= k <= l
      invariant forall n :: k <= n < l ==> a[n] == VibroSample(v, l, n)
    {
      k := k - 1;
      a[k] := (if k % 4 != 0 then 1 else 0) * SawSample(v, l, k);
    }
    s := a[..];
  }

  /** `Instr[inst].apply(0, [v, l])`. */
  method Generate(inst: Instrument, v: int, l: nat) returns (s: seq<int>)
    ensures s == Cycle(inst, v, l)
  {
    match inst
    case Square =>
      s := SquareBlock(v, l);
    case Sawtooth =>
      s := SawtoothBlock(v, l);
    case Vibrosaw =>
      s := VibrosawBlock(v, l);
  }

  /** The JavaScript assignment `a[i] = x` on an array with holes (`None`):
      writing past the end grows the array, leaving holes in between. */
  function Store<T>(a: seq<Option<T>>, i: nat, x: T): (r: seq<Option<T>>)
    ensures |r| == if i < |a| then |a| else i + 1
    ensures r[i] == Some(x)
    ensures forall j :: 0 <= j < |r| && j != i ==> r[j] == if j < |a| then a[j] else None
  {
    if i < |a| then a[i := Some(x)] else a + seq(i - |a|, _ => None) + [Some(x)]
  }

  /** `Instr.noise` for one draw `random` of `Math.random()`: the loop
      counter starts at 1, so only index 0 is assigned. The result is an
      array of `l` holes with a sample at index 0, and an array of length 1
      when `l` is 0. */
  method NoiseBlock(v: int, l: nat, random: real) returns (s: seq<Option<int>>)
    requires 0.0 <= random < 1.0
    ensures |s| == if l == 0 then 1 else l
    ensures s[0] == Some(Int32((v as real) * random))
    ensures forall n :: 1 <= n < |s| ==> s[n] == None
    ensures 0 < v < TwoTo31 ==> 0 <= s[0].value < v
  {
    s := seq(l, _ => None);
    var k := 1;
    while k > 0
      invariant 0 <= k <= 1
      invariant k == 1 ==> s == seq(l, _ => None)
      invariant k == 0 ==> |s| == (if l == 0 then 1 else l) && s[0] == Some(Int32((v as real) * random))
      invariant k == 0 ==> forall n :: 1 <= n < |s| ==> s[n] == None
    {
      k := k - 1;
      s := Store(s, k, Int32((v as real) * random));
    }
    if 0 < v < TwoTo31 {
      var x := (v as real) * random;
      var w := 1.0 - random;
      MulNonNeg(v as real, random);
      assert (v as real) * w == (v as real) - x;
      MulPos(v as real, w);
      assert (v as real) * w > 0.0;
      assert Trunc(x) == x.Floor;
      assert 0 <= x.Floor < v;
    }
  }
}
