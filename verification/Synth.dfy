/** The tone generator `wavGen` as a function of its arguments: the
    defaulted volume, the low and high blocks, the tiling to the requested
    number of samples and the blend with a second pitch. The class in
    `Song` runs the same steps with loops and the shared current
    instrument; this module states what they compute and proves its
    properties. */
module Synth {
  import opened JsNumbers
  import opened Instruments

  /** The argument list of one `wavGen` call (one note of a song):
      duration in seconds, pitch in semitones above 220 Hz, instrument,
      second pitch and volume, each possibly `undefined`. */
  datatype Note = Note(len: Option<real>, tone: Option<int>, inst: Option<Instrument>,
                       poly: Option<int>, vol: Option<int>)

  /** A call with no arguments at all. */
  const Silent: Note := Note(None, None, None, None, None)

  /** `len * 44100 | 0`; an undefined duration gives `NaN | 0`, that is 0. */
  function SampleCount(len: Option<real>): (r: int)
    ensures -TwoTo31 <= r < TwoTo31
    ensures len.None? ==> r == 0
    ensures len.Some? && 0.0 <= len.value * 44100.0 < TwoTo31 as real ==> r == (len.value * 44100.0).Floor
  {
    match len
    case None => 0
    case Some(x) => Int32(x * 44100.0)
  }

  /** `44100 / freq | 0`, the length of one block. The float pitch
      arithmetic is the parameter `cycleOf`; an undefined pitch makes the
      frequency `NaN`, and the length 0. */
  function PartLen(tone: Option<int>, cycleOf: int -> nat): (c: nat)
    ensures tone.None? ==> c == 0
    ensures tone.Some? ==> c == cycleOf(tone.value)
  {
    match tone
    case None => 0
    case Some(t) => cycleOf(t)
  }

  /** `vol ? vol : 64`: an undefined or zero volume becomes 64. */
  function Volume(vol: Option<int>): (v: int)
    ensures v != 0
    ensures vol.Some? && vol.value != 0 ==> v == vol.value
    ensures vol.None? || vol.value == 0 ==> v == 64
  {
    if vol.None? || vol.value == 0 then 64 else vol.value
  }

  /** `if(poly)`: a second pitch of 0 is falsy and ignored. */
  predicate Truthy(poly: Option<int>)
  {
    poly.Some? && poly.value != 0
  }

  /** The amplitude of the low block, `127 - vol%127`: 127 less a value
      within 127 of zero, with the sign of `vol`, that agrees with `vol`
      modulo 127. */
  function Low(v: int): (a: int)
    ensures 1 <= a <= 253
    ensures (v - (127 - a)) % 127 == 0
    ensures v >= 0 ==> a <= 127
    ensures v < 0 ==> a >= 127
  {
    127 - JsRem(v, 127)
  }

  /** The amplitude of the high block, `127 + vol%127`, the mirror image
      of the low one around 127. */
  function High(v: int): (a: int)
    ensures 1 <= a <= 253
    ensures (v - (a - 127)) % 127 == 0
    ensures Low(v) + a == 254
  {
    127 + JsRem(v, 127)
  }

  /** The two amplitudes lie symmetrically around 127 within `[1, 253]`;
      the default volume gives 63 and 191, a non-negative volume puts the
      low block at or below 127, and a multiple of 127 flattens both to
      127. */
  lemma Amplitudes(vol: Option<int>)
    ensures var v := Volume(vol);
      && Low(v) + High(v) == 254
      && 1 <= Low(v) <= 253 && 1 <= High(v) <= 253
      && (vol.None? ==> Low(v) == 63 && High(v) == 191)
      && (0 <= v ==> Low(v) <= 127 <= High(v))
      && (v % 127 == 0 ==> Low(v) == 127 == High(v))
  {
    var v := Volume(vol);
    if v < 0 && v % 127 == 0 {
      assert (-v) % 127 == 0 by {
        DivUnique(-v, -(v / 127), 0, 127);
      }
    }
  }

  /** The instrument a call plays: the one it names, else the current one. */
  function Chosen(inst: Option<Instrument>, cur: Instrument): Instrument
  {
    if inst.Some? then inst.value else cur
  }

  /** The calls that terminate: tiling stops only when a block has at least
      one sample, or when nothing needs to be tiled (at most 100 samples). */
  predicate Playable(n: Note, cycleOf: int -> nat)
  {
    (PartLen(n.tone, cycleOf) >= 1 || SampleCount(n.len) <= 100)
    && (Truthy(n.poly) ==> PartLen(n.poly, cycleOf) >= 1 || SampleCount(n.len) <= 100)
  }

  function Max0(x: int): nat
  {
    if x < 0 then 0 else x
  }

  /** The `for` loop of the source: append the block until the length
      reaches `target`. */
  function Fill(out: seq<int>, block: seq<int>, target: int): (r: seq<int>)
    requires |block| > 0 || |out| >= target
    ensures |out| >= target ==> r == out
    ensures |out| < target ==> target <= |r| < target + |block|
    ensures |out| <= |r| && r[..|out|] == out
    decreases target - |out|
  {
    if |out| >= target then out else Fill(out + block, block, target)
  }

  lemma ModShift(m: int, j: int, b: int)
    requires 0 < b && m % b == 0 && 0 <= j < b
    ensures (m + j) % b == j
  {
    DivUnique(m + j, m / b, j, b);
  }

  lemma ModNext(m: int, b: int)
    requires 0 < b && m % b == 0
    ensures (m + b) % b == 0
  {
    var q := m / b;
    assert m + b == (q + 1) * b + 0;
    DivUnique(m + b, q + 1, 0, b);
  }

  /** Tiling keeps the sequence a whole number of copies of the block and
      overshoots the target by less than one block. */
  lemma {:induction false} FillShape(out: seq<int>, block: seq<int>, target: int)
    requires |block| > 0 && |out| % |block| == 0
    requires forall i :: 0 <= i < |out| ==> out[i] == block[i % |block|]
    ensures |Fill(out, block, target)| % |block| == 0
    ensures forall i :: 0 <= i < |Fill(out, block, target)| ==>
              Fill(out, block, target)[i] == block[i % |block|]
    ensures |out| < target ==> target <= |Fill(out, block, target)| < target + |block|
    ensures |out| >= target ==> Fill(out, block, target) == out
    decreases target - |out|
  {
    if |out| < target {
      var o := out + block;
      forall i | 0 <= i < |o|
        ensures o[i] == block[i % |block|]
      {
        if i >= |out| {
          ModShift(|out|, i - |out|, |block|);
        }
      }
      ModNext(|out|, |block|);
      FillShape(o, block, target);
    }
  }

  /** One voice: the low and high blocks of instrument `ins` tiled to
      `total - 100` samples, then cut to `total - 101` (`slice` with a
      negative end counts from the back). */
  function Voice(total: int, c: nat, ins: Instrument, v: int): (r: seq<int>)
    requires c >= 1 || total <= 100
    ensures |r| == Max0(total - 101)
  {
    var block := Cycle(ins, Low(v), c) + Cycle(ins, High(v), c);
    SliceTo(Fill([], block, total - 100), total - 101)
  }

  /** A voice has `max(0, total - 101)` samples, and sample `i` is sample
      `i mod 2c` of the low block, or of the high block for the second half
      of each period. */
  lemma VoiceShape(total: int, c: nat, ins: Instrument, v: int)
    requires c >= 1 || total <= 100
    ensures |Voice(total, c, ins, v)| == Max0(total - 101)
    ensures forall i :: 0 <= i < |Voice(total, c, ins, v)| ==>
              Voice(total, c, ins, v)[i] ==
                if i % (2 * c) < c then Cycle(ins, Low(v), c)[i % (2 * c)]
                else Cycle(ins, High(v), c)[i % (2 * c) - c]
  {
    var lo, hi := Cycle(ins, Low(v), c), Cycle(ins, High(v), c);
    var block := lo + hi;
    var r := Voice(total, c, ins, v);
    if total - 100 > 0 {
      var f := Fill([], block, total - 100);
      assert r == f[..total - 101] && |block| == 2 * c;
      assert forall i :: 0 <= i < |f| ==> f[i] == block[i % |block|] by {
        FillShape([], block, total - 100);
      }
      forall i | 0 <= i < |r|
        ensures r[i] == if i % (2 * c) < c then lo[i % (2 * c)] else hi[i % (2 * c) - c]
      {
        var j := i % (2 * c);
        assert r[i] == f[i] == block[j];
        if j < c {
          assert block[j] == lo[j];
        } else {
          assert block[j] == hi[j - c];
        }
      }
    }
  }

  /** Every sample of a voice lies between 0 and 253: both amplitudes are
      in `[1, 253]` and every block stays between 0 and its amplitude. */
  lemma VoiceRange(total: int, c: nat, ins: Instrument, v: int)
    requires c >= 1 || total <= 100
    ensures forall i :: 0 <= i < |Voice(total, c, ins, v)| ==> 0 <= Voice(total, c, ins, v)[i] <= 253
  {
    VoiceShape(total, c, ins, v);
    CycleBounds(ins, Low(v), c);
    CycleBounds(ins, High(v), c);
  }

  function Reals(s: seq<int>): (r: seq<real>)
    ensures |r| == |s|
    ensures forall i :: 0 <= i < |s| ==> r[i] == s[i] as real
  {
    seq(|s|, i requires 0 <= i < |s| => s[i] as real)
  }

  /** `out[n] = 127+(((out[n]-127)+(out2[n]-127))/2)` at every index. */
  function Blend(a: seq<real>, b: seq<real>): (r: seq<real>)
    requires |a| == |b|
    ensures |r| == |a|
  {
    seq(|a|, n requires 0 <= n < |a| => 127.0 + ((a[n] - 127.0) + (b[n] - 127.0)) / 2.0)
  }

  /** The blended sample is the mean of the two. */
  lemma BlendIsMean(a: seq<real>, b: seq<real>)
    requires |a| == |b|
    ensures forall n :: 0 <= n < |a| ==> Blend(a, b)[n] == (a[n] + b[n]) / 2.0
  {
  }

  /** What `wavGen(len, tone, inst, poly, vol)` returns when the current
      instrument is `cur`. With a truthy `poly` it blends in
      `wavGen(len, poly, inst, null, vol)`, whose volume is the defaulted
      one. */
  function Tone(n: Note, cur: Instrument, cycleOf: int -> nat): (r: seq<real>)
    requires Playable(n, cycleOf)
    ensures |r| == Max0(SampleCount(n.len) - 101)
    decreases if Truthy(n.poly) then 1 else 0
  {
    var v := Volume(n.vol);
    var out := Voice(SampleCount(n.len), PartLen(n.tone, cycleOf), Chosen(n.inst, cur), v);
    VoiceShape(SampleCount(n.len), PartLen(n.tone, cycleOf), Chosen(n.inst, cur), v);
    if Truthy(n.poly) then
      Blend(Reals(out), Tone(Note(n.len, n.poly, n.inst, None, Some(v)), cur, cycleOf))
    else
      Reals(out)
  }

  /** A tone is one voice, or with a truthy second pitch the mean of two
      voices of the same length played by the same instrument at the same
      volume. */
  lemma ToneVoices(n: Note, cur: Instrument, cycleOf: int -> nat)
    requires Playable(n, cycleOf)
    ensures var total := SampleCount(n.len);
      var a := Voice(total, PartLen(n.tone, cycleOf), Chosen(n.inst, cur), Volume(n.vol));
      && |Tone(n, cur, cycleOf)| == |a|
      && (!Truthy(n.poly) ==> forall i :: 0 <= i < |a| ==> Tone(n, cur, cycleOf)[i] == a[i] as real)
      && (Truthy(n.poly) ==>
            var b := Voice(total, PartLen(n.poly, cycleOf), Chosen(n.inst, cur), Volume(n.vol));
            |b| == |a| && forall i :: 0 <= i < |a| ==> Tone(n, cur, cycleOf)[i] == ((a[i] + b[i]) as real) / 2.0)
  {
    var total := SampleCount(n.len);
    var v := Volume(n.vol);
    VoiceShape(total, PartLen(n.tone, cycleOf), Chosen(n.inst, cur), v);
    if Truthy(n.poly) {
      var m := Note(n.len, n.poly, n.inst, None, Some(v));
      VoiceShape(total, PartLen(n.poly, cycleOf), Chosen(n.inst, cur), v);
      assert Volume(m.vol) == v;
      var a := Voice(total, PartLen(n.tone, cycleOf), Chosen(n.inst, cur), v);
      BlendIsMean(Reals(a), Tone(m, cur, cycleOf));
    }
  }

  /** Every sample of a tone lies between 0 and 253. */
  lemma ToneRange(n: Note, cur: Instrument, cycleOf: int -> nat)
    requires Playable(n, cycleOf)
    ensures forall i :: 0 <= i < |Tone(n, cur, cycleOf)| ==> 0.0 <= Tone(n, cur, cycleOf)[i] <= 253.0
  {
    var total := SampleCount(n.len);
    var v := Volume(n.vol);
    ToneVoices(n, cur, cycleOf);
    VoiceRange(total, PartLen(n.tone, cycleOf), Chosen(n.inst, cur), v);
    if Truthy(n.poly) {
      VoiceRange(total, PartLen(n.poly, cycleOf), Chosen(n.inst, cur), v);
    }
  }

  /** A note that names its instrument sounds the same whatever the current
      instrument; every note sounds as if it named the instrument it
      plays. */
  lemma {:induction false} ToneInstrument(n: Note, cur: Instrument, other: Instrument, cycleOf: int -> nat)
    requires Playable(n, cycleOf)
    ensures n.inst.Some? ==> Tone(n, cur, cycleOf) == Tone(n, other, cycleOf)
    ensures Tone(n, cur, cycleOf) == Tone(n.(inst := Some(Chosen(n.inst, cur))), other, cycleOf)
    decreases if Truthy(n.poly) then 1 else 0
  {
    var v := Volume(n.vol);
    if Truthy(n.poly) {
      ToneInstrument(Note(n.len, n.poly, n.inst, None, Some(v)), cur, other, cycleOf);
    }
  }

  /** `atos`: `String.fromCharCode` applied to every sample, which keeps the
      integer part of a non-negative sample below 65536. */
  function Atos(a: seq<real>): (s: seq<CodeUnit>)
    ensures |s| == |a|
    ensures forall i :: 0 <= i < |a| && 0.0 <= a[i] < 65536.0 ==> s[i] == a[i].Floor
  {
    seq(|a|, i requires 0 <= i < |a| => ToUint16(a[i]))
  }

  /** The string of a tone holds one byte per sample, at most 253: the
      sample itself, or the mean of the two voices rounded down. */
  lemma ToneBytes(n: Note, cur: Instrument, cycleOf: int -> nat)
    requires Playable(n, cycleOf)
    ensures var s := Atos(Tone(n, cur, cycleOf));
      var total := SampleCount(n.len);
      var a := Voice(total, PartLen(n.tone, cycleOf), Chosen(n.inst, cur), Volume(n.vol));
      && |s| == |a|
      && (forall i :: 0 <= i < |s| ==> s[i] <= 253)
      && (!Truthy(n.poly) ==> forall i :: 0 <= i < |s| ==> s[i] == a[i])
      && (Truthy(n.poly) ==>
            var b := Voice(total, PartLen(n.poly, cycleOf), Chosen(n.inst, cur), Volume(n.vol));
            |b| == |a| && forall i :: 0 <= i < |s| ==> s[i] == (a[i] + b[i]) / 2)
  {
    var t := Tone(n, cur, cycleOf);
    var total := SampleCount(n.len);
    var v := Volume(n.vol);
    var a := Voice(total, PartLen(n.tone, cycleOf), Chosen(n.inst, cur), v);
    ToneVoices(n, cur, cycleOf);
    ToneRange(n, cur, cycleOf);
    VoiceRange(total, PartLen(n.tone, cycleOf), Chosen(n.inst, cur), v);
    if Truthy(n.poly) {
      var b := Voice(total, PartLen(n.poly, cycleOf), Chosen(n.inst, cur), v);
      VoiceRange(total, PartLen(n.poly, cycleOf), Chosen(n.inst, cur), v);
      forall i | 0 <= i < |a|
        ensures Atos(t)[i] == (a[i] + b[i]) / 2
      {
        FloorOfQuotient(a[i] + b[i], 2);
      }
    }
  }
}
