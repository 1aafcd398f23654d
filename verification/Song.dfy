/** The `Polyphon` object: the shared current instrument, the tone
    generator that updates it, and `buildSong`, which synthesises every
    note through a per-call cache, concatenates the 8-bit samples and wraps
    them in a WAV data URI. */
module Song {
  import opened JsNumbers
  import opened Instruments
  import opened Synth
  import opened Base64
  import opened Wav

  /** The cache of one `buildSong` call. Keys are notes; `None` is the
      `undefined` read one past the end of the list. */
  type Cache = map<Option<Note>, seq<CodeUnit>>

  /** The state `buildSong` threads through its loop: the samples so far,
      the cache and the current instrument. */
  datatype Build = Build(raw: seq<CodeUnit>, cache: Cache, cur: Instrument)

  /** The arguments `wavGen.apply(0, notes[j])` passes: none at all for
      `undefined`. */
  function Args(key: Option<Note>): Note
  {
    if key.Some? then key.value else Silent
  }

  /** The keys the loop reads, `notes[0]` to `notes[notes.length]`. */
  function Keys(notes: seq<Note>): (k: seq<Option<Note>>)
    ensures |k| == |notes| + 1
    ensures forall j :: 0 <= j < |notes| ==> k[j] == Some(notes[j])
    ensures k[|notes|] == None
  {
    seq(|notes|, j requires 0 <= j < |notes| => Some(notes[j])) + [None]
  }

  predicate AllPlayable(keys: seq<Option<Note>>, cycleOf: int -> nat)
  {
    forall j :: 0 <= j < |keys| ==> Playable(Args(keys[j]), cycleOf)
  }

  /** One turn of the loop: a key that is absent, or whose cached string is
      empty (falsy), is synthesised, which may change the current
      instrument; any other key is read from the cache. */
  function Step(b: Build, key: Option<Note>, cycleOf: int -> nat): (r: Build)
    requires Playable(Args(key), cycleOf)
    ensures key in r.cache && r.raw == b.raw + r.cache[key]
    ensures forall k :: k in b.cache ==> k in r.cache
    ensures key in b.cache && b.cache[key] != [] ==> r.cache == b.cache && r.cur == b.cur
    ensures key !in b.cache || b.cache[key] == [] ==>
      r.cache[key] == Atos(Tone(Args(key), b.cur, cycleOf)) && r.cur == Chosen(Args(key).inst, b.cur)
  {
    if key !in b.cache || b.cache[key] == [] then
      var s := Atos(Tone(Args(key), b.cur, cycleOf));
      Build(b.raw + s, b.cache[key := s], Chosen(Args(key).inst, b.cur))
    else
      Build(b.raw + b.cache[key], b.cache, b.cur)
  }

  /** The loop over a list of keys, starting from an empty string and cache. */
  function Run(keys: seq<Option<Note>>, cur: Instrument, cycleOf: int -> nat): (r: Build)
    requires AllPlayable(keys, cycleOf)
    ensures forall j :: 0 <= j < |keys| ==> keys[j] in r.cache
  {
    if keys == [] then Build([], map[], cur)
    else
      var init := keys[..|keys| - 1];
      assert keys == init + [keys[|keys| - 1]];
      Step(Run(init, cur, cycleOf), keys[|keys| - 1], cycleOf)
  }

  /** The loop over the first `j + 1` keys is one more turn after the loop
      over the first `j`. */
  lemma RunPrefix(keys: seq<Option<Note>>, j: nat, cur: Instrument, cycleOf: int -> nat)
    requires AllPlayable(keys, cycleOf) && j < |keys|
    ensures AllPlayable(keys[..j], cycleOf) && AllPlayable(keys[..j + 1], cycleOf)
    ensures Run(keys[..j + 1], cur, cycleOf) == Step(Run(keys[..j], cur, cycleOf), keys[j], cycleOf)
  {
    assert keys[..j + 1][..j] == keys[..j];
  }

  /** The sound of a note that names its instrument (the current instrument
      passed here is never used). */
  function Sound(n: Note, cycleOf: int -> nat): seq<CodeUnit>
    requires Playable(n, cycleOf)
  {
    Atos(Tone(n, Square, cycleOf))
  }

  /** The total number of samples of a list of keys. */
  function Duration(keys: seq<Option<Note>>): nat
  {
    if keys == [] then 0
    else Duration(keys[..|keys| - 1]) + Max0(SampleCount(Args(keys[|keys| - 1]).len) - 101)
  }

  /** The samples of every key, each synthesised afresh. */
  function Uncached(keys: seq<Option<Note>>, cycleOf: int -> nat): seq<CodeUnit>
    requires AllPlayable(keys, cycleOf)
  {
    if keys == [] then []
    else Uncached(keys[..|keys| - 1], cycleOf) + Sound(Args(keys[|keys| - 1]), cycleOf)
  }

  /** What the cache holds at every turn: for each key, a string of the
      right length made of bytes; the empty string for `undefined`; and,
      for a note that names its instrument, exactly its sound. */
  predicate CacheSound(cache: Cache, cycleOf: int -> nat)
  {
    forall k :: k in cache ==> EntrySound(k, cache[k], cycleOf)
  }

  /** What the cache may hold for one key. */
  predicate EntrySound(k: Option<Note>, s: seq<CodeUnit>, cycleOf: int -> nat)
  {
    && Playable(Args(k), cycleOf)
    && |s| == Max0(SampleCount(Args(k).len) - 101)
    && AllBytes(s)
    && (k.None? ==> s == [])
    && (k.Some? && k.value.inst.Some? ==> s == Sound(k.value, cycleOf))
  }

  lemma SoundOfTone(n: Note, cur: Instrument, cycleOf: int -> nat)
    requires Playable(n, cycleOf)
    ensures |Atos(Tone(n, cur, cycleOf))| == Max0(SampleCount(n.len) - 101)
    ensures AllBytes(Atos(Tone(n, cur, cycleOf)))
    ensures n.inst.Some? ==> Atos(Tone(n, cur, cycleOf)) == Sound(n, cycleOf)
  {
    ToneBytes(n, cur, cycleOf);
    ToneInstrument(n, cur, Square, cycleOf);
  }

  /** The loop keeps the cache sound, appends exactly the duration of
      every key read, and appends only bytes. */
  lemma {:induction false} RunInvariant(keys: seq<Option<Note>>, cur: Instrument, cycleOf: int -> nat)
    requires AllPlayable(keys, cycleOf)
    ensures CacheSound(Run(keys, cur, cycleOf).cache, cycleOf)
    ensures |Run(keys, cur, cycleOf).raw| == Duration(keys)
    ensures AllBytes(Run(keys, cur, cycleOf).raw)
  {
    if keys != [] {
      var init := keys[..|keys| - 1];
      var key := keys[|keys| - 1];
      assert AllPlayable(init, cycleOf);
      RunInvariant(init, cur, cycleOf);
      StepInvariant(Run(init, cur, cycleOf), key, cycleOf);
    }
  }

  /** One turn keeps the cache sound, appends the duration of its key and
      appends only bytes. */
  lemma StepInvariant(b: Build, key: Option<Note>, cycleOf: int -> nat)
    requires Playable(Args(key), cycleOf) && CacheSound(b.cache, cycleOf) && AllBytes(b.raw)
    ensures CacheSound(Step(b, key, cycleOf).cache, cycleOf)
    ensures |Step(b, key, cycleOf).raw| == |b.raw| + Max0(SampleCount(Args(key).len) - 101)
    ensures AllBytes(Step(b, key, cycleOf).raw)
  {
    var r := Step(b, key, cycleOf);
    if key in b.cache && b.cache[key] != [] {
      assert EntrySound(key, b.cache[key], cycleOf);
      BytesAppend(b.raw, b.cache[key]);
    } else {
      var s := Atos(Tone(Args(key), b.cur, cycleOf));
      assert EntrySound(key, s, cycleOf) by {
        SoundOfTone(Args(key), b.cur, cycleOf);
      }
      assert r.cache == b.cache[key := s];
      BytesAppend(b.raw, s);
    }
  }

  lemma BytesAppend(a: seq<CodeUnit>, b: seq<CodeUnit>)
    requires AllBytes(a) && AllBytes(b)
    ensures AllBytes(a + b)
  {
  }

  /** The cached strings of a list of keys, in order. */
  function Concat(keys: seq<Option<Note>>, cache: Cache): seq<CodeUnit>
    requires forall j :: 0 <= j < |keys| ==> keys[j] in cache
  {
    if keys == [] then []
    else Concat(keys[..|keys| - 1], cache) + cache[keys[|keys| - 1]]
  }

  /** Once a key is cached its string never changes: a cached empty string
      is only ever replaced by another empty string, because the string of
      a key always has the same length. The turn appends the string the
      cache ends up holding for its key. */
  lemma StepKeepsCache(b: Build, key: Option<Note>, cycleOf: int -> nat)
    requires Playable(Args(key), cycleOf) && CacheSound(b.cache, cycleOf)
    ensures var c := Step(b, key, cycleOf).cache;
      && key in c
      && (forall k :: k in b.cache ==> k in c && c[k] == b.cache[k])
      && Step(b, key, cycleOf).raw == b.raw + c[key]
  {
    SoundOfTone(Args(key), b.cur, cycleOf);
  }

  /** The strings of keys that a larger cache holds unchanged. */
  lemma {:induction false} ConcatFrame(keys: seq<Option<Note>>, c1: Cache, c2: Cache)
    requires forall j :: 0 <= j < |keys| ==> keys[j] in c1
    requires forall k :: k in c1 ==> k in c2 && c2[k] == c1[k]
    ensures forall j :: 0 <= j < |keys| ==> keys[j] in c2
    ensures Concat(keys, c2) == Concat(keys, c1)
  {
    if keys != [] {
      ConcatFrame(keys[..|keys| - 1], c1, c2);
    }
  }

  /** The song is the cached string of every key read, in order, looked up
      in the final cache: every key read is cached, and a cache hit appends
      the same string as the turn that filled it. */
  lemma {:induction false} RunConcat(keys: seq<Option<Note>>, cur: Instrument, cycleOf: int -> nat)
    requires AllPlayable(keys, cycleOf)
    ensures forall j :: 0 <= j < |keys| ==> keys[j] in Run(keys, cur, cycleOf).cache
    ensures Run(keys, cur, cycleOf).raw == Concat(keys, Run(keys, cur, cycleOf).cache)
  {
    if keys != [] {
      var init := keys[..|keys| - 1];
      var key := keys[|keys| - 1];
      assert AllPlayable(init, cycleOf);
      RunConcat(init, cur, cycleOf);
      RunInvariant(init, cur, cycleOf);
      var b := Run(init, cur, cycleOf);
      StepKeepsCache(b, key, cycleOf);
      var c := Step(b, key, cycleOf).cache;
      ConcatFrame(init, b.cache, c);
      assert keys[..|keys| - 1] == init;
      assert forall j :: 0 <= j < |keys| - 1 ==> keys[j] == init[j];
    }
  }

  /** When every note names its instrument, the cache is invisible: the
      song is the sound of every key in order, as if each were synthesised
      afresh. */
  lemma {:induction false} RunIsUncached(keys: seq<Option<Note>>, cur: Instrument, cycleOf: int -> nat)
    requires AllPlayable(keys, cycleOf)
    requires forall j :: 0 <= j < |keys| && keys[j].Some? ==> keys[j].value.inst.Some?
    ensures Run(keys, cur, cycleOf).raw == Uncached(keys, cycleOf)
  {
    if keys != [] {
      var init := keys[..|keys| - 1];
      var key := keys[|keys| - 1];
      assert AllPlayable(init, cycleOf);
      RunIsUncached(init, cur, cycleOf);
      RunInvariant(init, cur, cycleOf);
      var b := Run(init, cur, cycleOf);
      if key.Some? {
        SoundOfTone(Args(key), b.cur, cycleOf);
      } else {
        assert SampleCount(Args(key).len) == 0;
      }
    }
  }

  /** The extra turn at `j == notes.length` reads `undefined`: it appends
      nothing and leaves the current instrument alone. */
  lemma SilentStep(b: Build, cycleOf: int -> nat)
    requires CacheSound(b.cache, cycleOf)
    ensures Playable(Args(None), cycleOf)
    ensures Step(b, None, cycleOf).raw == b.raw
    ensures Step(b, None, cycleOf).cur == b.cur
  {
    assert Tone(Silent, b.cur, cycleOf) == [];
  }

  /** A cache hit skips the instrument change: after a note that names no
      instrument is first played with `cur`, a note switching to `other`,
      and the first note again, the third turn repeats the first sound
      (played with `cur`, not `other`) and the instrument stays `other`. */
  lemma CacheHitKeepsFirstSound(n: Note, m: Note, cur: Instrument, other: Instrument, cycleOf: int -> nat)
    requires n.inst.None? && m.inst == Some(other) && n != m
    requires Playable(n, cycleOf) && Playable(m, cycleOf)
    requires SampleCount(n.len) > 101
    ensures var b := Run([Some(n), Some(m), Some(n)], cur, cycleOf);
      var first := Atos(Tone(n, cur, cycleOf));
      && b.raw == first + Sound(m, cycleOf) + first
      && b.cur == other
  {
    var first := Atos(Tone(n, cur, cycleOf));
    ThreeTurns(Some(n), Some(m), Some(n), cur, cycleOf);
    var b1 := Step(Build([], map[], cur), Some(n), cycleOf);
    var b2 := Step(b1, Some(m), cycleOf);
    assert b1.raw == first && b1.cur == cur && b1.cache[Some(n)] == first && Some(m) !in b1.cache;
    assert b2.raw == first + Sound(m, cycleOf) && b2.cur == other && b2.cache[Some(n)] == first by {
      SoundOfTone(m, cur, cycleOf);
    }
    assert first != [] by {
      SoundOfTone(n, cur, cycleOf);
    }
  }

  /** The loop over three keys is three turns. */
  lemma ThreeTurns(k0: Option<Note>, k1: Option<Note>, k2: Option<Note>, cur: Instrument, cycleOf: int -> nat)
    requires Playable(Args(k0), cycleOf) && Playable(Args(k1), cycleOf) && Playable(Args(k2), cycleOf)
    ensures AllPlayable([k0, k1, k2], cycleOf)
    ensures Run([k0, k1, k2], cur, cycleOf) ==
      Step(Step(Step(Build([], map[], cur), k0, cycleOf), k1, cycleOf), k2, cycleOf)
  {
    assert Run([], cur, cycleOf) == Build([], map[], cur);
    Appends(k0, k1, k2);
    RunSnoc([], k0, cur, cycleOf);
    RunSnoc([k0], k1, cur, cycleOf);
    RunSnoc([k0, k1], k2, cur, cycleOf);
  }

  lemma Appends<T>(a: T, b: T, c: T)
    ensures [] + [a] == [a] && [a] + [b] == [a, b] && [a, b] + [c] == [a, b, c]
  {
  }

  /** The loop over some keys and one more is one more turn. */
  lemma RunSnoc(keys: seq<Option<Note>>, k: Option<Note>, cur: Instrument, cycleOf: int -> nat)
    requires AllPlayable(keys, cycleOf) && Playable(Args(k), cycleOf)
    ensures AllPlayable(keys + [k], cycleOf)
    ensures Run(keys + [k], cur, cycleOf) == Step(Run(keys, cur, cycleOf), k, cycleOf)
  {
    var ks := keys + [k];
    assert ks[..|ks| - 1] == keys && ks[|ks| - 1] == k;
    assert AllPlayable(ks, cycleOf);
  }

  /** The `for` loop of `wavGen`: `out = out.concat(lo, hi)` until the
      length reaches `target`. */
  method Tile(lo: seq<int>, hi: seq<int>, target: int) returns (out: seq<int>)
    requires |lo + hi| > 0 || target <= 0
    ensures out == Fill([], lo + hi, target)
  {
    out := [];
    while |out| < target
      invariant Fill(out, lo + hi, target) == Fill([], lo + hi, target)
      decreases target - |out|
    {
      assert out + lo + hi == out + (lo + hi);
      out := out + lo + hi;
    }
  }

  /** The blend loop of `wavGen`, overwriting every sample of `a` from the
      last index down. */
  method BlendInPlace(a: array<real>, b: seq<real>)
    requires a.Length == |b|
    modifies a
    ensures a[..] == Blend(old(a[..]), b)
  {
    var n := a.Length;
    while n > 0
      invariant 0 <= n <= a.Length
      invariant forall i :: 0 <= i < n ==> a[i] == old(a[i])
      invariant forall i :: n <= i < a.Length ==> a[i] == Blend(old(a[..]), b)[i]
    {
      n := n - 1;
      a[n] := 127.0 + ((a[n] - 127.0) + (b[n] - 127.0)) / 2.0;
    }
  }

  /** Lines 59-64 of `wavGen`: the low and high blocks of `ins`, tiled and
      cut to one voice. */
  method Synthesize(total: int, c: nat, ins: Instrument, v: int) returns (acc: seq<int>)
    requires c >= 1 || total <= 100
    ensures acc == Voice(total, c, ins, v)
  {
    var lo := Generate(ins, Low(v), c);
    var hi := Generate(ins, High(v), c);
    acc := Tile(lo, hi, total - 100);
    acc := SliceTo(acc, total - 101);
  }

  /** The `if(poly)` branch of `wavGen`: the voice is copied into an array
      of numbers and blended in place with the second voice. */
  method Mix(acc: seq<int>, out2: seq<real>) returns (out: seq<real>)
    requires |acc| == |out2|
    ensures out == Blend(Reals(acc), out2)
  {
    var a := new real[|acc|](i requires 0 <= i < |acc| => acc[i] as real);
    assert a[..] == Reals(acc);
    BlendInPlace(a, out2);
    out := a[..];
  }

  /** The `Polyphon` object, reduced to the state the tone generator and
      `buildSong` touch. */
  class Polyphon {
    /** `curInst`: the instrument of the last `wavGen` call that named one. */
    var curInst: Instrument
    /** The data URI of the audio element `buildSong` last created. */
    var track: Option<seq<CodeUnit>>

    constructor ()
      ensures curInst == Square && track == None
    {
      curInst := Square;
      track := None;
    }

    /** `wavGen(len, tone, inst, poly, vol)`. */
    method WavGen(len: Option<real>, tone: Option<int>, inst: Option<Instrument>, poly: Option<int>,
                  vol: Option<int>, cycleOf: int -> nat) returns (out: seq<real>)
      requires Playable(Note(len, tone, inst, poly, vol), cycleOf)
      modifies this
      ensures curInst == Chosen(inst, old(curInst)) && track == old(track)
      ensures out == Tone(Note(len, tone, inst, poly, vol), old(curInst), cycleOf)
      decreases if Truthy(poly) then 1 else 0
    {
      var v := Volume(vol);
      if inst.Some? {
        curInst := inst.value;
      }
      var acc := Synthesize(SampleCount(len), PartLen(tone, cycleOf), curInst, v);
      if Truthy(poly) {
        var out2 := WavGen(len, poly, inst, None, Some(v), cycleOf);
        ToneInstrument(Note(len, poly, inst, None, Some(v)), curInst, old(curInst), cycleOf);
        out := Mix(acc, out2);
      } else {
        out := Reals(acc);
      }
    }

    /** One turn of the loop of `buildSong`: `wavGen` runs only when the
        cached string of `key` is missing or empty. */
    method Turn(raw: seq<CodeUnit>, cache: Cache, key: Option<Note>, cycleOf: int -> nat)
      returns (raw': seq<CodeUnit>, cache': Cache)
      requires Playable(Args(key), cycleOf)
      modifies this
      ensures Build(raw', cache', curInst) == Step(Build(raw, cache, old(curInst)), key, cycleOf)
      ensures track == old(track)
    {
      cache' := cache;
      if key !in cache || cache[key] == [] {
        var n := Args(key);
        var samples := WavGen(n.len, n.tone, n.inst, n.poly, n.vol, cycleOf);
        cache' := cache[key := Atos(samples)];
      }
      raw' := raw + cache'[key];
    }

    /** `buildSong(notes)`: the samples of every note in order, each note
        synthesised the first time its cached string is missing or empty,
        then handed to the audio element as a WAV data URI. */
    method BuildSong(notes: seq<Note>, cycleOf: int -> nat) returns (uri: seq<CodeUnit>)
      requires forall j :: 0 <= j < |notes| ==> Playable(notes[j], cycleOf)
      modifies this
      ensures var b := Run(Keys(notes), old(curInst), cycleOf);
        && AllBytes(b.raw)
        && curInst == b.cur
        && uri == UriScheme + Encode(Stream(ToBytes(b.raw)))
        && track == Some(uri)
    {
      var keys := Keys(notes);
      assert AllPlayable(keys, cycleOf);
      var cache: Cache := map[];
      var raw: seq<CodeUnit> := [];
      for j := 0 to |notes| + 1
        invariant AllPlayable(keys[..j], cycleOf)
        invariant Build(raw, cache, curInst) == Run(keys[..j], old(curInst), cycleOf)
        invariant track == old(track)
      {
        var key := if j < |notes| then Some(notes[j]) else None;
        assert key == keys[j];
        RunPrefix(keys, j, old(curInst), cycleOf);
        raw, cache := Turn(raw, cache, key, cycleOf);
      }
      assert Build(raw, cache, curInst) == Run(keys, old(curInst), cycleOf) by {
        assert keys[..|notes| + 1] == keys;
      }
      assert AllBytes(raw) by {
        RunInvariant(keys, old(curInst), cycleOf);
      }
      var encoded := DataUri(raw);
      assert encoded == Some(UriScheme + Encode(Stream(ToBytes(raw)))) by {
        DataUriEncodesStream(raw);
      }
      uri := encoded.value;
      track := Some(uri);
    }
  }
}
