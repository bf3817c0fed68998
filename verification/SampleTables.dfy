/** Sample tables as a muxer writes them: the bytes of a track's boxes, and the proof that reading
    them back gives the track's keyframes (sections 8.6.2, 8.7.3, 8.7.4 and 8.7.5 of ISO/IEC 14496-12). */
module SampleTables {
  import opened Types
  import opened Geometry
  import opened SeekIndex

  const WORD := 0x1_0000_0000

  /** The last `width` base-256 digits of `n`, most significant first. */
  function Digits(n: nat, width: nat): (r: seq<Byte>)
    ensures |r| == width
  {
    if width == 0 then [] else Digits(n / 256, width - 1) + [n % 256]
  }

  /** Numbers one after the other, each in `width` digits. */
  function Words(ns: seq<nat>, width: nat): (r: seq<Byte>)
    ensures |r| == |ns| * width
  {
    if ns == [] then [] else Words(ns[..|ns| - 1], width) + Digits(ns[|ns| - 1], width)
  }

  ghost predicate Fit(ns: seq<nat>, limit: nat) {
    forall i :: 0 <= i < |ns| ==> ns[i] < limit
  }

  // ------------------------------------------------------------ numbers

  /** `buf` has the digits of `n` at `at`. */
  ghost predicate Stored(buf: seq<Byte>, at: nat, n: nat, width: nat) {
    at + width <= |buf| && forall k :: 0 <= k < width ==> buf[at + k] == Digits(n, width)[k]
  }

  /** The four digits of a 32-bit number. */
  lemma FourDigits(n: nat)
    ensures Digits(n, 4) == [n / 256 / 256 / 256 % 256, n / 256 / 256 % 256, n / 256 % 256, n % 256]
  {
    var a, b := n / 256, n / 256 / 256;
    assert Digits(n, 4) == Digits(a, 3) + [n % 256];
    assert Digits(a, 3) == Digits(b, 2) + [a % 256];
    assert Digits(b, 2) == Digits(b / 256, 1) + [b % 256];
    assert Digits(b / 256, 1) == [b / 256 % 256];
  }

  /** Reading four digits gives the number back. */
  lemma Be32Back(buf: seq<Byte>, at: nat, n: nat)
    requires n < WORD && Stored(buf, at, n, 4)
    ensures Be32(buf, at) == Some(n)
  {
    FourDigits(n);
    var d := Digits(n, 4);
    assert buf[at] == d[0] && buf[at + 1] == d[1] && buf[at + 2] == d[2] && buf[at + 3] == d[3];
    var a, b, c := n / 256, n / 256 / 256, n / 256 / 256 / 256;
    assert n == a * 256 + n % 256 && a == b * 256 + a % 256 && b == c * 256 + b % 256 && c < 256;
  }

  /** A number from its upper part and its last four digits. */
  lemma Taken(hi: nat, d3: nat, d2: nat, d1: nat, d0: nat)
    requires d3 < 256 && d2 < 256 && d1 < 256 && d0 < 256
    ensures var n := (((hi * 256 + d3) * 256 + d2) * 256 + d1) * 256 + d0;
            && n / 256 == ((hi * 256 + d3) * 256 + d2) * 256 + d1 && n % 256 == d0
            && n / 256 / 256 == (hi * 256 + d3) * 256 + d2 && n / 256 % 256 == d1
            && n / 256 / 256 / 256 == hi * 256 + d3 && n / 256 / 256 % 256 == d2
            && n / 256 / 256 / 256 / 256 == hi && n / 256 / 256 / 256 % 256 == d3
            && n / WORD == hi && n % WORD == ((d3 * 256 + d2) * 256 + d1) * 256 + d0
  {
  }

  /** Eight digits are the four of the upper half and the four of the lower half. */
  lemma EightDigits(n: nat)
    ensures Digits(n, 8) == Digits(n / WORD, 4) + Digits(n % WORD, 4)
  {
    var a, b, c, hi := n / 256, n / 256 / 256, n / 256 / 256 / 256, n / 256 / 256 / 256 / 256;
    Taken(hi, c % 256, b % 256, a % 256, n % 256);
    Taken(0, c % 256, b % 256, a % 256, n % 256);
    FourDigits(n % WORD);
    assert Digits(n, 8) == Digits(a, 7) + [n % 256];
    assert Digits(a, 7) == Digits(b, 6) + [a % 256];
    assert Digits(b, 6) == Digits(c, 5) + [b % 256];
    assert Digits(c, 5) == Digits(hi, 4) + [c % 256];
  }

  lemma HalvesThere(buf: seq<Byte>, at: nat, n: nat)
    requires Stored(buf, at, n, 8)
    ensures Stored(buf, at, n / WORD, 4) && Stored(buf, at + 4, n % WORD, 4)
  {
    EightDigits(n);
    forall k | 0 <= k < 4
      ensures buf[at + k] == Digits(n / WORD, 4)[k] && buf[at + 4 + k] == Digits(n % WORD, 4)[k]
    {
      assert Digits(n, 8)[k] == Digits(n / WORD, 4)[k] && Digits(n, 8)[4 + k] == Digits(n % WORD, 4)[k];
      assert buf[at + k] == Digits(n, 8)[k] && buf[at + (4 + k)] == Digits(n, 8)[4 + k];
    }
  }

  /** Reading eight digits gives the number back. */
  lemma Be64Back(buf: seq<Byte>, at: nat, n: nat)
    requires n < WORD * WORD && Stored(buf, at, n, 8)
    ensures Be64(buf, at) == Some(n)
  {
    HalvesThere(buf, at, n);
    assert n / WORD < WORD;
    Be32Back(buf, at, n / WORD);
    Be32Back(buf, at + 4, n % WORD);
  }

  // ------------------------------------------------------------ rows of numbers

  lemma {:induction false} WordAt(ns: seq<nat>, width: nat, i: nat)
    requires i < |ns|
    ensures Stored(Words(ns, width), i * width, ns[i], width)
    decreases |ns|
  {
    var n := |ns| - 1;
    MulMonotone(i + 1, |ns|, width);
    if i < n {
      WordAt(ns[..n], width, i);
      MulMonotone(i + 1, n, width);
    }
  }

  /** `buf` has the numbers `ns` one after the other from `from` on. */
  ghost predicate Row(buf: seq<Byte>, from: nat, ns: seq<nat>, width: nat) {
    forall i :: 0 <= i < |ns| ==> Stored(buf, from + i * width, ns[i], width)
  }

  lemma RowThere(head: seq<Byte>, ns: seq<nat>, width: nat, rest: seq<Byte>)
    ensures Row(head + Words(ns, width) + rest, |head|, ns, width)
  {
    var buf := head + Words(ns, width) + rest;
    forall i | 0 <= i < |ns|
      ensures Stored(buf, |head| + i * width, ns[i], width)
    {
      WordAt(ns, width, i);
    }
  }

  /** The `i`th of a row of 32-bit numbers. */
  lemma WordBack(buf: seq<Byte>, from: nat, ns: seq<nat>, at: nat, i: nat)
    requires Row(buf, from, ns, 4) && i < |ns| && ns[i] < WORD && at == from + i * 4
    ensures Be32(buf, at) == Some(ns[i])
  {
    Be32Back(buf, at, ns[i]);
  }

  // ------------------------------------------------------------ boxes

  /** Chunks from number `first` on hold `per` samples each. Chunks count from 1. */
  datatype Run = Run(first: nat, per: nat, description: nat)

  function RunWords(runs: seq<Run>): (r: seq<nat>)
    ensures |r| == 3 * |runs|
  {
    if runs == [] then []
    else
      var last := runs[|runs| - 1];
      RunWords(runs[..|runs| - 1]) + [last.first, last.per, last.description]
  }

  /** A track with the choices a muxer has: how its chunks are grouped into runs, whether one size is
      given for all samples, whether chunk offsets have 64 bits, and the version and flags of each box. */
  datatype Muxed = Muxed(track: Track, runs: seq<Run>, uniform: Option<nat>, wide: bool, flags: seq<Byte>) {

    /** The track can be written this way. */
    ghost predicate Valid() {
      && track.Valid() && |flags| == 4
      && (forall i :: 0 <= i < |runs| ==> runs[i].first < WORD && runs[i].per < WORD && runs[i].description < WORD)
      && Fit(track.offsets, if wide then I64_LIMIT else WORD) && Fit(track.sizes, WORD) && Fit(track.syncs, WORD)
      && |track.counts| < WORD && |runs| < WORD && |track.sizes| < WORD && |track.syncs| < WORD
      && (uniform.Some? ==> 0 < uniform.value < WORD && forall i :: 0 <= i < |track.sizes| ==> track.sizes[i] == uniform.value)
      && Grouped() && SyncsRise()
    }

    /** The runs start at the first chunk and rise, and each chunk has the samples of its run: the last
        one that starts at or before it. */
    ghost predicate Grouped() {
      && (|track.counts| > 0 ==> |runs| > 0 && runs[0].first == 1)
      && (forall i, j :: 0 <= i < j < |runs| ==> runs[i].first < runs[j].first)
      && forall c: nat, j: nat :: c < |track.counts| && InRun(c, j) ==> track.counts[c] == runs[j].per
    }

    predicate InRun(c: nat, j: nat) {
      j < |runs| && runs[j].first <= c + 1 && (j + 1 < |runs| ==> c + 1 < runs[j + 1].first)
    }

    /** Sync samples are samples of the track, in increasing order. */
    ghost predicate SyncsRise() {
      && (forall i :: 0 <= i < |track.syncs| ==> 1 <= track.syncs[i] <= |track.sizes|)
      && (forall i :: 0 < i < |track.syncs| ==> track.syncs[i - 1] < track.syncs[i])
    }

    function Stss(): seq<Byte> { flags + Words([|track.syncs|], 4) + Words(track.syncs, 4) }

    function Stsc(): seq<Byte> { flags + Words([|runs|], 4) + Words(RunWords(runs), 4) }

    function Stsz(): seq<Byte> {
      if uniform.Some? then flags + Words([uniform.value, |track.sizes|], 4) + []
      else flags + Words([0, |track.sizes|], 4) + Words(track.sizes, 4)
    }

    /** Chunk offsets, in 32 or 64 bits. */
    function Stco(): seq<Byte> { flags + Words([|track.offsets|], 4) + Words(track.offsets, if wide then 8 else 4) }

    function Encode(): Tables {
      Tables(Stss(), Stsc(), Stsz(), Stco(), wide)
    }
  }

  // ------------------------------------------------------------ reading them back

  /** A box: flags, 32-bit header fields, and a row of numbers. */
  ghost predicate Box(buf: seq<Byte>, fields: seq<nat>, ns: seq<nat>, width: nat) {
    && Row(buf, 4, fields, 4) && Row(buf, 4 + 4 * |fields|, ns, width)
    && |buf| == 4 + 4 * |fields| + |ns| * width
  }

  /** `t` holds the numbers of `x`, box by box. */
  ghost predicate Boxed(x: Muxed, t: Tables) {
    && Box(t.stss, [|x.track.syncs|], x.track.syncs, 4)
    && Box(t.stsc, [|x.runs|], RunWords(x.runs), 4)
    && (if x.uniform.Some? then Box(t.stsz, [x.uniform.value, |x.track.sizes|], [], 4)
        else Box(t.stsz, [0, |x.track.sizes|], x.track.sizes, 4))
    && t.wide == x.wide && Box(t.chunkTable, [|x.track.offsets|], x.track.offsets, if x.wide then 8 else 4)
  }

  lemma BoxThere(flags: seq<Byte>, fields: seq<nat>, ns: seq<nat>, width: nat)
    requires |flags| == 4
    ensures Box(flags + Words(fields, 4) + Words(ns, width), fields, ns, width)
  {
    var head := flags + Words(fields, 4);
    RowThere(flags, fields, 4, Words(ns, width));
    RowThere(head, ns, width, []);
    assert head + Words(ns, width) + [] == head + Words(ns, width);
  }

  lemma SizesBoxed(x: Muxed)
    requires |x.flags| == 4
    ensures if x.uniform.Some? then Box(x.Stsz(), [x.uniform.value, |x.track.sizes|], [], 4)
            else Box(x.Stsz(), [0, |x.track.sizes|], x.track.sizes, 4)
  {
    if x.uniform.Some? {
      BoxThere(x.flags, [x.uniform.value, |x.track.sizes|], [], 4);
    } else {
      BoxThere(x.flags, [0, |x.track.sizes|], x.track.sizes, 4);
    }
  }

  lemma EncodeBoxed(x: Muxed)
    requires |x.flags| == 4
    ensures Boxed(x, x.Encode())
  {
    BoxThere(x.flags, [|x.track.syncs|], x.track.syncs, 4);
    BoxThere(x.flags, [|x.runs|], RunWords(x.runs), 4);
    SizesBoxed(x);
    BoxThere(x.flags, [|x.track.offsets|], x.track.offsets, if x.wide then 8 else 4);
  }

  lemma SyncsBack(x: Muxed, t: Tables)
    requires x.Valid() && Boxed(x, t)
    ensures t.Syncs() == x.track.syncs && t.SyncCount() == Read(t.stss, 4)
  {
    WordBack(t.stss, 4, [|x.track.syncs|], 4, 0);
    forall i | 0 <= i < |x.track.syncs|
      ensures Read(t.stss, 8 + i * 4) == x.track.syncs[i]
    {
      WordBack(t.stss, 8, x.track.syncs, 8 + i * 4, i);
    }
  }

  lemma {:induction false} RunWordAt(runs: seq<Run>, i: nat)
    requires i < |runs|
    ensures var words := RunWords(runs); words[3 * i] == runs[i].first && words[3 * i + 1] == runs[i].per
    decreases |runs|
  {
    if i < |runs| - 1 {
      RunWordAt(runs[..|runs| - 1], i);
    }
  }

  /** The run table read back. */
  ghost predicate RunsRead(t: Tables, runs: seq<Run>) {
    t.RunCount() == |runs| && forall i: nat :: i < |runs| ==> RunRead(t, i, runs[i])
  }

  predicate RunRead(t: Tables, i: nat, run: Run) {
    t.FirstChunk(i) == run.first && Read(t.stsc, 8 + i * 12 + 4) == run.per
  }

  lemma RunBack(t: Tables, words: seq<nat>, i: nat, run: Run)
    requires Row(t.stsc, 8, words, 4) && 3 * i + 1 < |words|
    requires words[3 * i] == run.first < WORD && words[3 * i + 1] == run.per < WORD
    ensures RunRead(t, i, run)
  {
    WordBack(t.stsc, 8, words, 8 + i * 12, 3 * i);
    WordBack(t.stsc, 8, words, 8 + i * 12 + 4, 3 * i + 1);
  }

  lemma RunsBack(x: Muxed, t: Tables)
    requires x.Valid() && Boxed(x, t)
    ensures RunsRead(t, x.runs)
  {
    WordBack(t.stsc, 4, [|x.runs|], 4, 0);
    forall i: nat | i < |x.runs|
      ensures RunRead(t, i, x.runs[i])
    {
      RunWordAt(x.runs, i);
      RunBack(t, RunWords(x.runs), i, x.runs[i]);
    }
  }

  lemma RunOfChunk(x: Muxed, c: nat, j: nat)
    requires x.Grouped() && c < |x.track.counts| && j < |x.runs|
    requires (j > 0 ==> x.runs[j].first <= c + 1) && (j + 1 < |x.runs| ==> c + 1 < x.runs[j + 1].first)
    ensures x.track.counts[c] == x.runs[j].per
  {
    assert x.InRun(c, j);
  }

  lemma SamplesBack(x: Muxed, t: Tables, c: nat)
    requires x.Grouped() && RunsRead(t, x.runs) && c < |x.track.counts|
    ensures t.SamplesIn(c) == x.track.counts[c]
  {
    RunIs(t, 0, c);
    var j := t.RunFrom(0, c);
    assert RunRead(t, j, x.runs[j]);
    if j + 1 < |x.runs| {
      assert RunRead(t, j + 1, x.runs[j + 1]);
    }
    RunOfChunk(x, c, j);
  }

  lemma OffsetBack(x: Muxed, t: Tables, c: nat)
    requires x.Valid() && Boxed(x, t) && c < |x.track.offsets|
    ensures t.ChunkOffset(c) == Some(x.track.offsets[c])
  {
    if x.wide {
      Be64Back(t.chunkTable, 8 + c * 8, x.track.offsets[c]);
    } else {
      WordBack(t.chunkTable, 8, x.track.offsets, 8 + c * 4, c);
    }
  }

  lemma CountsBack(x: Muxed, t: Tables)
    requires x.Valid() && Boxed(x, t)
    ensures t.Counts() == x.track.counts && t.Offsets() == x.track.offsets
    ensures forall c :: 0 <= c < |x.track.offsets| ==> t.ChunkOffset(c).Some?
  {
    WordBack(t.chunkTable, 4, [|x.track.offsets|], 4, 0);
    RunsBack(x, t);
    forall c | 0 <= c < |x.track.counts|
      ensures t.SamplesIn(c) == x.track.counts[c] && t.ChunkOffset(c) == Some(x.track.offsets[c])
    {
      SamplesBack(x, t, c);
      OffsetBack(x, t, c);
    }
  }

  lemma FixedBack(x: Muxed, t: Tables)
    requires x.Valid() && Boxed(x, t)
    ensures t.FixedSize() == if x.uniform.Some? then x.uniform.value else 0
  {
    WordBack(t.stsz, 4, [if x.uniform.Some? then x.uniform.value else 0, |x.track.sizes|], 4, 0);
  }

  lemma SizeBack(x: Muxed, t: Tables, s: nat)
    requires x.Valid() && Boxed(x, t) && s < |x.track.sizes|
    ensures t.Size(s + 1) == x.track.sizes[s]
  {
    FixedBack(x, t);
    if x.uniform.None? {
      WordBack(t.stsz, 12, x.track.sizes, 12 + s * 4, s);
    }
  }

  lemma BoxedDecodes(x: Muxed, t: Tables)
    requires x.Valid() && Boxed(x, t)
    ensures t.Decode() == x.track && t.Readable() && SyncsOk(t)
  {
    SyncsBack(x, t);
    CountsBack(x, t);
    RunsBack(x, t);
    FixedBack(x, t);
    forall s | 0 <= s < |x.track.sizes|
      ensures t.Size(s + 1) == x.track.sizes[s]
    {
      SizeBack(x, t, s);
    }
    assert t.Sizes() == x.track.sizes;
  }

  /** The written tables say what the track is, and are whole. */
  lemma DecodeEncode(x: Muxed)
    requires x.Valid()
    ensures var t := x.Encode(); t.Decode() == x.track && t.Readable() && SyncsOk(t)
  {
    EncodeBoxed(x);
    BoxedDecodes(x, x.Encode());
  }

  /** Reading the boxes of any track gives the file offset of each of its sync samples, in order. */
  method KeyframesBack(x: Muxed) returns (r: Option<seq<int>>)
    requires x.Valid()
    ensures r.Some? && |r.value| == |x.track.syncs|
    ensures forall i :: 0 <= i < |r.value| ==> x.track.Lies(x.track.syncs[i], r.value[i])
  {
    DecodeEncode(x);
    r := StblKeyframes(Some(x.Stss()), Some(x.Stsc()), Some(x.Stsz()),
                       if x.wide then None else Some(x.Stco()), if x.wide then Some(x.Stco()) else None);
  }
}
