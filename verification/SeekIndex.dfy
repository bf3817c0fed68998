/** Keyframe offsets from an MP4 sample table (sections 8.6.2, 8.7.3, 8.7.4 and 8.7.5 of ISO/IEC 14496-12). */
module SeekIndex {
  import opened Types
  import opened Geometry

  // ------------------------------------------------------------ what the tables mean

  /** Samples in the first `n` chunks. */
  function Before(counts: seq<nat>, n: nat): nat
    requires n <= |counts|
  {
    if n == 0 then 0 else Before(counts, n - 1) + counts[n - 1]
  }

  /** A track: per chunk its sample count and file offset, per sample its size, and the numbers of
      the sync samples as listed. Samples count from 1. */
  datatype Track = Track(counts: seq<nat>, offsets: seq<nat>, sizes: seq<nat>, syncs: seq<nat>) {

    ghost predicate Valid() {
      |offsets| == |counts| && |sizes| == SamplesBefore(|counts|)
    }

    /** Samples in the chunks before `chunk`. */
    function SamplesBefore(chunk: nat): nat
      requires chunk <= |counts|
    {
      Before(counts, chunk)
    }

    /** Bytes of the samples after `from` up to `to`. */
    function Bytes(from: nat, to: nat): nat
      requires from <= to <= |sizes|
    {
      if to == from then 0 else Bytes(from, to - 1) + sizes[to - 1]
    }

    ghost predicate InChunk(s: nat, chunk: nat) {
      chunk < |counts| && SamplesBefore(chunk) < s <= SamplesBefore(chunk + 1)
    }

    /** Sample `s` lies at file offset `off`: its chunk's offset plus the sizes of the earlier
        samples of that chunk. */
    ghost predicate Lies(s: nat, off: int)
      requires Valid()
    {
      s <= |sizes| &&
      exists chunk: nat :: InChunk(s, chunk) && off == offsets[chunk] + Bytes(SamplesBefore(chunk), s - 1)
    }

    /** The `i`th sync entry can be met in a walk over samples 1 to `seen`. */
    predicate Follows(i: nat, seen: nat)
      requires i < |syncs|
    {
      (if i == 0 then 0 else syncs[i - 1]) < syncs[i] <= seen
    }

    /** A walk over samples 1 to `seen` meets the first `n` sync entries and no more. */
    ghost predicate Meets(n: nat, seen: nat) {
      && n <= |syncs| && (forall i: nat :: i < n ==> Follows(i, seen))
      && (n < |syncs| ==> !Follows(n, seen))
    }

    /** `out` holds the offsets of the first sync samples. */
    ghost predicate Placed(out: seq<int>)
      requires Valid()
    {
      |out| <= |syncs| && forall i: nat :: i < |out| ==> Lies(syncs[i], out[i])
    }

    /** `out` holds the offsets of the longest increasing run of sync samples among `1..seen`. */
    ghost predicate Found(out: seq<int>, seen: nat)
      requires Valid()
    {
      Meets(|out|, seen) && Placed(out)
    }
  }

  lemma {:induction false} SamplesGrow(t: Track, a: nat, b: nat)
    requires a <= b <= |t.counts|
    ensures t.SamplesBefore(a) <= t.SamplesBefore(b)
  {
    if a < b {
      SamplesGrow(t, a, b - 1);
    }
  }

  lemma InOneChunk(t: Track, s: nat, c: nat, c': nat)
    requires t.InChunk(s, c) && t.InChunk(s, c')
    ensures c == c'
  {
    if c < c' {
      SamplesGrow(t, c + 1, c');
    } else if c' < c {
      SamplesGrow(t, c' + 1, c);
    }
  }

  /** A sample has one place. */
  lemma LiesOnce(t: Track, s: nat, off: int, off': int)
    requires t.Valid() && t.Lies(s, off) && t.Lies(s, off')
    ensures off == off'
  {
    var c: nat :| t.InChunk(s, c) && off == t.offsets[c] + t.Bytes(t.SamplesBefore(c), s - 1);
    var c': nat :| t.InChunk(s, c') && off' == t.offsets[c'] + t.Bytes(t.SamplesBefore(c'), s - 1);
    InOneChunk(t, s, c, c');
  }

  lemma MeetsOnce(t: Track, n: nat, n': nat, seen: nat)
    requires t.Meets(n, seen) && t.Meets(n', seen)
    ensures n == n'
  {
  }

  /** The result of a walk is determined by the track. */
  lemma FoundOnce(t: Track, a: seq<int>, b: seq<int>, seen: nat)
    requires t.Valid() && t.Found(a, seen) && t.Found(b, seen)
    ensures a == b
  {
    MeetsOnce(t, |a|, |b|, seen);
    forall i: nat | i < |a|
      ensures a[i] == b[i]
    {
      LiesOnce(t, t.syncs[i], a[i], b[i]);
    }
  }

  /** The walk meets sample `seen + 1`. */
  lemma MeetsNext(t: Track, n: nat, seen: nat)
    requires t.Meets(n, seen) && n < |t.syncs|
    ensures t.Meets(if t.syncs[n] == seen + 1 then n + 1 else n, seen + 1)
  {
    var next := seen + 1;
    forall i: nat | i < n
      ensures t.Follows(i, next)
    {
      assert t.Follows(i, seen);
    }
    if n > 0 {
      assert t.Follows(n - 1, seen);
    }
  }

  lemma PlacedNext(t: Track, out: seq<int>, at: int)
    requires t.Valid() && t.Placed(out) && |out| < |t.syncs| && t.Lies(t.syncs[|out|], at)
    ensures t.Placed(out + [at])
  {
    var out' := out + [at];
    forall i: nat | i < |out'|
      ensures t.Lies(t.syncs[i], out'[i])
    {
      assert i < |out| ==> t.Lies(t.syncs[i], out[i]);
    }
  }

  /** With every sync entry met, later samples add nothing. */
  lemma MeetsAll(t: Track, seen: nat, total: nat)
    requires t.Meets(|t.syncs|, seen) && seen <= total
    ensures t.Meets(|t.syncs|, total)
  {
    forall i: nat | i < |t.syncs|
      ensures t.Follows(i, total)
    {
      assert t.Follows(i, seen);
    }
  }

  // ------------------------------------------------------------ the tables as bytes

  type Byte = b: int | 0 <= b < 256

  const I64_LIMIT := 0x8000_0000_0000_0000

  function Be32(buf: seq<Byte>, at: nat): Option<nat> {
    if at + 4 > |buf| then None
    else
      var b0: int, b1: int, b2: int, b3: int := buf[at], buf[at + 1], buf[at + 2], buf[at + 3];
      Some(((b0 * 256 + b1) * 256 + b2) * 256 + b3)
  }

  function Be64(buf: seq<Byte>, at: nat): Option<nat> {
    var hi, lo := Be32(buf, at), Be32(buf, at + 4);
    if lo.None? then None else Some(hi.value * 0x1_0000_0000 + lo.value)
  }

  /** A table entry; 0 where the table is too short for it. */
  function Read(buf: seq<Byte>, at: nat): nat {
    if Be32(buf, at).Some? then Be32(buf, at).value else 0
  }

  /** The bodies of the boxes of one sample table: sync samples, sample-to-chunk runs, sample sizes,
      and chunk offsets of 32 bits or (`wide`) 64 bits. */
  datatype Tables = Tables(stss: seq<Byte>, stsc: seq<Byte>, stsz: seq<Byte>, chunkTable: seq<Byte>, wide: bool) {

    function Chunks(): nat { Read(chunkTable, 4) }

    function RunCount(): nat { Read(stsc, 4) }

    function FixedSize(): nat { Read(stsz, 4) }

    function ChunkOffset(chunk: nat): Option<nat> {
      if !wide then Be32(chunkTable, 8 + chunk * 4)
      else
        var off := Be64(chunkTable, 8 + chunk * 8);
        if off.Some? && off.value >= I64_LIMIT then None else off
    }

    /** First chunk of a run; chunks count from 1 there. */
    function FirstChunk(run: nat): nat { Read(stsc, 8 + run * 12) }

    /** The run a chunk belongs to, looking from `run` on. */
    function RunFrom(run: nat, chunk: nat): nat
      decreases RunCount() - run
    {
      if run + 1 < RunCount() && FirstChunk(run + 1) <= chunk + 1 then RunFrom(run + 1, chunk) else run
    }

    function SamplesIn(chunk: nat): nat { Read(stsc, 8 + RunFrom(0, chunk) * 12 + 4) }

    function Size(sample: nat): nat
      requires sample > 0
    {
      if FixedSize() != 0 then FixedSize() else Read(stsz, 12 + (sample - 1) * 4)
    }

    /** Sync entries that are announced and there. */
    function SyncCount(): nat {
      if |stss| < 8 then 0 else Min(Read(stss, 4), (|stss| - 8) / 4)
    }

    ghost function Counts(): (r: seq<nat>)
      ensures |r| == Chunks() && forall c :: 0 <= c < |r| ==> r[c] == SamplesIn(c)
    {
      seq(Chunks(), c requires c >= 0 => SamplesIn(c))
    }

    ghost function Offsets(): (r: seq<nat>)
      ensures |r| == Chunks() && forall c :: 0 <= c < |r| && ChunkOffset(c).Some? ==> r[c] == ChunkOffset(c).value
    {
      seq(Chunks(), c requires c >= 0 => if ChunkOffset(c).Some? then ChunkOffset(c).value else 0)
    }

    ghost function Sizes(): (r: seq<nat>)
      ensures |r| == Before(Counts(), Chunks()) && forall s :: 0 <= s < |r| ==> r[s] == Size(s + 1)
    {
      seq(Before(Counts(), Chunks()), s requires s >= 0 => Size(s + 1))
    }

    ghost function Syncs(): (r: seq<nat>)
      ensures |r| == SyncCount() && forall i :: 0 <= i < |r| ==> r[i] == Read(stss, 8 + i * 4)
    {
      seq(SyncCount(), i requires i >= 0 => Read(stss, 8 + i * 4))
    }

    /** What the tables say, as far as they go. */
    ghost function Decode(): (t: Track)
      ensures t.Valid()
    {
      Track(Counts(), Offsets(), Sizes(), Syncs())
    }

    /** Every table but the sync table holds what the headers announce. */
    ghost predicate Readable() {
      && |stss| >= 8 && |stsz| >= 8 && |stsc| >= 8 && |chunkTable| >= 8
      && (Chunks() > 0 ==> |stsc| >= 8 + 12 * Max(RunCount(), 1))
      && (FixedSize() == 0 ==> |stsz| >= 12 + 4 * |Sizes()|)
      && forall c :: 0 <= c < Chunks() ==> ChunkOffset(c).Some?
    }
  }

  /** A walk may keep its place in the runs from one chunk to the next. */
  lemma {:induction false} RunResumes(t: Tables, run: nat, chunk: nat)
    ensures t.RunFrom(t.RunFrom(run, chunk), chunk + 1) == t.RunFrom(run, chunk + 1)
    decreases t.RunCount() - run
  {
    if run + 1 < t.RunCount() && t.FirstChunk(run + 1) <= chunk + 1 {
      RunResumes(t, run + 1, chunk);
    }
  }

  lemma {:induction false} RunIs(t: Tables, run: nat, chunk: nat)
    ensures var r := t.RunFrom(run, chunk);
            && run <= r && (r < t.RunCount() || r == run)
            && (forall j :: run < j <= r ==> t.FirstChunk(j) <= chunk + 1)
            && (r + 1 < t.RunCount() ==> t.FirstChunk(r + 1) > chunk + 1)
    decreases t.RunCount() - run
  {
    if run + 1 < t.RunCount() && t.FirstChunk(run + 1) <= chunk + 1 {
      RunIs(t, run + 1, chunk);
    }
  }

  /** With runs in increasing order, a chunk's run is the last one that starts at or before it. */
  lemma LastRunStarting(t: Tables, chunk: nat, j: nat)
    requires forall a, b :: 0 < a <= b < t.RunCount() ==> t.FirstChunk(a) <= t.FirstChunk(b)
    requires 0 < j < t.RunCount()
    ensures j <= t.RunFrom(0, chunk) <==> t.FirstChunk(j) <= chunk + 1
  {
    RunIs(t, 0, chunk);
    var r := t.RunFrom(0, chunk);
    if r < j {
      assert t.FirstChunk(r + 1) <= t.FirstChunk(j);
    }
  }

  // ------------------------------------------------------------ the walk

  /** The `i`th sync entry, if it is announced and there. */
  function SyncAt(t: Tables, i: nat): Option<nat> {
    if i < Read(t.stss, 4) then Be32(t.stss, 8 + i * 4) else None
  }

  lemma SyncEntry(t: Tables, i: nat)
    requires |t.stss| >= 8
    ensures SyncAt(t, i).Some? <==> i < |t.Decode().syncs|
    ensures i < |t.Decode().syncs| ==> SyncAt(t, i).value == t.Decode().syncs[i]
  {
  }

  function SizeAt(t: Tables, sample: nat): Option<nat>
    requires sample > 0
  {
    if t.FixedSize() != 0 then Some(t.FixedSize()) else Be32(t.stsz, 12 + (sample - 1) * 4)
  }

  lemma SizeEntry(t: Tables, sample: nat)
    requires 0 < sample <= |t.Decode().sizes|
    ensures SizeAt(t, sample).Some? ==> SizeAt(t, sample).value == t.Decode().sizes[sample - 1]
    ensures SizeAt(t, sample).None? ==> !t.Readable()
  {
  }

  /** The walk stands inside `chunk` after `sample` samples, the next one at `at`, with `out` found. */
  ghost predicate Stands(t: Track, chunk: nat, sample: nat, at: int, out: seq<int>)
    requires t.Valid()
  {
    && chunk < |t.counts| && t.SamplesBefore(chunk) <= sample <= t.SamplesBefore(chunk + 1) <= |t.sizes|
    && at == t.offsets[chunk] + t.Bytes(t.SamplesBefore(chunk), sample)
    && t.Found(out, sample)
  }

  lemma StandsLies(t: Track, chunk: nat, sample: nat, at: int, out: seq<int>)
    requires t.Valid() && Stands(t, chunk, sample, at, out) && sample < t.SamplesBefore(chunk + 1)
    ensures t.Lies(sample + 1, at)
  {
    assert t.InChunk(sample + 1, chunk);
  }

  lemma FoundOn(t: Track, out: seq<int>, sample: nat, at: int)
    requires t.Valid() && t.Found(out, sample) && |out| < |t.syncs| && t.Lies(sample + 1, at)
    ensures t.Found(if t.syncs[|out|] == sample + 1 then out + [at] else out, sample + 1)
  {
    MeetsNext(t, |out|, sample);
    if t.syncs[|out|] == sample + 1 {
      PlacedNext(t, out, at);
    }
  }

  lemma BytesOn(t: Track, from: nat, sample: nat)
    requires from <= sample < |t.sizes|
    ensures t.Bytes(from, sample + 1) == t.Bytes(from, sample) + t.sizes[sample]
  {
  }

  lemma WalkOn(t: Track, chunk: nat, sample: nat, at: int, out: seq<int>)
    requires t.Valid() && Stands(t, chunk, sample, at, out) && sample < t.SamplesBefore(chunk + 1) && |out| < |t.syncs|
    ensures Stands(t, chunk, sample + 1, at + t.sizes[sample],
                   if t.syncs[|out|] == sample + 1 then out + [at] else out)
  {
    StandsLies(t, chunk, sample, at, out);
    FoundOn(t, out, sample, at);
    BytesOn(t, t.SamplesBefore(chunk), sample);
  }

  /** Walks the samples of one chunk. `done`: every sync entry was met; `ok`: no size was missing. */
  method WalkChunk(t: Tables, chunk: nat, sample0: nat, inChunk: nat, offset: nat, out0: seq<int>)
    returns (sample: nat, out: seq<int>, done: bool, ok: bool)
    requires |t.stss| >= 8 && Stands(t.Decode(), chunk, sample0, offset, out0)
    requires sample0 + inChunk == t.Decode().SamplesBefore(chunk + 1)
    ensures ok && !done ==> sample == sample0 + inChunk && t.Decode().Found(out, sample)
    ensures ok && done ==> t.Decode().Found(out, |t.Decode().sizes|)
    ensures !ok ==> !t.Readable()
  {
    ghost var track := t.Decode();
    sample, out, done, ok := sample0, out0, false, true;
    var at := offset;
    var k := 0;
    while k < inChunk
      invariant 0 <= k <= inChunk && sample == sample0 + k
      invariant Stands(track, chunk, sample, at, out)
    {
      SyncEntry(t, |out|);
      SizeEntry(t, sample + 1);
      var sync := SyncAt(t, |out|);
      if sync.None? {
        MeetsAll(track, sample, |track.sizes|);
        return sample + 1, out, true, true;
      }
      WalkOn(track, chunk, sample, at, out);
      sample := sample + 1;
      if sync.value == sample {
        out := out + [at];
      }
      var size := SizeAt(t, sample);
      if size.None? {
        return sample, out, false, false;
      }
      at := at + size.value;
      k := k + 1;
    }
  }

  /** Moves to the run of `chunk`; nothing when the run table ends before its announced length. */
  method AdvanceRun(t: Tables, run0: nat, chunk: nat) returns (run: Option<nat>)
    requires t.RunFrom(run0, chunk) == t.RunFrom(0, chunk)
    ensures run.Some? ==> run.value == t.RunFrom(0, chunk)
    ensures run.None? ==> |t.stsc| < 8 + 12 * t.RunCount()
  {
    var r := run0;
    while r + 1 < t.RunCount()
      invariant t.RunFrom(r, chunk) == t.RunFrom(0, chunk)
      decreases t.RunCount() - r
    {
      if Be32(t.stsc, 8 + (r + 1) * 12).None? {
        return None;
      }
      if t.FirstChunk(r + 1) > chunk + 1 {
        break;
      }
      r := r + 1;
    }
    return Some(r);
  }

  lemma EnterChunk(t: Tables, chunk: nat, sample: nat, out: seq<int>)
    requires chunk < t.Chunks() && t.ChunkOffset(chunk).Some?
    requires sample == t.Decode().SamplesBefore(chunk) && t.Decode().Found(out, sample)
    ensures Stands(t.Decode(), chunk, sample, t.ChunkOffset(chunk).value, out)
    ensures sample + t.SamplesIn(chunk) == t.Decode().SamplesBefore(chunk + 1)
  {
    SamplesGrow(t.Decode(), chunk + 1, t.Chunks());
  }

  /** The walk is through with the chunks before `chunk`. */
  ghost predicate Walked(t: Tables, run: nat, chunk: nat, sample: nat, out: seq<int>) {
    && chunk <= t.Chunks() && t.RunFrom(run, chunk) == t.RunFrom(0, chunk)
    && sample == t.Decode().SamplesBefore(chunk) && t.Decode().Found(out, sample)
  }

  /** `out` is what the tables say about the whole track. */
  ghost predicate Answers(t: Tables, out: seq<int>) {
    t.Decode().Found(out, |t.Decode().sizes|)
  }

  /** The sync table is whole and lists samples of the track in increasing order. */
  ghost predicate SyncsOk(t: Tables) {
    var track := t.Decode();
    t.SyncCount() == Read(t.stss, 4) && forall i: nat :: i < |track.syncs| ==> track.Follows(i, |track.sizes|)
  }

  /** `out` holds the offset of every announced sync sample, in order. */
  ghost predicate EverySync(t: Tables, out: seq<int>) {
    |out| == Read(t.stss, 4) == |t.Decode().syncs| && t.Decode().Placed(out)
  }

  /** Well-formed tables give every sync sample. */
  lemma WellFormedFindsAll(t: Tables, out: seq<int>)
    requires Answers(t, out) && SyncsOk(t)
    ensures EverySync(t, out)
  {
  }

  lemma WalkEnds(t: Tables, run: nat, sample: nat, out: seq<int>)
    requires Walked(t, run, t.Chunks(), sample, out)
    ensures Answers(t, out)
  {
  }

  /** Walks one chunk, from the run of the chunk before it. */
  method WalkNext(t: Tables, run0: nat, chunk: nat, sample0: nat, out0: seq<int>)
    returns (run: nat, sample: nat, out: seq<int>, done: bool, ok: bool)
    requires |t.stss| >= 8 && chunk < t.Chunks() && Walked(t, run0, chunk, sample0, out0)
    ensures ok && !done ==> Walked(t, run, chunk + 1, sample, out)
    ensures ok && done ==> Answers(t, out)
    ensures !ok ==> !t.Readable()
  {
    run, sample, out, done, ok := run0, sample0, out0, false, false;
    var at := AdvanceRun(t, run0, chunk);
    RunIs(t, 0, chunk);
    if at.None? || Be32(t.stsc, 8 + at.value * 12 + 4).None? {
      return;
    }
    run := at.value;
    var offset := t.ChunkOffset(chunk);
    if offset.None? {
      return;
    }
    RunResumes(t, 0, chunk);
    EnterChunk(t, chunk, sample, out);
    sample, out, done, ok := WalkChunk(t, chunk, sample, t.SamplesIn(chunk), offset.value, out);
  }

  predicate HeadersThere(t: Tables)
    ensures t.Readable() ==> HeadersThere(t)
    ensures HeadersThere(t) ==> |t.stss| >= 8
  {
    Be32(t.chunkTable, 4).Some? && Be32(t.stss, 4).Some? && Be32(t.stsz, 4).Some? && Be32(t.stsc, 4).Some?
  }

  lemma BeforeWalk(t: Tables)
    ensures Walked(t, 0, 0, 0, [])
  {
  }

  /** A result is the tables' answer, and only tables shorter than announced give none. */
  ghost predicate Reads(t: Tables, r: Option<seq<int>>) {
    (r.Some? ==> Answers(t, r.value)) && (t.Readable() ==> r.Some?)
  }

  /** One pass over chunks and samples. Whatever it returns is the meaning of the tables, and it
      returns nothing only when one is shorter than announced. */
  method WalkWhole(t: Tables) returns (r: Option<seq<int>>)
    ensures Reads(t, r)
  {
    if !HeadersThere(t) {
      return None;
    }
    r := WalkChunks(t);
  }

  /** All chunks in turn, until one gives the answer. */
  method WalkChunks(t: Tables) returns (r: Option<seq<int>>)
    requires |t.stss| >= 8
    ensures Reads(t, r)
  {
    BeforeWalk(t);
    var out: seq<int>, sample: nat, run: nat, chunk: nat := [], 0, 0, 0;
    var answer: Option<Option<seq<int>>> := None;
    while chunk < t.Chunks() && answer.None?
      invariant chunk <= t.Chunks()
      invariant if answer.Some? then Reads(t, answer.value) else Walked(t, run, chunk, sample, out)
      decreases t.Chunks() - chunk
    {
      run, sample, out, answer := WalkStep(t, run, chunk, sample, out);
      chunk := chunk + 1;
    }
    if answer.Some? {
      return answer.value;
    }
    WalkEnds(t, run, sample, out);
    return Some(out);
  }

  /** One chunk, with the answer if the walk ends there. */
  method WalkStep(t: Tables, run0: nat, chunk: nat, sample0: nat, out0: seq<int>)
    returns (run: nat, sample: nat, out: seq<int>, answer: Option<Option<seq<int>>>)
    requires |t.stss| >= 8 && chunk < t.Chunks() && Walked(t, run0, chunk, sample0, out0)
    ensures if answer.Some? then Reads(t, answer.value) else Walked(t, run, chunk + 1, sample, out)
  {
    var done, ok;
    run, sample, out, done, ok := WalkNext(t, run0, chunk, sample0, out0);
    answer := if !ok then Some(None) else if done then Some(Some(out)) else None;
  }

  /** The walk, with what it means for well-formed tables. */
  method WalkTables(t: Tables) returns (r: Option<seq<int>>)
    ensures r.Some? ==> Answers(t, r.value)
    ensures t.Readable() ==> r.Some?
    ensures t.Readable() && SyncsOk(t) ==> EverySync(t, r.value)
  {
    r := WalkWhole(t);
    if r.Some? && SyncsOk(t) {
      WellFormedFindsAll(t, r.value);
    }
  }

  /** The keyframe offsets of one sample table, from whichever of its boxes exist. */
  method StblKeyframes(stss: Option<seq<Byte>>, stsc: Option<seq<Byte>>, stsz: Option<seq<Byte>>,
                       stco: Option<seq<Byte>>, co64: Option<seq<Byte>>)
    returns (r: Option<seq<int>>)
    ensures r.Some? ==> stss.Some? && stsc.Some? && stsz.Some? && (stco.Some? || co64.Some?)
    ensures stss.Some? && stsc.Some? && stsz.Some? && (stco.Some? || co64.Some?) ==>
              var t := Tables(stss.value, stsc.value, stsz.value, if stco.Some? then stco.value else co64.value, stco.None?);
              && (r.Some? ==> Answers(t, r.value))
              && (t.Readable() ==> r.Some?)
              && (t.Readable() && SyncsOk(t) ==> EverySync(t, r.value))
  {
    if stss.None? || stsc.None? || stsz.None? || (stco.None? && co64.None?) {
      return None;
    }
    var chunkTable := if stco.Some? then stco.value else co64.value;
    r := WalkTables(Tables(stss.value, stsc.value, stsz.value, chunkTable, stco.None?));
  }
}
