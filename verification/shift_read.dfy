/** The shift-read loop of the read phase: the data line is sampled once per
    clock pulse, eight pulses per cascaded IC, and the bits of each IC are
    stored in reverse order of arrival. */
module ShiftRead {
  import opened Bits

  /** Bits shifted out of one IC (`num_bits` in the read loop). */
  const BITS_PER_IC: nat := 8

  /** Number of cascaded ICs the loop walks: `num_switches / 8`, truncating. */
  function IcCount(numSwitches: nat): nat
  {
    numSwitches / BITS_PER_IC
  }

  /** Clock pulses, and so samples, in one read phase; also the number of
      leading buffer positions the read phase writes. When the switch count
      is not a multiple of eight, the last `numSwitches % 8` positions are
      never written. */
  function ReadCount(numSwitches: nat): (c: nat)
    ensures c <= numSwitches < c + BITS_PER_IC
    ensures c % BITS_PER_IC == 0
  {
    IcCount(numSwitches) * BITS_PER_IC
  }

  /** Buffer position that receives the `i`-th bit read from IC `ic`. */
  function BufferIndex(ic: nat, i: nat): nat
    requires i < BITS_PER_IC
  {
    ic * BITS_PER_IC + BITS_PER_IC - i - 1
  }

  /** Number, in order of arrival, of the sample that ends up at position `k`. */
  function SampleIndex(k: nat): nat
  {
    (k / BITS_PER_IC) * BITS_PER_IC + (BITS_PER_IC - 1 - k % BITS_PER_IC)
  }

  /** Position `ic * 8 + j` lies in group `ic` at offset `j`. */
  lemma GroupOf(ic: nat, j: nat)
    requires j < BITS_PER_IC
    ensures (ic * BITS_PER_IC + j) / BITS_PER_IC == ic
    ensures (ic * BITS_PER_IC + j) % BITS_PER_IC == j
  {
  }

  /** The `i`-th read of IC `ic` is sample number `ic * 8 + i`, and it lands
      inside the IC's own group of eight positions. */
  lemma SampleOfBufferIndex(ic: nat, i: nat)
    requires i < BITS_PER_IC
    ensures ic * BITS_PER_IC <= BufferIndex(ic, i) < ic * BITS_PER_IC + BITS_PER_IC
    ensures SampleIndex(BufferIndex(ic, i)) == ic * BITS_PER_IC + i
  {
    GroupOf(ic, BITS_PER_IC - 1 - i);
  }

  /** A position below `ReadCount(n)` takes a sample that also lies below `ReadCount(n)`. */
  lemma SampleIndexInRange(n: nat, k: nat)
    requires k < ReadCount(n)
    ensures SampleIndex(k) < ReadCount(n)
    ensures k / BITS_PER_IC < IcCount(n)
    ensures BufferIndex(k / BITS_PER_IC, BITS_PER_IC - 1 - k % BITS_PER_IC) == k
  {
  }

  /** The map (ic, i) to `ic * 8 + 8 - i - 1` is a bijection from the reads of
      one phase onto the positions `0 .. ReadCount(n) - 1`; read number
      `SampleIndex(k)` is the one that reaches position `k`. */
  lemma BufferIndexIsBijection(n: nat)
    ensures forall ic: nat, i: nat :: ic < IcCount(n) && i < BITS_PER_IC ==>
      BufferIndex(ic, i) < ReadCount(n)
    ensures forall ic: nat, i: nat, ic': nat, i': nat ::
      i < BITS_PER_IC && i' < BITS_PER_IC && BufferIndex(ic, i) == BufferIndex(ic', i') ==>
      ic == ic' && i == i'
    ensures forall k: nat :: k < ReadCount(n) ==>
      SampleIndex(k) < ReadCount(n) &&
      BufferIndex(SampleIndex(k) / BITS_PER_IC, SampleIndex(k) % BITS_PER_IC) == k
  {
    forall ic: nat, i: nat | ic < IcCount(n) && i < BITS_PER_IC
      ensures BufferIndex(ic, i) < ReadCount(n)
    {
      SampleOfBufferIndex(ic, i);
    }
    forall ic: nat, i: nat, ic': nat, i': nat |
      i < BITS_PER_IC && i' < BITS_PER_IC && BufferIndex(ic, i) == BufferIndex(ic', i')
      ensures ic == ic' && i == i'
    {
      SampleOfBufferIndex(ic, i);
      SampleOfBufferIndex(ic', i');
      GroupOf(ic, i);
      GroupOf(ic', i');
    }
    forall k: nat | k < ReadCount(n)
      ensures SampleIndex(k) < ReadCount(n)
      ensures BufferIndex(SampleIndex(k) / BITS_PER_IC, SampleIndex(k) % BITS_PER_IC) == k
    {
      SampleIndexInRange(n, k);
      GroupOf(k / BITS_PER_IC, BITS_PER_IC - 1 - k % BITS_PER_IC);
    }
  }

  /** A buffer holding at each position below `ReadCount` the sample the
      reversed order sends there holds the `i`-th bit read from IC `ic` at
      `ic * 8 + 8 - i - 1`. */
  lemma PlacedBySampleIndex(buffer: seq<Bit>, line: seq<Bit>, r: seq<Bit>)
    requires |line| == ReadCount(|buffer|) && |r| == |buffer|
    requires forall k :: 0 <= k < |line| ==> SampleIndex(k) < |line| && r[k] == line[SampleIndex(k)]
    ensures forall ic: nat, i: nat :: ic < IcCount(|buffer|) && i < BITS_PER_IC ==>
      BufferIndex(ic, i) < |r| && r[BufferIndex(ic, i)] == line[ic * BITS_PER_IC + i]
  {
    forall ic: nat, i: nat | ic < IcCount(|buffer|) && i < BITS_PER_IC
      ensures BufferIndex(ic, i) < |r| && r[BufferIndex(ic, i)] == line[ic * BITS_PER_IC + i]
    {
      SampleOfBufferIndex(ic, i);
    }
  }

  /** The buffer after a read phase, defined position by position: every
      position below `ReadCount` holds the sample that the reversed order
      sends there, and every other position keeps its previous value.
      `line` lists the levels of the data line in the order the clock
      pulses sample them. Each reached position receives exactly the `i`-th
      bit read from its IC. */
  function ShiftIn(buffer: seq<Bit>, line: seq<Bit>): (r: seq<Bit>)
    requires |line| == ReadCount(|buffer|)
    ensures |r| == |buffer|
    ensures forall ic: nat, i: nat :: ic < IcCount(|buffer|) && i < BITS_PER_IC ==>
      BufferIndex(ic, i) < |r| && r[BufferIndex(ic, i)] == line[ic * BITS_PER_IC + i]
    ensures forall k :: |line| <= k < |buffer| ==> r[k] == buffer[k]
  {
    var r := seq(|buffer|, k requires 0 <= k < |buffer| =>
      if k < |line| then (SampleIndexInRange(|buffer|, k); line[SampleIndex(k)]) else buffer[k]);
    PlacedBySampleIndex(buffer, line, r);
    r
  }

  /** Shifting in depends on the old buffer only through the positions the
      read does not reach; in particular shifting the same line in twice
      gives the same buffer as shifting it in once. */
  lemma ShiftInAbsorbs(buffer: seq<Bit>, other: seq<Bit>, line: seq<Bit>)
    requires |line| == ReadCount(|buffer|) && |other| == |buffer|
    requires forall k :: |line| <= k < |buffer| ==> other[k] == buffer[k]
    ensures ShiftIn(other, line) == ShiftIn(buffer, line)
    ensures ShiftIn(ShiftIn(buffer, line), line) == ShiftIn(buffer, line)
  {
  }

  /** The read loop as written: for each IC, eight clock pulses, the `i`-th
      sample stored at `ic * 8 + 8 - i - 1`. `line[ic * 8 + i]` is the level
      the data line shows at that pulse. */
  method ReadEachBits(buffer: seq<Bit>, line: seq<Bit>) returns (r: seq<Bit>)
    requires |line| == ReadCount(|buffer|)
    ensures |r| == |buffer|
    ensures forall ic: nat, i: nat :: ic < IcCount(|buffer|) && i < BITS_PER_IC ==>
      BufferIndex(ic, i) < |r| && r[BufferIndex(ic, i)] == line[ic * BITS_PER_IC + i]
    ensures forall k :: |line| <= k < |buffer| ==> r[k] == buffer[k]
    ensures r == ShiftIn(buffer, line)
  {
    r := buffer;
    var icIndex := 0;
    while icIndex < IcCount(|buffer|)
      invariant 0 <= icIndex <= IcCount(|buffer|)
      invariant |r| == |buffer|
      invariant forall k :: 0 <= k < |r| ==>
        r[k] == (if k < icIndex * BITS_PER_IC then line[SampleIndex(k)] else buffer[k])
    {
      var i := 0;
      while i < BITS_PER_IC
        invariant 0 <= i <= BITS_PER_IC
        invariant |r| == |buffer|
        invariant forall k :: 0 <= k < |r| ==>
          r[k] == (if k < icIndex * BITS_PER_IC + BITS_PER_IC && icIndex * BITS_PER_IC + BITS_PER_IC - i <= k
                   then line[SampleIndex(k)]
                   else if k < icIndex * BITS_PER_IC then line[SampleIndex(k)]
                   else buffer[k])
      {
        SampleOfBufferIndex(icIndex, i);
        var readData := line[icIndex * BITS_PER_IC + i];
        r := r[BufferIndex(icIndex, i) := readData];
        i := i + 1;
      }
      icIndex := icIndex + 1;
    }
  }
}
