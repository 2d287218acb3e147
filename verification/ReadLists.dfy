/** The piece lists of vector reads: totals, buffer slices, file ranges, and
    when the 32-bit operation size agrees with them. */
module ReadLists {
  import opened Prelude
  import opened SessionSpec

  /** The configured operation fits the 32-bit product the session computes. */
  ghost predicate Fits(o: Options) {
    && o.chunkSize >= 1
    && o.chunkSize * Max(1, o.vectorChunks) < WORD32
  }

  lemma FitsOpBytes(o: Options)
    requires Fits(o)
    ensures OpBytes(o) == FullOpBytes(o) && OpBytes(o) >= 1
  {
    if o.vectorChunks > 0 {
      ProductPositive(o.chunkSize, o.vectorChunks);
    }
  }

  lemma ProductPositive(a: nat, b: nat)
    requires a > 0 && b > 0
    ensures a * b >= 1
  {
  }

  lemma {:induction false} TotalAppend(a: seq<Chunk>, b: seq<Chunk>)
    ensures TotalLen(a + b) == TotalLen(a) + TotalLen(b)
    decreases |a|
  {
    if a == [] {
      assert a + b == b;
    } else {
      assert (a + b)[1..] == a[1..] + b;
      TotalAppend(a[1..], b);
    }
  }

  /** The pieces ask for exactly the smaller of the operation and what is left. */
  lemma {:induction false} VectorTotal(o: Options, fileSize: nat, draws: seq<nat>, i: nat, left: nat, off: nat,
                                       buf: nat)
    requires i <= o.vectorChunks
    ensures TotalLen(VectorChunks(o, fileSize, draws, i, left, off, buf))
            == Min(o.chunkSize * (o.vectorChunks - i), left)
    decreases o.vectorChunks - i
  {
    if i < o.vectorChunks && left > 0 {
      var len := Min(o.chunkSize, left);
      var rest := VectorChunks(o, fileSize, draws, i + 1, left - len, off + len, buf + len);
      VectorTotal(o, fileSize, draws, i + 1, left - len, off + len, buf + len);
      assert VectorChunks(o, fileSize, draws, i, left, off, buf)[1..] == rest;
      assert o.chunkSize * (o.vectorChunks - i) == o.chunkSize + o.chunkSize * (o.vectorChunks - (i + 1));
      ProductNonnegative(o.chunkSize, o.vectorChunks - (i + 1));
    } else if i == o.vectorChunks {
      assert o.chunkSize * (o.vectorChunks - i) == 0;
    }
  }

  lemma ProductNonnegative(a: nat, b: nat)
    ensures a * b >= 0
  {
  }

  /** Every read asks for exactly min(operation size, remaining). */
  lemma ReadTotal(s: Session, draws: seq<nat>)
    ensures TotalLen(ReadList(s, draws)) == Min(FullOpBytes(s.opts), s.remaining)
    ensures s.remaining > 0 ==> |ReadList(s, draws)| > 0
  {
    if s.opts.vectorChunks > 0 {
      VectorTotal(s.opts, s.fileSize, draws, 0, s.remaining, s.nextOffset, 0);
    } else {
      assert ReadList(s, draws)[1..] == [];
    }
  }

  // ---------------------------------------------------------------- the charge and the read

  /** What the engine pays equals what the read then asks for exactly when the
      32-bit product loses nothing that the read still needs. */
  lemma ChargeMatchesRead(s: Session, draws: seq<nat>)
    requires s.budgetSet && s.remaining > 0
    ensures NextOpBytes(s) == TotalLen(ReadList(s, draws))
       <==> (FullOpBytes(s.opts) == OpBytes(s.opts) || s.remaining <= OpBytes(s.opts))
  {
    ReadTotal(s, draws);
    if s.opts.vectorChunks > 0 {
      ModuloAtMost(s.opts.chunkSize * s.opts.vectorChunks, WORD32);
    }
  }

  lemma ModuloAtMost(x: nat, m: nat)
    requires m > 0
    ensures x % m <= x
  {
    assert x == (x / m) * m + x % m;
  }

  /** Every remaining size is charged correctly if and only if the product of
      chunk size and chunk count fits in 32 bits (`chunkSize` is itself 32-bit). */
  lemma ChargeAlwaysMatchesIffFits(o: Options)
    requires 1 <= o.chunkSize < WORD32
    ensures Fits(o) <==>
            forall s: Session, draws: seq<nat> :: s.opts == o && s.budgetSet && s.remaining > 0
               ==> NextOpBytes(s) == TotalLen(ReadList(s, draws))
  {
    if Fits(o) {
      forall s: Session, draws: seq<nat> | s.opts == o && s.budgetSet && s.remaining > 0
        ensures NextOpBytes(s) == TotalLen(ReadList(s, draws))
      {
        FitsOpBytes(o);
        ChargeMatchesRead(s, draws);
      }
    } else {
      var s := Fresh(o, true, 0).(budgetSet := true, remaining := FullOpBytes(o));
      assert o.vectorChunks > 0;
      assert FullOpBytes(o) >= WORD32 > OpBytes(o);
      ChargeMatchesRead(s, []);
    }
  }

  /** A workload the validator admits (1 GiB chunks, five of them) pays for one
      chunk and reads five. */
  lemma WrapUndercharges()
    ensures var o := Options(0x4000_0000, 0, 0, 5, false, true);
            var s := Fresh(o, true, 0).(budgetSet := true, remaining := 0x2_0000_0000);
            NextOpBytes(s) == 0x4000_0000 && TotalLen(ReadList(s, [])) == 0x1_4000_0000
  {
    var o := Options(0x4000_0000, 0, 0, 5, false, true);
    ReadTotal(Fresh(o, true, 0).(budgetSet := true, remaining := 0x2_0000_0000), []);
  }

  // ---------------------------------------------------------------- slices and ranges

  /** Each piece starts in the buffer where the one before it ended. */
  ghost predicate Packed(cs: seq<Chunk>, buf: nat) {
    cs == [] || (cs[0].buf == buf && Packed(cs[1..], buf + cs[0].len))
  }

  /** Each piece starts in the file where the one before it ended. */
  ghost predicate Abut(cs: seq<Chunk>, off: nat) {
    cs == [] || (cs[0].off == off && Abut(cs[1..], off + cs[0].len))
  }

  ghost predicate InFile(cs: seq<Chunk>, fileSize: nat) {
    forall k :: 0 <= k < |cs| ==> cs[k].off + cs[k].len <= fileSize
  }

  ghost predicate Sized(cs: seq<Chunk>, chunkSize: nat) {
    forall k :: 0 <= k < |cs| ==> 1 <= cs[k].len <= chunkSize
  }

  /** Every piece ends inside a buffer of `size` bytes. */
  ghost predicate InBuffer(cs: seq<Chunk>, size: nat) {
    forall k :: 0 <= k < |cs| ==> cs[k].buf + cs[k].len <= size
  }

  lemma PrefixAtMost(cs: seq<Chunk>, k: nat)
    requires k < |cs|
    ensures TotalLen(cs[..k]) + cs[k].len <= TotalLen(cs)
  {
    TotalAppend(cs[..k], cs[k..]);
    assert cs == cs[..k] + cs[k..];
  }

  /** The k-th piece starts where all the pieces before it end. */
  lemma {:induction false} PackedAt(cs: seq<Chunk>, buf: nat, k: nat)
    requires Packed(cs, buf) && k < |cs|
    ensures cs[k].buf == buf + TotalLen(cs[..k])
    decreases k
  {
    if k > 0 {
      PackedAt(cs[1..], buf + cs[0].len, k - 1);
      assert cs[..k][1..] == cs[1..][..k - 1];
    }
  }

  lemma {:induction false} AbutAppend(a: seq<Chunk>, b: seq<Chunk>, off: nat)
    requires Abut(a, off) && Abut(b, off + TotalLen(a))
    ensures Abut(a + b, off)
    decreases |a|
  {
    if a == [] {
      assert a + b == b;
    } else {
      AbutAppend(a[1..], b, off + a[0].len);
      assert (a + b)[1..] == a[1..] + b;
    }
  }

  lemma ConsSpread(c: Chunk, rest: seq<Chunk>, fileSize: nat, chunkSize: nat)
    requires InFile(rest, fileSize) && Sized(rest, chunkSize)
    requires c.off + c.len <= fileSize && 1 <= c.len <= chunkSize
    ensures InFile([c] + rest, fileSize) && Sized([c] + rest, chunkSize)
  {
  }

  /** The first piece of a vector read, and the rest. */
  lemma VectorFirst(o: Options, fileSize: nat, draws: seq<nat>, i: nat, left: nat, off: nat,
                    buf: nat) returns (c: Chunk)
    requires i < o.vectorChunks && left > 0
    ensures var len := Min(o.chunkSize, left);
            && c.len == len && c.buf == buf
            && c.off == (if o.randomOffset then SampleOffset(DrawAt(draws, i), fileSize, len) else off)
            && VectorChunks(o, fileSize, draws, i, left, off, buf)
               == [c] + VectorChunks(o, fileSize, draws, i + 1, left - len, off + len, buf + len)
  {
    hide SampleOffset;
    c := VectorChunks(o, fileSize, draws, i, left, off, buf)[0];
  }

  lemma NoChunks(o: Options, fileSize: nat, draws: seq<nat>, i: nat, left: nat, off: nat, buf: nat)
    requires i >= o.vectorChunks || left == 0
    ensures VectorChunks(o, fileSize, draws, i, left, off, buf) == []
    ensures InFile([], fileSize) && Sized([], o.chunkSize)
  {
  }

  lemma {:induction false} VectorLayout(o: Options, fileSize: nat, draws: seq<nat>, i: nat, left: nat, off: nat,
                                        buf: nat)
    requires i <= o.vectorChunks && o.chunkSize >= 1
    requires left <= fileSize
    requires !o.randomOffset ==> off + left <= fileSize
    ensures var cs := VectorChunks(o, fileSize, draws, i, left, off, buf);
            && Sized(cs, o.chunkSize) && Packed(cs, buf) && InFile(cs, fileSize)
            && (!o.randomOffset ==> Abut(cs, off))
    decreases o.vectorChunks - i
  {
    hide VectorChunks, SampleOffset, InFile, Sized;
    if i < o.vectorChunks && left > 0 {
      var len := Min(o.chunkSize, left);
      var rest := VectorChunks(o, fileSize, draws, i + 1, left - len, off + len, buf + len);
      VectorLayout(o, fileSize, draws, i + 1, left - len, off + len, buf + len);
      SampleInFile(DrawAt(draws, i), fileSize, len);
      var c := VectorFirst(o, fileSize, draws, i, left, off, buf);
      ConsSpread(c, rest, fileSize, o.chunkSize);
      assert ([c] + rest)[1..] == rest;
    } else {
      NoChunks(o, fileSize, draws, i, left, off, buf);
    }
  }

  lemma SampleInFile(draw: nat, fileSize: nat, len: nat)
    requires len <= fileSize
    ensures SampleOffset(draw, fileSize, len) + len <= fileSize
  {
  }

  /** The layout of any read the session builds: pieces within the chunk size,
      one after the other in the buffer, inside the file, and for sequential
      reads one after the other in the file. */
  lemma ReadLayout(s: Session, draws: seq<nat>)
    requires s.opts.chunkSize >= 1 && 0 < s.remaining <= s.fileSize
    requires !s.opts.randomOffset ==> s.nextOffset + s.remaining <= s.fileSize
    ensures var cs := ReadList(s, draws);
            && Sized(cs, s.opts.chunkSize) && Packed(cs, 0) && InFile(cs, s.fileSize)
            && (!s.opts.randomOffset ==> Abut(cs, s.nextOffset))
  {
    if s.opts.vectorChunks > 0 {
      VectorLayout(s.opts, s.fileSize, draws, 0, s.remaining, s.nextOffset, 0);
    } else {
      var cs := ReadList(s, draws);
      assert cs[1..] == [];
      SampleInFile(DrawAt(draws, 0), s.fileSize, Min(s.opts.chunkSize, s.remaining));
    }
  }

  // ---------------------------------------------------------------- any offset can be drawn

  /** Every piece that fits the file can be drawn. */
  lemma EveryOffsetIsDrawn(fileSize: nat, len: nat, off: nat)
    requires len > 0 && off + len <= fileSize
    ensures SampleOffset(off, fileSize, len) == off
  {
  }

  lemma {:induction false} VectorDraws(o: Options, fileSize: nat, draws: seq<nat>, i: nat, left: nat, off: nat,
                                       buf: nat, j: nat)
    requires o.randomOffset && o.chunkSize >= 1 && i <= o.vectorChunks
    requires j < |VectorChunks(o, fileSize, draws, i, left, off, buf)| && i + j < |draws|
    requires draws[i + j] + VectorChunks(o, fileSize, draws, i, left, off, buf)[j].len <= fileSize
    ensures VectorChunks(o, fileSize, draws, i, left, off, buf)[j].off == draws[i + j]
    decreases j
  {
    hide VectorChunks, SampleOffset;
    if i < o.vectorChunks && left > 0 {
      var len := Min(o.chunkSize, left);
      var c := VectorFirst(o, fileSize, draws, i, left, off, buf);
      if j == 0 {
        EveryOffsetIsDrawn(fileSize, len, draws[i]);
      } else {
        VectorDraws(o, fileSize, draws, i + 1, left - len, off + len, buf + len, j - 1);
      }
    } else {
      NoChunks(o, fileSize, draws, i, left, off, buf);
    }
  }

  /** The draws decide about each piece of a random read on its own, and can put
      it anywhere in the file. */
  lemma EveryReadIsDrawn(s: Session, draws: seq<nat>, j: nat)
    requires s.opts.randomOffset && s.opts.chunkSize >= 1 && s.remaining > 0
    requires j < |ReadList(s, draws)| && j < |draws| && draws[j] + ReadList(s, draws)[j].len <= s.fileSize
    ensures ReadList(s, draws)[j].off == draws[j]
  {
    hide VectorChunks, SampleOffset;
    if s.opts.vectorChunks > 0 {
      VectorDraws(s.opts, s.fileSize, draws, 0, s.remaining, s.nextOffset, 0, j);
    } else {
      EveryOffsetIsDrawn(s.fileSize, Min(s.opts.chunkSize, s.remaining), draws[0]);
    }
  }

  /** The slices of a packed list are disjoint. */
  lemma SlicesDisjoint(cs: seq<Chunk>, buf: nat, j: nat, k: nat)
    requires Packed(cs, buf) && j < k < |cs|
    ensures cs[j].buf + cs[j].len <= cs[k].buf
  {
    PackedAt(cs, buf, j);
    PackedAt(cs, buf, k);
    assert cs[..k][..j] == cs[..j];
    PrefixAtMost(cs[..k], j);
  }

  /** In a packed list every slice ends by the total, and the last one exactly there. */
  lemma SlicesEnd(cs: seq<Chunk>)
    requires Packed(cs, 0) && cs != []
    ensures forall k :: 0 <= k < |cs| ==> cs[k].buf + cs[k].len <= TotalLen(cs)
    ensures cs[|cs| - 1].buf + cs[|cs| - 1].len == TotalLen(cs)
  {
    forall k | 0 <= k < |cs|
      ensures cs[k].buf + cs[k].len <= TotalLen(cs)
    {
      PackedAt(cs, 0, k);
      PrefixAtMost(cs, k);
    }
    var last := |cs| - 1;
    PackedAt(cs, 0, last);
    TotalAppend(cs[..last], cs[last..]);
    assert cs == cs[..last] + cs[last..];
    assert cs[last..][1..] == [];
  }

  /** Every slice of a read lies in the buffer the session allocated if and only
      if the 32-bit product covers the read. */
  lemma SlicesInBuffer(s: Session, draws: seq<nat>)
    requires s.opts.chunkSize >= 1 && 0 < s.remaining <= s.fileSize
    requires !s.opts.randomOffset ==> s.nextOffset + s.remaining <= s.fileSize
    ensures InBuffer(ReadList(s, draws), OpBytes(s.opts))
       <==> (FullOpBytes(s.opts) == OpBytes(s.opts) || s.remaining <= OpBytes(s.opts))
  {
    ReadLayout(s, draws);
    ReadTotal(s, draws);
    SlicesEnd(ReadList(s, draws));
    if s.opts.vectorChunks > 0 {
      ModuloAtMost(s.opts.chunkSize * s.opts.vectorChunks, WORD32);
    }
    hide ReadList, TotalLen, Packed, Abut;
  }
}
