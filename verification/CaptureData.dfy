/** What queueing items means for the file: a chain of items extends the stream, the image and the layout. */
module CaptureData {
  import opened Media
  import opened EngineModel
  import opened EngineSafety
  import opened WriteQueue
  import opened Capture
  import opened CaptureInvariant

  lemma {:induction false} SectorsAppend(a: seq<Item>, b: seq<Item>)
    ensures SumSectors(a + b) == SumSectors(a) + SumSectors(b)
    decreases |b|
  {
    if b == [] {
      assert a + b == a;
    } else {
      assert (a + b)[..|a + b| - 1] == a + b[..|b| - 1];
      SectorsAppend(a, b[..|b| - 1]);
    }
  }

  lemma PrefixSums(items: seq<Item>, k: nat)
    requires k < |items|
    ensures SumSectors(items[..k + 1]) == SumSectors(items[..k]) + items[k].sectors
    ensures SumBytes(items[..k + 1]) == SumBytes(items[..k]) + items[k].bytes
  {
    assert items[..k + 1][..k] == items[..k];
  }

  lemma {:induction false} PrefixGrows(items: seq<Item>, j: nat, k: nat)
    requires j <= k <= |items|
    ensures SumSectors(items[..j]) <= SumSectors(items[..k])
    decreases k - j
  {
    if j < k {
      PrefixGrows(items, j, k - 1);
      PrefixSums(items, k - 1);
    }
  }

  lemma {:induction false} BytesFillSectors(geo: Geometry, n: nat, items: seq<Item>)
    requires AllGood(geo, n, items)
    ensures SumBytes(items) == SumSectors(items) * SECTOR_BYTES
    decreases |items|
  {
    if items != [] { BytesFillSectors(geo, n, items[..|items| - 1]); }
  }

  /** The items of a chain lie one behind the other. */
  lemma ChainApart(items: seq<Item>, lba: nat, offset: nat)
    requires Chained(items, lba, offset)
    ensures Apart(items) && Within(items, lba, lba + SumSectors(items))
  {
    forall j, k | 0 <= j < k < |items|
      ensures LbasApart(ReqOf(items[j]), ReqOf(items[k]))
    {
      PrefixSums(items, j);
      PrefixGrows(items, j + 1, k);
    }
    forall k | 0 <= k < |items|
      ensures lba <= items[k].startLba && items[k].startLba + items[k].sectors <= lba + SumSectors(items)
    {
      PrefixSums(items, k);
      PrefixGrows(items, k + 1, |items|);
      assert items[..|items|] == items;
    }
  }

  lemma ChainAppend(a: seq<Item>, b: seq<Item>, lba: nat, offset: nat)
    requires Chained(a, lba, offset) && Chained(b, lba + SumSectors(a), offset + SumBytes(a))
    ensures Chained(a + b, lba, offset)
  {
    var all := a + b;
    forall k | 0 <= k < |all|
      ensures all[k].startLba == lba + SumSectors(all[..k]) && all[k].fileOffset == offset + SumBytes(all[..k])
    {
      if k < |a| {
        assert all[..k] == a[..k];
      } else {
        assert all[..k] == a + b[..k - |a|];
        SectorsAppend(a, b[..k - |a|]);
        SumAppend(a, b[..k - |a|]);
      }
    }
  }

  lemma ApartAppend(a: seq<Item>, b: seq<Item>, low: nat, mid: nat, high: nat)
    requires Apart(a) && Apart(b) && Within(a, low, mid) && Within(b, mid, high) && low <= mid <= high
    ensures Apart(a + b) && Within(a + b, low, high)
  {
  }

  // ---- The image ----

  /** What copying a chain leaves at an LBA of one of its items. */
  lemma {:induction false} DiskAfterAt(image: Disk, ddr: Ddr, items: seq<Item>, l: nat)
    requires Apart(items)
    ensures forall k :: 0 <= k < |items| && InSlot(ReqOf(items[k]), l) ==>
              DiskAfter(image, ddr, items)(l) == SlotSector(ddr, ReqOf(items[k]), l)
    ensures !InItems(items, l) ==> DiskAfter(image, ddr, items)(l) == image(l)
    decreases |items|
  {
    if items != [] {
      var rest, it := items[..|items| - 1], items[|items| - 1];
      DiskAfterAt(image, ddr, rest, l);
      CopyIsSlot(DiskAfter(image, ddr, rest), ddr, ReqOf(it), l);
      forall k | 0 <= k < |items| && InSlot(ReqOf(items[k]), l)
        ensures DiskAfter(image, ddr, items)(l) == SlotSector(ddr, ReqOf(items[k]), l)
      {
        if k < |rest| { assert rest[k] == items[k] && LbasApart(ReqOf(items[k]), ReqOf(it)); }
      }
      assert InItems(rest, l) ==> InItems(items, l) by { InItemsPrefix(items, |rest|, l); }
      assert InSlot(ReqOf(it), l) ==> InItems(items, l);
    }
  }

  lemma InItemsPrefix(items: seq<Item>, n: nat, l: nat)
    requires n <= |items|
    ensures InItems(items[..n], l) ==> InItems(items, l)
  {
    if InItems(items[..n], l) {
      var k :| 0 <= k < n && InSlot(ReqOf(items[..n][k]), l);
      assert items[k] == items[..n][k];
    }
  }

  lemma InItemsAppend(a: seq<Item>, b: seq<Item>, l: nat)
    ensures InItems(a + b, l) <==> InItems(a, l) || InItems(b, l)
  {
    if InItems(a, l) { var k :| 0 <= k < |a| && InSlot(ReqOf(a[k]), l); assert (a + b)[k] == a[k]; }
    if InItems(b, l) { var k :| 0 <= k < |b| && InSlot(ReqOf(b[k]), l); assert (a + b)[|a| + k] == b[k]; }
    if InItems(a + b, l) {
      var k :| 0 <= k < |a + b| && InSlot(ReqOf((a + b)[k]), l);
      if k < |a| { assert a[k] == (a + b)[k]; } else { assert b[k - |a|] == (a + b)[k]; }
    }
  }

  lemma InItemsWithin(items: seq<Item>, low: nat, high: nat, l: nat)
    requires Within(items, low, high) && InItems(items, l)
    ensures low <= l < high
  {
  }

  /** Queueing a chain behind everything queued so far. */
  lemma ImageMore(image: Disk, ref: Disk, ddr: Ddr, waiting: seq<Item>, items: seq<Item>, low: nat, mid: nat, high: nat)
    requires ImageOk(image, ref, ddr, waiting) && Apart(items) && Within(waiting, low, mid) && Within(items, mid, high)
    ensures ImageOk(DiskAfter(image, ddr, items), ref, ddr, waiting + items)
  {
    var image' := DiskAfter(image, ddr, items);
    forall k | 0 <= k < |waiting + items|
      ensures HoldsSlot(image', ddr, ReqOf((waiting + items)[k]))
    {
      var it := (waiting + items)[k];
      forall l: nat | InSlot(ReqOf(it), l)
        ensures image'(l) == SlotSector(ddr, ReqOf(it), l)
      {
        DiskAfterAt(image, ddr, items, l);
        if k < |waiting| {
          assert waiting[k] == it && HoldsSlot(image, ddr, ReqOf(it));
          if InItems(items, l) { InItemsWithin(items, mid, high, l); }
        } else {
          assert items[k - |waiting|] == it;
        }
      }
    }
    forall l: nat
      ensures InItems(waiting + items, l) || image'(l) == ref(l)
    {
      InItemsAppend(waiting, items, l);
      DiskAfterAt(image, ddr, items, l);
    }
  }

  // ---- The stream ----

  lemma SectorBounds(s: nat, sectors: nat)
    requires s < sectors
    ensures (s + 1) * SECTOR_BYTES <= sectors * SECTOR_BYTES
  {
  }

  lemma OldSector(stream: seq<Byte>, data: seq<Byte>, s: nat)
    requires (s + 1) * SECTOR_BYTES <= |stream|
    ensures FileSector(stream + data, s) == FileSector(stream, s)
  {
  }

  lemma NewSector(stream: seq<Byte>, ddr: Ddr, it: Item, m: nat, d: nat)
    requires |stream| == m * SECTOR_BYTES && it.bytes == it.sectors * SECTOR_BYTES && d < it.sectors
    ensures (m + d + 1) * SECTOR_BYTES <= |stream + ItemBytes(ddr, it)|
    ensures FileSector(stream + ItemBytes(ddr, it), m + d) == SectorAt(ddr, it.hwAddr + d * SECTOR_BYTES)
  {
    var all := stream + ItemBytes(ddr, it);
    var x, y := FileSector(all, m + d), SectorAt(ddr, it.hwAddr + d * SECTOR_BYTES);
    forall i | 0 <= i < SECTOR_BYTES
      ensures x[i] == y[i]
    {
      assert x[i] == all[(m + d) * SECTOR_BYTES + i] == ItemBytes(ddr, it)[d * SECTOR_BYTES + i];
    }
  }

  lemma FileMore(before: Disk, image: Disk, stream: seq<Byte>, start: nat, m: nat, ddr: Ddr, it: Item)
    requires FileOk(before, image, stream, start, m)
    requires it.startLba == start + m && it.bytes == it.sectors * SECTOR_BYTES
    ensures FileOk(before, CopySectors(image, it.startLba, it.sectors, ddr, it.hwAddr),
                   stream + ItemBytes(ddr, it), start, m + it.sectors)
  {
    var image', stream' := CopySectors(image, it.startLba, it.sectors, ddr, it.hwAddr), stream + ItemBytes(ddr, it);
    forall s: nat | s < m + it.sectors
      ensures image'(start + s) == FileSector(stream', s)
    {
      CopySectorsAt(image, it.startLba, it.sectors, ddr, it.hwAddr, start + s);
      if s < m {
        SectorBounds(s, m);
        OldSector(stream, ItemBytes(ddr, it), s);
      } else {
        NewSector(stream, ddr, it, m, s - m);
      }
    }
    forall l: nat | l < start || start + m + it.sectors <= l
      ensures image'(l) == before(l)
    {
      CopySectorsAt(image, it.startLba, it.sectors, ddr, it.hwAddr, l);
    }
  }

  /** Queueing a chain of items at the end of the file. */
  lemma {:induction false} FileAfter(before: Disk, image: Disk, stream: seq<Byte>, start: nat, m: nat, ddr: Ddr,
                                     geo: Geometry, n: nat, items: seq<Item>, offset: nat)
    requires FileOk(before, image, stream, start, m)
    requires Chained(items, start + m, offset) && AllGood(geo, n, items)
    ensures FileOk(before, DiskAfter(image, ddr, items), StreamAfter(stream, ddr, items), start, m + SumSectors(items))
    decreases |items|
  {
    if items != [] {
      var rest, it := items[..|items| - 1], items[|items| - 1];
      assert Chained(rest, start + m, offset) by {
        forall k | 0 <= k < |rest| ensures rest[k] == items[k] && rest[..k] == items[..k] { }
      }
      FileAfter(before, image, stream, start, m, ddr, geo, n, rest, offset);
      FileMore(before, DiskAfter(image, ddr, rest), StreamAfter(stream, ddr, rest), start, m + SumSectors(rest), ddr, it);
    }
  }
}
