/**
  The context size asked for on each call: coarse buckets that only ever grow, so the
  model server reloads rarely.
 */
module ContextAllocator {
  import opened Basics

  const BUCKETS: seq<nat> := [8192, 16384, 32768, 49152, 65536]

  /** The first bucket that holds `needed`, capped by the ceiling; the ceiling if none does. */
  function BucketFor(buckets: seq<nat>, needed: nat, ceiling: nat): nat {
    if buckets == [] then ceiling
    else if buckets[0] >= needed then Min(buckets[0], ceiling)
    else BucketFor(buckets[1..], needed, ceiling)
  }

  function Allocate(floor: nat, needed: nat, ceiling: nat): nat {
    Max(BucketFor(BUCKETS, needed, ceiling), floor)
  }

  class Allocator {
    var floor: nat

    constructor ()
      ensures floor == 0
    {
      floor := 0;
    }

    method AllocatedNumCtx(needed: nat, ceiling: nat) returns (chosen: nat)
      modifies this
      ensures chosen == floor == Allocate(old(floor), needed, ceiling)
    {
      chosen := ceiling;
      var i := 0;
      while i < |BUCKETS|
        invariant 0 <= i <= |BUCKETS| && chosen == ceiling
        invariant BucketFor(BUCKETS[i..], needed, ceiling) == BucketFor(BUCKETS, needed, ceiling)
      {
        assert BUCKETS[i..][1..] == BUCKETS[i + 1..];
        if BUCKETS[i] >= needed {
          chosen := Min(BUCKETS[i], ceiling);
          break;
        }
        i := i + 1;
      }
      chosen := Max(chosen, floor);
      floor := chosen;
    }
  }

  // ---- runs at one ceiling --------------------------------------------------------------------

  /** The sizes asked for over a run of calls, from a fresh allocator. */
  function Sizes(needs: seq<nat>, ceiling: nat): seq<nat> {
    if needs == [] then []
    else
      var init := Sizes(needs[..|needs| - 1], ceiling);
      init + [Allocate(if init == [] then 0 else init[|init| - 1], needs[|needs| - 1], ceiling)]
  }

  /** How often the size differs from the one before. */
  function Changes(sizes: seq<nat>): nat {
    if |sizes| < 2 then 0
    else Changes(sizes[..|sizes| - 1]) + if sizes[|sizes| - 1] != sizes[|sizes| - 2] then 1 else 0
  }

  function BucketsBelow(buckets: seq<nat>, bound: nat): nat {
    if buckets == [] then 0
    else BucketsBelow(buckets[..|buckets| - 1], bound) + if buckets[|buckets| - 1] < bound then 1 else 0
  }

  lemma {:induction false} BucketForCovers(buckets: seq<nat>, needed: nat, ceiling: nat)
    ensures
      var c := BucketFor(buckets, needed, ceiling);
      c <= ceiling && (c == ceiling || (c in buckets && c >= needed))
  {
    if buckets != [] && buckets[0] < needed {
      BucketForCovers(buckets[1..], needed, ceiling);
    }
  }

  /** No larger bucket than the first that holds the need. */
  lemma {:induction false} BucketForLeast(buckets: seq<nat>, needed: nat, ceiling: nat, b: nat)
    requires forall i, j :: 0 <= i < j < |buckets| ==> buckets[i] < buckets[j]
    requires b in buckets && needed <= b
    ensures BucketFor(buckets, needed, ceiling) <= b
  {
    if buckets[0] < needed {
      BucketForLeast(buckets[1..], needed, ceiling, b);
    }
  }

  lemma {:induction false} SizesLength(needs: seq<nat>, ceiling: nat)
    ensures |Sizes(needs, ceiling)| == |needs|
  {
    if needs != [] {
      SizesLength(needs[..|needs| - 1], ceiling);
    }
  }

  /**
    Never above the ceiling, covering the need unless at the ceiling, always a bucket or the
    ceiling, never shrinking.
   */
  lemma {:induction false} SizesSound(needs: seq<nat>, ceiling: nat, k: nat)
    requires k < |needs|
    ensures |Sizes(needs, ceiling)| == |needs|
    ensures
      var s := Sizes(needs, ceiling)[k];
      && s <= ceiling && (s == ceiling || s >= needs[k]) && (s == ceiling || s in BUCKETS)
      && (k > 0 ==> Sizes(needs, ceiling)[k - 1] <= s)
  {
    var init := Sizes(needs[..|needs| - 1], ceiling);
    SizesLength(needs, ceiling);
    SizesLength(needs[..|needs| - 1], ceiling);
    if k < |needs| - 1 {
      SizesSound(needs[..|needs| - 1], ceiling, k);
    } else {
      hide *;
      LastSize(needs, ceiling);
    }
  }

  lemma {:induction false} LastSize(needs: seq<nat>, ceiling: nat)
    requires needs != []
    ensures |Sizes(needs, ceiling)| == |needs|
    ensures
      var k := |needs| - 1;
      var s := Sizes(needs, ceiling)[k];
      && s <= ceiling && (s == ceiling || s >= needs[k]) && (s == ceiling || s in BUCKETS)
      && (k > 0 ==> Sizes(needs, ceiling)[k - 1] <= s)
    decreases |needs|
  {
    var k := |needs| - 1;
    SizesLength(needs, ceiling);
    SizesLength(needs[..k], ceiling);
    BucketForCovers(BUCKETS, needs[k], ceiling);
    if k > 0 {
      LastSize(needs[..k], ceiling);
    }
  }

  /** No size is larger than a bucket that would have held every need so far. */
  lemma {:induction false} SizesLeast(needs: seq<nat>, ceiling: nat, k: nat, b: nat)
    requires k < |needs| && b in BUCKETS && forall j :: 0 <= j <= k ==> needs[j] <= b
    ensures |Sizes(needs, ceiling)| == |needs| && Sizes(needs, ceiling)[k] <= b
    decreases |needs|
  {
    SizesLength(needs, ceiling);
    var init := needs[..|needs| - 1];
    SizesLength(init, ceiling);
    if k < |needs| - 1 {
      SizesLeast(init, ceiling, k, b);
    } else {
      BucketForLeast(BUCKETS, needs[k], ceiling, b);
      if k > 0 {
        SizesLeast(init, ceiling, k - 1, b);
      }
    }
  }

  lemma {:induction false} BucketsBelowMonotone(buckets: seq<nat>, a: nat, b: nat)
    requires a <= b
    ensures BucketsBelow(buckets, a) <= BucketsBelow(buckets, b)
    ensures a < b && a in buckets ==> BucketsBelow(buckets, a) < BucketsBelow(buckets, b)
  {
    if buckets != [] {
      BucketsBelowMonotone(buckets[..|buckets| - 1], a, b);
      assert buckets == buckets[..|buckets| - 1] + [buckets[|buckets| - 1]];
    }
  }

  /** Every change uses up a bucket below the ceiling for good. */
  lemma {:induction false} ChangesBounded(needs: seq<nat>, ceiling: nat)
    requires needs != []
    ensures |Sizes(needs, ceiling)| == |needs|
    ensures Changes(Sizes(needs, ceiling)) <= BucketsBelow(BUCKETS, Sizes(needs, ceiling)[|needs| - 1])
    ensures Changes(Sizes(needs, ceiling)) <= BucketsBelow(BUCKETS, ceiling)
    decreases |needs|
  {
    hide *;
    var k := |needs| - 1;
    LastSize(needs, ceiling);
    var sizes := Sizes(needs, ceiling);
    BucketsBelowMonotone(BUCKETS, sizes[k], ceiling);
    ChangesStep(needs, ceiling);
    if k > 0 {
      ChangesBounded(needs[..k], ceiling);
      LastSize(needs[..k], ceiling);
      BucketsBelowMonotone(BUCKETS, sizes[k - 1], sizes[k]);
    }
  }

  lemma ChangesStep(needs: seq<nat>, ceiling: nat)
    requires needs != [] && |Sizes(needs, ceiling)| == |needs|
    ensures |needs| == 1 ==> Changes(Sizes(needs, ceiling)) == 0
    ensures |needs| > 1 ==>
              && |Sizes(needs[..|needs| - 1], ceiling)| == |needs| - 1
              && Sizes(needs, ceiling)[|needs| - 2] == Sizes(needs[..|needs| - 1], ceiling)[|needs| - 2]
              && Changes(Sizes(needs, ceiling))
                 == Changes(Sizes(needs[..|needs| - 1], ceiling))
                    + if Sizes(needs, ceiling)[|needs| - 1] != Sizes(needs, ceiling)[|needs| - 2] then 1 else 0
  {
    var init := Sizes(needs[..|needs| - 1], ceiling);
    SizesLength(needs[..|needs| - 1], ceiling);
    assert Sizes(needs, ceiling)[..|needs| - 1] == init;
  }

  /** In numbers: 8192, or else the next multiple of 16384 up to four of them, and never more than the ceiling. */
  lemma BucketsRound(needed: nat, ceiling: nat)
    ensures needed <= 8192 ==> Allocate(0, needed, ceiling) == Min(8192, ceiling)
    ensures 8192 < needed <= 65536 ==>
              Allocate(0, needed, ceiling) == Min((needed + 16383) / 16384 * 16384, ceiling)
    ensures needed > 65536 ==> Allocate(0, needed, ceiling) == ceiling
  {
    hide BucketFor;
    NoBucket(needed, ceiling);
    var last: seq<nat> := [65536];
    FirstBucket([], 65536, needed, ceiling);
    FirstBucket(last, 49152, needed, ceiling);
    FirstBucket([49152] + last, 32768, needed, ceiling);
    FirstBucket([32768] + ([49152] + last), 16384, needed, ceiling);
    FirstBucket([16384] + ([32768] + ([49152] + last)), 8192, needed, ceiling);
    assert BUCKETS == [8192] + ([16384] + ([32768] + ([49152] + last)));
    assert [65536] + [] == last;
  }

  lemma NoBucket(needed: nat, ceiling: nat)
    ensures BucketFor([], needed, ceiling) == ceiling
  {
  }

  lemma FirstBucket(buckets: seq<nat>, b: nat, needed: nat, ceiling: nat)
    ensures BucketFor([b] + buckets, needed, ceiling)
         == if needed <= b then Min(b, ceiling) else BucketFor(buckets, needed, ceiling)
  {
    assert ([b] + buckets)[1..] == buckets;
  }

  /** Why the ceiling must not drop: a size is within the ceiling exactly when the floor already was. */
  lemma WithinCeilingExactly(floor: nat, needed: nat, ceiling: nat)
    ensures Allocate(floor, needed, ceiling) <= ceiling <==> floor <= ceiling
  {
    BucketForCovers(BUCKETS, needed, ceiling);
  }
}
