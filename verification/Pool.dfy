/**
  `PoolAllocator`: pools of a fixed number of elements, filled from the bottom.

  Addresses are element indices in an otherwise unknown memory; `operator new`
  is an oracle that yields the base of a fresh pool.  `num` is both the
  template argument and `pool_size`.
 */
module Pool {
  // `used` is `used_elements`
  datatype PoolData = PoolData(base: nat, used: int)
  datatype State = State(pools: seq<PoolData>, cur: nat)

  /** A block handed out and not yet returned. */
  datatype Block = Block(at: nat, n: nat)

  // ---------------------------------------------------------------- the operations on values

  predicate Within(num: nat, base: nat, at: int) {
    base <= at < base + num
  }

  predicate NeedsPool(num: nat, s: State, n: nat) {
    s.pools == [] || s.pools[|s.pools| - 1].used + n > num
  }

  function WithRoom(num: nat, s: State, n: nat, base: nat): (r: State)
    ensures r.pools != []
  {
    if NeedsPool(num, s, n) then State(s.pools + [PoolData(base, 0)], base) else s
  }

  /** `allocate`; the address is that of the block.  Not defined for n > num, which throws. */
  function Allocate(num: nat, s: State, n: nat, base: nat): (State, int) {
    var r := WithRoom(num, s, n, base);
    var last := r.pools[|r.pools| - 1];
    (State(r.pools[..|r.pools| - 1] + [PoolData(last.base, last.used + n)], r.cur), r.cur + (last.used + n) - n)
  }

  /** The loop of `deallocate`: every pool holding the address is debited, and the first to reach 0 is erased. */
  function Release(num: nat, pools: seq<PoolData>, at: int, n: nat): (seq<PoolData>, bool) {
    if pools == [] then ([], false)
    else if !Within(num, pools[0].base, at) then
      var (rest, erased) := Release(num, pools[1..], at, n);
      ([pools[0]] + rest, erased)
    else if pools[0].used - n == 0 then (pools[1..], true)
    else
      var (rest, erased) := Release(num, pools[1..], at, n);
      ([PoolData(pools[0].base, pools[0].used - n)] + rest, erased)
  }

  /** `deallocate` of a non-null address. */
  function Deallocate(num: nat, s: State, at: int, n: nat): State {
    if n == 0 then s else
    var (pools, erased) := Release(num, s.pools, at, n);
    State(pools, if erased && pools != [] then pools[|pools| - 1].base else s.cur)
  }

  // ---------------------------------------------------------------- the allocator object

  class PoolAllocator {
    const num: nat
    var pools: seq<PoolData>
    var cur: nat

    constructor (num: nat)
      ensures this.num == num && pools == [] && cur == 0
    {
      this.num := num;
      pools := [];
      cur := 0;
    }

    function Contents(): State reads this { State(pools, cur) }

    method AllocateNewPool(base: nat)
      modifies this
      ensures pools == old(pools) + [PoolData(base, 0)] && cur == base
    {
      pools := pools + [PoolData(base, 0)];
      cur := base;
    }

    /** `allocate`; `ok` is false where the source throws `bad_alloc`. */
    method Alloc(n: nat, base: nat) returns (ok: bool, at: int)
      modifies this
      ensures ok <==> n <= num
      ensures ok ==> (Contents(), at) == Allocate(num, old(Contents()), n, base)
      ensures !ok ==> Contents() == old(Contents())
    {
      if n > num { return false, 0; }
      if |pools| == 0 || pools[|pools| - 1].used + n > num {
        AllocateNewPool(base);
      }
      var last := pools[|pools| - 1];
      pools := pools[..|pools| - 1] + [PoolData(last.base, last.used + n)];
      at := cur + pools[|pools| - 1].used - n;
      ok := true;
    }

    method Free(at: int, n: nat)
      modifies this
      ensures Contents() == Deallocate(num, old(Contents()), at, n)
    {
      if n == 0 { return; }
      hide Pending, Release, Debit;
      var i := 0;
      ReleaseStart(num, pools, at, n);
      while i < |pools|
        invariant i <= |pools| && cur == old(cur)
        invariant Pending(num, pools, i, at, n) == Release(num, old(pools), at, n)
        decreases |pools| - i
      {
        ReleaseStep(num, pools, i, at, n);
        if pools[i].base <= at < pools[i].base + num {
          if pools[i].used - n == 0 {
            pools := pools[..i] + pools[i + 1..];
            if |pools| != 0 { cur := pools[|pools| - 1].base; }
            return;
          }
          pools := Debit(pools, i, n);
        }
        i := i + 1;
      }
      ReleaseEnd(num, pools, at, n);
    }
  }

  /** What `deallocate` ends with when its loop has got as far as pool i. */
  function Pending(num: nat, pools: seq<PoolData>, i: nat, at: int, n: nat): (seq<PoolData>, bool)
    requires i <= |pools|
  {
    var (rest, erased) := Release(num, pools[i..], at, n);
    (pools[..i] + rest, erased)
  }

  function Debit(pools: seq<PoolData>, i: nat, n: nat): (r: seq<PoolData>)
    requires i < |pools|
    ensures |r| == |pools|
  {
    pools[i := PoolData(pools[i].base, pools[i].used - n)]
  }

  lemma ReleaseStart(num: nat, pools: seq<PoolData>, at: int, n: nat)
    ensures Pending(num, pools, 0, at, n) == Release(num, pools, at, n)
  {
    assert pools[0..] == pools;
    assert pools[..0] + Release(num, pools, at, n).0 == Release(num, pools, at, n).0;
  }

  lemma ReleaseEnd(num: nat, pools: seq<PoolData>, at: int, n: nat)
    ensures Pending(num, pools, |pools|, at, n) == (pools, false)
  {
    assert pools[..|pools|] + [] == pools;
  }

  /** One turn of the loop of `deallocate`. */
  lemma ReleaseStep(num: nat, pools: seq<PoolData>, i: nat, at: int, n: nat)
    requires i < |pools|
    ensures !Within(num, pools[i].base, at) ==>
      Pending(num, pools, i, at, n) == Pending(num, pools, i + 1, at, n)
    ensures Within(num, pools[i].base, at) && pools[i].used == n ==>
      Pending(num, pools, i, at, n) == (pools[..i] + pools[i + 1..], true)
    ensures Within(num, pools[i].base, at) && pools[i].used != n ==>
      Pending(num, pools, i, at, n) == Pending(num, Debit(pools, i, n), i + 1, at, n)
  {
    var tail, p := pools[i..], pools[i];
    var rest := Release(num, pools[i + 1..], at, n).0;
    assert tail[0] == p && tail[1..] == pools[i + 1..];
    if !Within(num, p.base, at) {
      assert pools[..i + 1] == pools[..i] + [p];
      assert pools[..i] + ([p] + rest) == pools[..i] + [p] + rest;
    } else if p.used - n != 0 {
      var q := PoolData(p.base, p.used - n);
      var pools' := Debit(pools, i, n);
      assert pools'[..i + 1] == pools[..i] + [q] && pools'[i + 1..] == pools[i + 1..];
      assert pools[..i] + ([q] + rest) == pools[..i] + [q] + rest;
    }
  }

  // ---------------------------------------------------------------- conservation

  /** The elements live blocks occupy in the pool at base. */
  function SumIn(num: nat, live: seq<Block>, base: nat): nat {
    if live == [] then 0
    else SumIn(num, live[..|live| - 1], base)
         + if Within(num, base, live[|live| - 1].at) then live[|live| - 1].n else 0
  }

  predicate Apart(num: nat, a: nat, b: nat) {
    a + num <= b || b + num <= a
  }

  predicate FreshFor(num: nat, pools: seq<PoolData>, base: nat) {
    forall i :: 0 <= i < |pools| ==> Apart(num, pools[i].base, base)
  }

  predicate Holds(num: nat, p: PoolData, b: Block) {
    p.base <= b.at && b.at + b.n <= p.base + num
  }

  predicate Separate(num: nat, pools: seq<PoolData>) {
    forall i, j :: 0 <= i < j < |pools| ==> Apart(num, pools[i].base, pools[j].base)
  }

  /** Each pool's counter is the total size of the live blocks in it, and between 1 and num. */
  predicate Balanced(num: nat, pools: seq<PoolData>, live: seq<Block>) {
    forall i :: 0 <= i < |pools| ==> pools[i].used == SumIn(num, live, pools[i].base) && 1 <= pools[i].used <= num
  }

  predicate Housed(num: nat, pools: seq<PoolData>, live: seq<Block>) {
    forall b :: b in live ==> b.n >= 1 && exists i :: 0 <= i < |pools| && Holds(num, pools[i], b)
  }

  predicate CurrentIsLast(s: State) {
    s.pools != [] ==> s.cur == s.pools[|s.pools| - 1].base
  }

  predicate Conserved(num: nat, s: State, live: seq<Block>) {
    Separate(num, s.pools) && Balanced(num, s.pools, live) && Housed(num, s.pools, live) && CurrentIsLast(s)
  }

  lemma {:induction false} SumOutside(num: nat, live: seq<Block>, base: nat)
    requires forall b :: b in live ==> !Within(num, base, b.at)
    ensures SumIn(num, live, base) == 0
  {
    if live != [] {
      assert live[|live| - 1] in live;
      SumOutside(num, live[..|live| - 1], base);
    }
  }

  function Without(live: seq<Block>, k: nat): seq<Block>
    requires k < |live|
  {
    live[..k] + live[k + 1..]
  }

  lemma {:induction false} SumWithout(num: nat, live: seq<Block>, k: nat, base: nat)
    requires k < |live|
    ensures SumIn(num, live, base)
         == SumIn(num, Without(live, k), base) + if Within(num, base, live[k].at) then live[k].n else 0
  {
    var last := |live| - 1;
    if k == last {
      assert Without(live, k) == live[..last];
    } else {
      SumWithout(num, live[..last], k, base);
      assert Without(live, k)[..last - 1] == Without(live[..last], k);
      assert Without(live, k)[last - 1] == live[last];
    }
  }

  lemma {:induction false} SumPositive(num: nat, live: seq<Block>, base: nat, k: nat)
    requires k < |live| && Within(num, base, live[k].at)
    ensures SumIn(num, live, base) >= live[k].n
  {
    SumWithout(num, live, k, base);
  }

  lemma PoolOf(num: nat, pools: seq<PoolData>, live: seq<Block>, b: Block) returns (i: nat)
    requires Housed(num, pools, live) && Separate(num, pools) && b in live
    ensures i < |pools| && Holds(num, pools[i], b)
    ensures forall j :: 0 <= j < |pools| ==> (Within(num, pools[j].base, b.at) <==> j == i)
  {
    i :| 0 <= i < |pools| && Holds(num, pools[i], b);
    forall j | 0 <= j < |pools| && j != i ensures !Within(num, pools[j].base, b.at) {
      assert Apart(num, pools[if i < j then i else j].base, pools[if i < j then j else i].base);
    }
  }

  lemma {:induction false} ReleaseMisses(num: nat, pools: seq<PoolData>, at: int, n: nat)
    requires forall j :: 0 <= j < |pools| ==> !Within(num, pools[j].base, at)
    ensures Release(num, pools, at, n) == (pools, false)
  {
    if pools != [] {
      ReleaseMisses(num, pools[1..], at, n);
      assert [pools[0]] + pools[1..] == pools;
    }
  }

  /** With separate pools, `deallocate` debits or erases the one pool that holds the address. */
  lemma {:induction false} ReleaseAt(num: nat, pools: seq<PoolData>, at: int, n: nat, i: nat)
    requires i < |pools|
    requires forall j :: 0 <= j < |pools| ==> (Within(num, pools[j].base, at) <==> j == i)
    ensures Release(num, pools, at, n)
      == if pools[i].used - n == 0 then (pools[..i] + pools[i + 1..], true)
         else (pools[i := PoolData(pools[i].base, pools[i].used - n)], false)
  {
    hide Release, Pending, Within;
    ReleaseStart(num, pools, at, n);
    for j := 0 to i
      invariant Pending(num, pools, j, at, n) == Release(num, pools, at, n)
    {
      ReleaseStep(num, pools, j, at, n);
    }
    ReleaseStep(num, pools, i, at, n);
    if pools[i].used - n != 0 {
      var pools' := pools[i := PoolData(pools[i].base, pools[i].used - n)];
      MissesFrom(num, pools', i + 1, at, n);
    }
  }

  lemma MissesFrom(num: nat, pools: seq<PoolData>, i: nat, at: int, n: nat)
    requires i <= |pools|
    requires forall j :: i <= j < |pools| ==> !Within(num, pools[j].base, at)
    ensures Pending(num, pools, i, at, n) == (pools, false)
  {
    var tail := pools[i..];
    forall j | 0 <= j < |tail| ensures !Within(num, tail[j].base, at) {
      assert tail[j] == pools[i + j];
    }
    ReleaseMisses(num, tail, at, n);
    assert pools[..i] + pools[i..] == pools;
  }

  lemma HousedAvoidsFresh(num: nat, pools: seq<PoolData>, live: seq<Block>, base: nat)
    requires Housed(num, pools, live) && FreshFor(num, pools, base)
    ensures SumIn(num, live, base) == 0
    ensures forall b :: b in live ==> !Within(num, base, b.at)
  {
    forall b | b in live ensures !Within(num, base, b.at) {
      var i :| 0 <= i < |pools| && Holds(num, pools[i], b);
      assert Apart(num, pools[i].base, base);
    }
    SumOutside(num, live, base);
  }

  /** Before the counter is raised: the last pool has room, and its counter may still be 0. */
  predicate Roomy(num: nat, s: State, live: seq<Block>, n: nat) {
    && s.pools != [] && CurrentIsLast(s) && Separate(num, s.pools) && Housed(num, s.pools, live)
    && Balanced(num, s.pools[..|s.pools| - 1], live)
    && var last := s.pools[|s.pools| - 1];
    && last.used == SumIn(num, live, last.base) && last.used + n <= num
  }

  lemma RoomMade(num: nat, s: State, live: seq<Block>, n: nat, base: nat)
    requires Conserved(num, s, live) && n <= num
    requires NeedsPool(num, s, n) ==> FreshFor(num, s.pools, base)
    ensures Roomy(num, WithRoom(num, s, n, base), live, n)
  {
    var r := WithRoom(num, s, n, base);
    if NeedsPool(num, s, n) {
      HousedAvoidsFresh(num, s.pools, live, base);
      assert r.pools[..|s.pools|] == s.pools;
      forall b | b in live ensures exists i :: 0 <= i < |r.pools| && Holds(num, r.pools[i], b) {
        var i :| 0 <= i < |s.pools| && Holds(num, s.pools[i], b);
        assert Holds(num, r.pools[i], b);
      }
      forall i, j | 0 <= i < j < |r.pools| ensures Apart(num, r.pools[i].base, r.pools[j].base) {
        if j == |s.pools| { assert Apart(num, s.pools[i].base, base); }
      }
    }
  }

  /** Raising the counter of the last pool by the size of a block put at its old value. */
  function Raise(r: State, n: nat): State
    requires r.pools != []
  {
    var last := r.pools[|r.pools| - 1];
    State(r.pools[..|r.pools| - 1] + [PoolData(last.base, last.used + n)], r.cur)
  }

  lemma RaisedBalance(num: nat, r: State, live: seq<Block>, n: nat, b: Block)
    requires Roomy(num, r, live, n) && n >= 1 && b.n == n
    requires b.at == r.pools[|r.pools| - 1].base + r.pools[|r.pools| - 1].used
    ensures Balanced(num, Raise(r, n).pools, live + [b])
  {
    var pools', last := Raise(r, n).pools, |r.pools| - 1;
    assert (live + [b])[..|live|] == live;
    forall i | 0 <= i < |pools'|
      ensures pools'[i].used == SumIn(num, live + [b], pools'[i].base) && 1 <= pools'[i].used <= num
    {
      if i < last {
        assert pools'[i] == r.pools[..last][i];
        assert Apart(num, r.pools[i].base, r.pools[last].base);
      }
    }
  }

  lemma RaisedHousing(num: nat, r: State, live: seq<Block>, n: nat, b: Block)
    requires Roomy(num, r, live, n) && n >= 1 && b.n == n
    requires b.at == r.pools[|r.pools| - 1].base + r.pools[|r.pools| - 1].used
    ensures Housed(num, Raise(r, n).pools, live + [b]) && Separate(num, Raise(r, n).pools)
  {
    var pools' := Raise(r, n).pools;
    assert forall i :: 0 <= i < |r.pools| ==> pools'[i].base == r.pools[i].base;
    forall c | c in live + [b] ensures c.n >= 1 && exists i :: 0 <= i < |pools'| && Holds(num, pools'[i], c) {
      if c in live {
        var i :| 0 <= i < |r.pools| && Holds(num, r.pools[i], c);
        assert Holds(num, pools'[i], c);
      } else {
        assert Holds(num, pools'[|r.pools| - 1], c);
      }
    }
    forall i, j | 0 <= i < j < |pools'| ensures Apart(num, pools'[i].base, pools'[j].base) {
      assert Apart(num, r.pools[i].base, r.pools[j].base);
    }
  }

  lemma AllocConserves(num: nat, s: State, live: seq<Block>, n: nat, base: nat)
    requires Conserved(num, s, live) && 1 <= n <= num
    requires NeedsPool(num, s, n) ==> FreshFor(num, s.pools, base)
    ensures var (s', at) := Allocate(num, s, n, base);
      at >= 0 && Conserved(num, s', live + [Block(at, n)])
  {
    hide NeedsPool, WithRoom, Balanced, Housed, Separate;
    RoomMade(num, s, live, n, base);
    var r := WithRoom(num, s, n, base);
    var (s', at) := Allocate(num, s, n, base);
    var last := r.pools[|r.pools| - 1];
    assert s' == Raise(r, n) && at == last.base + last.used;
    assert last.used >= 0;
    RaisedBalance(num, r, live, n, Block(at, n));
    RaisedHousing(num, r, live, n, Block(at, n));
  }

  lemma WithoutMembers(live: seq<Block>, k: nat)
    requires k < |live|
    ensures |Without(live, k)| == |live| - 1 && forall b :: b in Without(live, k) ==> b in live
    ensures forall j :: 0 <= j < |live| - 1 ==> Without(live, k)[j] == live[if j < k then j else j + 1]
  {
  }

  /** The pool a live block is freed from, and the state that leaves. */
  lemma FreeShape(num: nat, s: State, live: seq<Block>, k: nat) returns (i: nat)
    requires Conserved(num, s, live) && k < |live|
    ensures i < |s.pools| && Holds(num, s.pools[i], live[k])
    ensures forall j :: 0 <= j < |s.pools| ==> (Within(num, s.pools[j].base, live[k].at) <==> j == i)
    ensures var s', n := Deallocate(num, s, live[k].at, live[k].n), live[k].n;
      if s.pools[i].used == n then s'.pools == s.pools[..i] + s.pools[i + 1..] && CurrentIsLast(s')
      else s' == State(s.pools[i := PoolData(s.pools[i].base, s.pools[i].used - n)], s.cur)
  {
    hide Release, Balanced, Within, Holds;
    assert live[k] in live;
    i := PoolOf(num, s.pools, live, live[k]);
    ReleaseAt(num, s.pools, live[k].at, live[k].n, i);
  }

  lemma FreeConserves(num: nat, s: State, live: seq<Block>, k: nat) returns (i: nat)
    requires Conserved(num, s, live) && k < |live|
    ensures i < |s.pools| && Holds(num, s.pools[i], live[k])
    ensures Conserved(num, Deallocate(num, s, live[k].at, live[k].n), Without(live, k))
  {
    hide Deallocate, SumIn, Without, Housed, Separate, Holds;
    i := FreeShape(num, s, live, k);
    var s' := Deallocate(num, s, live[k].at, live[k].n);
    forall j | 0 <= j < |s.pools|
      ensures SumIn(num, Without(live, k), s.pools[j].base) == s.pools[j].used - if j == i then live[k].n else 0
    {
      SumWithout(num, live, k, s.pools[j].base);
    }
    if s.pools[i].used == live[k].n {
      ErasedPool(num, s, live, k, i, s');
    } else {
      DebitedPool(num, s, live, k, i, s');
    }
  }

  lemma DebitedPool(num: nat, s: State, live: seq<Block>, k: nat, i: nat, s': State)
    requires Conserved(num, s, live) && k < |live| && i < |s.pools|
    requires forall j :: 0 <= j < |s.pools| ==>
      SumIn(num, Without(live, k), s.pools[j].base) == s.pools[j].used - if j == i then live[k].n else 0
    requires s.pools[i].used != live[k].n
    requires s' == State(s.pools[i := PoolData(s.pools[i].base, s.pools[i].used - live[k].n)], s.cur)
    ensures Conserved(num, s', Without(live, k))
  {
    WithoutMembers(live, k);
    assert live[k].n >= 1 by { assert live[k] in live; }
    forall j | 0 <= j < |s'.pools|
      ensures s'.pools[j].base == s.pools[j].base
      ensures s'.pools[j].used == SumIn(num, Without(live, k), s.pools[j].base) && 1 <= s'.pools[j].used <= num
    {
      assert 1 <= s.pools[j].used <= num;
    }
    forall j, m | 0 <= j < m < |s'.pools| ensures Apart(num, s'.pools[j].base, s'.pools[m].base) {
      assert Apart(num, s.pools[j].base, s.pools[m].base);
    }
    forall c | c in Without(live, k) ensures c.n >= 1 && exists j :: 0 <= j < |s'.pools| && Holds(num, s'.pools[j], c) {
      var j :| 0 <= j < |s.pools| && Holds(num, s.pools[j], c);
      assert Holds(num, s'.pools[j], c);
    }
  }

  lemma ErasedPool(num: nat, s: State, live: seq<Block>, k: nat, i: nat, s': State)
    requires Conserved(num, s, live) && k < |live| && i < |s.pools|
    requires forall j :: 0 <= j < |s.pools| ==>
      SumIn(num, Without(live, k), s.pools[j].base) == s.pools[j].used - if j == i then live[k].n else 0
    requires s.pools[i].used == live[k].n
    requires s'.pools == s.pools[..i] + s.pools[i + 1..] && CurrentIsLast(s')
    ensures Conserved(num, s', Without(live, k))
  {
    hide SumIn, Without, Housed, Apart;
    ErasedHousing(num, s.pools, live, k, i, s'.pools);
    assert forall j :: 0 <= j < |s'.pools| ==> s'.pools[j] == s.pools[if j < i then j else j + 1];
  }

  lemma ErasedHousing(num: nat, pools: seq<PoolData>, live: seq<Block>, k: nat, i: nat, pools': seq<PoolData>)
    requires Housed(num, pools, live) && k < |live| && i < |pools|
    requires SumIn(num, Without(live, k), pools[i].base) == 0
    requires pools' == pools[..i] + pools[i + 1..]
    ensures Housed(num, pools', Without(live, k))
  {
    WithoutMembers(live, k);
    var live' := Without(live, k);
    hide SumIn, Without;
    forall c | c in live' ensures c.n >= 1 && exists j :: 0 <= j < |pools'| && Holds(num, pools'[j], c) {
      var j :| 0 <= j < |pools| && Holds(num, pools[j], c);
      if j == i {
        SumMember(num, live', pools[i].base, c);
      }
      assert j != i;
      assert Holds(num, pools'[if j < i then j else j - 1], c);
    }
  }

  lemma SumMember(num: nat, live: seq<Block>, base: nat, c: Block)
    requires c in live && Within(num, base, c.at)
    ensures SumIn(num, live, base) >= c.n
  {
    var m :| 0 <= m < |live| && live[m] == c;
    SumPositive(num, live, base, m);
  }

  // ---------------------------------------------------------------- tiling

  /** If block k lies in the pool at base, it sits right on top of the earlier live blocks there. */
  predicate Sits(num: nat, live: seq<Block>, base: nat, k: nat)
    requires k < |live|
  {
    Within(num, base, live[k].at) ==> live[k].at == base + SumIn(num, live[..k], base)
  }

  predicate TiledOn(num: nat, live: seq<Block>, base: nat) {
    forall k :: 0 <= k < |live| ==> Sits(num, live, base, k)
  }

  predicate Tiled(num: nat, pools: seq<PoolData>, live: seq<Block>) {
    forall i :: 0 <= i < |pools| ==> TiledOn(num, live, pools[i].base)
  }

  predicate Overlap(a: Block, b: Block) {
    a.at < b.at + b.n && b.at < a.at + a.n
  }

  predicate NoOverlap(live: seq<Block>) {
    forall j, k :: 0 <= j < k < |live| ==> !Overlap(live[j], live[k])
  }

  lemma {:induction false} SumPrefix(num: nat, live: seq<Block>, j: nat, k: nat, base: nat)
    requires j < k <= |live|
    ensures SumIn(num, live[..j], base) + (if Within(num, base, live[j].at) then live[j].n else 0)
         <= SumIn(num, live[..k], base)
  {
    assert live[..k][..k - 1] == live[..k - 1];
    if j < k - 1 {
      SumPrefix(num, live, j, k - 1, base);
    }
  }

  /** Tiled blocks fill each pool from its base up to `used_elements`, and never overlap. */
  lemma TiledNeverOverlaps(num: nat, s: State, live: seq<Block>)
    requires Conserved(num, s, live) && Tiled(num, s.pools, live)
    ensures NoOverlap(live)
    ensures forall k, i | 0 <= k < |live| && 0 <= i < |s.pools| && Within(num, s.pools[i].base, live[k].at) ::
      live[k].at + live[k].n <= s.pools[i].base + s.pools[i].used
  {
    forall k, i | 0 <= k < |live| && 0 <= i < |s.pools| && Within(num, s.pools[i].base, live[k].at)
      ensures live[k].at + live[k].n <= s.pools[i].base + s.pools[i].used
    {
      assert Sits(num, live, s.pools[i].base, k);
      SumPrefix(num, live, k, |live|, s.pools[i].base);
      assert live[..|live|] == live;
    }
    forall j, k | 0 <= j < k < |live| ensures !Overlap(live[j], live[k]) {
      var a := PoolOf(num, s.pools, live, live[j]);
      var b := PoolOf(num, s.pools, live, live[k]);
      if a == b {
        assert Sits(num, live, s.pools[a].base, j) && Sits(num, live, s.pools[a].base, k);
        SumPrefix(num, live, j, k, s.pools[a].base);
      } else {
        assert Apart(num, s.pools[if a < b then a else b].base, s.pools[if a < b then b else a].base);
      }
    }
  }

  lemma SumStep(num: nat, live: seq<Block>, k: nat, base: nat)
    requires k < |live|
    ensures SumIn(num, live[..k + 1], base)
         == SumIn(num, live[..k], base) + if Within(num, base, live[k].at) then live[k].n else 0
  {
    assert live[..k + 1][..k] == live[..k];
  }

  lemma PushKeepsTiling(num: nat, live: seq<Block>, b: Block, base: nat)
    requires TiledOn(num, live, base)
    requires Within(num, base, b.at) ==> b.at == base + SumIn(num, live, base)
    ensures TiledOn(num, live + [b], base)
  {
    forall k | 0 <= k < |live| + 1 ensures Sits(num, live + [b], base, k) {
      assert (live + [b])[..k] == live[..k];
      if k < |live| {
        assert Sits(num, live, base, k);
      } else {
        assert live[..k] == live;
      }
    }
  }

  lemma RoomTiled(num: nat, s: State, live: seq<Block>, n: nat, base: nat)
    requires Conserved(num, s, live) && Tiled(num, s.pools, live)
    requires NeedsPool(num, s, n) ==> FreshFor(num, s.pools, base)
    ensures Tiled(num, WithRoom(num, s, n, base).pools, live)
  {
    if NeedsPool(num, s, n) {
      HousedAvoidsFresh(num, s.pools, live, base);
      assert TiledOn(num, live, base) by {
        forall k | 0 <= k < |live| ensures Sits(num, live, base, k) {
          assert live[k] in live;
        }
      }
    }
  }

  lemma AllocKeepsTiling(num: nat, s: State, live: seq<Block>, n: nat, base: nat)
    requires Conserved(num, s, live) && 1 <= n <= num && Tiled(num, s.pools, live)
    requires NeedsPool(num, s, n) ==> FreshFor(num, s.pools, base)
    ensures var (s', at) := Allocate(num, s, n, base);
      at >= 0 && Tiled(num, s'.pools, live + [Block(at, n)])
  {
    hide TiledOn, Balanced, Housed, SumIn;
    RoomMade(num, s, live, n, base);
    RoomTiled(num, s, live, n, base);
    hide WithRoom, NeedsPool;
    var r := WithRoom(num, s, n, base);
    var (s', at) := Allocate(num, s, n, base);
    var last := |r.pools| - 1;
    forall i | 0 <= i < |s'.pools| ensures TiledOn(num, live + [Block(at, n)], s'.pools[i].base) {
      assert s'.pools[i].base == r.pools[i].base;
      if i < last {
        assert Apart(num, r.pools[i].base, r.pools[last].base);
      }
      PushKeepsTiling(num, live, Block(at, n), r.pools[i].base);
    }
  }

  lemma WithoutPrefix(live: seq<Block>, k: nat, j: nat)
    requires k < |live| && j < |live| - 1
    ensures j <= k ==> Without(live, k)[..j] == live[..j]
    ensures j >= k ==> k < |live[..j + 1]| && Without(live, k)[..j] == Without(live[..j + 1], k)
  {
  }

  predicate NonEmpty(live: seq<Block>) {
    forall j :: 0 <= j < |live| ==> live[j].n >= 1
  }

  /** Taking out the topmost block of a pool, or a block of another pool, keeps the pool tiled. */
  lemma TakeTopKeepsTiling(num: nat, live: seq<Block>, k: nat, base: nat)
    requires TiledOn(num, live, base) && k < |live| && NonEmpty(live)
    requires Within(num, base, live[k].at) ==> live[k].at + live[k].n == base + SumIn(num, live, base)
    ensures TiledOn(num, Without(live, k), base)
  {
    hide Sits, Without, SumIn, Within;
    WithoutMembers(live, k);
    forall j | 0 <= j < |live| - 1 ensures Sits(num, Without(live, k), base, j) {
      if j < k {
        BelowStillSits(num, live, k, base, j);
      } else {
        AboveStillSits(num, live, k, base, j);
      }
    }
  }

  lemma BelowStillSits(num: nat, live: seq<Block>, k: nat, base: nat, j: nat)
    requires j < k < |live| && Sits(num, live, base, j)
    ensures Sits(num, Without(live, k), base, j)
  {
    hide SumIn, Within;
    WithoutPrefix(live, k, j);
  }

  lemma AboveStillSits(num: nat, live: seq<Block>, k: nat, base: nat, j: nat)
    requires k <= j < |live| - 1 && NonEmpty(live) && Sits(num, live, base, j + 1) && Sits(num, live, base, k)
    requires Within(num, base, live[k].at) ==> live[k].at + live[k].n == base + SumIn(num, live, base)
    ensures Sits(num, Without(live, k), base, j)
  {
    hide SumIn, Within, Without;
    WithoutMembers(live, k);
    WithoutPrefix(live, k, j);
    SumWithout(num, live[..j + 1], k, base);
    SumPrefix(num, live, k, j + 1, base);
    SumPrefix(num, live, j + 1, |live|, base);
    assert live[..|live|] == live && live[..j + 1][k] == live[k];
  }

  /** Taking out any other block breaks it: the next block no longer sits on what is left below it. */
  lemma TakeBuriedBreaksTiling(num: nat, live: seq<Block>, k: nat, base: nat)
    requires TiledOn(num, live, base) && k < |live| && NonEmpty(live)
    requires Within(num, base, live[k].at) && live[k].at + live[k].n != base + SumIn(num, live, base)
    ensures !TiledOn(num, Without(live, k), base)
    ensures SumIn(num, live, base) > live[k].n
  {
    hide SumIn;
    assert Sits(num, live, base, k);
    assert live[..|live|] == live;
    SumPrefix(num, live, k, |live|, base);
    SumStep(num, live, k, base);
    var j := NextIn(num, live, k + 1, base);
    SumPrefix(num, live, j, |live|, base);
    NextUnsupported(num, live, k, j, base);
  }

  lemma NextUnsupported(num: nat, live: seq<Block>, k: nat, j: nat, base: nat)
    requires TiledOn(num, live, base) && k < j < |live| && live[k].n >= 1
    requires Within(num, base, live[k].at) && Within(num, base, live[j].at)
    ensures !TiledOn(num, Without(live, k), base)
    ensures SumIn(num, live[..j], base) >= live[k].n
  {
    hide SumIn;
    SumPrefix(num, live, k, j, base);
    assert Sits(num, live, base, j);
    WithoutMembers(live, k);
    WithoutPrefix(live, k, j - 1);
    assert live[..j][k] == live[k];
    SumWithout(num, live[..j], k, base);
    assert !Sits(num, Without(live, k), base, j - 1);
  }

  lemma {:induction false} NextIn(num: nat, live: seq<Block>, from: nat, base: nat) returns (j: nat)
    requires from <= |live| && SumIn(num, live[..from], base) < SumIn(num, live, base)
    ensures from <= j < |live| && Within(num, base, live[j].at)
    decreases |live| - from
  {
    assert live[..|live|] == live;
    assert live[..from + 1][..from] == live[..from];
    if Within(num, base, live[from].at) {
      j := from;
    } else {
      j := NextIn(num, live, from + 1, base);
    }
  }

  /** The block ends where the counter of its pool points: nothing was allocated above it. */
  predicate OnTop(num: nat, pools: seq<PoolData>, b: Block) {
    forall i :: 0 <= i < |pools| && Within(num, pools[i].base, b.at) ==> b.at + b.n == pools[i].base + pools[i].used
  }

  /** A free keeps the tiling exactly when the freed block is on top of its pool. */
  lemma FreeTiledIff(num: nat, s: State, live: seq<Block>, k: nat)
    requires Conserved(num, s, live) && Tiled(num, s.pools, live) && k < |live|
    ensures Tiled(num, Deallocate(num, s, live[k].at, live[k].n).pools, Without(live, k))
            <==> OnTop(num, s.pools, live[k])
  {
    hide Deallocate, TiledOn;
    assert NonEmpty(live) by { assert forall j :: 0 <= j < |live| ==> live[j] in live; }
    var i := FreeShape(num, s, live, k);
    var pools' := Deallocate(num, s, live[k].at, live[k].n).pools;
    if OnTop(num, s.pools, live[k]) {
      forall m | 0 <= m < |pools'| ensures TiledOn(num, Without(live, k), pools'[m].base) {
        var q := if s.pools[i].used == live[k].n && m >= i then m + 1 else m;
        assert pools'[m].base == s.pools[q].base && TiledOn(num, live, s.pools[q].base);
        TakeTopKeepsTiling(num, live, k, s.pools[q].base);
      }
    } else {
      TakeBuriedBreaksTiling(num, live, k, s.pools[i].base);
      assert pools'[i].base == s.pools[i].base;
    }
  }

  // ---------------------------------------------------------------- the next allocation

  /** An allocation that may come next lies on a live block. */
  predicate AllocOverlaps(num: nat, s: State, live: seq<Block>, n: nat, base: nat) {
    && 1 <= n <= num && (NeedsPool(num, s, n) ==> FreshFor(num, s.pools, base))
    && exists j :: 0 <= j < |live| && Clashes(live[j], Allocate(num, s, n, base).1, n)
  }

  predicate Clashes(b: Block, at: int, n: nat) {
    b.at < at + n && at < b.at + b.n
  }

  predicate InLast(num: nat, s: State, b: Block) {
    s.pools != [] && Within(num, s.pools[|s.pools| - 1].base, b.at)
  }

  predicate LastTiled(num: nat, s: State, live: seq<Block>) {
    s.pools != [] ==> TiledOn(num, live, s.pools[|s.pools| - 1].base)
  }

  /** A block in the last pool that reaches beyond that pool's counter. */
  predicate AboveCounter(num: nat, s: State, b: Block) {
    InLast(num, s, b) && b.at + b.n > s.pools[|s.pools| - 1].base + s.pools[|s.pools| - 1].used
  }

  /**
    In every conserved state, whatever was freed before: some allocation that
    may come next lies on a live block if and only if a live block of the last
    pool reaches beyond its counter.
   */
  lemma OverlapsIff(num: nat, s: State, live: seq<Block>)
    requires Conserved(num, s, live)
    ensures (exists n: nat, base: nat :: AllocOverlaps(num, s, live, n, base))
            <==> exists j :: 0 <= j < |live| && AboveCounter(num, s, live[j])
  {
    hide Conserved, AllocOverlaps, AboveCounter;
    if j :| 0 <= j < |live| && AboveCounter(num, s, live[j]) {
      var n := AboveCounterOverlaps(num, s, live, j);
    } else {
      forall n: nat, base: nat ensures !AllocOverlaps(num, s, live, n, base) {
        NoneAboveNoneOverlaps(num, s, live, n, base);
      }
    }
  }

  /** Asking for all that is left of the pool is enough. */
  lemma AboveCounterOverlaps(num: nat, s: State, live: seq<Block>, j: nat) returns (n: nat)
    requires Conserved(num, s, live) && j < |live| && AboveCounter(num, s, live[j])
    ensures AllocOverlaps(num, s, live, n, 0)
  {
    hide SumIn;
    var last := s.pools[|s.pools| - 1];
    assert live[j] in live;
    var i := PoolOf(num, s.pools, live, live[j]);
    assert i == |s.pools| - 1;
    n := num - last.used;
    assert Clashes(live[j], Allocate(num, s, n, 0).1, n);
  }

  lemma NoneAboveNoneOverlaps(num: nat, s: State, live: seq<Block>, n: nat, base: nat)
    requires Conserved(num, s, live)
    requires forall j :: 0 <= j < |live| ==> !AboveCounter(num, s, live[j])
    ensures !AllocOverlaps(num, s, live, n, base)
  {
    hide SumIn;
    if 1 <= n <= num && (NeedsPool(num, s, n) ==> FreshFor(num, s.pools, base)) {
      var at := Allocate(num, s, n, base).1;
      forall j | 0 <= j < |live| ensures !Clashes(live[j], at, n) {
        assert live[j] in live;
        var i := PoolOf(num, s.pools, live, live[j]);
        assert !AboveCounter(num, s, live[j]);
        assert i < |s.pools| - 1 ==> Apart(num, s.pools[i].base, s.pools[|s.pools| - 1].base);
      }
    }
  }

  lemma BelowCounter(num: nat, s: State, live: seq<Block>, j: nat)
    requires Conserved(num, s, live) && LastTiled(num, s, live) && j < |live| && InLast(num, s, live[j])
    ensures live[j].at + live[j].n <= s.pools[|s.pools| - 1].base + s.pools[|s.pools| - 1].used
  {
    var base := s.pools[|s.pools| - 1].base;
    assert Sits(num, live, base, j);
    assert live[..|live|] == live;
    SumPrefix(num, live, j, |live|, base);
  }

  /** A tiled pool in use has a block that ends where its counter points. */
  lemma {:induction false} TopBlock(num: nat, live: seq<Block>, m: nat, base: nat) returns (j: nat)
    requires TiledOn(num, live, base) && m <= |live| && SumIn(num, live[..m], base) > 0
    ensures j < m && Within(num, base, live[j].at) && live[j].at + live[j].n == base + SumIn(num, live[..m], base)
  {
    SumStep(num, live, m - 1, base);
    if Within(num, base, live[m - 1].at) {
      j := m - 1;
      assert Sits(num, live, base, j);
    } else {
      j := TopBlock(num, live, m - 1, base);
    }
  }

  /** A block that is alone in its pool is on top of it. */
  lemma AloneOnTop(num: nat, s: State, live: seq<Block>, k: nat, i: nat)
    requires Conserved(num, s, live) && Tiled(num, s.pools, live) && k < |live| && i < |s.pools|
    requires forall j :: 0 <= j < |s.pools| ==> (Within(num, s.pools[j].base, live[k].at) <==> j == i)
    requires s.pools[i].used == live[k].n
    ensures OnTop(num, s.pools, live[k])
  {
    hide SumIn;
    var base := s.pools[i].base;
    assert TiledOn(num, live, base) && Sits(num, live, base, k);
    assert live[..|live|] == live;
    SumPrefix(num, live, k, |live|, base);
  }

  /**
    After a free from a tiled state, some allocation lies on a live block if and
    only if the freed block was in the last pool and not on top of it.
   */
  lemma FreeOverlapsIff(num: nat, s: State, live: seq<Block>, k: nat)
    requires Conserved(num, s, live) && Tiled(num, s.pools, live) && k < |live|
    ensures var s' := Deallocate(num, s, live[k].at, live[k].n);
      (exists n: nat, base: nat :: AllocOverlaps(num, s', Without(live, k), n, base))
      <==> InLast(num, s, live[k]) && !OnTop(num, s.pools, live[k])
  {
    hide Deallocate, Tiled, Conserved, AllocOverlaps, AboveCounter;
    var s', live' := Deallocate(num, s, live[k].at, live[k].n), Without(live, k);
    var _ := FreeConserves(num, s, live, k);
    OverlapsIff(num, s', live');
    if InLast(num, s, live[k]) && !OnTop(num, s.pools, live[k]) {
      BuriedInLast(num, s, live, k);
    } else {
      LastStaysTiled(num, s, live, k);
      forall j | 0 <= j < |live'| ensures !AboveCounter(num, s', live'[j]) {
        NotAboveTiled(num, s', live', j);
      }
    }
  }

  lemma NotAboveTiled(num: nat, s: State, live: seq<Block>, j: nat)
    requires Conserved(num, s, live) && LastTiled(num, s, live) && j < |live|
    ensures !AboveCounter(num, s, live[j])
  {
    hide Conserved, LastTiled;
    if InLast(num, s, live[j]) { BelowCounter(num, s, live, j); }
  }

  lemma LastStaysTiled(num: nat, s: State, live: seq<Block>, k: nat)
    requires Conserved(num, s, live) && Tiled(num, s.pools, live) && k < |live|
    requires InLast(num, s, live[k]) ==> OnTop(num, s.pools, live[k])
    ensures LastTiled(num, Deallocate(num, s, live[k].at, live[k].n), Without(live, k))
  {
    hide Deallocate, SumIn, Without, TiledOn;
    assert NonEmpty(live) by { assert forall j :: 0 <= j < |live| ==> live[j] in live; }
    var i := FreeShape(num, s, live, k);
    if OnTop(num, s.pools, live[k]) {
      FreeTiledIff(num, s, live, k);
    } else {
      if s.pools[i].used == live[k].n { AloneOnTop(num, s, live, k, i); }
      var base := s.pools[|s.pools| - 1].base;
      assert TiledOn(num, live, base);
      TakeTopKeepsTiling(num, live, k, base);
    }
  }

  /** The topmost block stays where it is when one below it is freed. */
  lemma BuriedInLast(num: nat, s: State, live: seq<Block>, k: nat)
    requires Conserved(num, s, live) && Tiled(num, s.pools, live) && k < |live|
    requires InLast(num, s, live[k]) && !OnTop(num, s.pools, live[k])
    ensures var s', live' := Deallocate(num, s, live[k].at, live[k].n), Without(live, k);
      exists m :: 0 <= m < |live'| && AboveCounter(num, s', live'[m])
  {
    hide Deallocate, SumIn, Without, TiledOn;
    var last := |s.pools| - 1;
    var base, used := s.pools[last].base, s.pools[last].used;
    assert live[k] in live;
    var i := FreeShape(num, s, live, k);
    assert i == last;
    if used == live[k].n { AloneOnTop(num, s, live, k, i); }
    assert live[..|live|] == live && TiledOn(num, live, base);
    var j := TopBlock(num, live, |live|, base);
    assert j != k && live[j] in live;
    WithoutMembers(live, k);
    var m := if j < k then j else j - 1;
    assert Without(live, k)[m] == live[j];
    assert AboveCounter(num, Deallocate(num, s, live[k].at, live[k].n), Without(live, k)[m]);
  }

  // ---------------------------------------------------------------- traces

  datatype Action = DoAlloc(n: nat, base: nat) | DoFree(k: nat)
  datatype Config = Config(state: State, live: seq<Block>)

  /** Non-empty allocations, frees of live blocks, and memory that `operator new` has not given out before. */
  predicate Enabled(num: nat, c: Config, a: Action) {
    match a
    case DoAlloc(n, base) => 1 <= n && (n <= num && NeedsPool(num, c.state, n) ==> FreshFor(num, c.state.pools, base))
    case DoFree(k) => k < |c.live|
  }

  function Step(num: nat, c: Config, a: Action): Config
    requires Enabled(num, c, a) && Conserved(num, c.state, c.live)
  {
    match a
    case DoAlloc(n, base) =>
      if n > num then c else
      AllocConserves(num, c.state, c.live, n, base);
      var (s, at) := Allocate(num, c.state, n, base);
      Config(s, c.live + [Block(at, n)])
    case DoFree(k) =>
      Config(Deallocate(num, c.state, c.live[k].at, c.live[k].n), Without(c.live, k))
  }

  const EMPTY := Config(State([], 0), [])

  /** Traces, and what they lead to; every configuration met on the way is conserved. */
  predicate Trace(num: nat, acts: seq<Action>)
    decreases |acts|, 0
  {
    acts == [] || (Trace(num, acts[..|acts| - 1])
                   && Enabled(num, Reach(num, acts[..|acts| - 1]), acts[|acts| - 1]))
  }

  function Reach(num: nat, acts: seq<Action>): (c: Config)
    requires Trace(num, acts)
    ensures Conserved(num, c.state, c.live)
    decreases |acts|, 1
  {
    if acts == [] then EMPTY
    else
      var c := Reach(num, acts[..|acts| - 1]);
      StepConserves(num, c, acts[|acts| - 1]);
      Step(num, c, acts[|acts| - 1])
  }

  /** Over every trace, in any order of frees: the counters and the current pointer are right. */
  lemma StepConserves(num: nat, c: Config, a: Action)
    requires Enabled(num, c, a) && Conserved(num, c.state, c.live)
    ensures Conserved(num, Step(num, c, a).state, Step(num, c, a).live)
  {
    match a
    case DoAlloc(n, base) =>
      if n <= num { AllocConserves(num, c.state, c.live, n, base); }
    case DoFree(k) =>
      var _ := FreeConserves(num, c.state, c.live, k);
  }

  /** Frees take a block on top of its pool. */
  predicate TopFrees(num: nat, acts: seq<Action>)
    requires Trace(num, acts)
  {
    acts == [] || (
      var c, a := Reach(num, acts[..|acts| - 1]), acts[|acts| - 1];
      TopFrees(num, acts[..|acts| - 1]) && (a.DoFree? ==> OnTop(num, c.state.pools, c.live[a.k])))
  }

  /** Frees take the block allocated last among the live ones. */
  predicate Lifo(num: nat, acts: seq<Action>)
    requires Trace(num, acts)
  {
    acts == [] || (
      var c := Reach(num, acts[..|acts| - 1]);
      && Lifo(num, acts[..|acts| - 1])
      && (acts[|acts| - 1].DoFree? ==> acts[|acts| - 1].k == |c.live| - 1))
  }

  lemma LastIsOnTop(num: nat, s: State, live: seq<Block>)
    requires Conserved(num, s, live) && Tiled(num, s.pools, live) && live != []
    ensures OnTop(num, s.pools, live[|live| - 1])
  {
    forall i | 0 <= i < |s.pools| && Within(num, s.pools[i].base, live[|live| - 1].at)
      ensures live[|live| - 1].at + live[|live| - 1].n == s.pools[i].base + s.pools[i].used
    {
      assert TiledOn(num, live, s.pools[i].base) && Sits(num, live, s.pools[i].base, |live| - 1);
    }
  }

  /** One step keeps the tiling exactly if it is no free, or a free on top of its pool. */
  lemma StepTiledIff(num: nat, c: Config, a: Action)
    requires Enabled(num, c, a) && Conserved(num, c.state, c.live) && Tiled(num, c.state.pools, c.live)
    ensures Tiled(num, Step(num, c, a).state.pools, Step(num, c, a).live)
            <==> (a.DoFree? ==> OnTop(num, c.state.pools, c.live[a.k]))
  {
    hide Tiled, Deallocate, Allocate;
    match a
    case DoAlloc(n, base) =>
      if n <= num { AllocKeepsTiling(num, c.state, c.live, n, base); }
    case DoFree(k) => FreeTiledIff(num, c.state, c.live, k);
  }

  /** Freed from the top of their pools, live blocks tile a prefix of each pool and never overlap. */
  lemma {:induction false} TopFreesTile(num: nat, acts: seq<Action>)
    requires Trace(num, acts) && TopFrees(num, acts)
    ensures Tiled(num, Reach(num, acts).state.pools, Reach(num, acts).live)
    ensures NoOverlap(Reach(num, acts).live)
  {
    if acts != [] {
      hide Tiled, NoOverlap, Step, Conserved, OnTop;
      TopFreesTile(num, acts[..|acts| - 1]);
      StepTiledIff(num, Reach(num, acts[..|acts| - 1]), acts[|acts| - 1]);
      TiledNeverOverlaps(num, Reach(num, acts).state, Reach(num, acts).live);
    }
  }

  /** So with frees in LIFO order. */
  lemma {:induction false} LifoTiles(num: nat, acts: seq<Action>)
    requires Trace(num, acts) && Lifo(num, acts)
    ensures TopFrees(num, acts)
    ensures Tiled(num, Reach(num, acts).state.pools, Reach(num, acts).live)
    ensures NoOverlap(Reach(num, acts).live)
  {
    hide Tiled, NoOverlap, Step, Conserved, OnTop;
    if acts != [] {
      var c, a := Reach(num, acts[..|acts| - 1]), acts[|acts| - 1];
      LifoTiles(num, acts[..|acts| - 1]);
      if a.DoFree? { LastIsOnTop(num, c.state, c.live); }
    }
    TopFreesTile(num, acts);
  }

  /** Out of order it can go wrong: the third block of this trace lies on the second. */
  lemma OutOfOrderOverlaps(num: nat, base: nat)
    requires num >= 2
    ensures var acts := [DoAlloc(1, base), DoAlloc(1, base), DoFree(0), DoAlloc(1, base)];
            Trace(num, acts) && Reach(num, acts).live == [Block(base + 1, 1), Block(base + 1, 1)]
  {
    hide Trace, Reach, Conserved;
    EmptyConserved(num);
    var a := TraceOn([], EMPTY, num, DoAlloc(1, base), Config(State([PoolData(base, 1)], base), [Block(base, 1)]));
    a := TraceOn(a, Reach(num, a), num, DoAlloc(1, base),
                 Config(State([PoolData(base, 2)], base), [Block(base, 1), Block(base + 1, 1)]));
    assert [Block(base, 1), Block(base + 1, 1)][1..] == [Block(base + 1, 1)];
    assert [PoolData(base, 2)][1..] == [] && Release(num, [], base, 1) == ([], false);
    assert Release(num, [PoolData(base, 2)], base, 1) == ([PoolData(base, 1)] + [], false);
    assert Deallocate(num, State([PoolData(base, 2)], base), base, 1) == State([PoolData(base, 1)], base);
    a := TraceOn(a, Reach(num, a), num, DoFree(0), Config(State([PoolData(base, 1)], base), [Block(base + 1, 1)]));
    a := TraceOn(a, Reach(num, a), num, DoAlloc(1, base),
                 Config(State([PoolData(base, 2)], base), [Block(base + 1, 1), Block(base + 1, 1)]));
    assert a == [DoAlloc(1, base), DoAlloc(1, base), DoFree(0), DoAlloc(1, base)];
  }

  const BURIED := [Block(1, 1), Block(2, 1)]

  /** Two pools of two elements; the lower block of the first is freed. */
  lemma BuriedTrace() returns (a: seq<Action>)
    ensures a == [DoAlloc(1, 0), DoAlloc(1, 0), DoAlloc(1, 2), DoFree(0)]
    ensures Trace(2, a) && Reach(2, a) == Config(State([PoolData(0, 1), PoolData(2, 1)], 2), BURIED)
  {
    hide Trace, Reach, Conserved, Release, Deallocate;
    var b1, b2, b3, p0, p1 := Block(0, 1), Block(1, 1), Block(2, 1), PoolData(0, 2), PoolData(2, 1);
    EmptyConserved(2);
    a := TraceOn([], EMPTY, 2, DoAlloc(1, 0), Config(State([PoolData(0, 1)], 0), [b1]));
    a := TraceOn(a, Reach(2, a), 2, DoAlloc(1, 0), Config(State([p0], 0), [b1, b2]));
    assert [p0, PoolData(2, 0)][..1] + [p1] == [p0, p1];
    a := TraceOn(a, Reach(2, a), 2, DoAlloc(1, 2), Config(State([p0, p1], 2), [b1, b2, b3]));
    assert Without([b1, b2, b3], 0) == BURIED;
    FreeFirst(0);
    a := TraceOn(a, Reach(2, a), 2, DoFree(0), Config(State([PoolData(0, 1), p1], 2), BURIED));
  }

  /**
    A buried free in an earlier pool does no harm until the later pools are
    erased: then freeing the last block of the last pool, which lies on top,
    is what lets the next allocation overlap.
   */
  lemma BuriedFreeResurfaces() returns (a: seq<Action>)
    ensures a == [DoAlloc(1, 0), DoAlloc(1, 0), DoAlloc(1, 2), DoFree(0)] && Trace(2, a)
    ensures var c := Reach(2, a);
      && c.live == BURIED && Enabled(2, c, DoFree(1))
      && InLast(2, c.state, c.live[1]) && OnTop(2, c.state.pools, c.live[1])
      && !(exists n: nat, b: nat :: AllocOverlaps(2, c.state, c.live, n, b))
      && var c' := Step(2, c, DoFree(1));
      exists n: nat, b: nat :: AllocOverlaps(2, c'.state, c'.live, n, b)
  {
    hide Trace, Reach, Conserved, AllocOverlaps, Deallocate;
    a := BuriedTrace();
    var c := Reach(2, a);
    OverlapsIff(2, c.state, c.live);
    FreeLast(0);
    assert Without(BURIED, 1) == [Block(1, 1)];
    var c' := Step(2, c, DoFree(1));
    StepConserves(2, c, DoFree(1));
    OverlapsIff(2, c'.state, c'.live);
    assert AboveCounter(2, c'.state, c'.live[0]);
  }

  lemma FreeFirst(base: nat)
    ensures Deallocate(2, State([PoolData(base, 2), PoolData(base + 2, 1)], base + 2), base, 1)
         == State([PoolData(base, 1), PoolData(base + 2, 1)], base + 2)
  {
    var pools := [PoolData(base, 2), PoolData(base + 2, 1)];
    assert pools[1..] == [PoolData(base + 2, 1)] && pools[1..][1..] == [];
    assert Release(2, [], base, 1) == ([], false) && [pools[1]] + [] == pools[1..];
    assert Release(2, pools[1..], base, 1) == (pools[1..], false);
    assert Release(2, pools, base, 1) == ([PoolData(base, 1)] + pools[1..], false);
  }

  lemma FreeLast(base: nat)
    ensures Deallocate(2, State([PoolData(base, 1), PoolData(base + 2, 1)], base + 2), base + 2, 1)
         == State([PoolData(base, 1)], base)
  {
    var pools := [PoolData(base, 1), PoolData(base + 2, 1)];
    assert pools[1..] == [PoolData(base + 2, 1)] && pools[1..][1..] == [];
    assert Release(2, pools[1..], base + 2, 1) == ([], true);
    assert Release(2, pools, base + 2, 1) == ([PoolData(base, 1)] + [], true);
  }

  lemma EmptyConserved(num: nat)
    ensures Conserved(num, EMPTY.state, EMPTY.live)
  {
  }

  lemma TraceOn(acts: seq<Action>, c: Config, num: nat, a: Action, c': Config) returns (longer: seq<Action>)
    requires acts == [] ==> c == EMPTY
    requires acts != [] ==> Trace(num, acts) && c == Reach(num, acts)
    requires Enabled(num, c, a) && Conserved(num, c.state, c.live) && Step(num, c, a) == c'
    ensures longer == acts + [a] && Trace(num, longer) && Reach(num, longer) == c'
  {
    longer := acts + [a];
    assert longer[..|longer| - 1] == acts;
  }
}
