/** What the pool's steps keep true: every handle is in at most one registry,
    registered handles have metadata in the state their registry implies,
    the pool stays within its maximum size, the free list is reused front
    to back, expired and broken handles are evicted, and a growth pass
    restores the minimum and keep sizes. */
module PoolInvariants {
  import opened PoolModel

  predicate NoDup(q: seq<Conn>)
  {
    forall i, j :: 0 <= i < j < |q| ==> q[i] != q[j]
  }

  /** Metadata of a free handle: nobody waits on it, it is not checked out,
      and unless a check is under way it passed its last check. */
  predicate FreeOk(d: Data)
  {
    !d.hold && d.openTime == 0 && (!d.freeCheck ==> d.valid && !d.expired)
  }

  /** Metadata of a checked-out handle. */
  predicate UsedOk(d: Data)
  {
    !d.hold && !d.freeCheck && d.valid && !d.expired && d.closeTime == 0
  }

  /** The bookkeeping invariant: the free list holds each handle once, no
      handle is both free and used, and every registered handle has metadata
      that fits its registry. */
  predicate Inv(s: State)
  {
    && NoDup(s.free)
    && (forall i :: 0 <= i < |s.free| ==> s.free[i] !in s.used)
    && (forall i :: 0 <= i < |s.free| ==> s.free[i] in s.data && FreeOk(s.data[s.free[i]]))
    && (forall c :: c in s.used ==> c in s.data && UsedOk(s.data[c]))
  }

  /** Used plus free handles never exceed the maximum size. */
  predicate Bounded(s: State)
  {
    CurSize(s) <= s.cfg.maxSize
  }

  /** The first `n` driver calls give handles the pool has never seen, each
      different from those the calls before it gave. */
  predicate FreshAttempts(s: State, factory: nat -> Attempt, n: nat)
    decreases n
  {
    n == 0 ||
    (&& FreshAttempts(s, factory, n - 1)
     && Created(s.cfg, factory(n - 1)) !in s.data
     && Created(s.cfg, factory(n - 1)) !in Pushed(s.cfg, factory, n - 1))
  }

  // ---------------------------------------------------------------- Init

  /** Calling `Init` again on an initialised configuration changes nothing:
      every field is already non-zero and within its bounds. */
  lemma InitConfigIdempotent(c: Config)
    ensures InitConfig(InitConfig(c)) == InitConfig(c)
  {
    var r := InitConfig(c);
    assert Defaulted(r) == r;
  }

  /** Pushing a handle the pool has never seen keeps the invariant. */
  lemma PushFreshKeepsInv(s: State, c: Conn, now: int)
    requires Inv(s) && c !in s.data
    ensures Inv(PushFree(s, c, now))
  {
    var r := PushFree(s, c, now);
    forall i | 0 <= i < |s.free|
      ensures s.free[i] != c
    {
      assert s.free[i] in s.data;
    }
    assert r.free[|s.free|] == c;
  }

  /** A fill registers metadata for exactly the handles it pushes, beside
      those the pool already knew. */
  lemma {:induction false} FillKeys(s: State, now: int, factory: nat -> Attempt, n: nat)
    ensures forall k :: k in Fill(s, now, factory, n).data <==> k in s.data || k in Pushed(s.cfg, factory, n)
    decreases n
  {
    if n > 0 {
      FillKeys(s, now, factory, n - 1);
      assert Pushed(s.cfg, factory, n) == Pushed(s.cfg, factory, n - 1) + [Created(s.cfg, factory(n - 1))];
    }
  }

  /** The handle the `n`-th call pushes is new to the state the first
      `n - 1` pushes leave. */
  lemma NextIsFresh(s: State, now: int, factory: nat -> Attempt, n: nat)
    requires 0 < n && FreshAttempts(s, factory, n)
    ensures Created(s.cfg, factory(n - 1)) !in Fill(s, now, factory, n - 1).data
  {
    FillKeys(s, now, factory, n - 1);
  }

  lemma {:induction false} FillKeepsInv(s: State, now: int, factory: nat -> Attempt, n: nat)
    requires Inv(s) && FreshAttempts(s, factory, n)
    ensures Inv(Fill(s, now, factory, n))
    decreases n
  {
    if n > 0 {
      NextIsFresh(s, now, factory, n);
      var prev := Fill(s, now, factory, n - 1);
      FillKeepsInv(s, now, factory, n - 1);
      PushFreshKeepsInv(prev, Created(s.cfg, factory(n - 1)), now);
    }
  }

  /** One push keeps fresh metadata on the handles pushed before it and
      gives fresh metadata to a handle the pool has not seen. */
  lemma PushKeepsFreshData(prev: State, c: Conn, now: int, p: seq<Conn>)
    requires c !in prev.data
    requires forall x :: x in p ==> x in prev.data && prev.data[x] == FreshFreeData(now)
    ensures forall x :: x in p + [c] ==>
              x in PushFree(prev, c, now).data && PushFree(prev, c, now).data[x] == FreshFreeData(now)
  {
    forall x | x in p + [c]
      ensures x in PushFree(prev, c, now).data && PushFree(prev, c, now).data[x] == FreshFreeData(now)
    {
      if x != c {
        assert x in p;
      }
    }
  }

  /** Every handle a fill pushes carries fresh free metadata. */
  lemma {:induction false} FillFreshData(s: State, now: int, factory: nat -> Attempt, n: nat)
    requires FreshAttempts(s, factory, n)
    ensures var r := Fill(s, now, factory, n);
            forall c :: c in Pushed(s.cfg, factory, n) ==> c in r.data && r.data[c] == FreshFreeData(now)
    decreases n
  {
    if n > 0 {
      NextIsFresh(s, now, factory, n);
      FillFreshData(s, now, factory, n - 1);
      FillKeys(s, now, factory, n - 1);
      var prev := Fill(s, now, factory, n - 1);
      var c := Created(s.cfg, factory(n - 1));
      PushKeepsFreshData(prev, c, now, Pushed(s.cfg, factory, n - 1));
      assert Fill(s, now, factory, n) == PushFree(prev, c, now);
      assert Pushed(s.cfg, factory, n) == Pushed(s.cfg, factory, n - 1) + [c];
    }
  }

  /** A fill leaves the metadata of every handle it does not push as it
      was. */
  lemma {:induction false} FillKeepsOldData(s: State, now: int, factory: nat -> Attempt, n: nat)
    ensures var r := Fill(s, now, factory, n);
            forall k :: k in s.data && k !in Pushed(s.cfg, factory, n) ==> k in r.data && r.data[k] == s.data[k]
    decreases n
  {
    if n > 0 {
      FillKeepsOldData(s, now, factory, n - 1);
      FillKeys(s, now, factory, n - 1);
      var c := Created(s.cfg, factory(n - 1));
      assert Pushed(s.cfg, factory, n) == Pushed(s.cfg, factory, n - 1) + [c];
    }
  }

  /** What a growth pass does to the metadata table: with fresh driver
      handles, the handles the pool knew keep their metadata, the new ones
      get fresh free metadata, and no other handle is registered. */
  lemma GrowData(s: State, now: int, factory: nat -> Attempt)
    requires FreshAttempts(s, factory, Max0(GrowAmount(s)))
    ensures var r := Grow(s, now, factory);
            var added := Pushed(s.cfg, factory, Max0(GrowAmount(s)));
            && r.free == s.free + added
            && (forall k :: k in r.data <==> k in s.data || k in added)
            && (forall k :: k in s.data ==> r.data[k] == s.data[k])
            && (forall k :: k in added ==> r.data[k] == FreshFreeData(now))
  {
    var n := Max0(GrowAmount(s));
    FillKeys(s, now, factory, n);
    FillKeepsOldData(s, now, factory, n);
    FillFreshData(s, now, factory, n);
    forall k | k in s.data
      ensures k !in Pushed(s.cfg, factory, n)
    {
      FreshNotKnown(s, factory, n, k);
    }
  }

  /** Fresh driver handles are none of the handles the pool knew. */
  lemma {:induction false} FreshNotKnown(s: State, factory: nat -> Attempt, n: nat, k: Conn)
    requires FreshAttempts(s, factory, n) && k in s.data
    ensures k !in Pushed(s.cfg, factory, n)
    decreases n
  {
    if n > 0 {
      FreshNotKnown(s, factory, n - 1, k);
      assert Pushed(s.cfg, factory, n) == Pushed(s.cfg, factory, n - 1) + [Created(s.cfg, factory(n - 1))];
    }
  }

  /** Without fresh driver handles the invariant can break: when the driver
      fails twice, two pushes put the nil handle twice on the free list. */
  lemma FailedConnectsDuplicateNil(s: State, now: int, factory: nat -> Attempt)
    requires s.free == [] && s.cfg.openRetryCount > 0
    requires factory(0) == ConnectFailed && factory(1) == ConnectFailed
    ensures var r := Fill(s, now, factory, 2);
            r.free == [Nil, Nil] && !Inv(r)
  {
    assert Pushed(s.cfg, factory, 1) == [Nil];
    assert Pushed(s.cfg, factory, 2) == [Nil, Nil];
    var r := Fill(s, now, factory, 2);
    assert r.free[0] == r.free[1];
  }

  /** After a successful `Init` the used set is empty and the free list holds
      exactly `InitSize` handles, each with fresh metadata; the invariant
      holds when the driver hands out distinct handles. */
  lemma InitEstablishesInv(s: State, now: int, factory: nat -> Attempt)
    requires Init(s, now, factory).out.None?
    requires FreshAttempts(State(InitConfig(s.cfg), s.resizeFlag, [], {}, map[]), factory,
                           Max0(InitConfig(s.cfg).initSize))
    ensures var r := Init(s, now, factory).state;
            Inv(r) && r.used == {} && |r.free| == Max0(r.cfg.initSize) &&
            (forall c :: c in r.free ==> r.data[c] == FreshFreeData(now)) &&
            (forall k :: k in r.data <==> k in r.free)
  {
    var empty := State(InitConfig(s.cfg), s.resizeFlag, [], {}, map[]);
    FillKeys(empty, now, factory, Max0(InitConfig(s.cfg).initSize));
    FillKeepsInv(empty, now, factory, Max0(InitConfig(s.cfg).initSize));
    FillFreshData(empty, now, factory, Max0(InitConfig(s.cfg).initSize));
  }

  /** `Init` does not bound `InitSize` by `MaxSize`: the size bound holds
      after it exactly when `InitSize <= MaxSize`. */
  lemma InitBoundedIff(s: State, now: int, factory: nat -> Attempt)
    requires Init(s, now, factory).out.None?
    requires InitConfig(s.cfg).maxSize >= 0
    ensures Bounded(Init(s, now, factory).state) <==> InitConfig(s.cfg).initSize <= InitConfig(s.cfg).maxSize
  {
  }

  /** With every size field left unset, `Init` leaves two free handles and no
      used one. */
  lemma DefaultInitScenario(driver: string, url: string, now: int, factory: nat -> Attempt)
    requires driver != "" && url != ""
    ensures var cfg := Config(driver, url, "", 0, 0, 0, 0, 0, 0, 0, 0, 0, false, false);
            var r := Init(State(cfg, false, [], {}, map[]), now, factory);
            r.out.None? && |r.state.free| == 2 && |r.state.used| == 0 &&
            r.state.cfg.minSize == 2 && r.state.cfg.maxSize == 5 && r.state.cfg.keepSize == 2 &&
            r.state.cfg.testSqlStmt == "SELECT @@VERSION"
  {
  }

  // ---------------------------------------------------------------- Open

  /** FIFO reuse: with free handles, `Open` picks the front one and either
      takes it, the rest keeping their order, or waits for its check; under
      the invariant it never meets a stale entry. */
  lemma OpenTakesFront(s: State, now: int, a: Attempt)
    requires Inv(s) && s.free != []
    ensures var r := Open(s, now, a);
            r.out == (if s.data[s.free[0]].freeCheck then MustWait(s.free[0]) else Acquired(s.free[0]))
    ensures var r := Open(s, now, a);
            r.out.Acquired? ==> r.state.free == s.free[1..] && r.state.used == s.used + {s.free[0]}
  {
    assert Eligible(s.free[0], s.data);
    assert FirstEligible(s.free, s.data) == Some(0);
  }

  /** Moving the front free handle, stamped as opened, to the used set
      keeps the invariant. */
  lemma TakeFrontKeepsInv(s: State, r: State, now: int)
    requires Inv(s) && s.free != [] && !s.data[s.free[0]].freeCheck
    requires r.free == s.free[1..] && r.used == s.used + {s.free[0]}
    requires r.data == s.data[s.free[0] := s.data[s.free[0]].(openTime := now, closeTime := 0)]
    ensures Inv(r)
  {
    var c := s.free[0];
    forall i | 0 <= i < |r.free|
      ensures r.free[i] != c && r.free[i] !in r.used
    {
      assert r.free[i] == s.free[i + 1];
    }
  }

  /** Taking the front free handle keeps the invariant. */
  lemma AcquireFrontKeepsInv(s: State, now: int, a: Attempt)
    requires Inv(s) && s.free != [] && !s.data[s.free[0]].freeCheck
    ensures Inv(Open(s, now, a).state)
  {
    OpenTakesFront(s, now, a);
    TakeFrontKeepsInv(s, Open(s, now, a).state, now);
  }

  /** Every outcome of `Open` keeps the invariant, and `Discarded` cannot
      happen under it. */
  lemma OpenKeepsInv(s: State, now: int, a: Attempt)
    requires Inv(s)
    ensures Inv(Open(s, now, a).state)
    ensures !Open(s, now, a).out.Discarded?
  {
    if s.free != [] {
      OpenTakesFront(s, now, a);
      if !s.data[s.free[0]].freeCheck {
        AcquireFrontKeepsInv(s, now, a);
      }
    }
  }

  /** `Open` keeps used plus free handles within the maximum size. */
  lemma OpenKeepsBounded(s: State, now: int, a: Attempt)
    requires Inv(s) && Bounded(s)
    ensures Bounded(Open(s, now, a).state)
  {
    var r := Open(s, now, a);
    if s.free != [] {
      OpenTakesFront(s, now, a);
      if r.out.Acquired? {
        assert s.free[0] !in s.used;
        assert |r.state.used| == |s.used| + 1;
      }
    } else if r.out.Acquired? {
      assert |r.state.used| <= |s.used| + 1;
    }
  }

  /** With no free handle and room below the maximum, `Open` returns the
      driver's handle, registered as used with fresh metadata, and the free
      list stays empty. */
  lemma OpenCreates(s: State, now: int, a: Attempt)
    requires s.free == [] && |s.used| < s.cfg.maxSize && s.cfg.openRetryCount > 0
    ensures var r := Open(s, now, a);
            r.out == Acquired(ConnOf(a)) && r.state.free == [] &&
            r.state.data[ConnOf(a)] == FreshUsedData(now) && r.state.used == s.used + {ConnOf(a)}
  {
  }

  // ---------------------------------------------------------------- Close

  /** `Close` of a checked-out handle (or of one the pool has never seen)
      keeps the invariant; closing a checked-out handle leaves the total size
      as it was. */
  lemma CloseKeepsInv(s: State, c: Conn, now: int)
    requires Inv(s) && (c in s.used || c !in s.data)
    ensures Inv(Close(s, c, now))
    ensures c in s.used ==> CurSize(Close(s, c, now)) == CurSize(s)
  {
    var r := Close(s, c, now);
    forall i | 0 <= i < |s.free|
      ensures s.free[i] != c
    {
      assert s.free[i] in s.data && s.free[i] !in s.used;
    }
    if c in s.used {
      assert |s.used - {c}| == |s.used| - 1;
    }
  }

  /** FIFO reuse across `Close`: of two handles returned one after the other
      to an empty free list, the next `Open` hands out the first, leaving the
      second. */
  lemma FifoReuse(s: State, h1: Conn, h2: Conn, t1: int, t2: int, now: int, a: Attempt)
    requires Inv(s) && s.free == [] && h1 in s.used && h2 in s.used && h1 != h2
    ensures var r := Open(Close(Close(s, h1, t1), h2, t2), now, a);
            r.out == Acquired(h1) && r.state.free == [h2]
  {
    CloseKeepsInv(s, h1, t1);
    var s1 := Close(s, h1, t1);
    CloseKeepsInv(s1, h2, t2);
    var s2 := Close(s1, h2, t2);
    assert s2.free == [h1, h2];
    OpenTakesFront(s2, now, a);
  }

  /** Why `CloseKeepsInv` excludes a handle that is already free: closing a
      checked-out handle twice puts it twice on the free list, and the next
      two `Open`s both hand it out, leaving it both free and used. */
  lemma DoubleCloseHandsOutTwice(s: State, h: Conn, t1: int, t2: int, now: int, a: Attempt)
    requires Inv(s) && s.free == [] && h in s.used
    ensures var s2 := Close(Close(s, h, t1), h, t2);
            var o1 := Open(s2, now, a);
            var o2 := Open(o1.state, now, a);
            s2.free == [h, h] && o1.out == Acquired(h) && o2.out == Acquired(h) &&
            h in o2.state.used && h in o1.state.free && !Inv(o1.state)
  {
    var s1 := Close(s, h, t1);
    var s2 := Close(s1, h, t2);
    assert s2.free == [h, h];
    assert s2.data[h] == s.data[h].(closeTime := t2, openTime := 0);
    assert FirstEligible(s2.free, s2.data) == Some(0);
    var o1 := Open(s2, now, a);
    assert o1.out == Acquired(h);
    assert o1.state.free == [h];
    assert FirstEligible(o1.state.free, o1.state.data) == Some(0);
  }

  // ---------------------------------------------------------------- Sweep

  /** The mark phase never meets a handle without metadata under the
      invariant, and keeps the invariant and the sizes. */
  lemma MarkKeepsInv(s: State)
    requires Inv(s)
    ensures Mark(s).Ok? && Inv(Mark(s).value) && CurSize(Mark(s).value) == CurSize(s)
  {
    var r := Mark(s).value;
    forall i | 0 <= i < |s.free|
      ensures FreeOk(r.data[s.free[i]])
    {
      assert r.data[s.free[i]] == s.data[s.free[i]].(freeCheck := true);
    }
  }

  /** The finish step keeps the invariant and never grows the pool. */
  lemma FinishKeepsInv(s: State, i: nat, now: int, probe: bool)
    requires Inv(s) && i < |s.free|
    ensures Finish(s, i, now, probe).Ok?
    ensures Inv(Finish(s, i, now, probe).value)
    ensures CurSize(Finish(s, i, now, probe).value) <= CurSize(s)
  {
    var r := Finish(s, i, now, probe).value;
    var c := s.free[i];
    if r.free != s.free {
      forall j | 0 <= j < |r.free|
        ensures r.free[j] != c
      {
        if j < i { assert r.free[j] == s.free[j]; } else { assert r.free[j] == s.free[j + 1]; }
      }
      forall j, k | 0 <= j < k < |r.free|
        ensures r.free[j] != r.free[k]
      {
        var j' := if j < i then j else j + 1;
        var k' := if k < i then k else k + 1;
        assert r.free[j] == s.free[j'] && r.free[k] == s.free[k'];
      }
      forall j | 0 <= j < |r.free|
        ensures r.free[j] in s.free
      {
        var j' := if j < i then j else j + 1;
        assert r.free[j] == s.free[j'];
      }
    }
  }

  /** Expiry and eviction: an entry idle longer than `MaxFreeTime`, or whose
      probe failed, is no longer in the free list after this step (the list
      held it once);
      any other entry stays, validated and unexpired. */
  lemma FinishEvicts(s: State, i: nat, now: int, probe: bool)
    requires Inv(s) && i < |s.free|
    ensures var c := s.free[i];
            var r := Finish(s, i, now, probe).value;
            (Expired(s.cfg, s.data[c], now) || !probe ==> c !in r.free && |r.free| == |s.free| - 1)
    ensures var c := s.free[i];
            var r := Finish(s, i, now, probe).value;
            (!Expired(s.cfg, s.data[c], now) && probe ==>
               r.free == s.free && r.data[c].valid && !r.data[c].expired && !r.data[c].freeCheck)
    ensures var c := s.free[i];
            var r := Finish(s, i, now, probe).value;
            (Expired(s.cfg, s.data[c], now) || !probe ==>
               (r.resizeFlag <==> s.resizeFlag || s.cfg.minSize > CurSize(r) || s.cfg.keepSize > |r.free|)) &&
            (!Expired(s.cfg, s.data[c], now) && probe ==> r.resizeFlag == s.resizeFlag)
  {
    FinishKeepsInv(s, i, now, probe);
    var c := s.free[i];
    var r := Finish(s, i, now, probe).value;
    if Expired(s.cfg, s.data[c], now) || !probe {
      forall j | 0 <= j < |r.free|
        ensures r.free[j] != c
      {
        if j < i { assert r.free[j] == s.free[j]; } else { assert r.free[j] == s.free[j + 1]; }
      }
    }
  }

  /** An evicted handle is never handed out by the next `Open` (unless the
      driver gives the very same handle again). */
  lemma EvictedNotReturned(s: State, i: nat, now: int, probe: bool, later: int, a: Attempt)
    requires Inv(s) && i < |s.free|
    requires Expired(s.cfg, s.data[s.free[i]], now) || !probe
    requires ConnOf(a) != s.free[i]
    ensures Open(Finish(s, i, now, probe).value, later, a).out != Acquired(s.free[i])
  {
    FinishEvicts(s, i, now, probe);
    FinishKeepsInv(s, i, now, probe);
    var r := Finish(s, i, now, probe).value;
    if r.free != [] {
      OpenTakesFront(r, later, a);
    }
  }

  // ---------------------------------------------------------------- Resize

  /** The growth pass adds `max(MinSize - CurSize, KeepSize)` handles, cut so
      that a pool at or below `MaxSize` ends at most at `MaxSize`; a pool
      already above it gets nothing. */
  lemma GrowAdds(s: State, now: int, factory: nat -> Attempt)
    ensures var want := if s.cfg.keepSize > s.cfg.minSize - CurSize(s) then s.cfg.keepSize
                        else s.cfg.minSize - CurSize(s);
            var r := Grow(s, now, factory);
            && (CurSize(s) + want <= s.cfg.maxSize ==> |r.free| == |s.free| + Max0(want))
            && (CurSize(s) <= s.cfg.maxSize < CurSize(s) + want ==> CurSize(r) == s.cfg.maxSize)
            && (CurSize(s) > s.cfg.maxSize ==> r.free == s.free)
  {
  }

  /** Replenishment: after a growth pass the pool holds at least `MinSize`
      handles and stays within `MaxSize` if it was. */
  lemma GrowRestores(s: State, now: int, factory: nat -> Attempt)
    requires s.cfg.minSize <= s.cfg.maxSize
    ensures CurSize(Grow(s, now, factory)) >= s.cfg.minSize
    ensures Bounded(s) ==> Bounded(Grow(s, now, factory))
    ensures CurSize(s) + s.cfg.keepSize <= s.cfg.maxSize ==>
              |Grow(s, now, factory).free| >= |s.free| + s.cfg.keepSize
  {
  }

  /** The growth pass keeps the invariant when the driver hands out new,
      distinct handles. */
  lemma GrowKeepsInv(s: State, now: int, factory: nat -> Attempt)
    requires Inv(s) && FreshAttempts(s, factory, Max0(GrowAmount(s)))
    ensures Inv(Grow(s, now, factory))
  {
    FillKeepsInv(s, now, factory, Max0(GrowAmount(s)));
  }

  /** Single flight: while a pass is pending, the trigger changes nothing;
      otherwise it sets the flag exactly when the pool is short. */
  lemma ResizeSingleFlight(s: State)
    ensures s.resizeFlag ==> Resize(Resize(s)) == Resize(s) == s
    ensures !s.resizeFlag ==> (Resize(s) != s <==> s.cfg.minSize > CurSize(s) || s.cfg.keepSize > |s.free|)
    ensures Inv(s) ==> Inv(Resize(s))
  {
  }
}
