/** The pool object of pool/db.go. Each method is one step the source runs
    under the pool's mutex, and is proved to leave the state, seen through
    `Abs()`, as the matching function of `PoolModel` says. */
module Pool {
  import Sets
  import opened PoolModel

  class DBPool {
    var cfg: Config
    var resizeFlag: bool
    var freeConn: seq<Conn>
    var usedConn: Sets.Set<Conn>
    var connData: map<Conn, Data>

    /** The pool's state as a value. */
    ghost function Abs(): State
      reads this, usedConn
    {
      State(cfg, resizeFlag, freeConn, usedConn.Elements(), connData)
    }

    /** A pool with its configuration fields set and nothing else, as a
        caller builds it before `Init`. */
    constructor (config: Config)
      ensures Abs() == State(config, false, [], {}, map[])
      ensures fresh(usedConn)
    {
      cfg := config;
      resizeFlag := false;
      freeConn := [];
      usedConn := new Sets.Set();
      connData := map[];
    }

    function CurSize(): (n: int)
      reads this, usedConn
      ensures n == |Abs().used| + |Abs().free|
    {
      usedConn.Len() + |freeConn|
    }

    function FreeSize(): (n: int)
      reads this
      ensures n == |freeConn|
    {
      |freeConn|
    }

    function UsedSize(): (n: int)
      reads this, usedConn
      ensures n == |Abs().used|
    {
      usedConn.Len()
    }

    method PushFree(c: Conn, now: int)
      modifies this
      ensures usedConn == old(usedConn)
      ensures Abs() == PoolModel.PushFree(old(Abs()), c, now)
    {
      if c !in connData {
        connData := connData[c := FreshFreeData(now)];
      } else {
        connData := connData[c := connData[c].(closeTime := now, openTime := 0)];
      }
      freeConn := freeConn + [c];
    }

    /** `resize`: the growth pass it starts is the separate step `Grow`. */
    method Resize()
      modifies this
      ensures usedConn == old(usedConn)
      ensures Abs() == PoolModel.Resize(old(Abs()))
    {
      if resizeFlag || (cfg.minSize <= CurSize() && cfg.keepSize <= FreeSize()) {
        return;
      }
      resizeFlag := true;
    }

    /** `_resize`, with `factory(k)` what the `k`-th driver call gives. */
    method Grow(now: int, factory: nat -> Attempt)
      modifies this
      ensures usedConn == old(usedConn)
      ensures Abs() == PoolModel.Grow(old(Abs()), now, factory)
    {
      var incrSize := cfg.minSize - CurSize();
      if cfg.keepSize > incrSize {
        incrSize := cfg.keepSize;
      }
      var tmpSize := CurSize() + incrSize;
      if cfg.maxSize < tmpSize {
        incrSize := cfg.maxSize - CurSize();
      }
      assert incrSize == GrowAmount(Abs());
      PushCreated(incrSize, now, factory);
      resizeFlag := false;
    }

    /** The loop of `_resize`: `n` driver calls, each handle pushed onto the
        free list. A failing `newConn` is ignored and its nil handle pushed
        all the same. */
    method PushCreated(n: int, now: int, factory: nat -> Attempt)
      modifies this
      ensures usedConn == old(usedConn)
      ensures Abs() == Fill(old(Abs()), now, factory, Max0(n))
    {
      ghost var s0 := Abs();
      var i := 0;
      while i < n
        invariant 0 <= i <= Max0(n)
        invariant usedConn == old(usedConn) && cfg == s0.cfg
        invariant Abs() == Fill(s0, now, factory, i)
      {
        var conn := Created(cfg, factory(i));
        PushFree(conn, now);
        i := i + 1;
      }
      assert i == Max0(n);
    }

    /** The defaulting and clamping part of `Init`. */
    method NormalizeConfig()
      modifies this
      ensures cfg == InitConfig(old(cfg))
      ensures resizeFlag == old(resizeFlag) && freeConn == old(freeConn)
      ensures usedConn == old(usedConn) && connData == old(connData)
    {
      cfg := cfg.(minSize := DefaultIfZero(cfg.minSize, DefaultMinSize));
      cfg := cfg.(maxSize := DefaultIfZero(cfg.maxSize, DefaultMaxSize));
      cfg := cfg.(keepSize := DefaultIfZero(cfg.keepSize, DefaultKeepSize));
      cfg := cfg.(initSize := DefaultIfZero(cfg.initSize, DefaultInitSize));
      cfg := cfg.(incrSize := DefaultIfZero(cfg.incrSize, DefaultIncrSize));
      cfg := cfg.(maxFreeTime := DefaultIfZero(cfg.maxFreeTime, DefaultMaxFreeTime));
      cfg := cfg.(freeTestPeriod := DefaultIfZero(cfg.freeTestPeriod, DefaultFreeTestPeriod));
      cfg := cfg.(openRetryDelay := DefaultIfZero(cfg.openRetryDelay, DefaultOpenRetryDelay));
      cfg := cfg.(openRetryCount := DefaultIfZero(cfg.openRetryCount, DefaultOpenRetryCount));
      cfg := cfg.(testSqlStmt := DefaultIfEmpty(cfg.testSqlStmt, DefaultTestSqlStmt));

      if cfg.minSize > cfg.maxSize {
        cfg := cfg.(minSize := cfg.maxSize);
      }
      if cfg.keepSize > cfg.maxSize {
        cfg := cfg.(keepSize := cfg.maxSize);
      }
      if cfg.minSize > cfg.initSize {
        cfg := cfg.(initSize := cfg.minSize);
      }
    }

    /** `Init`, with `factory(k)` what the `k`-th driver call gives. The
        logger and the sweeper goroutine it starts are not part of it. */
    method Init(now: int, factory: nat -> Attempt) returns (err: Option<Error>)
      modifies this
      ensures usedConn == old(usedConn) || fresh(usedConn)
      ensures Abs() == PoolModel.Init(old(Abs()), now, factory).state
      ensures err == PoolModel.Init(old(Abs()), now, factory).out
    {
      if cfg.driver == "" || cfg.url == "" {
        return Some(ConfigMissing);
      }
      NormalizeConfig();

      connData := map[];
      freeConn := [];
      usedConn := new Sets.Set();

      assert Abs() == State(InitConfig(old(cfg)), old(resizeFlag), [], {}, map[]);
      err := PushOpened(cfg.initSize, now, factory);
    }

    /** The loop of `Init`: `n` driver calls, each handle pushed onto the
        free list, the first failing call ending the loop with its error. */
    method PushOpened(n: int, now: int, factory: nat -> Attempt) returns (err: Option<Error>)
      modifies this
      ensures usedConn == old(usedConn)
      ensures err.Some? <==> n > 0 && cfg.openRetryCount <= 0
      ensures err.Some? ==> err == Some(CantCreate) && Abs() == old(Abs())
      ensures err.None? ==> Abs() == Fill(old(Abs()), now, factory, Max0(n))
    {
      ghost var s0 := Abs();
      var i := 0;
      while i < n
        invariant 0 <= i <= Max0(n)
        invariant usedConn == old(usedConn) && cfg == s0.cfg
        invariant cfg.openRetryCount <= 0 ==> i == 0
        invariant Abs() == Fill(s0, now, factory, i)
      {
        var r := NewConn(cfg, factory(i));
        if r.Err? {
          return Some(r.error);
        }
        PushFree(r.value, now);
        i := i + 1;
      }
      assert i == Max0(n);
      return None;
    }

    /** One attempt of `Open`, `a` being what the driver gives if a new
        handle is needed. `NoEligible` and `Discarded` are where the source
        sleeps or retries; `MustWait` is where it waits for the sweeper. */
    method Open(now: int, a: Attempt) returns (outcome: OpenOutcome)
      modifies this, usedConn
      ensures usedConn == old(usedConn)
      ensures Abs() == PoolModel.Open(old(Abs()), now, a).state
      ensures outcome == PoolModel.Open(old(Abs()), now, a).out
    {
      if FreeSize() > 0 {
        var i := 0;
        while i < |freeConn|
          invariant 0 <= i <= |freeConn|
          invariant forall j :: 0 <= j < i ==> !Eligible(freeConn[j], connData)
        {
          var c := freeConn[i];
          if c in connData && !connData[c].hold {
            break;
          }
          i := i + 1;
        }
        if i == |freeConn| {
          return NoEligible;
        }
        assert FirstEligible(freeConn, connData) == Some(i);
        var conn := freeConn[i];
        var cd := connData[conn];
        if cd.freeCheck {
          return MustWait(conn);
        }
        if !cd.valid || cd.expired {
          connData := connData - {conn};
          return Discarded(conn);
        }
        connData := connData[conn := cd.(openTime := now, closeTime := 0)];
        freeConn := freeConn[..i] + freeConn[i + 1..];
        usedConn.Add(conn);
        Resize();
        return Acquired(conn);
      }

      if UsedSize() >= cfg.maxSize {
        return Failed(PoolExhausted);
      }
      var r := NewConn(cfg, a);
      if r.Err? {
        return Failed(r.error);
      }
      var conn := r.value;
      connData := connData[conn := FreshUsedData(now)];
      usedConn.Add(conn);
      Resize();
      return Acquired(conn);
    }

    /** `Close`: never reports an error, whatever the handle. */
    method Close(c: Conn, now: int) returns (err: Option<Error>)
      modifies this, usedConn
      ensures usedConn == old(usedConn)
      ensures Abs() == PoolModel.Close(old(Abs()), c, now)
      ensures err == None
    {
      usedConn.Remove(c);
      PushFree(c, now);
      return None;
    }

    /** Phase A of `freeCheck`: mark every free handle as under check.
        `crashed` reports the nil-record dereference on a free handle
        without metadata; the state after a crash is not specified beyond
        the registries. */
    method SweepMark() returns (crashed: bool)
      modifies this
      ensures usedConn == old(usedConn) && freeConn == old(freeConn)
      ensures crashed <==> PoolModel.Mark(old(Abs())).Err?
      ensures !crashed ==> Abs() == PoolModel.Mark(old(Abs())).value
    {
      var i := 0;
      while i < |freeConn|
        invariant 0 <= i <= |freeConn|
        invariant usedConn == old(usedConn) && freeConn == old(freeConn)
        invariant cfg == old(cfg) && resizeFlag == old(resizeFlag)
        invariant connData.Keys == old(connData).Keys
        invariant forall j :: 0 <= j < i ==> freeConn[j] in connData
        invariant forall c :: c in connData ==>
                    connData[c] == if c in freeConn[..i] then old(connData)[c].(freeCheck := true)
                                   else old(connData)[c]
      {
        var c := freeConn[i];
        if c !in connData {
          return true;
        }
        connData := connData[c := connData[c].(freeCheck := true)];
        assert freeConn[..i + 1] == freeConn[..i] + [c];
        i := i + 1;
      }
      assert freeConn[..i] == freeConn;
      return false;
    }

    /** Phase B of `freeCheck` for the free-list entry at position `i`, with
        `probe` the answer of the validation query. Closing the driver handle
        and waking a waiter are not part of it. */
    method SweepFinish(i: nat, now: int, probe: bool) returns (crashed: bool)
      requires i < |freeConn|
      modifies this
      ensures usedConn == old(usedConn)
      ensures crashed <==> PoolModel.Finish(old(Abs()), i, now, probe).Err?
      ensures !crashed ==> Abs() == PoolModel.Finish(old(Abs()), i, now, probe).value
    {
      var c := freeConn[i];
      if c !in connData {
        return true;
      }
      var cd := connData[c];
      cd := cd.(expired := now - cd.closeTime > cfg.maxFreeTime);
      cd := cd.(valid := probe);
      cd := cd.(freeCheck := false);
      connData := connData[c := cd];
      if cd.expired || !cd.valid {
        freeConn := freeConn[..i] + freeConn[i + 1..];
        Resize();
      }
      return false;
    }
  }
}
