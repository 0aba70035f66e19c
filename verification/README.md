# dbpool: a verified model of the pool's bookkeeping

`DBPool` (pool/db.go) is a small database connection pool for Go. It keeps
three registries under one mutex:

- an ordered free list of idle handles (`freeConn`);
- a set of checked-out handles (`usedConn`, a `container/set` `Set`);
- a table of per-handle metadata (`connData`).

`Init` fills in default sizes, clamps them, and opens `InitSize` handles.
`Open` hands out the first free handle that is usable, or creates one while
`MaxSize` allows. `Close` returns a handle to the back of the free list. A
background sweeper marks the free handles and later evicts those that are
idle too long or fail a validation query. After a take, a creation or an
eviction, `resize` starts a growth pass if none is pending and the pool is
below `MinSize` handles in all or has fewer than `KeepSize` free. The pass adds the larger of the shortfall
below `MinSize` and `KeepSize` new free handles, but never more than fit
under `MaxSize`. A flag makes sure only one such pass is pending at a time.

The project has four modules:

- `Sets` (set.dfy): the `Set` class over a `map<T, bool>`, with `Add`,
  `Contains`, `Len` and `Remove`.
- `PoolModel` (pool_model.dfy): the pool's state as a value, and one
  function per step the source runs under the mutex. A step is one of:
  defaulting and clamping, `newConn`, `pushFree`, `resize`, `_resize`,
  `Init`, one attempt of `Open`, `Close`, the mark phase of the sweeper, and
  the finish step for one free entry.
- `PoolInvariants` (pool_invariants.dfy): the bookkeeping invariant, the
  size bound, and lemmas about the steps. The invariant says:
  - no handle is twice in the free list;
  - no handle is both free and used;
  - every registered handle has metadata that fits its registry.

  The lemmas cover:
  - which steps keep the invariant and the size bound;
  - first-in first-out reuse;
  - expiry and eviction;
  - growth-pass arithmetic;
  - single flight of the resize flag.
- `Pool` (pool.dfy): the `DBPool` class with the source's fields. Each
  method updates them in place and is proved to leave the state, seen
  through `Abs()`, exactly as the `PoolModel` function for that step does.

Handles are `Conn` values compared by identity. `Nil` is the nil handle the
driver gives back when it cannot connect. Everything the source gets from
outside the pool is a parameter:

- the clock (`now`);
- the driver's connect result (`Attempt`, with `factory(k)` the result of
  the `k`-th call in a loop);
- the answer of the validation query (`probe`).

`newConn` returns on its first pass whatever the driver gave, nil included,
with no error. It reports an error only when `OpenRetryCount` is not
positive, so its loop makes no pass at all. `_resize` ignores that error and
pushes the nil handle anyway. `Init` stops at the first error.

## Model

| member | source | states |
|---|---|---|
| Sets.Set.constructor | container/set/set.go:20-22 | `New` gives an empty set of size 0 |
| Sets.Set.Add | container/set/set.go:7-9 | `e` becomes a member and no other membership changes; the size grows by one exactly when `e` was absent |
| Sets.Set.Contains | container/set/set.go:11-14 | true exactly for the members |
| Sets.Set.Len | container/set/set.go:16-18 | the number of distinct members |
| Sets.Set.Remove | container/set/set.go:24-26 | `e` is no longer a member and no other membership changes; removing an absent element leaves the map as it was; the size drops by one exactly when `e` was present |
| PoolModel.Defaulted | pool/db.go:231-240 | the `setDefInt` calls (`DefaultIfZero`, pool/db.go:64-68) give every zero size or timing field its default from the constants block; the `setDefStr` call (`DefaultIfEmpty`, pool/db.go:70-74) gives an empty test statement `SELECT @@VERSION`; every other field is kept, and `CloseOnFailure` and `TestOnOpen` are never defaulted |
| PoolModel.InitConfig | pool/db.go:242-252 | after the clamps `MinSize <= MaxSize`, `KeepSize <= MaxSize` and `MinSize <= InitSize`; each clamp changes its field only when the field breaks its bound |
| PoolInvariants.InitConfigIdempotent | pool/db.go:231-252 | defaulting and clamping an already initialised configuration changes nothing |
| PoolModel.NewConn | pool/db.go:76-90 | an error, `Can't create connection`, exactly when `OpenRetryCount <= 0`; otherwise the driver's handle, which is nil exactly when the connect failed |
| PoolModel.Created | pool/db.go:147-155 | the handle `_resize` pushes: the driver's handle, or nil when `newConn` errs |
| PoolModel.PushFree | pool/db.go:93-106 | the handle is appended to the free list; a handle it has never seen gets fresh free metadata (valid, unexpired, not held, closed now); a known handle only has its close time set to now and its open time cleared; no other metadata changes |
| PoolModel.Close | pool/db.go:346-352 | the handle leaves the used set and is pushed back as `pushFree` does; it never fails |
| Pool.DBPool.Close | pool/db.go:346-352 | the new state is `PoolModel.Close` of the old one, and the result is no error |
| PoolInvariants.CloseKeepsInv | pool/db.go:346-352 | closing a checked-out handle, or one the pool has never seen, keeps the invariant; closing a checked-out handle keeps the total size |
| PoolModel.Resize | pool/db.go:121-131 | the test of `NeedsResize` decides; only the flag changes; it is set exactly when it was already set or the pool is below `MinSize` in all or `KeepSize` free; with the flag already set nothing changes |
| PoolInvariants.ResizeSingleFlight | pool/db.go:121-131 | while a pass is pending the check is a no-op, and it is idempotent; otherwise it changes the state exactly when the pool is short; it keeps the invariant |
| Pool.DBPool.Resize | pool/db.go:121-131 | the new state is `PoolModel.Resize` of the old one |
| PoolModel.Fill | pool/db.go:147-155 | `n` rounds of pushing a `newConn` handle append, in call order, exactly the `n` created handles behind the old free list; configuration, used set and flag are untouched |
| PoolModel.Grow | pool/db.go:133-158 | the growth pass appends `max(0, incrSize)` handles behind the unchanged free list, leaves the used set alone and clears the flag |
| PoolModel.GrowAmount | pool/db.go:139-145 | `incrSize` never takes a pool within `MaxSize` past it; a pool above `MaxSize` gets a negative amount; the amount is at most the larger of `KeepSize` and the shortfall below `MinSize`; it is at least both unless it fills the pool exactly to `MaxSize` |
| PoolInvariants.GrowAdds | pool/db.go:139-145 | the pass adds the larger of the minimum-size deficit and `KeepSize`; when that would pass `MaxSize` it fills exactly up to `MaxSize`; a pool already above `MaxSize` gets nothing |
| PoolInvariants.GrowRestores | pool/db.go:133-158 | after the pass the pool holds at least `MinSize` handles; a pool within `MaxSize` stays within it; when there is room, at least `KeepSize` more handles are free |
| PoolInvariants.GrowData | pool/db.go:133-158 | with fresh driver handles, a growth pass registers exactly the old handles and the new ones; the old handles keep their metadata, and the new ones get fresh free metadata |
| PoolInvariants.FillKeepsOldData | pool/db.go:93-106 | a run of pushes leaves the metadata of every handle it does not push as it was |
| PoolInvariants.FreshNotKnown | pool/db.go:147-155 | fresh driver handles are none of the handles the pool already knew |
| PoolInvariants.FailedConnectsDuplicateNil | pool/db.go:76-90 | when the driver fails twice, two pushes put the nil handle twice on the free list, which breaks the invariant |
| PoolInvariants.GrowKeepsInv | pool/db.go:133-158 | the pass keeps the invariant when the driver hands out new, distinct handles |
| PoolInvariants.FillKeys | pool/db.go:93-106 | after `n` pushes the metadata table knows exactly the old handles and the pushed ones |
| PoolInvariants.NextIsFresh | pool/db.go:147-155 | with fresh driver handles, each pushed handle is new to the state the earlier pushes left |
| PoolInvariants.PushFreshKeepsInv | pool/db.go:93-106 | pushing a handle the pool has never seen keeps the invariant |
| PoolInvariants.FillKeepsInv | pool/db.go:147-155 | `n` pushes of fresh, distinct handles keep the invariant |
| PoolInvariants.PushKeepsFreshData | pool/db.go:93-106 | a push of a new handle gives it fresh metadata and leaves the fresh metadata of the handles pushed before it |
| PoolInvariants.FillFreshData | pool/db.go:262-268 | every handle a run of pushes adds carries fresh free metadata stamped with the current time |
| Pool.DBPool.PushFree | pool/db.go:93-106 | the new state is `PoolModel.PushFree` of the old one |
| Pool.DBPool.PushCreated | pool/db.go:147-155 | the loop of `_resize` leaves the state that `PoolModel.Fill` gives for `max(0, n)` driver calls |
| Pool.DBPool.Grow | pool/db.go:133-158 | the new state is `PoolModel.Grow` of the old one |
| PoolModel.Init | pool/db.go:220-272 | a configuration error exactly when `Driver` or `Url` is empty, with the state untouched; otherwise the normalised configuration and empty used set; `Can't create connection`, with empty registries, exactly when `InitSize > 0` and `OpenRetryCount <= 0`; on success the free list is exactly the `InitSize` handles the driver gave, in call order |
| PoolInvariants.InitEstablishesInv | pool/db.go:254-268 | after a successful `Init` with fresh driver handles the invariant holds, nothing is used, the free list holds `InitSize` handles, each with fresh metadata, and the metadata table knows exactly the free handles |
| PoolInvariants.InitBoundedIff | pool/db.go:242-252 | `Init` does not bound `InitSize` by `MaxSize`, so for a non-negative `MaxSize` the pool is within `MaxSize` after a successful `Init` exactly when `InitSize <= MaxSize` |
| PoolInvariants.DefaultInitScenario | pool/db.go:14-26 | with every size field unset, `Init` succeeds with two free handles, none used, sizes 2, 5 and 2, and the default test statement |
| Pool.DBPool.constructor | pool/db.go:38-62 | a pool with the given configuration, the flag clear and all three registries empty |
| Pool.DBPool.NormalizeConfig | pool/db.go:231-252 | the configuration becomes `InitConfig` of the old one and nothing else changes |
| Pool.DBPool.PushOpened | pool/db.go:262-268 | the loop of `Init` reports `Can't create connection`, leaving the state as it was, exactly when it has at least one pass and `OpenRetryCount <= 0`; otherwise it leaves the state `PoolModel.Fill` gives |
| Pool.DBPool.Init | pool/db.go:220-272 | the new state and the result are those of `PoolModel.Init` |
| Pool.DBPool.CurSize | pool/db.go:108-110 | used plus free handles |
| Pool.DBPool.FreeSize | pool/db.go:112-114 | the length of the free list |
| Pool.DBPool.UsedSize | pool/db.go:116-118 | the size of the used set |
| PoolModel.FirstEligible | pool/db.go:288-298 | the index of the first free entry that has metadata and is not held, or none when no entry qualifies |
| PoolModel.Open | pool/db.go:274-344 | `No more connections` exactly when nothing is free and `MaxSize` handles are used; `Can't create connection` exactly when nothing is free, there is room, and `OpenRetryCount <= 0`; the no-eligible-entry retry exactly when the scan finds nothing; failures, the retry and the wait change nothing; a stale entry only loses its metadata; an acquired handle is used, stamped open now, valid and unexpired, and no other metadata changes; with free handles the taken, waited-on or discarded handle is the first eligible entry, and an acquire removes exactly that entry from the free list; a created handle gets fresh used metadata and the free list stays empty; after an acquire the flag is set exactly when it was set or the new state is below `MinSize` in all or `KeepSize` free |
| PoolInvariants.OpenTakesFront | pool/db.go:286-323 | under the invariant `Open` with free handles picks the front one: it waits when a check is under way, otherwise takes it, and the rest of the list keeps its order |
| PoolInvariants.TakeFrontKeepsInv | pool/db.go:317-320 | moving the front free handle, stamped as opened, to the used set keeps the invariant |
| PoolInvariants.AcquireFrontKeepsInv | pool/db.go:317-323 | taking the front free handle keeps the invariant |
| PoolInvariants.OpenKeepsInv | pool/db.go:274-344 | every outcome of `Open` keeps the invariant, and under it a stale entry is never met |
| PoolInvariants.OpenKeepsBounded | pool/db.go:326-343 | `Open` keeps used plus free handles within `MaxSize` |
| PoolInvariants.OpenCreates | pool/db.go:326-343 | with nothing free, room below `MaxSize` and a positive retry count, `Open` hands out the driver's handle, registered as used with fresh metadata |
| PoolInvariants.DoubleCloseHandsOutTwice | pool/db.go:346-352 | closing a checked-out handle twice puts it twice on the free list, and the next two `Open`s both hand it out, leaving it both free and used |
| PoolInvariants.FifoReuse | pool/db.go:93-106 | of two handles closed one after the other into an empty free list, the next `Open` hands out the first and leaves the second |
| Pool.DBPool.Open | pool/db.go:274-344 | the new state and the outcome are those of `PoolModel.Open` |
| PoolModel.Mark | pool/db.go:166-182 | the mark phase fails, by dereferencing a missing record, exactly when a free entry has no metadata; otherwise every free handle is marked as under check and nothing else changes |
| PoolInvariants.MarkKeepsInv | pool/db.go:166-182 | under the invariant the mark phase succeeds, keeps the invariant and keeps the sizes |
| Pool.DBPool.SweepMark | pool/db.go:166-182 | it reports the crash exactly when `PoolModel.Mark` fails, and otherwise leaves `PoolModel.Mark`'s state |
| PoolModel.Finish | pool/db.go:184-209 | it fails exactly when the entry has no metadata; otherwise the entry's expiry (`Expired`: idle longer than `MaxFreeTime`) and validity (the probe) are recorded and its check flag is cleared; an expired or invalid entry leaves the free list, and the `resize` check then sets the flag exactly when it was set or the pool is short; otherwise the flag is kept; no other metadata changes |
| PoolInvariants.FinishKeepsInv | pool/db.go:184-209 | under the invariant the finish step succeeds, keeps the invariant, and never grows the pool |
| PoolInvariants.FinishEvicts | pool/db.go:194-209 | after this step an expired or failed entry is no longer in the free list, which shrinks by one, and the flag is set when the pool is short; any other entry stays, valid, unexpired and no longer under check, with the flag unchanged |
| PoolInvariants.EvictedNotReturned | pool/db.go:194-209 | an evicted handle is not handed out by the next `Open` unless the driver gives the very same handle again |
| Pool.DBPool.SweepFinish | pool/db.go:184-209 | it reports the crash exactly when `PoolModel.Finish` fails, and otherwise leaves `PoolModel.Finish`'s state |

## Left out

- Concurrency: the mutex, the goroutines that `resize` and `Init` start, and the condition variable. Each step is modelled as one atomic call, and `Grow` is the pass that `resize` starts.
- The wait loop in `Open` (pool/db.go:306-315) is left out. It sets `hold`, waits on the condition, and clears `hold`. `MustWait` is the point where it would block, and the model changes nothing there. The sweeper's `Signal` (pool/db.go:211-213) is left out with it.
- The unlocked part of the sweeper's phase B (pool/db.go:184-198) is left out. There the metadata is written and the list is walked without the lock. `Finish` is one entry's update, applied atomically, and the walk over the list is not modelled. The endless loop and the sleep between sweeps are not modelled either.
- The walk of phase B ends after its first eviction. `list.Remove` at pool/db.go:203 clears the element's link, so `d.Next()` at pool/db.go:184 then gives nil. One sweep therefore evicts at most one handle, and the entries after it keep their check flag set until the next sweep. The per-entry `Finish` does not capture this.
- Sleeps and retries: the sleep in `newConn`, and the sleep and recursive retry in `Open`. `NoEligible` and `Discarded` are the points where `Open` retries. The model gives the outcome of one attempt.
- Driver calls: `sql.Open` is the `Attempt` parameter, and `testSQL` is the `probe` parameter. Closing an evicted driver handle (pool/db.go:204-207) has no effect on the pool's bookkeeping and is not modelled.
- Metadata records are values in a map, not shared pointers. Two left-out parts rely on the aliasing: the unlocked phase B, and the wait loop in `Open`, which reads the same record again after waking.
- Time is one `now` per step. `int64` timestamps, the `int` conversion in the expiry test and the 64-bit `int` size arithmetic of `_resize` (pool/db.go:139-145) are unbounded integers, so wrap-around is not modelled.
- Fields that exist before `Init`: the model's constructor starts with empty registries, where the source has nil ones until `Init`. The logger, the `Free` stub (pool/db.go:354-357) and pool/db1.go are not part of this model.
- The panics on a failed type assertion of a free-list element cannot happen with a typed list and are not modelled.
- Configuration fields no modelled step reads: `OpenRetryDelay` and `FreeTestPeriod` are defaulted, and only the left-out sleeps read them (pool/db.go:83, 168, 301). `IncrSize` is defaulted but read nowhere in pool/db.go. `CloseOnFailure` and `TestOnOpen` are carried unchanged and read nowhere in pool/db.go.
- When the driver cannot connect, `newConn` hands back the nil handle with no error. `_resize` and `Init` then push it, so two failed connects put the nil handle twice on the free list (`FailedConnectsDuplicateNil`). The invariant lemmas about filling the pool therefore assume fresh, distinct driver handles (`FreshAttempts`).
- Closing a handle that is not checked out: the source pushes it onto the free list all the same (pool/db.go:349-350, 105), so a second `Close` of the same handle puts it there twice, and the next two `Open`s both hand it out (`DoubleCloseHandsOutTwice`). `CloseKeepsInv` therefore covers only a checked-out handle or one the pool has never seen.
