/** The bookkeeping of the connection pool (pool/db.go) as values: one record
    for the pool's state and one function per step that the source runs
    under the pool's mutex. Time, the driver's connect result and the
    validation probe's answer are parameters of the steps. */
module PoolModel {

  // Defaults of the sizing configuration (pool/db.go:14-26).
  const DefaultMinSize := 2
  const DefaultMaxSize := 5
  const DefaultKeepSize := 2
  const DefaultInitSize := 2
  const DefaultIncrSize := 2
  const DefaultMaxFreeTime := 600
  const DefaultFreeTestPeriod := 60
  const DefaultOpenRetryCount := 30
  const DefaultOpenRetryDelay := 1000
  const DefaultTestSqlStmt := "SELECT @@VERSION"

  datatype Option<T> = None | Some(value: T)

  /** The errors the pool returns, and `NilMetadata`, which stands for the
      nil-record dereference with which the sweeper crashes when a free
      handle has no metadata entry. */
  datatype Error = ConfigMissing | CantCreate | PoolExhausted | NilMetadata

  datatype Result<T> = Ok(value: T) | Err(error: Error)

  /** A connection handle, compared by identity; `Nil` is the nil pointer
      the driver gives back when it fails to connect. */
  datatype Conn = Nil | Db(id: nat)

  /** What one call of the driver's connect function gave. */
  datatype Attempt = Connected(id: nat) | ConnectFailed

  /** Per-handle metadata (`Data`). */
  datatype Data = Data(freeCheck: bool, expired: bool, valid: bool, hold: bool,
                       closeTime: int, openTime: int)

  /** The exported configuration fields of `DBPool`. */
  datatype Config = Config(
    driver: string, url: string, testSqlStmt: string,
    minSize: int, maxSize: int, keepSize: int, initSize: int, incrSize: int,
    maxFreeTime: int, freeTestPeriod: int, openRetryCount: int, openRetryDelay: int,
    closeOnFailure: bool, testOnOpen: bool)

  /** The pool: configuration, the single-flight resize flag, the ordered free
      list (`freeConn`), the used set (`usedConn`) and the metadata table
      (`connData`). */
  datatype State = State(cfg: Config, resizeFlag: bool, free: seq<Conn>,
                         used: set<Conn>, data: map<Conn, Data>)

  /** The state after a step, with what the step reports. */
  datatype Step<O> = Step(state: State, out: O)

  /** What one attempt of `Open` ends in. `MustWait` is the point where the
      source blocks on the condition variable; `Discarded` and `NoEligible`
      are the points where it retries `Open` from scratch. */
  datatype OpenOutcome =
    | Acquired(conn: Conn)
    | MustWait(conn: Conn)
    | Discarded(conn: Conn)
    | NoEligible
    | Failed(error: Error)

  function Max0(n: int): nat { if n > 0 then n else 0 }

  /** `setDefInt`. */
  function DefaultIfZero(v: int, default: int): int { if v == 0 then default else v }

  /** `setDefStr`. */
  function DefaultIfEmpty(v: string, default: string): string { if v == "" then default else v }

  /** The defaulting pass of `Init`: every zero or empty field takes its
      default, every other field is kept. */
  function Defaulted(c: Config): (r: Config)
    ensures r.driver == c.driver && r.url == c.url
    ensures r.closeOnFailure == c.closeOnFailure && r.testOnOpen == c.testOnOpen
    ensures r.testSqlStmt == (if c.testSqlStmt == "" then DefaultTestSqlStmt else c.testSqlStmt)
    ensures r.minSize == (if c.minSize == 0 then DefaultMinSize else c.minSize)
    ensures r.maxSize == (if c.maxSize == 0 then DefaultMaxSize else c.maxSize)
    ensures r.keepSize == (if c.keepSize == 0 then DefaultKeepSize else c.keepSize)
    ensures r.initSize == (if c.initSize == 0 then DefaultInitSize else c.initSize)
    ensures r.incrSize == (if c.incrSize == 0 then DefaultIncrSize else c.incrSize)
    ensures r.maxFreeTime == (if c.maxFreeTime == 0 then DefaultMaxFreeTime else c.maxFreeTime)
    ensures r.freeTestPeriod == (if c.freeTestPeriod == 0 then DefaultFreeTestPeriod else c.freeTestPeriod)
    ensures r.openRetryDelay == (if c.openRetryDelay == 0 then DefaultOpenRetryDelay else c.openRetryDelay)
    ensures r.openRetryCount == (if c.openRetryCount == 0 then DefaultOpenRetryCount else c.openRetryCount)
  {
    c.(minSize := DefaultIfZero(c.minSize, DefaultMinSize),
       maxSize := DefaultIfZero(c.maxSize, DefaultMaxSize),
       keepSize := DefaultIfZero(c.keepSize, DefaultKeepSize),
       initSize := DefaultIfZero(c.initSize, DefaultInitSize),
       incrSize := DefaultIfZero(c.incrSize, DefaultIncrSize),
       maxFreeTime := DefaultIfZero(c.maxFreeTime, DefaultMaxFreeTime),
       freeTestPeriod := DefaultIfZero(c.freeTestPeriod, DefaultFreeTestPeriod),
       openRetryDelay := DefaultIfZero(c.openRetryDelay, DefaultOpenRetryDelay),
       openRetryCount := DefaultIfZero(c.openRetryCount, DefaultOpenRetryCount),
       testSqlStmt := DefaultIfEmpty(c.testSqlStmt, DefaultTestSqlStmt))
  }

  /** The configuration `Init` leaves: defaults first, then the three clamps,
      which touch a field only when it breaks its bound. */
  function InitConfig(c: Config): (r: Config)
    ensures r.minSize <= r.maxSize && r.keepSize <= r.maxSize && r.minSize <= r.initSize
    ensures r.maxSize == Defaulted(c).maxSize
    ensures r.minSize == (if Defaulted(c).minSize > r.maxSize then r.maxSize else Defaulted(c).minSize)
    ensures r.keepSize == (if Defaulted(c).keepSize > r.maxSize then r.maxSize else Defaulted(c).keepSize)
    ensures r.initSize == (if r.minSize > Defaulted(c).initSize then r.minSize else Defaulted(c).initSize)
    ensures r == Defaulted(c).(minSize := r.minSize, keepSize := r.keepSize, initSize := r.initSize)
  {
    var d := Defaulted(c);
    var d1 := if d.minSize > d.maxSize then d.(minSize := d.maxSize) else d;
    var d2 := if d1.keepSize > d1.maxSize then d1.(keepSize := d1.maxSize) else d1;
    if d2.minSize > d2.initSize then d2.(initSize := d2.minSize) else d2
  }

  function ConnOf(a: Attempt): Conn
  {
    if a.Connected? then Db(a.id) else Nil
  }

  /** `newConn`: its loop returns on the first pass whatever the driver gave,
      nil included, with no error; the error is reported only when the retry
      count leaves the loop no pass at all. */
  function NewConn(cfg: Config, a: Attempt): (r: Result<Conn>)
    ensures r.Err? <==> cfg.openRetryCount <= 0
    ensures r.Err? ==> r.error == CantCreate
    ensures r.Ok? ==> r.value == ConnOf(a) && (r.value == Nil <==> a.ConnectFailed?)
  {
    if cfg.openRetryCount > 0 then Ok(ConnOf(a)) else Err(CantCreate)
  }

  /** The handle a caller gets from `newConn` when it ignores the error: the
      nil handle on error. */
  function Created(cfg: Config, a: Attempt): (c: Conn)
    ensures cfg.openRetryCount > 0 ==> c == ConnOf(a)
    ensures cfg.openRetryCount <= 0 ==> c == Nil
  {
    match NewConn(cfg, a)
    case Ok(c) => c
    case Err(_) => Nil
  }

  /** Metadata `pushFree` gives a handle it has never seen. */
  function FreshFreeData(now: int): Data
  {
    Data(freeCheck := false, expired := false, valid := true, hold := false,
         closeTime := now, openTime := 0)
  }

  /** Metadata `Open` gives a handle it has just created. */
  function FreshUsedData(now: int): Data
  {
    Data(freeCheck := false, expired := false, valid := true, hold := false,
         closeTime := 0, openTime := now)
  }

  function CurSize(s: State): int { |s.used| + |s.free| }

  /** `pushFree`: the handle goes to the back of the free list; a known
      handle has only its timestamps changed. */
  function PushFree(s: State, c: Conn, now: int): (r: State)
    ensures r.free == s.free + [c] && r.free[..|s.free|] == s.free
    ensures r.cfg == s.cfg && r.used == s.used && r.resizeFlag == s.resizeFlag
    ensures r.data.Keys == s.data.Keys + {c}
    ensures c !in s.data ==> r.data[c] == FreshFreeData(now)
    ensures c in s.data ==> r.data[c] == s.data[c].(closeTime := now, openTime := 0)
    ensures forall k :: k in s.data && k != c ==> r.data[k] == s.data[k]
  {
    var d := if c in s.data then s.data[c].(closeTime := now, openTime := 0) else FreshFreeData(now);
    s.(data := s.data[c := d], free := s.free + [c])
  }

  /** `Close`: the handle leaves the used set and is pushed back as
      `pushFree` does; it never fails. */
  function Close(s: State, c: Conn, now: int): (r: State)
    ensures r == PushFree(s.(used := s.used - {c}), c, now)
    ensures c !in r.used && r.used == s.used - {c}
    ensures r.free == s.free + [c]
  {
    PushFree(s.(used := s.used - {c}), c, now)
  }

  /** `resize`: whether the check asks for a growth pass. */
  predicate NeedsResize(s: State)
  {
    !(s.resizeFlag || (s.cfg.minSize <= CurSize(s) && s.cfg.keepSize <= |s.free|))
  }

  /** `resize`: sets the single-flight flag (and starts `_resize`) when no
      pass is pending and the pool is below its minimum or keep size. */
  function Resize(s: State): (r: State)
    ensures r == s.(resizeFlag := r.resizeFlag)
    ensures r.resizeFlag <==> s.resizeFlag || s.cfg.minSize > CurSize(s) || s.cfg.keepSize > |s.free|
    ensures s.resizeFlag ==> r == s
  {
    if NeedsResize(s) then s.(resizeFlag := true) else s
  }

  /** `incrSize` in `_resize`: the larger of the minimum-size deficit and the
      keep size, cut down to what fits under the maximum size. */
  function GrowAmount(s: State): (n: int)
    ensures CurSize(s) <= s.cfg.maxSize ==> CurSize(s) + n <= s.cfg.maxSize
    ensures CurSize(s) > s.cfg.maxSize ==> n < 0
    ensures n <= s.cfg.keepSize || n <= s.cfg.minSize - CurSize(s)
    ensures CurSize(s) + n == s.cfg.maxSize || (n >= s.cfg.keepSize && n >= s.cfg.minSize - CurSize(s))
  {
    var incr := if s.cfg.keepSize > s.cfg.minSize - CurSize(s) then s.cfg.keepSize
                else s.cfg.minSize - CurSize(s);
    if s.cfg.maxSize < CurSize(s) + incr then s.cfg.maxSize - CurSize(s) else incr
  }

  /** The handles the first `n` calls of `newConn` give, the `k`-th driver
      call giving `factory(k)`. */
  function Pushed(cfg: Config, factory: nat -> Attempt, n: nat): (r: seq<Conn>)
    ensures |r| == n
  {
    if n == 0 then [] else Pushed(cfg, factory, n - 1) + [Created(cfg, factory(n - 1))]
  }

  /** `n` rounds of `pushFree(newConn())` with the error ignored: the new
      handles land, in call order, behind the existing free list. */
  function Fill(s: State, now: int, factory: nat -> Attempt, n: nat): (r: State)
    ensures r.cfg == s.cfg && r.used == s.used && r.resizeFlag == s.resizeFlag
    ensures r.free == s.free + Pushed(s.cfg, factory, n)
    decreases n
  {
    if n == 0 then s
    else PushFree(Fill(s, now, factory, n - 1), Created(s.cfg, factory(n - 1)), now)
  }

  /** `_resize`: the growth pass, then the flag is cleared. */
  function Grow(s: State, now: int, factory: nat -> Attempt): (r: State)
    ensures r.cfg == s.cfg && r.used == s.used && !r.resizeFlag
    ensures |r.free| == |s.free| + Max0(GrowAmount(s)) && r.free[..|s.free|] == s.free
  {
    Fill(s, now, factory, Max0(GrowAmount(s))).(resizeFlag := false)
  }

  /** `Init`: configuration error when driver or url is unset; otherwise
      defaults and clamps, fresh empty registries and `initSize` handles
      pushed free. The first failing `newConn` (there is one only when the
      retry count is not positive) ends it with that error. */
  function Init(s: State, now: int, factory: nat -> Attempt): (r: Step<Option<Error>>)
    ensures r.out == Some(ConfigMissing) <==> s.cfg.driver == "" || s.cfg.url == ""
    ensures r.out == Some(ConfigMissing) ==> r.state == s
    ensures r.out != Some(ConfigMissing) ==>
              r.state.cfg == InitConfig(s.cfg) && r.state.used == {} && r.state.resizeFlag == s.resizeFlag
    ensures r.out == Some(CantCreate) <==>
              s.cfg.driver != "" && s.cfg.url != "" &&
              InitConfig(s.cfg).initSize > 0 && InitConfig(s.cfg).openRetryCount <= 0
    ensures r.out == Some(CantCreate) ==> r.state.free == [] && r.state.data == map[]
    ensures r.out.None? ==> |r.state.free| == Max0(InitConfig(s.cfg).initSize)
    ensures r.out.None? ==>
              r.state.free == Pushed(InitConfig(s.cfg), factory, Max0(InitConfig(s.cfg).initSize))
    ensures r.out.Some? ==> r.out.value in {ConfigMissing, CantCreate}
  {
    if s.cfg.driver == "" || s.cfg.url == "" then Step(s, Some(ConfigMissing))
    else
      var cfg := InitConfig(s.cfg);
      var empty := State(cfg, s.resizeFlag, [], {}, map[]);
      if cfg.initSize > 0 && cfg.openRetryCount <= 0 then Step(empty, Some(CantCreate))
      else Step(Fill(empty, now, factory, Max0(cfg.initSize)), None)
  }

  /** A free-list entry `Open` may pick: it has metadata and no other caller
      is waiting on it. */
  predicate Eligible(c: Conn, data: map<Conn, Data>)
  {
    c in data && !data[c].hold
  }

  /** The front-to-back scan of `Open`. */
  function FirstEligible(free: seq<Conn>, data: map<Conn, Data>): (r: Option<nat>)
    ensures r.Some? ==> r.value < |free| && Eligible(free[r.value], data)
    ensures r.Some? ==> forall j :: 0 <= j < r.value ==> !Eligible(free[j], data)
    ensures r.None? ==> forall j :: 0 <= j < |free| ==> !Eligible(free[j], data)
  {
    if free == [] then None
    else if Eligible(free[0], data) then Some(0)
    else match FirstEligible(free[1..], data)
      case None => None
      case Some(k) => Some(k + 1)
  }

  function RemoveAt(s: seq<Conn>, i: nat): (r: seq<Conn>)
    requires i < |s|
    ensures |r| == |s| - 1
    ensures forall j :: 0 <= j < i ==> r[j] == s[j]
    ensures forall j :: i <= j < |r| ==> r[j] == s[j + 1]
  {
    s[..i] + s[i + 1..]
  }

  /** One attempt of `Open`. With free handles: the first eligible entry is
      taken if it is not being validated and is valid and unexpired; a stale
      one has its metadata deleted. With none: a capacity error at the
      maximum size, else a new handle from the driver. */
  function Open(s: State, now: int, a: Attempt): (r: Step<OpenOutcome>)
    ensures r.state.cfg == s.cfg
    ensures r.out == Failed(PoolExhausted) <==> s.free == [] && |s.used| >= s.cfg.maxSize
    ensures r.out == Failed(CantCreate) <==>
              s.free == [] && |s.used| < s.cfg.maxSize && s.cfg.openRetryCount <= 0
    ensures r.out.Failed? ==> r.out.error in {PoolExhausted, CantCreate}
    ensures r.out.NoEligible? <==> s.free != [] && FirstEligible(s.free, s.data).None?
    ensures r.out.Failed? || r.out.NoEligible? || r.out.MustWait? ==> r.state == s
    ensures r.out.Discarded? ==>
              r.out.conn in s.free && r.out.conn in s.data &&
              r.state == s.(data := s.data - {r.out.conn})
    ensures r.out.Acquired? ==>
              var c := r.out.conn;
              c in r.state.used && c in r.state.data &&
              r.state.data[c].openTime == now && r.state.data[c].closeTime == 0 &&
              r.state.data[c].valid && !r.state.data[c].expired && !r.state.data[c].freeCheck
    ensures r.out.Acquired? ==> r.state.used == s.used + {r.out.conn}
    ensures r.out.Acquired? ==>
              forall k :: k in s.data && k != r.out.conn ==> k in r.state.data && r.state.data[k] == s.data[k]
    ensures r.out.Acquired? && s.free != [] ==>
              FirstEligible(s.free, s.data).Some? &&
              var i := FirstEligible(s.free, s.data).value;
              r.out.conn == s.free[i] && r.state.free == RemoveAt(s.free, i) &&
              r.state.data == s.data[r.out.conn := s.data[r.out.conn].(openTime := now, closeTime := 0)]
    ensures r.out.Acquired? && s.free == [] ==>
              r.out.conn == ConnOf(a) && r.state.free == [] &&
              r.state.data == s.data[r.out.conn := FreshUsedData(now)]
    ensures r.out.Acquired? ==>
              (r.state.resizeFlag <==>
                 s.resizeFlag || s.cfg.minSize > CurSize(r.state) || s.cfg.keepSize > |r.state.free|)
    ensures r.out.MustWait? || r.out.Discarded? ==>
              FirstEligible(s.free, s.data).Some? &&
              r.out.conn == s.free[FirstEligible(s.free, s.data).value]
    ensures r.out.MustWait? ==> r.out.conn in s.data && s.data[r.out.conn].freeCheck
    ensures r.out.Discarded? ==>
              r.out.conn in s.data && !s.data[r.out.conn].freeCheck &&
              (!s.data[r.out.conn].valid || s.data[r.out.conn].expired)
  {
    if |s.free| > 0 then
      match FirstEligible(s.free, s.data)
      case None => Step(s, NoEligible)
      case Some(i) =>
        var c := s.free[i];
        var d := s.data[c];
        if d.freeCheck then Step(s, MustWait(c))
        else if !d.valid || d.expired then Step(s.(data := s.data - {c}), Discarded(c))
        else
          var taken := s.(data := s.data[c := d.(openTime := now, closeTime := 0)],
                          free := RemoveAt(s.free, i),
                          used := s.used + {c});
          Step(Resize(taken), Acquired(c))
    else if |s.used| >= s.cfg.maxSize then Step(s, Failed(PoolExhausted))
    else match NewConn(s.cfg, a)
      case Err(e) => Step(s, Failed(e))
      case Ok(c) =>
        var made := s.(data := s.data[c := FreshUsedData(now)], used := s.used + {c});
        Step(Resize(made), Acquired(c))
  }

  /** Phase A of the idle sweep: every free handle is marked as under check.
      A free handle without metadata makes the source crash. */
  function Mark(s: State): (r: Result<State>)
    ensures r.Ok? <==> forall i :: 0 <= i < |s.free| ==> s.free[i] in s.data
    ensures r.Err? ==> r.error == NilMetadata
    ensures r.Ok? ==>
              r.value.free == s.free && r.value.used == s.used && r.value.cfg == s.cfg &&
              r.value.resizeFlag == s.resizeFlag && r.value.data.Keys == s.data.Keys
    ensures r.Ok? ==> forall i :: 0 <= i < |s.free| ==> r.value.data[s.free[i]].freeCheck
    ensures r.Ok? ==> forall c :: c in s.data ==>
              r.value.data[c] == s.data[c].(freeCheck := r.value.data[c].freeCheck)
    ensures r.Ok? ==> forall c :: c in s.data && c !in s.free ==> r.value.data[c] == s.data[c]
  {
    if forall i :: 0 <= i < |s.free| ==> s.free[i] in s.data then
      Ok(s.(data := map c | c in s.data :: if c in s.free then s.data[c].(freeCheck := true) else s.data[c]))
    else Err(NilMetadata)
  }

  /** The idle test of phase B. */
  predicate Expired(cfg: Config, d: Data, now: int)
  {
    now - d.closeTime > cfg.maxFreeTime
  }

  /** Phase B of the idle sweep for the free-list entry at position `i`,
      with `probe` the answer of the validation query: the expiry and
      validity are recorded, the check flag is cleared, and an expired or
      invalid entry leaves the free list (and asks for a resize). Its
      metadata stays. */
  function Finish(s: State, i: nat, now: int, probe: bool): (r: Result<State>)
    requires i < |s.free|
    ensures r.Err? <==> s.free[i] !in s.data
    ensures r.Err? ==> r.error == NilMetadata
    ensures r.Ok? ==>
              var c := s.free[i];
              c in r.value.data && var d := r.value.data[c];
              r.value.data.Keys == s.data.Keys && r.value.used == s.used && r.value.cfg == s.cfg &&
              d == s.data[c].(expired := Expired(s.cfg, s.data[c], now), valid := probe, freeCheck := false) &&
              (forall k :: k in s.data && k != c ==> r.value.data[k] == s.data[k]) &&
              r.value.free == (if d.expired || !probe then RemoveAt(s.free, i) else s.free)
    ensures r.Ok? ==>
              r.value.resizeFlag ==
                if Expired(s.cfg, s.data[s.free[i]], now) || !probe
                then s.resizeFlag || s.cfg.minSize > CurSize(r.value) || s.cfg.keepSize > |r.value.free|
                else s.resizeFlag
  {
    var c := s.free[i];
    if c !in s.data then Err(NilMetadata)
    else
      var d := s.data[c].(expired := Expired(s.cfg, s.data[c], now), valid := probe);
      var checked := s.(data := s.data[c := d.(freeCheck := false)]);
      if d.expired || !d.valid then Ok(Resize(checked.(free := RemoveAt(s.free, i))))
      else Ok(checked)
  }
}
