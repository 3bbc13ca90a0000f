/** The native VMM allocation ledger against the driver it drives.

    The driver is a value that remembers which physical allocations, address reservations and
    mappings it holds, and for which ledger handle each was made. A driver call that fails has no
    effect. Every stage can also be failed before or after its ledger commit, as the fault hooks do;
    the model lets any set of stages fail, not just one. All entry points run under one global lock,
    so each is one step. */
module VmmLedger {
  import opened Prelude

  datatype Stage = PhysicalAlloc | VaReserve | Map | SetAccess | Export | Unmap | VaRelease | PhysicalFree

  // `before` and `after` are the injected failures; `rc` is what the driver answers when called
  // (nonzero: the call failed, except that an unmap may answer "already gone").
  datatype Fault = Fault(before: bool, rc: int, after: bool)
  type Faults = Stage -> Fault

  datatype Detail = BindFailed | Injected(stage: Stage, before: bool) | DriverCode(stage: Stage, rc: int)

  // What a record says the driver holds for it; 0 is the null handle and the null address.
  datatype Held = Held(physicalHandle: nat, va: nat, physicalAllocated: bool, vaReserved: bool, mapped: bool)

  // The cleanup half of a record. `attempted` and `complete` are the per-stage flags of the unmap,
  // the address release and the physical free.
  datatype Cleanup = Cleanup(
    attempted: set<Stage>,
    complete: set<Stage>,
    releaseOnceDone: bool,
    firstFailure: Option<Detail>,
    details: seq<Detail>)

  datatype Record = Record(
    deviceId: int,
    mappingBytes: nat,
    shareable: nat,
    accessSet: bool,
    exported: bool,
    held: Held,
    cleanup: Cleanup)

  // A cleanup call the driver received: for which ledger handle, and whether the mapping over the
  // resource was in place at that moment.
  datatype Call = Call(handle: nat, stage: Stage, whileMapped: bool)

  // Held resources map to the ledger handle they were obtained for; `mapped` sends a mapped
  // address to the physical allocation behind it.
  datatype Driver = Driver(
    physical: map<nat, nat>,
    reserved: map<nat, nat>,
    mapped: map<nat, nat>,
    calls: multiset<Call>)

  datatype World = World(records: map<nat, Record>, nextHandle: nat, driver: Driver)

  datatype BeginError = NegativeDevice | HandlesExhausted
  datatype AllocateError =
    | UnknownHandle | PartialState | BindError | BadSize | InjectedAt(stage: Stage, before: bool) | DriverAt(stage: Stage)
  // `First` carries the message that is thrown, `None` standing for an empty one.
  datatype ReleaseError = First(detail: Option<Detail>) | Uncleared

  datatype Exported = Exported(deviceAddr: nat, mappingBytes: nat, shareable: nat, registryHandle: nat)

  function Fresh(deviceId: int): Record {
    Record(deviceId, 0, 0, false, false, Held(0, 0, false, false, false), Cleanup({}, {}, false, None, []))
  }

  function InitWorld(): World { World(map[], 1, Driver(map[], map[], map[], multiset{})) }

  // ---- Sizes -----------------------------------------------------------------------------------

  // The smallest multiple of the granularity that covers the request, or a refusal when the request
  // is empty or that multiple does not fit in 64 bits.
  function AlignBytes(bytes: nat, granularity: nat): (r: Option<nat>)
    requires bytes <= UINT64_MAX && granularity <= UINT64_MAX
    ensures r.None? <==> bytes == 0 || (granularity > 0 && bytes % granularity != 0
                                        && (bytes / granularity + 1) * granularity > UINT64_MAX)
    ensures r.Some? && granularity > 0 ==>
              bytes <= r.value < bytes + granularity && r.value <= UINT64_MAX
              && r.value == (bytes / granularity + (if bytes % granularity == 0 then 0 else 1)) * granularity
    ensures r.Some? && granularity == 0 ==> r.value == bytes
  {
    if bytes == 0 then None
    else if granularity == 0 then Some(bytes)
    else
      var remainder := bytes % granularity;
      if remainder == 0 then Some(bytes)
      else
        var bump := granularity - remainder;
        NextMultiple(bytes, granularity);
        if bytes > UINT64_MAX - bump then None else Some(bytes + bump)
  }

  lemma NextMultiple(bytes: nat, granularity: nat)
    requires granularity > 0
    ensures bytes - bytes % granularity + granularity == (bytes / granularity + 1) * granularity
  {
    var q := bytes / granularity;
    assert bytes == q * granularity + bytes % granularity;
    assert (q + 1) * granularity == q * granularity + granularity;
  }

  // ---- Allocation ------------------------------------------------------------------------------

  function Begin(w: World, deviceId: int): (World, Result<nat, BeginError>) {
    if deviceId < 0 then (w, Err(NegativeDevice))
    else if w.nextHandle == 0 || w.nextHandle in w.records then (w, Err(HandlesExhausted))
    else
      var next := if w.nextHandle == UINT64_MAX then 0 else w.nextHandle + 1;
      (World(w.records[w.nextHandle := Fresh(deviceId)], next, w.driver), Ok(w.nextHandle))
  }

  function Keep(w: World, h: nat, r: Record, d: Driver): World {
    w.(records := w.records[h := r], driver := d)
  }

  // What an allocation stage writes to the record, and what the driver hands out for it.
  function CommitAllocate(r: Record, stage: Stage, token: nat): Record {
    match stage
    case PhysicalAlloc => r.(held := r.held.(physicalHandle := token, physicalAllocated := true))
    case VaReserve => r.(held := r.held.(va := token, vaReserved := true))
    case Map => r.(held := r.held.(mapped := true))
    case SetAccess => r.(accessSet := true)
    case Export => r.(shareable := token, exported := true)
    case _ => r
  }

  function DriverAllocate(d: Driver, h: nat, stage: Stage, token: nat, r: Record): Driver {
    match stage
    case PhysicalAlloc => d.(physical := d.physical[token := h])
    case VaReserve => d.(reserved := d.reserved[token := h])
    case Map => d.(mapped := d.mapped[r.held.va := r.held.physicalHandle])
    case _ => d
  }

  datatype Allocating = Allocating(world: World, error: Option<AllocateError>)

  // One allocation stage; a no-op once an earlier stage has thrown.
  function AllocateStage(a: Allocating, h: nat, stage: Stage, f: Fault, token: nat): (b: Allocating)
    requires h in a.world.records
    ensures b.world.records.Keys == a.world.records.Keys
  {
    var w, r := a.world, a.world.records[h];
    if a.error.Some? then a
    else if f.before then a.(error := Some(InjectedAt(stage, true)))
    else if f.rc != 0 then a.(error := Some(DriverAt(stage)))
    else
      Allocating(Keep(w, h, CommitAllocate(r, stage, token), DriverAllocate(w.driver, h, stage, token, r)),
                 if f.after then Some(InjectedAt(stage, false)) else None)
  }

  // The tokens the driver would hand out: a physical handle, an address, a shareable handle.
  datatype Tokens = Tokens(physical: nat, va: nat, shareable: nat)

  function AllocateStages(w: World, h: nat, faults: Faults, k: Tokens): (a: Allocating)
    requires h in w.records
    ensures a.world.records.Keys == w.records.Keys
  {
    var a1 := AllocateStage(Allocating(w, None), h, PhysicalAlloc, faults(PhysicalAlloc), k.physical);
    var a2 := AllocateStage(a1, h, VaReserve, faults(VaReserve), k.va);
    var a3 := AllocateStage(a2, h, Map, faults(Map), 0);
    var a4 := AllocateStage(a3, h, SetAccess, faults(SetAccess), 0);
    AllocateStage(a4, h, Export, faults(Export), k.shareable)
  }

  function AllocateExport(w: World, h: nat, bytes: nat, granularity: nat, bindFails: bool, faults: Faults, k: Tokens)
    : (World, Result<Exported, AllocateError>)
    requires bytes <= UINT64_MAX && granularity <= UINT64_MAX
  {
    if h !in w.records then (w, Err(UnknownHandle))
    else
      var r := w.records[h];
      if r.held.physicalAllocated || r.held.vaReserved || r.held.mapped || r.exported then (w, Err(PartialState))
      else if bindFails then (w, Err(BindError))
      else
        match AlignBytes(bytes, granularity)
        case None => (w, Err(BadSize))
        case Some(size) =>
          var a := AllocateStages(Keep(w, h, r.(mappingBytes := size), w.driver), h, faults, k);
          var done := a.world.records[h];
          (a.world,
           if a.error.Some? then Err(a.error.value) else Ok(Exported(done.held.va, done.mappingBytes, done.shareable, h)))
  }

  // ---- Release ---------------------------------------------------------------------------------

  function Note(r: Record, detail: Detail): Record {
    var first := if r.cleanup.firstFailure.None? then Some(detail) else r.cleanup.firstFailure;
    r.(cleanup := r.cleanup.(details := r.cleanup.details + [detail], firstFailure := first))
  }

  function Attempt(r: Record, stage: Stage): Record {
    r.(cleanup := r.cleanup.(attempted := r.cleanup.attempted + {stage}))
  }

  function CommitCleanup(r: Record, stage: Stage): Record {
    var done := r.(cleanup := r.cleanup.(complete := r.cleanup.complete + {stage}));
    match stage
    case Unmap => done.(held := r.held.(mapped := false))
    case VaRelease => done.(held := r.held.(vaReserved := false, va := 0))
    case PhysicalFree => done.(held := r.held.(physicalAllocated := false, physicalHandle := 0))
    case _ => r
  }

  predicate InPlace(d: Driver, q: Held, stage: Stage) {
    if stage == PhysicalFree then exists v | v in d.mapped :: d.mapped[v] == q.physicalHandle
    else q.va in d.mapped
  }

  // The call reaches the driver; only a success changes what it holds.
  function DriverCleanup(d: Driver, h: nat, q: Held, stage: Stage, success: bool): Driver {
    var called := d.(calls := d.calls + multiset{Call(h, stage, InPlace(d, q, stage))});
    if !success then called
    else
      match stage
      case Unmap => called.(mapped := d.mapped - {q.va})
      case VaRelease => called.(reserved := d.reserved - {q.va})
      case PhysicalFree => called.(physical := d.physical - {q.physicalHandle})
      case _ => called
  }

  // An unmap that answers 2 through the fake driver found the mapping already gone.
  predicate Succeeded(stage: Stage, rc: int, useFake: bool) {
    rc == 0 || (stage == Unmap && useFake && rc == 2)
  }

  datatype Cleaning = Cleaning(world: World, ok: bool)

  function CleanupStage(w: World, h: nat, stage: Stage, f: Fault, useFake: bool): (c: Cleaning)
    requires h in w.records
    ensures c.world.records.Keys == w.records.Keys
  {
    var r, d := w.records[h], w.driver;
    var tried := Attempt(r, stage);
    if f.before then Cleaning(Keep(w, h, Note(tried, Injected(stage, true)), d), false)
    else if !Succeeded(stage, f.rc, useFake) then
      Cleaning(Keep(w, h, Note(tried, DriverCode(stage, f.rc)), DriverCleanup(d, h, r.held, stage, false)), false)
    else
      var committed := CommitCleanup(tried, stage);
      var d' := DriverCleanup(d, h, r.held, stage, true);
      if f.after then Cleaning(Keep(w, h, Note(committed, Injected(stage, false)), d'), stage == Unmap)
      else Cleaning(Keep(w, h, committed, d'), true)
  }

  predicate CleanupComplete(r: Record) {
    && !(r.held.mapped && Unmap !in r.cleanup.complete)
    && !(r.held.vaReserved && VaRelease !in r.cleanup.complete)
    && !(r.held.physicalAllocated && PhysicalFree !in r.cleanup.complete)
    && r.cleanup.firstFailure.None?
  }

  function ReleaseVa(w: World, h: nat, faults: Faults, useFake: bool): (t: World)
    requires h in w.records
    ensures t.records.Keys == w.records.Keys
  {
    if w.records[h].held.vaReserved && VaRelease !in w.records[h].cleanup.attempted
    then CleanupStage(w, h, VaRelease, faults(VaRelease), useFake).world else w
  }

  function FreePhysical(w: World, h: nat, faults: Faults, useFake: bool): (t: World)
    requires h in w.records
    ensures t.records.Keys == w.records.Keys
  {
    if w.records[h].held.physicalAllocated && PhysicalFree !in w.records[h].cleanup.attempted
    then CleanupStage(w, h, PhysicalFree, faults(PhysicalFree), useFake).world else w
  }

  function Verdict(w: World, h: nat): (World, Result<(), ReleaseError>)
    requires h in w.records
  {
    var first := w.records[h].cleanup.firstFailure;
    if CleanupComplete(w.records[h]) then (w.(records := w.records - {h}), Ok(()))
    else (w, Err(if first.None? then Uncleared else First(first)))
  }

  function Release(w: World, h: nat, bindFails: bool, faults: Faults, useFake: bool)
    : (World, Result<(), ReleaseError>)
  {
    if h !in w.records then (w, Ok(()))
    else
      var r := w.records[h];
      if r.cleanup.releaseOnceDone then
        (w, if r.cleanup.firstFailure.Some? then Err(First(r.cleanup.firstFailure)) else Ok(()))
      else
        var begun := r.(cleanup := r.cleanup.(releaseOnceDone := true));
        if bindFails then
          var noted := Note(begun, BindFailed);
          (Keep(w, h, noted, w.driver), Err(First(noted.cleanup.firstFailure)))
        else
          var w0 := Keep(w, h, begun, w.driver);
          var c := if r.held.mapped then CleanupStage(w0, h, Unmap, faults(Unmap), useFake) else Cleaning(w0, true);
          var r1 := c.world.records[h];
          if r1.held.mapped && !c.ok then (c.world, Err(First(r1.cleanup.firstFailure)))
          else Verdict(FreePhysical(ReleaseVa(c.world, h, faults, useFake), h, faults, useFake), h)
  }

  // ---- Histories -------------------------------------------------------------------------------

  datatype Op =
    | OpBegin(deviceId: int)
    | OpAllocate(handle: nat, bytes: nat, granularity: nat, bindFails: bool, faults: Faults, tokens: Tokens)
    | OpRelease(handle: nat, bindFails: bool, faults: Faults, useFake: bool)

  // The driver hands out handles and addresses that are not null and not held already.
  predicate Possible(w: World, op: Op) {
    op.OpAllocate? ==>
      && op.bytes <= UINT64_MAX && op.granularity <= UINT64_MAX
      && op.tokens.physical != 0 && op.tokens.physical !in w.driver.physical
      && op.tokens.va != 0 && op.tokens.va !in w.driver.reserved
  }

  function Step(w: World, op: Op): World
    requires Possible(w, op)
  {
    match op
    case OpBegin(dev) => Begin(w, dev).0
    case OpAllocate(h, bytes, granularity, bindFails, faults, k) =>
      AllocateExport(w, h, bytes, granularity, bindFails, faults, k).0
    case OpRelease(h, bindFails, faults, useFake) => Release(w, h, bindFails, faults, useFake).0
  }

  predicate IsHistory(w: World, ops: seq<Op>)
    decreases |ops|
  {
    |ops| == 0 || (Possible(w, ops[0]) && IsHistory(Step(w, ops[0]), ops[1..]))
  }

  function Replay(w: World, ops: seq<Op>): World
    requires IsHistory(w, ops)
    decreases |ops|
  {
    if |ops| == 0 then w else Replay(Step(w, ops[0]), ops[1..])
  }

  ghost predicate Reachable(w: World) {
    exists ops :: IsHistory(InitWorld(), ops) && Replay(InitWorld(), ops) == w
  }

  // ---- The invariant ---------------------------------------------------------------------------

  // The flags of a record are what the driver holds for it.
  ghost predicate Agrees(d: Driver, h: nat, q: Held) {
    && (q.physicalAllocated <==> q.physicalHandle in d.physical && d.physical[q.physicalHandle] == h)
    && (q.vaReserved <==> q.va in d.reserved && d.reserved[q.va] == h)
    && (q.mapped <==> q.va in d.mapped)
    && (q.mapped ==> q.vaReserved && q.physicalAllocated && d.mapped[q.va] == q.physicalHandle)
    && (!q.physicalAllocated ==> q.physicalHandle == 0)
    && (!q.vaReserved ==> q.va == 0)
  }

  // Everything the driver holds is named by a retained record.
  ghost predicate Named(w: World) {
    var d := w.driver;
    && (forall p | p in d.physical ::
          p != 0 && d.physical[p] in w.records && w.records[d.physical[p]].held.physicalHandle == p)
    && (forall v | v in d.reserved ::
          v != 0 && d.reserved[v] in w.records && w.records[d.reserved[v]].held.va == v)
    && (forall v | v in d.mapped ::
          v in d.reserved && d.mapped[v] in d.physical && d.physical[d.mapped[v]] == d.reserved[v])
  }

  ghost predicate Refines(w: World) {
    Named(w) && forall h | h in w.records :: Agrees(w.driver, h, w.records[h].held)
  }

  function Issued(d: Driver, h: nat, stage: Stage): nat {
    d.calls[Call(h, stage, false)] + d.calls[Call(h, stage, true)]
  }

  predicate IsCleanup(stage: Stage) { stage == Unmap || stage == VaRelease || stage == PhysicalFree }

  ghost predicate Untouched(d: Driver, h: nat) {
    forall stage | IsCleanup(stage) :: Issued(d, h, stage) == 0
  }

  ghost predicate FailuresOk(c: Cleanup) {
    && (c.firstFailure.Some? <==> c.details != [])
    && (c.details != [] ==> c.firstFailure == Some(c.details[0]))
  }

  ghost predicate CleanupOk(c: Cleanup, d: Driver, h: nat) {
    FailuresOk(c) &&
    if c.releaseOnceDone then c.firstFailure.Some?
    else c.attempted == {} && c.complete == {} && c.firstFailure.None? && Untouched(d, h)
  }

  ghost predicate CallsOk(d: Driver) {
    && (forall h, stage :: Issued(d, h, stage) <= 1)
    && (forall h :: d.calls[Call(h, VaRelease, true)] == 0 && d.calls[Call(h, PhysicalFree, true)] == 0)
  }

  ghost predicate Inv(w: World) {
    && Refines(w)
    && CallsOk(w.driver)
    && w.nextHandle <= UINT64_MAX
    && (forall h | w.nextHandle != 0 && h >= w.nextHandle :: h !in w.records && Untouched(w.driver, h))
    && (forall h | h in w.records :: CleanupOk(w.records[h].cleanup, w.driver, h))
  }

  lemma BeginKeepsInv(w: World, dev: int)
    requires Inv(w)
    ensures Inv(Begin(w, dev).0)
  {
    hide Refines, CallsOk, CleanupOk;
    var t := Begin(w, dev).0;
    if t != w {
      var h := w.nextHandle;
      assert t.records == w.records[h := Fresh(dev)] && t.driver == w.driver;
      FreshRefines(w, dev, h, t.nextHandle);
      forall k | k in t.records ensures CleanupOk(t.records[k].cleanup, t.driver, k) {
        if k == h { FreshIsClean(w.driver, dev, h); }
      }
    }
  }

  lemma FreshIsClean(d: Driver, dev: int, h: nat)
    requires Untouched(d, h)
    ensures CleanupOk(Fresh(dev).cleanup, d, h)
  {
  }

  lemma FreshRefines(w: World, dev: int, h: nat, next: nat)
    requires Refines(w) && h !in w.records
    ensures Refines(World(w.records[h := Fresh(dev)], next, w.driver))
  {
    var t := World(w.records[h := Fresh(dev)], next, w.driver);
    forall k | k in t.records ensures Agrees(t.driver, k, t.records[k].held) {
      if k != h { assert Agrees(w.driver, k, w.records[k].held); }
    }
  }

  // ---- Allocation keeps the ledger and the driver together -------------------------------------

  // Replacing one record and the driver state behind it leaves every other record's claims alone,
  // as long as the driver state changes only in what it holds for that record.
  ghost predicate DriverFrame(d: Driver, e: Driver, h: nat) {
    && (forall p | p in d.physical && d.physical[p] != h :: p in e.physical && e.physical[p] == d.physical[p])
    && (forall p | p in e.physical && e.physical[p] != h :: p in d.physical && d.physical[p] == e.physical[p])
    && (forall v | v in d.reserved && d.reserved[v] != h :: v in e.reserved && e.reserved[v] == d.reserved[v])
    && (forall v | v in e.reserved && e.reserved[v] != h :: v in d.reserved && d.reserved[v] == e.reserved[v])
    && (forall v | v in d.mapped && v in d.reserved && d.reserved[v] != h :: v in e.mapped && e.mapped[v] == d.mapped[v])
    && (forall v | v in e.mapped && v in e.reserved && e.reserved[v] != h :: v in d.mapped && d.mapped[v] == e.mapped[v])
  }

  // What the driver holds for `h` is what `q` names.
  ghost predicate NamedBy(d: Driver, h: nat, q: Held) {
    && (forall p | p in d.physical && d.physical[p] == h :: p != 0 && q.physicalHandle == p)
    && (forall v | v in d.reserved && d.reserved[v] == h :: v != 0 && q.va == v)
    && (forall v | v in d.mapped ::
          v in d.reserved && d.mapped[v] in d.physical && d.physical[d.mapped[v]] == d.reserved[v])
  }

  lemma KeepRefines(w: World, h: nat, r: Record, e: Driver)
    requires Refines(w) && h in w.records
    requires DriverFrame(w.driver, e, h) && Agrees(e, h, r.held) && NamedBy(e, h, r.held)
    ensures Refines(Keep(w, h, r, e))
  {
    var t := Keep(w, h, r, e);
    forall k | k in t.records ensures Agrees(e, k, t.records[k].held) {
      if k != h { OtherAgrees(w, h, e, k); }
    }
  }

  lemma OtherAgrees(w: World, h: nat, e: Driver, k: nat)
    requires Refines(w) && h in w.records && k in w.records && k != h
    requires DriverFrame(w.driver, e, h)
    requires forall v | v in e.mapped :: v in e.reserved
    requires 0 !in e.reserved && 0 !in e.physical
    ensures Agrees(e, k, w.records[k].held)
  {
    assert Agrees(w.driver, k, w.records[k].held);
  }

  // What each allocation stage finds when it runs: the earlier stages' resources, none of its own.
  ghost predicate StageFits(q: Held, d: Driver, stage: Stage, token: nat) {
    match stage
    case PhysicalAlloc => !q.physicalAllocated && !q.mapped && token != 0 && token !in d.physical
    case VaReserve => !q.vaReserved && !q.mapped && token != 0 && token !in d.reserved
    case Map => q.physicalAllocated && q.vaReserved && !q.mapped
    case _ => !IsCleanup(stage)
  }

  lemma AllocateStageFrame(w: World, h: nat, stage: Stage, token: nat)
    requires Refines(w) && h in w.records && StageFits(w.records[h].held, w.driver, stage, token)
    ensures var r := w.records[h]; var e := DriverAllocate(w.driver, h, stage, token, r);
            var q := CommitAllocate(r, stage, token).held;
            DriverFrame(w.driver, e, h) && Agrees(e, h, q) && NamedBy(e, h, q)
  {
    assert Agrees(w.driver, h, w.records[h].held);
  }

  // Allocation never touches the cleanup half of a record nor issues a cleanup call.
  ghost predicate SameCleanup(w: World, t: World, h: nat)
    requires h in w.records && h in t.records
  {
    && t.nextHandle == w.nextHandle && t.driver.calls == w.driver.calls
    && t.records.Keys == w.records.Keys && (forall k | k in w.records && k != h :: t.records[k] == w.records[k])
    && t.records[h].cleanup == w.records[h].cleanup
  }

  lemma AllocateKeepsCleanup(w: World, h: nat, stage: Stage, token: nat)
    requires h in w.records
    ensures CommitAllocate(w.records[h], stage, token).cleanup == w.records[h].cleanup
    ensures DriverAllocate(w.driver, h, stage, token, w.records[h]).calls == w.driver.calls
  {
  }

  lemma AllocateStageRefines(a: Allocating, h: nat, stage: Stage, f: Fault, token: nat)
    requires h in a.world.records && Refines(a.world)
    requires a.error.None? ==> StageFits(a.world.records[h].held, a.world.driver, stage, token)
    ensures var b := AllocateStage(a, h, stage, f, token);
            && Refines(b.world) && SameCleanup(a.world, b.world, h)
            && (b.error.None? ==>
                  a.error.None? && b.world.records[h] == CommitAllocate(a.world.records[h], stage, token)
                  && b.world.driver == DriverAllocate(a.world.driver, h, stage, token, a.world.records[h]))
  {
    hide Refines, CommitAllocate, DriverAllocate;
    var w, r := a.world, a.world.records[h];
    AllocateKeepsCleanup(w, h, stage, token);
    if a.error.None? && !f.before && f.rc == 0 {
      AllocateStageFrame(w, h, stage, token);
      KeepRefines(w, h, CommitAllocate(r, stage, token), DriverAllocate(w.driver, h, stage, token, r));
    }
  }

  lemma AllocateStagesRefine(w: World, h: nat, faults: Faults, k: Tokens)
    requires h in w.records && Refines(w)
    requires !w.records[h].held.physicalAllocated && !w.records[h].held.vaReserved && !w.records[h].held.mapped
    requires k.physical != 0 && k.physical !in w.driver.physical && k.va != 0 && k.va !in w.driver.reserved
    ensures var a := AllocateStages(w, h, faults, k);
            && Refines(a.world) && SameCleanup(w, a.world, h)
            && (a.error.None? ==> a.world.records[h].held == Held(k.physical, k.va, true, true, true)
                                  && a.world.records[h].exported && a.world.records[h].shareable == k.shareable)
  {
    hide Refines, AllocateStage;
    var a0 := Allocating(w, None);
    AllocateStageRefines(a0, h, PhysicalAlloc, faults(PhysicalAlloc), k.physical);
    var a1 := AllocateStage(a0, h, PhysicalAlloc, faults(PhysicalAlloc), k.physical);
    AllocateStageRefines(a1, h, VaReserve, faults(VaReserve), k.va);
    var a2 := AllocateStage(a1, h, VaReserve, faults(VaReserve), k.va);
    AllocateStageRefines(a2, h, Map, faults(Map), 0);
    var a3 := AllocateStage(a2, h, Map, faults(Map), 0);
    AllocateStageRefines(a3, h, SetAccess, faults(SetAccess), 0);
    var a4 := AllocateStage(a3, h, SetAccess, faults(SetAccess), 0);
    AllocateStageRefines(a4, h, Export, faults(Export), k.shareable);
  }

  // An allocation call gets past its checks exactly when it may touch anything.
  predicate Proceeds(w: World, op: Op)
    requires op.OpAllocate? && Possible(w, op)
  {
    && op.handle in w.records && !op.bindFails && AlignBytes(op.bytes, op.granularity).Some?
    && var r := w.records[op.handle];
       !(r.held.physicalAllocated || r.held.vaReserved || r.held.mapped || r.exported)
  }

  function Sized(w: World, op: Op): (t: World)
    requires op.OpAllocate? && Possible(w, op) && Proceeds(w, op)
    ensures op.handle in t.records
  {
    Keep(w, op.handle, w.records[op.handle].(mappingBytes := AlignBytes(op.bytes, op.granularity).value), w.driver)
  }

  lemma AllocateCases(w: World, op: Op)
    requires op.OpAllocate? && Possible(w, op)
    ensures Step(w, op) ==
            if Proceeds(w, op) then AllocateStages(Sized(w, op), op.handle, op.faults, op.tokens).world else w
  {
  }

  lemma AllocateRefines(w: World, op: Op)
    requires Refines(w) && op.OpAllocate? && Possible(w, op) && Proceeds(w, op)
    ensures var t := Step(w, op);
            op.handle in t.records && Refines(t) && SameCleanup(w, t, op.handle)
  {
    hide Refines, AllocateStages, AlignBytes, Step;
    AllocateCases(w, op);
    RenameRefines(w, op.handle, Sized(w, op).records[op.handle]);
    AllocateStagesRefine(Sized(w, op), op.handle, op.faults, op.tokens);
  }

  // Changing what the driver does not see changes nothing.
  lemma RenameRefines(w: World, h: nat, r: Record)
    requires Refines(w) && h in w.records && r.held == w.records[h].held
    ensures Refines(Keep(w, h, r, w.driver))
  {
    assert Agrees(w.driver, h, w.records[h].held);
    KeepRefines(w, h, r, w.driver);
  }

  lemma AllocateKeepsInv(w: World, op: Op)
    requires Inv(w) && op.OpAllocate? && Possible(w, op)
    ensures Inv(Step(w, op))
  {
    hide Refines, Step, AllocateStages;
    AllocateCases(w, op);
    if Proceeds(w, op) {
      var h, t := op.handle, Step(w, op);
      AllocateRefines(w, op);
      assert t.driver.calls == w.driver.calls && t.records[h].cleanup == w.records[h].cleanup;
      assert forall k, stage :: Issued(t.driver, k, stage) == Issued(w.driver, k, stage);
    }
  }

  // ---- Release keeps them together too ---------------------------------------------------------

  // What release establishes before it issues a cleanup call.
  ghost predicate CleanupFits(w: World, h: nat, stage: Stage)
    requires h in w.records
  {
    && Issued(w.driver, h, stage) == 0
    && match stage
       case Unmap => w.records[h].held.mapped
       case VaRelease => w.records[h].held.vaReserved && !w.records[h].held.mapped
       case PhysicalFree => w.records[h].held.physicalAllocated && !w.records[h].held.mapped
       case _ => false
  }

  lemma CommitKeepsHeld(r: Record, stage: Stage)
    ensures CommitCleanup(Attempt(r, stage), stage).held == CommitCleanup(r, stage).held
  {
  }

  // The mapping is in place when the unmap is issued, and gone by the other two calls.
  lemma OnlyUnmapInPlace(w: World, h: nat, stage: Stage)
    requires Refines(w) && h in w.records && CleanupFits(w, h, stage)
    ensures InPlace(w.driver, w.records[h].held, stage) <==> stage == Unmap
  {
    var q, d := w.records[h].held, w.driver;
    assert Agrees(d, h, q);
    forall v | v in d.mapped && stage == PhysicalFree ensures d.mapped[v] != q.physicalHandle {
      assert d.reserved[v] in w.records && Agrees(d, d.reserved[v], w.records[d.reserved[v]].held);
    }
  }

  lemma CleanupFrame(w: World, h: nat, stage: Stage, success: bool)
    requires Refines(w) && h in w.records && CleanupFits(w, h, stage)
    ensures var r := w.records[h]; var e := DriverCleanup(w.driver, h, r.held, stage, success);
            var q := if success then CommitCleanup(r, stage).held else r.held;
            DriverFrame(w.driver, e, h) && Agrees(e, h, q) && NamedBy(e, h, q)
  {
    assert Agrees(w.driver, h, w.records[h].held);
    OnlyUnmapInPlace(w, h, stage);
  }

  lemma CleanupStageRefines(w: World, h: nat, stage: Stage, f: Fault, useFake: bool)
    requires Refines(w) && h in w.records && CleanupFits(w, h, stage)
    ensures Refines(CleanupStage(w, h, stage, f, useFake).world)
  {
    var t := CleanupStage(w, h, stage, f, useFake).world;
    var r := w.records[h];
    hide Refines, CommitCleanup, DriverCleanup;
    CommitKeepsHeld(r, stage);
    if f.before {
      RenameRefines(w, h, t.records[h]);
    } else {
      CleanupFrame(w, h, stage, Succeeded(stage, f.rc, useFake));
      KeepRefines(w, h, t.records[h], t.driver);
    }
  }

  // One more call for this handle and stage, none for any other.
  ghost predicate OneMoreCall(d: Driver, e: Driver, h: nat, stage: Stage) {
    && (forall c: Call | !(c.handle == h && c.stage == stage) :: e.calls[c] == d.calls[c])
    && Issued(e, h, stage) <= 1
    && (stage != Unmap ==> e.calls[Call(h, stage, true)] == 0)
  }

  lemma CleanupStageCalls(w: World, h: nat, stage: Stage, f: Fault, useFake: bool)
    requires Refines(w) && h in w.records && CleanupFits(w, h, stage)
    ensures OneMoreCall(w.driver, CleanupStage(w, h, stage, f, useFake).world.driver, h, stage)
  {
    OnlyUnmapInPlace(w, h, stage);
    var e := DriverCleanup(w.driver, h, w.records[h].held, stage, Succeeded(stage, f.rc, useFake));
    assert e.calls == w.driver.calls + multiset{Call(h, stage, stage == Unmap)};
  }

  predicate StillHeld(q: Held, stage: Stage) {
    match stage
    case Unmap => q.mapped
    case VaRelease => q.vaReserved
    case PhysicalFree => q.physicalAllocated
    case _ => false
  }

  // What one cleanup stage does to the cleanup half of its record.
  ghost predicate Reported(r: Record, u: Record, stage: Stage, ok: bool) {
    && FailuresOk(u.cleanup) && u.cleanup.releaseOnceDone == r.cleanup.releaseOnceDone
    && u.cleanup.attempted == r.cleanup.attempted + {stage}
    && (r.cleanup.firstFailure.Some? ==> u.cleanup.firstFailure == r.cleanup.firstFailure)
    && (u.cleanup.firstFailure.None? ==> ok && !StillHeld(u.held, stage))
    && (ok && stage == Unmap ==> !u.held.mapped)
    && (forall other | IsCleanup(other) && other != stage :: StillHeld(u.held, other) == StillHeld(r.held, other))
  }

  // What a cleanup stage makes of its record, and whether it counts as done.
  function Cleaned(r: Record, stage: Stage, f: Fault, useFake: bool): (Record, bool) {
    var tried := Attempt(r, stage);
    if f.before then (Note(tried, Injected(stage, true)), false)
    else if !Succeeded(stage, f.rc, useFake) then (Note(tried, DriverCode(stage, f.rc)), false)
    else if f.after then (Note(CommitCleanup(tried, stage), Injected(stage, false)), stage == Unmap)
    else (CommitCleanup(tried, stage), true)
  }

  lemma CleanupStageRecord(w: World, h: nat, stage: Stage, f: Fault, useFake: bool)
    requires h in w.records
    ensures var c := CleanupStage(w, h, stage, f, useFake);
            (c.world.records[h], c.ok) == Cleaned(w.records[h], stage, f, useFake)
  {
    hide DriverCleanup, Note, CommitCleanup, Attempt, Succeeded;
  }

  lemma CleanedReports(r: Record, stage: Stage, f: Fault, useFake: bool)
    requires IsCleanup(stage) && FailuresOk(r.cleanup)
    ensures var (u, ok) := Cleaned(r, stage, f, useFake); Reported(r, u, stage, ok)
  {
    hide FailuresOk, StillHeld, CommitCleanup, Note;
    var tried := Attempt(r, stage);
    CommitReports(tried, stage);
    NoteReports(tried, Injected(stage, true));
    NoteReports(tried, DriverCode(stage, f.rc));
    NoteReports(CommitCleanup(tried, stage), Injected(stage, false));
    SameFailures(r.cleanup, tried.cleanup);
    SameFailures(r.cleanup, CommitCleanup(tried, stage).cleanup);
  }

  // Noting a failure keeps the first one and touches nothing else.
  lemma NoteReports(r: Record, detail: Detail)
    ensures var u := Note(r, detail);
            && (FailuresOk(r.cleanup) ==> FailuresOk(u.cleanup)) && u.cleanup.firstFailure.Some? && u.held == r.held
            && (r.cleanup.firstFailure.Some? ==> u.cleanup.firstFailure == r.cleanup.firstFailure)
            && u.cleanup.releaseOnceDone == r.cleanup.releaseOnceDone && u.cleanup.attempted == r.cleanup.attempted
  {
  }

  // Committing a stage clears what it cleans up and nothing else.
  lemma CommitReports(r: Record, stage: Stage)
    requires IsCleanup(stage)
    ensures var u := CommitCleanup(r, stage);
            && !StillHeld(u.held, stage) && u.cleanup == r.cleanup.(complete := r.cleanup.complete + {stage})
            && (stage == Unmap ==> !u.held.mapped)
            && (forall other | IsCleanup(other) && other != stage :: StillHeld(u.held, other) == StillHeld(r.held, other))
  {
  }

  lemma SameFailures(a: Cleanup, b: Cleanup)
    requires a.details == b.details && a.firstFailure == b.firstFailure
    ensures FailuresOk(a) == FailuresOk(b)
  {
  }

  // The stage either did its work or left a failure behind; it never does neither.
  lemma CleanupStageReports(w: World, h: nat, stage: Stage, f: Fault, useFake: bool)
    requires h in w.records && IsCleanup(stage) && FailuresOk(w.records[h].cleanup)
    ensures var t := CleanupStage(w, h, stage, f, useFake);
            Reported(w.records[h], t.world.records[h], stage, t.ok)
  {
    hide CleanupStage, Cleaned, Reported, FailuresOk;
    CleanupStageRecord(w, h, stage, f, useFake);
    CleanedReports(w.records[h], stage, f, useFake);
  }

  lemma CleanupStageScope(w: World, h: nat, stage: Stage, f: Fault, useFake: bool)
    requires h in w.records
    ensures var t := CleanupStage(w, h, stage, f, useFake).world;
            t.nextHandle == w.nextHandle && forall k | k in w.records && k != h :: t.records[k] == w.records[k]
  {
    hide DriverCleanup, CommitCleanup, Note;
  }

  // Inside a release of `h`: the invariant, except that `h` may have no failure to show yet.
  ghost predicate Mid(w: World, h: nat) {
    && h in w.records && Refines(w) && CallsOk(w.driver) && w.nextHandle <= UINT64_MAX
    && (forall k | w.nextHandle != 0 && k >= w.nextHandle :: k !in w.records && Untouched(w.driver, k))
    && (forall k | k in w.records && k != h :: CleanupOk(w.records[k].cleanup, w.driver, k))
    && FailuresOk(w.records[h].cleanup) && w.records[h].cleanup.releaseOnceDone
    && (forall stage | IsCleanup(stage) && stage !in w.records[h].cleanup.attempted :: Issued(w.driver, h, stage) == 0)
  }

  lemma CallsKeptOk(d: Driver, e: Driver, h: nat, stage: Stage)
    requires CallsOk(d) && IsCleanup(stage) && OneMoreCall(d, e, h, stage)
    ensures CallsOk(e)
    ensures forall k, other | !(k == h && other == stage) :: Issued(e, k, other) == Issued(d, k, other)
  {
    forall k, other ensures Issued(e, k, other) <= 1 {
      assert Issued(d, k, other) <= 1;
    }
    assert forall k, other | !(k == h && other == stage) :: Issued(e, k, other) == Issued(d, k, other);
  }

  lemma CleanupStageKeepsMid(w: World, h: nat, stage: Stage, f: Fault, useFake: bool)
    requires Mid(w, h) && CleanupFits(w, h, stage)
    ensures var t := CleanupStage(w, h, stage, f, useFake);
            Mid(t.world, h) && Reported(w.records[h], t.world.records[h], stage, t.ok)
  {
    hide Refines, CleanupStage, CallsOk;
    CleanupStageRefines(w, h, stage, f, useFake);
    CleanupStageCalls(w, h, stage, f, useFake);
    CleanupStageReports(w, h, stage, f, useFake);
    CleanupStageScope(w, h, stage, f, useFake);
    var t := CleanupStage(w, h, stage, f, useFake).world;
    CallsKeptOk(w.driver, t.driver, h, stage);
    forall k | w.nextHandle != 0 && k >= w.nextHandle ensures Untouched(t.driver, k) {
      assert Untouched(w.driver, k);
    }
    forall k | k in t.records && k != h ensures CleanupOk(t.records[k].cleanup, t.driver, k) {
      assert CleanupOk(w.records[k].cleanup, w.driver, k);
    }
  }

  lemma MidWithFailure(w: World, h: nat)
    requires Mid(w, h) && w.records[h].cleanup.firstFailure.Some?
    ensures Inv(w)
  {
    hide Refines, CallsOk;
  }

  // A record with nothing held and no failure can go.
  lemma MidErased(w: World, h: nat)
    requires Mid(w, h)
    requires !w.records[h].held.mapped && !w.records[h].held.vaReserved && !w.records[h].held.physicalAllocated
    ensures var t := w.(records := w.records - {h});
            Inv(t) && HoldsNothing(t.driver, h)
  {
    var t := w.(records := w.records - {h});
    assert Agrees(w.driver, h, w.records[h].held);
    assert forall k | k in t.records :: t.records[k] == w.records[k];
    assert Refines(t);
  }

  ghost predicate HoldsNothing(d: Driver, h: nat) {
    && (forall p | p in d.physical :: d.physical[p] != h)
    && (forall v | v in d.reserved :: d.reserved[v] != h)
  }

  lemma ReleaseVaKeepsMid(w: World, h: nat, faults: Faults, useFake: bool)
    requires Mid(w, h) && !w.records[h].held.mapped && VaRelease !in w.records[h].cleanup.attempted
    ensures var t := ReleaseVa(w, h, faults, useFake); var r, u := w.records[h], t.records[h];
            && Mid(t, h) && !u.held.mapped
            && (u.cleanup.firstFailure.None? ==> !u.held.vaReserved)
            && u.cleanup.attempted <= r.cleanup.attempted + {VaRelease}
            && u.held.physicalAllocated == r.held.physicalAllocated
  {
    hide Refines, CleanupStage, CallsOk;
    if w.records[h].held.vaReserved {
      CleanupStageKeepsMid(w, h, VaRelease, faults(VaRelease), useFake);
      var u := ReleaseVa(w, h, faults, useFake).records[h];
      assert StillHeld(u.held, Unmap) == StillHeld(w.records[h].held, Unmap);
      assert StillHeld(u.held, PhysicalFree) == StillHeld(w.records[h].held, PhysicalFree);
    }
  }

  lemma FreePhysicalKeepsMid(w: World, h: nat, faults: Faults, useFake: bool)
    requires Mid(w, h) && !w.records[h].held.mapped && PhysicalFree !in w.records[h].cleanup.attempted
    requires w.records[h].cleanup.firstFailure.None? ==> !w.records[h].held.vaReserved
    ensures var t := FreePhysical(w, h, faults, useFake); var u := t.records[h];
            && Mid(t, h) && !u.held.mapped
            && (u.cleanup.firstFailure.None? ==> !u.held.vaReserved && !u.held.physicalAllocated)
  {
    hide Refines, CleanupStage, CallsOk;
    if w.records[h].held.physicalAllocated {
      CleanupStageKeepsMid(w, h, PhysicalFree, faults(PhysicalFree), useFake);
      var u := FreePhysical(w, h, faults, useFake).records[h];
      assert StillHeld(u.held, Unmap) == StillHeld(w.records[h].held, Unmap);
      assert StillHeld(u.held, VaRelease) == StillHeld(w.records[h].held, VaRelease);
    }
  }

  // How a release ends: the record is gone and the driver holds nothing for it, or the record stays
  // and what is thrown is the first failure it carries.
  ghost predicate Settled(t: World, h: nat, result: Result<(), ReleaseError>) {
    && Inv(t)
    && match result
       case Ok(_) => h !in t.records && HoldsNothing(t.driver, h)
       case Err(error) =>
         h in t.records && t.records[h].cleanup.releaseOnceDone && t.records[h].cleanup.firstFailure.Some?
         && error == First(t.records[h].cleanup.firstFailure)
  }

  lemma VerdictSettles(w: World, h: nat)
    requires Mid(w, h) && !w.records[h].held.mapped
    requires w.records[h].cleanup.firstFailure.None? ==>
               !w.records[h].held.vaReserved && !w.records[h].held.physicalAllocated
    ensures var (t, result) := Verdict(w, h); Settled(t, h, result)
  {
    hide Inv, Mid;
    MidDone(w, h);
    if w.records[h].cleanup.firstFailure.None? { MidErased(w, h); } else { MidWithFailure(w, h); }
  }

  lemma MidDone(w: World, h: nat)
    requires Mid(w, h)
    ensures h in w.records && w.records[h].cleanup.releaseOnceDone
  {
  }

  // Release up to and including the unmap.
  function Unmapped(w: World, h: nat, faults: Faults, useFake: bool): (c: Cleaning)
    requires h in w.records
    ensures c.world.records.Keys == w.records.Keys
  {
    var w0 := Keep(w, h, w.records[h].(cleanup := w.records[h].cleanup.(releaseOnceDone := true)), w.driver);
    if w.records[h].held.mapped then CleanupStage(w0, h, Unmap, faults(Unmap), useFake) else Cleaning(w0, true)
  }

  lemma UnmappedMid(w: World, h: nat, faults: Faults, useFake: bool)
    requires Inv(w) && h in w.records && !w.records[h].cleanup.releaseOnceDone
    ensures var c := Unmapped(w, h, faults, useFake); var u := c.world.records[h];
            && Mid(c.world, h) && u.cleanup.attempted <= {Unmap}
            && (c.ok ==> !u.held.mapped) && (!c.ok ==> u.cleanup.firstFailure.Some?)
  {
    hide Refines, CleanupStage, CallsOk;
    var r := w.records[h].(cleanup := w.records[h].cleanup.(releaseOnceDone := true));
    RenameRefines(w, h, r);
    var w0 := Keep(w, h, r, w.driver);
    assert Mid(w0, h);
    if r.held.mapped { CleanupStageKeepsMid(w0, h, Unmap, faults(Unmap), useFake); }
  }

  lemma FirstReleaseSettles(w: World, h: nat, faults: Faults, useFake: bool)
    requires Inv(w) && h in w.records && !w.records[h].cleanup.releaseOnceDone
    ensures var (t, result) := Release(w, h, false, faults, useFake); Settled(t, h, result)
  {
    hide Inv, Mid, Settled, CleanupStage, Verdict, FreePhysical, ReleaseVa;
    UnmappedMid(w, h, faults, useFake);
    var c := Unmapped(w, h, faults, useFake);
    MidDone(c.world, h);
    if c.ok {
      var v := ReleaseVa(c.world, h, faults, useFake);
      ReleaseVaKeepsMid(c.world, h, faults, useFake);
      FreePhysicalKeepsMid(v, h, faults, useFake);
      VerdictSettles(FreePhysical(v, h, faults, useFake), h);
    } else {
      UnmapFailed(w, h, faults, useFake);
      MidWithFailure(c.world, h);
      assert Settled(c.world, h, Err(First(c.world.records[h].cleanup.firstFailure))) by {
        SettledFailure(c.world, h);
      }
    }
  }

  lemma SettledFailure(t: World, h: nat)
    requires Mid(t, h) && t.records[h].cleanup.firstFailure.Some?
    ensures Settled(t, h, Err(First(t.records[h].cleanup.firstFailure)))
  {
    hide Refines, CallsOk;
  }

  lemma UnmapFailed(w: World, h: nat, faults: Faults, useFake: bool)
    requires h in w.records && !Unmapped(w, h, faults, useFake).ok
    ensures Unmapped(w, h, faults, useFake).world.records[h].held.mapped
  {
  }

  // A record whose release stopped at the device bind.
  function BindRefused(r: Record): Record { Note(r.(cleanup := r.cleanup.(releaseOnceDone := true)), BindFailed) }

  lemma BindRefusedMid(w: World, h: nat)
    requires Inv(w) && h in w.records && !w.records[h].cleanup.releaseOnceDone
    ensures Mid(Keep(w, h, BindRefused(w.records[h]), w.driver), h)
  {
    hide Refines, CallsOk;
    RenameRefines(w, h, BindRefused(w.records[h]));
  }

  lemma ReleaseKeepsInv(w: World, h: nat, bindFails: bool, faults: Faults, useFake: bool)
    requires Inv(w)
    ensures Inv(Release(w, h, bindFails, faults, useFake).0)
    ensures h in w.records && !w.records[h].cleanup.releaseOnceDone ==>
              var (t, result) := Release(w, h, bindFails, faults, useFake); Settled(t, h, result)
  {
    hide Inv, Mid, CleanupStage, ReleaseVa, FreePhysical, Verdict;
    if h in w.records && !w.records[h].cleanup.releaseOnceDone {
      if bindFails {
        BindRefusedMid(w, h);
        SettledFailure(Keep(w, h, BindRefused(w.records[h]), w.driver), h);
      } else {
        FirstReleaseSettles(w, h, faults, useFake);
      }
    }
  }

  lemma StepKeepsInv(w: World, op: Op)
    requires Inv(w) && Possible(w, op)
    ensures Inv(Step(w, op))
  {
    hide Inv;
    match op
    case OpBegin(dev) => BeginKeepsInv(w, dev);
    case OpAllocate(_, _, _, _, _, _) => AllocateKeepsInv(w, op);
    case OpRelease(h, bindFails, faults, useFake) => ReleaseKeepsInv(w, h, bindFails, faults, useFake);
  }

  lemma {:induction false} ReplayKeepsInv(w: World, ops: seq<Op>)
    requires Inv(w) && IsHistory(w, ops)
    ensures Inv(Replay(w, ops))
    decreases |ops|
  {
    hide Inv, Step;
    if |ops| > 0 {
      StepKeepsInv(w, ops[0]);
      ReplayKeepsInv(Step(w, ops[0]), ops[1..]);
    }
  }

  lemma ReachableInv(w: World)
    requires Reachable(w)
    ensures Inv(w)
  {
    var ops :| IsHistory(InitWorld(), ops) && Replay(InitWorld(), ops) == w;
    ReplayKeepsInv(InitWorld(), ops);
  }

  // ---- What the ledger promises ----------------------------------------------------------------

  // After any history of allocations and releases, whichever stages failed before or after their
  // commit: a record's flags are exactly what the driver holds for it, and every physical
  // allocation, reservation and mapping the driver holds is named by a retained record.
  lemma LedgerRefinesDriver(w: World)
    requires Reachable(w)
    ensures forall h | h in w.records :: Agrees(w.driver, h, w.records[h].held)
    ensures forall p | p in w.driver.physical ::
              w.driver.physical[p] in w.records && w.records[w.driver.physical[p]].held.physicalAllocated
              && w.records[w.driver.physical[p]].held.physicalHandle == p
    ensures forall v | v in w.driver.reserved ::
              w.driver.reserved[v] in w.records && w.records[w.driver.reserved[v]].held.vaReserved
              && w.records[w.driver.reserved[v]].held.va == v
    ensures forall v | v in w.driver.mapped ::
              v in w.driver.reserved && w.driver.reserved[v] in w.records && w.records[w.driver.reserved[v]].held.mapped
  {
    ReachableInv(w);
    forall p | p in w.driver.physical ensures w.records[w.driver.physical[p]].held.physicalAllocated {
      assert Agrees(w.driver, w.driver.physical[p], w.records[w.driver.physical[p]].held);
    }
    forall v | v in w.driver.reserved
      ensures w.records[w.driver.reserved[v]].held.vaReserved
      ensures v in w.driver.mapped ==> w.records[w.driver.reserved[v]].held.mapped
    {
      assert Agrees(w.driver, w.driver.reserved[v], w.records[w.driver.reserved[v]].held);
    }
  }

  // Over every history each cleanup call is issued at most once per handle, and neither the address
  // release nor the physical free is issued while the mapping is in place.
  lemma CleanupCallsOnceAndInOrder(w: World, h: nat, stage: Stage)
    requires Reachable(w)
    ensures Issued(w.driver, h, stage) <= 1
    ensures stage == VaRelease || stage == PhysicalFree ==> w.driver.calls[Call(h, stage, true)] == 0
  {
    ReachableInv(w);
  }

  // The first release of a handle deletes its record exactly when it reports success, and then the
  // driver holds nothing for it; otherwise the record stays with the failure that was thrown. The
  // "uncleared ledger state" fallback is never what is thrown.
  lemma FirstReleaseOutcome(w: World, h: nat, bindFails: bool, faults: Faults, useFake: bool)
    requires Reachable(w) && h in w.records && !w.records[h].cleanup.releaseOnceDone
    ensures var (t, result) := Release(w, h, bindFails, faults, useFake);
            && (result.Ok? <==> h !in t.records)
            && (result.Ok? ==> HoldsNothing(t.driver, h))
            && (result.Err? ==> result.error == First(t.records[h].cleanup.firstFailure)
                                && t.records[h].cleanup.firstFailure.Some?)
  {
    ReachableInv(w);
    hide Release, Inv, HoldsNothing;
    ReleaseKeepsInv(w, h, bindFails, faults, useFake);
  }

  // Every later release of a surviving record throws that same failure and neither calls the driver
  // nor changes the ledger.
  lemma LaterReleaseRepeats(w: World, h: nat, bindFails: bool, faults: Faults, useFake: bool)
    requires Reachable(w) && h in w.records && w.records[h].cleanup.releaseOnceDone
    ensures Release(w, h, bindFails, faults, useFake) == (w, Err(First(w.records[h].cleanup.firstFailure)))
    ensures w.records[h].cleanup.firstFailure.Some?
  {
    ReachableInv(w);
  }

  predicate Clean(stage: Stage, f: Fault, useFake: bool) {
    !f.before && Succeeded(stage, f.rc, useFake) && !f.after
  }

  lemma CleanupStageFailsIff(w: World, h: nat, stage: Stage, f: Fault, useFake: bool)
    requires h in w.records
    ensures CleanupStage(w, h, stage, f, useFake).world.records[h].cleanup.firstFailure.None? <==>
              w.records[h].cleanup.firstFailure.None? && Clean(stage, f, useFake)
  {
    hide DriverCleanup;
  }

  predicate CleanIfHeld(r: Record, stage: Stage, faults: Faults, useFake: bool) {
    StillHeld(r.held, stage) ==> Clean(stage, faults(stage), useFake)
  }

  lemma ReleasePassFailsIff(w: World, h: nat, faults: Faults, useFake: bool)
    requires Mid(w, h) && !w.records[h].held.mapped && w.records[h].cleanup.attempted <= {Unmap}
    ensures Verdict(FreePhysical(ReleaseVa(w, h, faults, useFake), h, faults, useFake), h).1.Ok? <==>
              w.records[h].cleanup.firstFailure.None?
              && CleanIfHeld(w.records[h], VaRelease, faults, useFake) && CleanIfHeld(w.records[h], PhysicalFree, faults, useFake)
  {
    hide Mid, CleanupStage;
    MidDone(w, h);
    var v := ReleaseVa(w, h, faults, useFake);
    ReleaseVaKeepsMid(w, h, faults, useFake);
    FreePhysicalKeepsMid(v, h, faults, useFake);
    if w.records[h].held.vaReserved { CleanupStageFailsIff(w, h, VaRelease, faults(VaRelease), useFake); }
    if v.records[h].held.physicalAllocated { CleanupStageFailsIff(v, h, PhysicalFree, faults(PhysicalFree), useFake); }
  }

  // A first release succeeds exactly when the device binds and none of the stages it needs fails.
  lemma FirstReleaseSucceedsIff(w: World, h: nat, bindFails: bool, faults: Faults, useFake: bool)
    requires Reachable(w) && h in w.records && !w.records[h].cleanup.releaseOnceDone
    ensures Release(w, h, bindFails, faults, useFake).1.Ok? <==>
              && !bindFails
              && CleanIfHeld(w.records[h], Unmap, faults, useFake)
              && CleanIfHeld(w.records[h], VaRelease, faults, useFake)
              && CleanIfHeld(w.records[h], PhysicalFree, faults, useFake)
  {
    hide Inv, Mid, Unmapped, Verdict, FreePhysical, ReleaseVa, Release, CleanIfHeld, Reachable;
    ReachableInv(w);
    ReleaseAfterUnmap(w, h, bindFails, faults, useFake);
    if !bindFails {
      NoFailureYet(w, h);
      UnmappedMid(w, h, faults, useFake);
      UnmapFailsIff(w, h, faults, useFake);
      var c := Unmapped(w, h, faults, useFake);
      if c.ok {
        ReleasePassFailsIff(c.world, h, faults, useFake);
        LaterStagesNeed(w.records[h], c.world.records[h], faults, useFake);
      } else {
        UnmapFailed(w, h, faults, useFake);
      }
    }
  }

  // Release in terms of its unmap: it stops there, or goes on to the two frees.
  lemma ReleaseAfterUnmap(w: World, h: nat, bindFails: bool, faults: Faults, useFake: bool)
    requires h in w.records && !w.records[h].cleanup.releaseOnceDone
    ensures bindFails ==> Release(w, h, bindFails, faults, useFake).1.Err?
    ensures !bindFails ==>
              var c := Unmapped(w, h, faults, useFake);
              if c.world.records[h].held.mapped && !c.ok then Release(w, h, bindFails, faults, useFake).1.Err?
              else Release(w, h, bindFails, faults, useFake)
                   == Verdict(FreePhysical(ReleaseVa(c.world, h, faults, useFake), h, faults, useFake), h)
  {
    hide CleanupStage, Verdict, FreePhysical, ReleaseVa, Note;
  }

  lemma NoFailureYet(w: World, h: nat)
    requires Inv(w) && h in w.records && !w.records[h].cleanup.releaseOnceDone
    ensures w.records[h].cleanup.firstFailure.None?
  {
    hide Refines, CallsOk, Untouched;
  }

  lemma LaterStagesNeed(r: Record, u: Record, faults: Faults, useFake: bool)
    requires u.held.vaReserved == r.held.vaReserved && u.held.physicalAllocated == r.held.physicalAllocated
    ensures CleanIfHeld(u, VaRelease, faults, useFake) == CleanIfHeld(r, VaRelease, faults, useFake)
    ensures CleanIfHeld(u, PhysicalFree, faults, useFake) == CleanIfHeld(r, PhysicalFree, faults, useFake)
  {
    hide Clean;
  }

  lemma UnmapFailsIff(w: World, h: nat, faults: Faults, useFake: bool)
    requires h in w.records && w.records[h].cleanup.firstFailure.None?
    ensures var c := Unmapped(w, h, faults, useFake); var r, u := w.records[h], c.world.records[h];
            && (u.cleanup.firstFailure.None? <==> CleanIfHeld(r, Unmap, faults, useFake))
            && u.held.vaReserved == r.held.vaReserved && u.held.physicalAllocated == r.held.physicalAllocated
  {
    hide CleanupStage;
    var r := w.records[h].(cleanup := w.records[h].cleanup.(releaseOnceDone := true));
    CleanupStageRecord(Keep(w, h, r, w.driver), h, Unmap, faults(Unmap), useFake);
  }

  // ---- Allocating again on a released handle ---------------------------------------------------

  predicate HoldsSomething(q: Held) { q.physicalAllocated || q.vaReserved || q.mapped }

  // A step never touches what a released handle holds: its own release has had its one pass, an
  // allocation on it is refused, and other handles' steps leave its record alone.
  lemma StepKeepsHeld(w: World, op: Op, h: nat)
    requires Inv(w) && Possible(w, op) && h in w.records && w.records[h].cleanup.releaseOnceDone
    ensures var t := Step(w, op);
            && h in t.records && t.records[h].cleanup.releaseOnceDone
            && (HoldsSomething(w.records[h].held) ==> t.records[h].held == w.records[h].held)
  {
    hide Inv, Refines, AllocateStages, Release;
    match op
    case OpBegin(_) =>
    case OpAllocate(k, _, _, _, _, _) =>
      hide Step;
      AllocateCases(w, op);
      if Proceeds(w, op) {
        InvRefines(w);
        AllocateRefines(w, op);
      }
    case OpRelease(k, bindFails, faults, useFake) =>
      if k == h { LaterReleaseChangesNothing(w, h, bindFails, faults, useFake); }
      else { ReleaseScope(w, k, bindFails, faults, useFake); }
  }

  lemma InvRefines(w: World)
    requires Inv(w)
    ensures Refines(w)
  {
  }

  lemma LaterReleaseChangesNothing(w: World, h: nat, bindFails: bool, faults: Faults, useFake: bool)
    requires h in w.records && w.records[h].cleanup.releaseOnceDone
    ensures Release(w, h, bindFails, faults, useFake).0 == w
  {
  }

  lemma ReleaseScope(w: World, k: nat, bindFails: bool, faults: Faults, useFake: bool)
    ensures var t := Release(w, k, bindFails, faults, useFake).0;
            forall j | j in w.records && j != k :: j in t.records && t.records[j] == w.records[j]
  {
    hide CleanupStage, Note;
    if k in w.records && !w.records[k].cleanup.releaseOnceDone && !bindFails {
      var w0 := Keep(w, k, w.records[k].(cleanup := w.records[k].cleanup.(releaseOnceDone := true)), w.driver);
      CleanupStageScope(w0, k, Unmap, faults(Unmap), useFake);
      var c := Unmapped(w, k, faults, useFake).world;
      CleanupStageScope(c, k, VaRelease, faults(VaRelease), useFake);
      CleanupStageScope(ReleaseVa(c, k, faults, useFake), k, PhysicalFree, faults(PhysicalFree), useFake);
    }
  }

  lemma {:induction false} ReplayKeepsHeld(w: World, ops: seq<Op>, h: nat)
    requires Inv(w) && IsHistory(w, ops) && h in w.records && w.records[h].cleanup.releaseOnceDone
    ensures var t := Replay(w, ops);
            && h in t.records && t.records[h].cleanup.releaseOnceDone
            && (HoldsSomething(w.records[h].held) ==> t.records[h].held == w.records[h].held)
    decreases |ops|
  {
    hide Inv, Step, HoldsSomething;
    if |ops| > 0 {
      StepKeepsInv(w, ops[0]);
      StepKeepsHeld(w, ops[0], h);
      ReplayKeepsHeld(Step(w, ops[0]), ops[1..], h);
    }
  }

  // What the driver holds for a handle is what its record says.
  ghost predicate SameHoldings(d: Driver, e: Driver, h: nat) {
    && (forall p | p in d.physical && d.physical[p] == h :: p in e.physical && e.physical[p] == h)
    && (forall v | v in d.reserved && d.reserved[v] == h :: v in e.reserved && e.reserved[v] == h)
    && (forall v | v in d.mapped && v in d.reserved && d.reserved[v] == h :: v in e.mapped && e.mapped[v] == d.mapped[v])
  }

  lemma RecordDecidesHoldings(w: World, t: World, h: nat)
    requires Refines(w) && Refines(t) && h in w.records && h in t.records
    requires HoldsSomething(w.records[h].held) ==> t.records[h].held == w.records[h].held
    ensures SameHoldings(w.driver, t.driver, h)
  {
    assert Agrees(w.driver, h, w.records[h].held) && Agrees(t.driver, h, t.records[h].held);
  }

  // Nothing stops allocate_export on a handle whose release failed and left no flag set. The ledger
  // still names what it then acquires, but whatever a released handle holds, memory, addresses and
  // mappings, is held in every continuation.
  lemma ReleasedHandleNeverFrees(w: World, ops: seq<Op>, h: nat)
    requires Inv(w) && IsHistory(w, ops) && h in w.records && w.records[h].cleanup.releaseOnceDone
    ensures SameHoldings(w.driver, Replay(w, ops).driver, h)
  {
    hide Inv, Refines, Step, IsHistory, Replay, SameHoldings, HoldsSomething;
    ReplayKeepsHeld(w, ops, h);
    ReplayKeepsInv(w, ops);
    InvRefines(w);
    InvRefines(Replay(w, ops));
    RecordDecidesHoldings(w, Replay(w, ops), h);
  }

  ghost predicate CanBeFreed(w: World, h: nat) {
    exists ops :: IsHistory(w, ops) && HoldsNothing(Replay(w, ops).driver, h)
  }

  lemma FreedNow(w: World, h: nat)
    requires HoldsNothing(w.driver, h)
    ensures CanBeFreed(w, h)
  {
    hide HoldsNothing, Step;
    var none: seq<Op> := [];
    assert IsHistory(w, none) && Replay(w, none) == w;
  }

  // Exactly when a handle's resources can still be freed: some continuation leaves the driver holding
  // nothing for it if and only if it holds nothing already or the one release is still to come.
  lemma CanBeFreedIff(w: World, h: nat)
    requires Reachable(w)
    ensures CanBeFreed(w, h) <==>
              HoldsNothing(w.driver, h) || (h in w.records && !w.records[h].cleanup.releaseOnceDone)
  {
    hide Inv, Step, HoldsNothing, IsHistory, Replay;
    ReachableInv(w);
    if HoldsNothing(w.driver, h) {
      FreedNow(w, h);
    } else {
      HoldingIsRecorded(w, h);
      if w.records[h].cleanup.releaseOnceDone {
        forall ops | IsHistory(w, ops) ensures !HoldsNothing(Replay(w, ops).driver, h) {
          ReleasedHandleNeverFrees(w, ops, h);
          StillHolding(w.driver, Replay(w, ops).driver, h);
        }
      } else {
        ReleaseFrees(w, h);
      }
    }
  }

  lemma HoldingIsRecorded(w: World, h: nat)
    requires Inv(w) && !HoldsNothing(w.driver, h)
    ensures h in w.records
  {
    hide CallsOk, CleanupOk, Agrees;
  }

  lemma StillHolding(d: Driver, e: Driver, h: nat)
    requires SameHoldings(d, e, h) && !HoldsNothing(d, h)
    ensures !HoldsNothing(e, h)
  {
  }

  // One fault-free release does it.
  lemma ReleaseFrees(w: World, h: nat)
    requires Reachable(w) && h in w.records && !w.records[h].cleanup.releaseOnceDone
    ensures CanBeFreed(w, h)
  {
    hide Release, HoldsNothing, Reachable;
    FirstReleaseSucceedsIff(w, h, false, NoFaults, false);
    FirstReleaseOutcome(w, h, false, NoFaults, false);
    var op := OpRelease(h, false, NoFaults, false);
    assert [op][1..] == [] && IsHistory(Step(w, op), []) && Replay(Step(w, op), []) == Step(w, op);
    assert IsHistory(w, [op]) && Replay(w, [op]) == Step(w, op);
  }

  function NoFaults(stage: Stage): Fault { Fault(false, 0, false) }

  // The case exists: begin, a release whose device bind fails, then an allocation that succeeds.
  lemma ReallocationLeaks() returns (w: World)
    ensures Reachable(w) && 1 in w.records && w.records[1].cleanup.releaseOnceDone
    ensures 7 in w.driver.physical && w.driver.physical[7] == 1
  {
    var op1 := OpBegin(0);
    var op2 := OpRelease(1, true, NoFaults, false);
    var op3 := OpAllocate(1, 64, 64, false, NoFaults, Tokens(7, 9, 1));
    var w1 := Step(InitWorld(), op1);
    var w2 := Step(w1, op2);
    assert w2.driver == InitWorld().driver && 1 in w2.records;
    w := Step(w2, op3);
    ThreeSteps(op1, op2, op3);
  }

  lemma ThreeSteps(a: Op, b: Op, c: Op)
    requires Possible(InitWorld(), a) && Possible(Step(InitWorld(), a), b) && Possible(Step(Step(InitWorld(), a), b), c)
    ensures Reachable(Step(Step(Step(InitWorld(), a), b), c))
  {
    hide Step, Possible;
    var w1 := Step(InitWorld(), a);
    var w2 := Step(w1, b);
    var w3 := Step(w2, c);
    var ops := [a, b, c];
    assert ops[1..] == [b, c] && [b, c][1..] == [c] && |[c][1..]| == 0;
    assert IsHistory(w3, [c][1..]) && Replay(w3, [c][1..]) == w3;
    assert IsHistory(w2, [c]) && Replay(w2, [c]) == w3;
    assert IsHistory(w1, [b, c]) && Replay(w1, [b, c]) == w3;
    assert IsHistory(InitWorld(), ops) && Replay(InitWorld(), ops) == w3;
  }

  // ---- The ledger in place ---------------------------------------------------------------------

  /** The process-wide ledger, updated in place under its lock. Each entry point does what the
      function of the same name above says to the ledger and the driver together. */
  class Ledger {
    var records: map<nat, Record>
    var nextHandle: nat
    ghost var driver: Driver

    ghost function Value(): World
      reads this
    {
      World(records, nextHandle, driver)
    }

    constructor ()
      ensures Value() == InitWorld()
    {
      records, nextHandle, driver := map[], 1, InitWorld().driver;
    }

    method BeginRegion(deviceId: int) returns (r: Result<nat, BeginError>)
      modifies this
      ensures (Value(), r) == Begin(old(Value()), deviceId)
    {
      if deviceId < 0 { return Err(NegativeDevice); }
      var handle := nextHandle;
      if handle == 0 || handle in records { return Err(HandlesExhausted); }
      records := records[handle := Fresh(deviceId)];
      nextHandle := if handle == UINT64_MAX then 0 else handle + 1;
      r := Ok(handle);
    }

    method RunAllocateStage(h: nat, stage: Stage, f: Fault, token: nat) returns (error: Option<AllocateError>)
      requires h in records
      modifies this
      ensures Allocating(Value(), error) == AllocateStage(Allocating(old(Value()), None), h, stage, f, token)
      ensures h in records
    {
      if f.before { return Some(InjectedAt(stage, true)); }
      if f.rc != 0 { return Some(DriverAt(stage)); }
      driver := DriverAllocate(driver, h, stage, token, records[h]);
      records := records[h := CommitAllocate(records[h], stage, token)];
      error := if f.after then Some(InjectedAt(stage, false)) else None;
    }

    method Allocate(h: nat, bytes: nat, granularity: nat, bindFails: bool, faults: Faults, k: Tokens)
      returns (r: Result<Exported, AllocateError>)
      requires bytes <= UINT64_MAX && granularity <= UINT64_MAX
      modifies this
      ensures (Value(), r) == AllocateExport(old(Value()), h, bytes, granularity, bindFails, faults, k)
    {
      if h !in records { return Err(UnknownHandle); }
      var q := records[h].held;
      if q.physicalAllocated || q.vaReserved || q.mapped || records[h].exported { return Err(PartialState); }
      if bindFails { return Err(BindError); }
      var size := AlignBytes(bytes, granularity);
      if size.None? { return Err(BadSize); }
      records := records[h := records[h].(mappingBytes := size.value)];
      hide AllocateStage, AlignBytes;
      SkipsAfterError();
      var error := RunAllocateStage(h, PhysicalAlloc, faults(PhysicalAlloc), k.physical);
      if error.Some? { return Err(error.value); }
      error := RunAllocateStage(h, VaReserve, faults(VaReserve), k.va);
      if error.Some? { return Err(error.value); }
      error := RunAllocateStage(h, Map, faults(Map), 0);
      if error.Some? { return Err(error.value); }
      error := RunAllocateStage(h, SetAccess, faults(SetAccess), 0);
      if error.Some? { return Err(error.value); }
      error := RunAllocateStage(h, Export, faults(Export), k.shareable);
      if error.Some? { return Err(error.value); }
      r := Ok(Exported(records[h].held.va, records[h].mappingBytes, records[h].shareable, h));
    }

    method RunCleanupStage(h: nat, stage: Stage, f: Fault, useFake: bool) returns (ok: bool)
      requires h in records
      modifies this
      ensures Cleaning(Value(), ok) == CleanupStage(old(Value()), h, stage, f, useFake)
      ensures h in records
    {
      ghost var q := records[h].held;
      records := records[h := Attempt(records[h], stage)];
      if f.before {
        records := records[h := Note(records[h], Injected(stage, true))];
        return false;
      }
      driver := DriverCleanup(driver, h, q, stage, Succeeded(stage, f.rc, useFake));
      if !Succeeded(stage, f.rc, useFake) {
        records := records[h := Note(records[h], DriverCode(stage, f.rc))];
        return false;
      }
      records := records[h := CommitCleanup(records[h], stage)];
      if f.after {
        records := records[h := Note(records[h], Injected(stage, false))];
        return stage == Unmap;
      }
      ok := true;
    }

    method ReleaseRegion(h: nat, bindFails: bool, faults: Faults, useFake: bool) returns (r: Result<(), ReleaseError>)
      modifies this
      ensures (Value(), r) == Release(old(Value()), h, bindFails, faults, useFake)
    {
      if h !in records { return Ok(()); }
      var c := records[h].cleanup;
      if c.releaseOnceDone {
        return if c.firstFailure.Some? then Err(First(c.firstFailure)) else Ok(());
      }
      records := records[h := records[h].(cleanup := c.(releaseOnceDone := true))];
      if bindFails {
        records := records[h := Note(records[h], BindFailed)];
        assert records == old(records)[h := records[h]];
        return Err(First(records[h].cleanup.firstFailure));
      }
      hide CleanupStage;
      var unmapOk := true;
      if records[h].held.mapped {
        unmapOk := RunCleanupStage(h, Unmap, faults(Unmap), useFake);
      }
      if records[h].held.mapped && !unmapOk {
        return Err(First(records[h].cleanup.firstFailure));
      }
      if records[h].held.vaReserved && VaRelease !in records[h].cleanup.attempted {
        var _ := RunCleanupStage(h, VaRelease, faults(VaRelease), useFake);
      }
      if records[h].held.physicalAllocated && PhysicalFree !in records[h].cleanup.attempted {
        var _ := RunCleanupStage(h, PhysicalFree, faults(PhysicalFree), useFake);
      }
      if CleanupComplete(records[h]) {
        records := records - {h};
        return Ok(());
      }
      var first := records[h].cleanup.firstFailure;
      r := Err(if first.None? then Uncleared else First(first));
    }
  }

  lemma SkipsAfterError()
    ensures forall a: Allocating, h, stage, f, token | a.error.Some? && h in a.world.records ::
              AllocateStage(a, h, stage, f, token) == a
  {
  }
}
