/** Source-side registrations of caller-owned device storage: which address ranges are live, which
    identities they carry and how many accepted uses hold them open. */
module BufferSource {
  import opened Prelude
  import opened BufferAccess
  import opened Descriptors

  // The private snapshot of a wrapped buffer, and its accepted uses.
  datatype Record = Record(base: nat, nbytes: nat, descriptor: Descriptor, uses: int)

  // `next` belongs to the owner's allocator, which other sources of that owner share.
  datatype State = State(owner: Bytes, next: nat, records: map<Identity, Record>)

  datatype Failure = WrongProcess | BadRange | BadAccess | ContextDead | Overlapping | Exhausted | Released | Mismatched
    | UnknownIdentity | InUse

  // Whether the call runs in the source's own process, and whether the device context is alive.
  datatype Context = Context(sameProcess: bool, alive: bool)

  function Fresh(owner: Bytes): State { State(owner, 1, map[]) }

  // ---- The operations --------------------------------------------------------------------------

  predicate InRange(address: int, nbytes: int) { address > 0 && nbytes > 0 && address + nbytes <= UINT64_MAX + 1 }

  predicate Overlaps(r: Record, address: int, nbytes: int) {
    address < r.base + r.nbytes && r.base < address + nbytes
  }

  predicate Clear(s: State, address: int, nbytes: int) {
    forall n | n in s.records :: !Overlaps(s.records[n], address, nbytes)
  }

  // `access` is absent when the argument is no access mode at all.
  function WrapError(s: State, ctx: Context, address: int, nbytes: int, access: Option<Access>): Option<Failure> {
    if !ctx.sameProcess then Some(WrongProcess)
    else if !InRange(address, nbytes) then Some(BadRange)
    else if access.None? then Some(BadAccess)
    else if !ctx.alive then Some(ContextDead)
    else if !Clear(s, address, nbytes) then Some(Overlapping)
    else if s.next > UINT64_MAX then Some(Exhausted)
    else None
  }

  function NextIdentity(s: State): Identity { Identity(s.owner, s.next, 1) }

  function Wrap(s: State, ctx: Context, address: int, nbytes: int, access: Option<Access>): (State, Result<Descriptor, Failure>) {
    var e := WrapError(s, ctx, address, nbytes, access);
    if e.Some? then (s, Err(e.value))
    else
      var d := DeviceMallocDescriptor(NextIdentity(s), access.value, address, nbytes);
      (State(s.owner, s.next + 1, s.records[d.identity := Record(address, nbytes, d, 0)]), Ok(d))
  }

  // Another source of the same owner takes an identity.
  function BurnElsewhere(s: State): State { if s.next > UINT64_MAX then s else s.(next := s.next + 1) }

  function Validate(s: State, ctx: Context, n: Identity, d: Descriptor): Option<Failure> {
    if !ctx.sameProcess then Some(WrongProcess)
    else if !ctx.alive then Some(ContextDead)
    else if n !in s.records then Some(Released)
    else if d != s.records[n].descriptor then Some(Mismatched)
    else None
  }

  // Why one argument blocks the whole acquisition, if it does. Unknown identities are not ours.
  function ArgError(s: State, attached: set<Identity>, d: Descriptor): Option<Failure> {
    if d.identity !in s.records then if d.identity in attached then Some(Released) else None
    else if d != s.records[d.identity].descriptor then Some(Mismatched)
    else None
  }

  // The failure of the first blocking argument.
  function FirstArgError(s: State, attached: set<Identity>, args: seq<Descriptor>): (r: Option<Failure>)
    ensures r.None? <==> forall d | d in args :: ArgError(s, attached, d).None?
  {
    if args == [] then None
    else if ArgError(s, attached, args[0]).Some? then ArgError(s, attached, args[0])
    else FirstArgError(s, attached, args[1..])
  }

  // The live identities the arguments name, each once, in order of first appearance.
  function Named(s: State, args: seq<Descriptor>): (r: seq<Identity>)
    ensures forall n :: n in r <==> n in s.records && exists d | d in args :: d.identity == n
    ensures forall i, j | 0 <= i < j < |r| :: r[i] != r[j]
  {
    if args == [] then []
    else
      var last := args[|args| - 1];
      var before := Named(s, args[..|args| - 1]);
      if last.identity in s.records && last.identity !in before then before + [last.identity] else before
  }

  function AddUse(records: map<Identity, Record>, n: Identity, k: int): map<Identity, Record>
    requires n in records
  {
    records[n := records[n].(uses := records[n].uses + k)]
  }

  function AddUses(records: map<Identity, Record>, ids: seq<Identity>): map<Identity, Record> {
    map n | n in records :: if n in ids then records[n].(uses := records[n].uses + 1) else records[n]
  }

  function Acquire(s: State, ctx: Context, args: seq<Descriptor>, attached: set<Identity>): (State, Result<seq<Identity>, Failure>) {
    if !ctx.sameProcess then (s, Err(WrongProcess))
    else if !ctx.alive then (s, Err(ContextDead))
    else
      var e := FirstArgError(s, attached, args);
      if e.Some? then (s, Err(e.value))
      else (s.(records := AddUses(s.records, Named(s, args))), Ok(Named(s, args)))
  }

  // One decrement per listed identity, stopping at the first unknown one.
  function Drop(records: map<Identity, Record>, ids: seq<Identity>): (map<Identity, Record>, Option<Failure>)
    decreases |ids|
  {
    if ids == [] then (records, None)
    else if ids[0] !in records then (records, Some(UnknownIdentity))
    else Drop(AddUse(records, ids[0], -1), ids[1..])
  }

  function Release(s: State, ctx: Context, ids: seq<Identity>): (State, Option<Failure>) {
    if !ctx.sameProcess then (s, Some(WrongProcess))
    else (s.(records := Drop(s.records, ids).0), Drop(s.records, ids).1)
  }

  function Close(s: State, ctx: Context, n: Identity): (State, Option<Failure>) {
    if !ctx.sameProcess then (s, Some(WrongProcess))
    else if n !in s.records then (s, None)
    else if s.records[n].uses != 0 then (s, Some(InUse))
    else (s.(records := s.records - {n}), None)
  }

  // ---- Runs ------------------------------------------------------------------------------------

  // The source beside its history: every identity the allocator handed out, every accepted use and
  // every use given back.
  datatype History = History(source: State, issued: set<Identity>, acquired: multiset<Identity>, released: multiset<Identity>)

  datatype Step =
    | DoWrap(ctx: Context, address: int, nbytes: int, access: Option<Access>)
    | DoBurn
    | DoAcquire(ctx: Context, args: seq<Descriptor>, attached: set<Identity>)
    | DoRelease(ctx: Context, ids: seq<Identity>)
    | DoClose(ctx: Context, n: Identity)

  // The part of a release list that is processed: everything before the first unknown identity.
  function Processed(live: set<Identity>, ids: seq<Identity>): seq<Identity> {
    if ids == [] || ids[0] !in live then [] else [ids[0]] + Processed(live, ids[1..])
  }

  function Apply(h: History, step: Step): History {
    match step
    case DoWrap(ctx, address, nbytes, access) =>
      var (s, r) := Wrap(h.source, ctx, address, nbytes, access);
      h.(source := s, issued := if r.Ok? then h.issued + {r.value.identity} else h.issued)
    case DoBurn =>
      h.(source := BurnElsewhere(h.source),
         issued := if h.source.next <= UINT64_MAX then h.issued + {NextIdentity(h.source)} else h.issued)
    case DoAcquire(ctx, args, attached) =>
      var (s, r) := Acquire(h.source, ctx, args, attached);
      h.(source := s, acquired := if r.Ok? then h.acquired + multiset(r.value) else h.acquired)
    case DoRelease(ctx, ids) =>
      h.(source := Release(h.source, ctx, ids).0,
         released := if ctx.sameProcess then h.released + multiset(Processed(h.source.records.Keys, ids)) else h.released)
    case DoClose(ctx, n) => h.(source := Close(h.source, ctx, n).0)
  }

  function Run(h: History, steps: seq<Step>): History
    decreases |steps|
  {
    if steps == [] then h else Run(Apply(h, steps[0]), steps[1..])
  }

  function Start(owner: Bytes): History { History(Fresh(owner), {}, multiset{}, multiset{}) }

  ghost predicate Reachable(h: History) { exists owner, steps :: h == Run(Start(owner), steps) }

  // ---- What every reachable state satisfies ----------------------------------------------------

  // A registration is exactly what wrapping its range produced.
  ghost predicate Registered(n: Identity, r: Record) {
    && InRange(r.base, r.nbytes)
    && r.descriptor == DeviceMallocDescriptor(n, r.descriptor.access, r.base, r.nbytes)
  }

  ghost predicate Disjoint(records: map<Identity, Record>) {
    forall m, n | m in records && n in records && m != n :: !Overlaps(records[m], records[n].base, records[n].nbytes)
  }

  ghost predicate IssuedBelow(h: History) {
    && 1 <= h.source.next <= UINT64_MAX + 1
    && forall n | n in h.issued :: n.owner == h.source.owner && 1 <= n.id < h.source.next && n.generation == 1
  }

  // Uses in hand: what was accepted and not given back.
  function Outstanding(h: History, n: Identity): int {
    var accepted: int := h.acquired[n];
    accepted - h.released[n]
  }

  ghost predicate Counted(h: History) {
    forall n :: Outstanding(h, n) == if n in h.source.records then h.source.records[n].uses else 0
  }

  ghost predicate Ranges(records: map<Identity, Record>) {
    (forall n | n in records :: Registered(n, records[n])) && Disjoint(records)
  }

  ghost predicate Inv(h: History) {
    IssuedBelow(h) && h.source.records.Keys <= h.issued && Ranges(h.source.records) && Counted(h)
  }

  // Registrations whose ranges and descriptors are unchanged.
  ghost predicate SameRanges(a: map<Identity, Record>, b: map<Identity, Record>) {
    && a.Keys == b.Keys
    && forall n | n in a :: a[n].base == b[n].base && a[n].nbytes == b[n].nbytes && a[n].descriptor == b[n].descriptor
  }

  lemma SameRangesKeep(a: map<Identity, Record>, b: map<Identity, Record>)
    requires SameRanges(a, b) && Ranges(a)
    ensures Ranges(b)
  {
  }

  // A release fails exactly when it stops early, and changes nothing but use counts.
  lemma {:induction false} DropKeeps(records: map<Identity, Record>, ids: seq<Identity>)
    ensures Drop(records, ids).1.None? <==> forall n | n in ids :: n in records
    ensures Drop(records, ids).1.None? ==> Processed(records.Keys, ids) == ids
    ensures SameRanges(records, Drop(records, ids).0)
    decreases |ids|
  {
    if ids != [] && ids[0] in records {
      var next := AddUse(records, ids[0], -1);
      assert next.Keys == records.Keys;
      DropKeeps(next, ids[1..]);
      assert ids == [ids[0]] + ids[1..];
    }
  }

  lemma ConsCount(x: Identity, s: seq<Identity>, n: Identity)
    ensures multiset([x] + s)[n] == multiset(s)[n] + if x == n then 1 else 0
  {
  }

  // It takes one use per processed occurrence.
  lemma {:induction false} DropSubtracts(records: map<Identity, Record>, ids: seq<Identity>, n: Identity)
    requires n in records
    ensures n in Drop(records, ids).0
    ensures Drop(records, ids).0[n].uses == records[n].uses - multiset(Processed(records.Keys, ids))[n]
    decreases |ids|
  {
    if ids != [] && ids[0] in records {
      var next := AddUse(records, ids[0], -1);
      assert next.Keys == records.Keys;
      DropSubtracts(next, ids[1..], n);
      ConsCount(ids[0], Processed(records.Keys, ids[1..]), n);
    }
  }

  lemma {:induction false} ProcessedAreLive(live: set<Identity>, ids: seq<Identity>, n: Identity)
    requires n !in live
    ensures multiset(Processed(live, ids))[n] == 0
  {
    if ids != [] && ids[0] in live {
      ProcessedAreLive(live, ids[1..], n);
      ConsCount(ids[0], Processed(live, ids[1..]), n);
    }
  }

  // A list without repetition holds each of its members once.
  lemma {:induction false} DistinctCounts(ids: seq<Identity>, n: Identity)
    requires forall i, j | 0 <= i < j < |ids| :: ids[i] != ids[j]
    ensures multiset(ids)[n] == if n in ids then 1 else 0
  {
    if ids != [] {
      DistinctCounts(ids[1..], n);
      assert ids == [ids[0]] + ids[1..];
    }
  }

  // A clear range under an unused identity joins the others.
  lemma OneMoreRange(records: map<Identity, Record>, n: Identity, r: Record)
    requires Ranges(records) && n !in records && Registered(n, r)
    requires forall m | m in records :: !Overlaps(records[m], r.base, r.nbytes)
    ensures Ranges(records[n := r])
  {
    hide Registered;
  }

  lemma WrapKeepsInv(h: History, step: Step)
    requires Inv(h) && step.DoWrap?
    ensures Inv(Apply(h, step))
  {
    hide Ranges, Overlaps, Disjoint;
    var (s, r) := Wrap(h.source, step.ctx, step.address, step.nbytes, step.access);
    if r.Ok? {
      var n := r.value.identity;
      assert n !in h.issued && n !in h.source.records;
      OneMoreRange(h.source.records, n, s.records[n]);
    }
    forall m ensures Outstanding(Apply(h, step), m) == if m in s.records then s.records[m].uses else 0 {
      assert Outstanding(Apply(h, step), m) == Outstanding(h, m);
    }
  }

  lemma AcquireKeepsInv(h: History, step: Step)
    requires Inv(h) && step.DoAcquire?
    ensures Inv(Apply(h, step))
  {
    hide Ranges, Processed, Drop, FirstArgError;
    var (s, r) := Acquire(h.source, step.ctx, step.args, step.attached);
    if r.Ok? {
      SameRangesKeep(h.source.records, s.records);
      forall n ensures Outstanding(Apply(h, step), n) == if n in s.records then s.records[n].uses else 0 {
        DistinctCounts(r.value, n);
        assert Outstanding(h, n) == if n in h.source.records then h.source.records[n].uses else 0;
      }
    }
  }

  lemma ReleaseKeepsInv(h: History, step: Step)
    requires Inv(h) && step.DoRelease?
    ensures Inv(Apply(h, step))
  {
    hide Ranges, Processed, Drop, FirstArgError;
    if step.ctx.sameProcess {
      var records := Drop(h.source.records, step.ids).0;
      DropKeeps(h.source.records, step.ids);
      SameRangesKeep(h.source.records, records);
      forall n ensures Outstanding(Apply(h, step), n) == if n in records then records[n].uses else 0 {
        assert Outstanding(h, n) == if n in h.source.records then h.source.records[n].uses else 0;
        if n in records { DropSubtracts(h.source.records, step.ids, n); }
        else { ProcessedAreLive(h.source.records.Keys, step.ids, n); }
      }
    }
  }

  lemma CloseKeepsInv(h: History, step: Step)
    requires Inv(h) && step.DoClose?
    ensures Inv(Apply(h, step))
  {
    hide Registered, Overlaps;
    var s := Close(h.source, step.ctx, step.n).0;
    forall n ensures Outstanding(Apply(h, step), n) == if n in s.records then s.records[n].uses else 0 {
      assert Outstanding(h, n) == if n in h.source.records then h.source.records[n].uses else 0;
    }
  }

  lemma StepKeepsInv(h: History, step: Step)
    requires Inv(h)
    ensures Inv(Apply(h, step))
  {
    match step
    case DoWrap(_, _, _, _) => WrapKeepsInv(h, step);
    case DoBurn =>
      forall n ensures Outstanding(Apply(h, step), n) == if n in h.source.records then h.source.records[n].uses else 0 {
        assert Outstanding(Apply(h, step), n) == Outstanding(h, n);
      }
    case DoAcquire(_, _, _) => AcquireKeepsInv(h, step);
    case DoRelease(_, _) => ReleaseKeepsInv(h, step);
    case DoClose(_, _) => CloseKeepsInv(h, step);
  }

  lemma {:induction false} RunKeepsInv(h: History, steps: seq<Step>)
    requires Inv(h)
    ensures Inv(Run(h, steps))
    decreases |steps|
  {
    hide Inv, Apply;
    if steps != [] {
      StepKeepsInv(h, steps[0]);
      RunKeepsInv(Apply(h, steps[0]), steps[1..]);
    }
  }

  lemma ReachableInv(h: History)
    requires Reachable(h)
    ensures Inv(h)
  {
    var owner, steps :| h == Run(Start(owner), steps);
    RunKeepsInv(Start(owner), steps);
  }

  // ---- The main results ------------------------------------------------------------------------

  // Every device byte lies in at most one live registration, and every registration inside uint64.
  lemma RangesAreDisjoint(h: History, address: int)
    requires Reachable(h)
    ensures forall n | n in h.source.records ::
              var r := h.source.records[n];
              0 < r.base < r.base + r.nbytes <= UINT64_MAX + 1 && BodyAddress(r.descriptor) == r.base
    ensures forall m, n | m in h.source.records && n in h.source.records
                          && h.source.records[m].base <= address < h.source.records[m].base + h.source.records[m].nbytes
                          && h.source.records[n].base <= address < h.source.records[n].base + h.source.records[n].nbytes ::
              m == n
  {
    ReachableInv(h);
    forall n | n in h.source.records
      ensures var r := h.source.records[n];
              0 < r.base < r.base + r.nbytes <= UINT64_MAX + 1 && BodyAddress(r.descriptor) == r.base
    {
      var r := h.source.records[n];
      assert Registered(n, r);
      WrappedAddress(n, r.descriptor.access, r.base, r.nbytes);
    }
  }

  // A descriptor passes the provenance check exactly when it is the one wrapping produced: it passes
  // the construction gate and its body is the wrapped address.
  lemma ValidatedNamesItsRange(h: History, ctx: Context, n: Identity, d: Descriptor)
    requires Reachable(h) && Validate(h.source, ctx, n, d).None?
    ensures n in h.source.records && d.identity == n && d.space == Device && d.backend == DeviceMalloc && Gated(d)
    ensures BodyAddress(d) == h.source.records[n].base && d.nbytes == h.source.records[n].nbytes
  {
    ReachableInv(h);
    var r := h.source.records[n];
    assert Registered(n, r);
    WrappedAddress(n, r.descriptor.access, r.base, r.nbytes);
  }

  // An identity is handed out once: whatever happened before, a successful wrap returns one that was
  // never issued, by this source or by another of the same owner.
  lemma IdentitiesAreNeverReused(h: History, ctx: Context, address: int, nbytes: int, access: Option<Access>)
    requires Reachable(h) && Wrap(h.source, ctx, address, nbytes, access).1.Ok?
    ensures Wrap(h.source, ctx, address, nbytes, access).1.value.identity !in h.issued
  {
    ReachableInv(h);
  }

  // The history only grows, so "never issued before" covers the whole run.
  lemma {:induction false} IssuedGrows(h: History, steps: seq<Step>)
    ensures h.issued <= Run(h, steps).issued
    decreases |steps|
  {
    if steps != [] { IssuedGrows(Apply(h, steps[0]), steps[1..]); }
  }

  // Use counts are exactly the outstanding uses, an identity with uses outstanding is still
  // registered, and a registration is closed exactly when none are; otherwise nothing changes.
  lemma UsesBlockClose(h: History, n: Identity)
    requires Reachable(h)
    ensures n in h.source.records ==> h.source.records[n].uses == Outstanding(h, n)
    ensures Outstanding(h, n) != 0 ==> n in h.source.records
    ensures forall ctx: Context | ctx.sameProcess ::
              Close(h.source, ctx, n) == if Outstanding(h, n) != 0 then (h.source, Some(InUse))
                                         else (h.source.(records := h.source.records - {n}), None)
  {
    ReachableInv(h);
    assert Outstanding(h, n) == if n in h.source.records then h.source.records[n].uses else 0;
    if n !in h.source.records { assert h.source.records - {n} == h.source.records; }
  }

  // An acquisition fails without effect exactly when some argument names a released attachment or
  // carries a descriptor other than the registered one; otherwise each live identity named, however
  // often, gains one use and nothing else changes.
  lemma AcquireAllOrNothing(s: State, args: seq<Descriptor>, attached: set<Identity>)
    ensures var (t, r) := Acquire(s, Context(true, true), args, attached);
            && (r.Err? ==> t == s)
            && (r.Err? <==> exists d | d in args ::
                              if d.identity in s.records then d != s.records[d.identity].descriptor else d.identity in attached)
            && (r.Ok? ==>
                  && t.owner == s.owner && t.next == s.next && SameRanges(s.records, t.records)
                  && forall n | n in s.records ::
                       t.records[n].uses == s.records[n].uses + if exists d | d in args :: d.identity == n then 1 else 0)
  {
    var e := FirstArgError(s, attached, args);
    if e.Some? {
      var d :| d in args && ArgError(s, attached, d).Some?;
      assert if d.identity in s.records then d != s.records[d.identity].descriptor else d.identity in attached;
    }
  }

  lemma DropUndoesAdd(records: map<Identity, Record>, named: seq<Identity>, ids: seq<Identity>)
    requires (forall n | n in named :: n in records) && (forall i, j | 0 <= i < j < |named| :: named[i] != named[j])
    requires multiset(ids) == multiset(named)
    ensures Drop(AddUses(records, named), ids) == (records, None)
  {
    hide Drop, Processed;
    var added := AddUses(records, named);
    assert forall n | n in ids :: n in multiset(ids) && n in multiset(named);
    DropKeeps(added, ids);
    forall n | n in records ensures Drop(added, ids).0[n] == records[n] {
      DropSubtracts(added, ids, n);
      DistinctCounts(named, n);
    }
    assert Drop(added, ids).0 == records;
  }

  // Releasing what was acquired restores the counts, in any order.
  lemma ReleaseUndoesAcquire(s: State, ctx: Context, args: seq<Descriptor>, attached: set<Identity>, ids: seq<Identity>)
    requires var r := Acquire(s, ctx, args, attached).1; r.Ok? && multiset(ids) == multiset(r.value)
    ensures Release(Acquire(s, ctx, args, attached).0, ctx, ids) == (s, None)
  {
    hide AddUses, Drop;
    DropUndoesAdd(s.records, Named(s, args), ids);
  }

  // ---- The objects -----------------------------------------------------------------------------

  // The owner's identity allocator, shared by its device sources.
  class Allocator {
    const owner: Bytes
    var next: nat

    constructor (owner: Bytes)
      ensures this.owner == owner && next == 1
    {
      this.owner, next := owner, 1;
    }

    method BurnIdentity() returns (r: Result<Identity, Failure>)
      modifies this
      ensures old(next) > UINT64_MAX ==> r == Err(Exhausted) && next == old(next)
      ensures old(next) <= UINT64_MAX ==> r == Ok(Identity(owner, old(next), 1)) && next == old(next) + 1
    {
      var id := next;
      if id > UINT64_MAX { return Err(Exhausted); }
      next := id + 1;
      r := Ok(Identity(owner, id, 1));
    }
  }

  // Each method does to the source exactly what its operation above does to the state.
  class Source {
    const allocator: Allocator
    var records: map<Identity, Record>

    ghost function Now(): State
      reads this, allocator
    {
      State(allocator.owner, allocator.next, records)
    }

    constructor (allocator: Allocator)
      ensures this.allocator == allocator && Now() == State(allocator.owner, allocator.next, map[])
    {
      this.allocator, records := allocator, map[];
    }

    method FindOverlap(address: int, nbytes: int) returns (found: bool)
      ensures found <==> !Clear(Now(), address, nbytes)
    {
      var pending := records.Keys;
      while pending != {}
        invariant pending <= records.Keys
        invariant forall n | n in records && n !in pending :: !Overlaps(records[n], address, nbytes)
      {
        var n :| n in pending;
        if Overlaps(records[n], address, nbytes) { return true; }
        pending := pending - {n};
      }
      found := false;
    }

    method WrapRange(ctx: Context, address: int, nbytes: int, access: Option<Access>) returns (r: Result<Descriptor, Failure>)
      modifies this, allocator
      ensures (Now(), r) == Wrap(old(Now()), ctx, address, nbytes, access)
    {
      hide Clear;
      if !ctx.sameProcess { return Err(WrongProcess); }
      if address <= 0 || nbytes <= 0 || address + nbytes > UINT64_MAX + 1 { return Err(BadRange); }
      if access.None? { return Err(BadAccess); }
      if !ctx.alive { return Err(ContextDead); }
      var found := FindOverlap(address, nbytes);
      if found { return Err(Overlapping); }
      var burned := allocator.BurnIdentity();
      if burned.Err? { return Err(burned.error); }
      var n := burned.value;
      var d := DeviceMallocDescriptor(n, access.value, address, nbytes);
      records := records[n := Record(address, nbytes, d, 0)];
      r := Ok(d);
    }

    // Validate every argument first, remembering the live identities, then reserve them all.
    method AcquireArgs(ctx: Context, args: seq<Descriptor>, attached: set<Identity>) returns (r: Result<seq<Identity>, Failure>)
      modifies this
      ensures (Now(), r) == Acquire(old(Now()), ctx, args, attached)
    {
      if !ctx.sameProcess { return Err(WrongProcess); }
      if !ctx.alive { return Err(ContextDead); }
      var found: seq<Identity> := [];
      assert args[0..] == args;
      for i := 0 to |args|
        invariant records == old(records)
        invariant found == Named(old(Now()), args[..i])
        invariant FirstArgError(old(Now()), attached, args) == FirstArgError(old(Now()), attached, args[i..])
      {
        var d := args[i];
        assert args[i..][0] == d && args[i..][1..] == args[i + 1..];
        assert args[..i + 1][..i] == args[..i] && args[..i + 1][i] == d;
        if d.identity !in records {
          if d.identity in attached { return Err(Released); }
          continue;
        }
        if d != records[d.identity].descriptor { return Err(Mismatched); }
        if d.identity !in found { found := found + [d.identity]; }
      }
      assert args[..|args|] == args && args[|args|..] == [];
      Reserve(found);
      r := Ok(found);
    }

    method Reserve(found: seq<Identity>)
      requires forall n | n in found :: n in records
      requires forall i, j | 0 <= i < j < |found| :: found[i] != found[j]
      modifies this
      ensures records == AddUses(old(records), found)
    {
      for i := 0 to |found|
        invariant records == AddUses(old(records), found[..i])
      {
        assert found[..i + 1] == found[..i] + [found[i]];
        records := AddUse(records, found[i], 1);
      }
      assert found[..|found|] == found;
    }

    method ReleaseUses(ctx: Context, ids: seq<Identity>) returns (e: Option<Failure>)
      modifies this
      ensures (Now(), e) == Release(old(Now()), ctx, ids)
    {
      if !ctx.sameProcess { return Some(WrongProcess); }
      assert ids[0..] == ids;
      for i := 0 to |ids|
        invariant Drop(old(records), ids) == Drop(records, ids[i..])
      {
        assert ids[i..][0] == ids[i] && ids[i..][1..] == ids[i + 1..];
        if ids[i] !in records { return Some(UnknownIdentity); }
        records := AddUse(records, ids[i], -1);
      }
      assert ids[|ids|..] == [];
      e := None;
    }

    method CloseBuffer(ctx: Context, n: Identity) returns (e: Option<Failure>)
      modifies this
      ensures (Now(), e) == Close(old(Now()), ctx, n)
    {
      if !ctx.sameProcess { return Some(WrongProcess); }
      if n !in records { return None; }
      if records[n].uses != 0 { return Some(InUse); }
      records := records - {n};
      e := None;
    }
  }
}
