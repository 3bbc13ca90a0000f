/** The consumer-side import cache: one mapping per identity, made on first sight, by the mechanism
    the shared adapter judgment names. */
module ImportRegistry {
  import opened Prelude
  import opened BufferAccess
  import opened Descriptors
  import BufferSource

  // Which side of which Worker's device memory this endpoint sits on.
  datatype Context = Context(deployment: Deployment, owner: Option<Bytes>)

  datatype Capability = DirectLoad | DirectStore | CopyTo | CopyFrom | DevicePeerAccess

  // What opening the named shared-memory object yields.
  datatype Mapping = Mapping(base: nat, size: nat)
  datatype Opened = Missing | Undecodable | Mapped(mapping: Mapping)

  datatype Imported = Imported(base: nat, nbytes: nat, space: Space, shm: Option<Mapping>, descriptor: Descriptor,
                               profile: AdapterProfile, capabilities: set<Capability>)

  datatype Failure =
    | Conflict | ForeignOwner | Refused(code: ReasonCode) | NoAddress(mechanism: Candidate) | BadName | NoSuchObject
    | TooSmall | StillExported(n: Identity)

  type Entries = map<Identity, Imported>

  // ---- Rights ----------------------------------------------------------------------------------

  const WRITES: set<Capability> := {DirectStore, CopyTo}
  const READS: set<Capability> := {DirectLoad, CopyFrom}

  function Ceiling(kind: AdapterKind): set<Capability> {
    match kind
    case DirectMap => {DirectLoad, DirectStore, CopyTo, CopyFrom}
    case DevicePeer => {DevicePeerAccess, CopyTo, CopyFrom}
    case OwnerDelegatedCopy => {CopyTo, CopyFrom}
    case ExplicitTransfer => {}
    case Collective => {}
  }

  // The mechanism's rights, narrowed by the backing's access mode.
  function Capabilities(kind: AdapterKind, access: Access): set<Capability> {
    match access
    case Read => Ceiling(kind) - WRITES
    case Write => Ceiling(kind) - READS
    case ReadWrite => Ceiling(kind)
  }

  // ---- The mechanism ---------------------------------------------------------------------------

  // A host backing is mapped by the process's own host side; a device backing is asked for from the
  // endpoint's deployment.
  function QueryFor(d: Descriptor, ctx: Context): Query {
    Query(d.backend, if d.space == Device then ctx.deployment else HostCpu, true,
          d.space == Device && IsDevice(ctx.deployment))
  }

  function Adapter(d: Descriptor, ctx: Context): Result<Candidate, Failure> {
    if d.space == Device && ctx.owner != Some(d.identity.owner) then Err(ForeignOwner)
    else
      var q := QueryFor(d, ctx);
      var cs := Candidates(q);
      match Choose(q)
      case Some(c) => Ok(c)
      case None => Err(Refused(if cs == [] then StaticUnsupported else Evaluate(q, cs[|cs| - 1])))
  }

  method SelectAdapter(d: Descriptor, ctx: Context) returns (r: Result<Candidate, Failure>)
    ensures r == Adapter(d, ctx)
  {
    if d.space == Device {
      if ctx.owner != Some(d.identity.owner) { return Err(ForeignOwner); }
    }
    var q := QueryFor(d, ctx);
    var cs := Candidates(q);
    var last: Option<ReasonCode> := None;
    for i := 0 to |cs|
      invariant forall j | 0 <= j < i :: !DefaultService(q, cs[j])
      invariant last == if i == 0 then None else Some(Evaluate(q, cs[i - 1]))
    {
      var code := Evaluate(q, cs[i]);
      if code == Supported {
        ChooseFirst(q, i);
        return Ok(cs[i]);
      }
      last := Some(code);
    }
    r := if last.Some? then Err(Refused(last.value)) else Err(Refused(StaticUnsupported));
  }

  lemma ChooseFirst(q: Query, i: nat)
    requires i < |Candidates(q)| && DefaultService(q, Candidates(q)[i])
    requires forall j | 0 <= j < i :: !DefaultService(q, Candidates(q)[j])
    ensures Choose(q) == Some(Candidates(q)[i])
  {
    ReachableIff(q);
  }

  // Which backings an endpoint reaches, and by what.
  lemma AdapterIff(d: Descriptor, ctx: Context)
    requires Gated(d)
    ensures d.space == Host ==> (Adapter(d, ctx).Ok? <==> d.backend != RemoteSidecar)
    ensures d.space == Device && ctx.deployment == HostCpu ==>
              (Adapter(d, ctx).Ok? <==> ctx.owner == Some(d.identity.owner) && d.backend != RemoteSidecar)
              && (Adapter(d, ctx).Ok? ==> Adapter(d, ctx).value.kind == OwnerDelegatedCopy)
    ensures d.space == Device && ctx.deployment != HostCpu ==>
              (Adapter(d, ctx).Ok? <==>
                 ctx.owner == Some(d.identity.owner) && (d.backend == DeviceMalloc || d.backend == VmmWindow))
              && (Adapter(d, ctx).Ok? ==> Adapter(d, ctx).value == Candidate(DirectMap, DeviceLocal))
  {
    ReachableIff(QueryFor(d, ctx));
  }

  // ---- The operations --------------------------------------------------------------------------

  predicate Resolvable(p: AdapterProfile) { p == ForkInheritedVa || p == DeviceLocal || p == HostShmMap }

  // Carry the named mechanism out: the body is an address, or the name of an object to map.
  function Resolve(p: AdapterProfile, d: Descriptor, answer: Opened): Result<(nat, Option<Mapping>), Failure>
    requires Resolvable(p)
  {
    if p != HostShmMap then Ok((BodyAddress(d), None))
    else match answer
      case Undecodable => Err(BadName)
      case Missing => Err(NoSuchObject)
      case Mapped(m) => if m.size < d.nbytes then Err(TooSmall) else Ok((m.base, Some(m)))
  }

  function Import(ctx: Context, d: Descriptor, answer: Opened): Result<Imported, Failure> {
    match Adapter(d, ctx)
    case Err(e) => Err(e)
    case Ok(c) =>
      if !Resolvable(c.profile) then Err(NoAddress(c))
      else match Resolve(c.profile, d, answer)
        case Err(e) => Err(e)
        case Ok((base, shm)) => Ok(Imported(base, d.nbytes, d.space, shm, d, c.profile, Capabilities(c.kind, d.access)))
  }

  function Materialize(m: Entries, ctx: Context, d: Descriptor, answer: Opened): (Entries, Result<Imported, Failure>) {
    if d.identity in m then
      if m[d.identity].descriptor != d then (m, Err(Conflict)) else (m, Ok(m[d.identity]))
    else match Import(ctx, d, answer)
      case Err(e) => (m, Err(e))
      case Ok(e) => (m[d.identity := e], Ok(e))
  }

  // `stuck` holds the identities whose mapping cannot be closed now: somebody holds a view of it.
  predicate Sticks(m: Entries, stuck: set<Identity>, n: Identity) { n in m && m[n].shm.Some? && n in stuck }

  function Unregister(m: Entries, n: Identity, stuck: set<Identity>): (Entries, Option<Failure>) {
    if n !in m then (m, None)
    else if Sticks(m, stuck, n) then (m, Some(StillExported(n)))
    else (m - {n}, None)
  }

  // An iteration order of a dictionary with these keys.
  ghost predicate Enumerates(order: seq<Identity>, keys: set<Identity>) {
    (forall n :: n in order <==> n in keys) && forall i, j | 0 <= i < j < |order| :: order[i] != order[j]
  }

  // What is left once `done` has been swept: the rest, and what could not be closed.
  function Swept(m: Entries, stuck: set<Identity>, done: seq<Identity>): Entries {
    map n | n in m && (n in done ==> Sticks(m, stuck, n)) :: m[n]
  }

  // What a full close leaves behind.
  function Left(m: Entries, stuck: set<Identity>): Entries { map n | n in m && Sticks(m, stuck, n) :: m[n] }

  // The identities of `done` whose close fails, in order.
  function Failing(m: Entries, stuck: set<Identity>, done: seq<Identity>): seq<Identity> {
    if done == [] then []
    else
      var before := Failing(m, stuck, done[..|done| - 1]);
      if Sticks(m, stuck, done[|done| - 1]) then before + [done[|done| - 1]] else before
  }

  // The first failure is the first identity in order that sticks.
  ghost predicate IsFirst(m: Entries, stuck: set<Identity>, order: seq<Identity>, n: Identity) {
    exists i | 0 <= i < |order| ::
      order[i] == n && Sticks(m, stuck, n) && forall j | 0 <= j < i :: !Sticks(m, stuck, order[j])
  }

  lemma {:induction false} FailingFirst(m: Entries, stuck: set<Identity>, done: seq<Identity>)
    ensures Failing(m, stuck, done) == [] ==> forall i | 0 <= i < |done| :: !Sticks(m, stuck, done[i])
    ensures Failing(m, stuck, done) != [] ==> IsFirst(m, stuck, done, Failing(m, stuck, done)[0])
  {
    if done != [] {
      var prefix := done[..|done| - 1];
      FailingFirst(m, stuck, prefix);
      assert forall i | 0 <= i < |prefix| :: done[i] == prefix[i];
      if Failing(m, stuck, prefix) != [] {
        var n := Failing(m, stuck, prefix)[0];
        var i :| 0 <= i < |prefix| && prefix[i] == n && Sticks(m, stuck, n)
                 && forall j | 0 <= j < i :: !Sticks(m, stuck, prefix[j]);
        assert done[i] == n;
        assert IsFirst(m, stuck, done, n);
      }
    }
  }

  lemma StartSweep(m: Entries, stuck: set<Identity>)
    ensures Swept(m, stuck, []) == m && Failing(m, stuck, []) == []
  {
  }

  lemma SweepStep(m: Entries, stuck: set<Identity>, order: seq<Identity>, i: nat)
    requires Enumerates(order, m.Keys) && i < |order|
    ensures order[i] in m && order[i] in Swept(m, stuck, order[..i]) && Swept(m, stuck, order[..i])[order[i]] == m[order[i]]
    ensures Sticks(m, stuck, order[i]) ==>
              && Swept(m, stuck, order[..i + 1]) == Swept(m, stuck, order[..i])
              && Failing(m, stuck, order[..i + 1]) == Failing(m, stuck, order[..i]) + [order[i]]
    ensures !Sticks(m, stuck, order[i]) ==>
              && Swept(m, stuck, order[..i + 1]) == Swept(m, stuck, order[..i]) - {order[i]}
              && Failing(m, stuck, order[..i + 1]) == Failing(m, stuck, order[..i])
  {
    var n := order[i];
    assert order[..i + 1] == order[..i] + [n] && order[..i + 1][..i] == order[..i];
    assert n in order && n !in order[..i];
  }

  lemma SweepEnd(m: Entries, stuck: set<Identity>, order: seq<Identity>)
    requires Enumerates(order, m.Keys)
    ensures Swept(m, stuck, order) == Left(m, stuck)
    ensures Failing(m, stuck, order) == [] <==> Left(m, stuck) == map[]
    ensures Failing(m, stuck, order) != [] ==> IsFirst(m, stuck, order, Failing(m, stuck, order)[0])
  {
    hide Failing;
    FailingFirst(m, stuck, order);
    assert forall n | n in m :: n in order;
    if Failing(m, stuck, order) != [] { assert Failing(m, stuck, order)[0] in Left(m, stuck); }
  }

  // ---- Runs ------------------------------------------------------------------------------------

  datatype Step =
    | DoMaterialize(d: Descriptor, answer: Opened)
    | DoUnregister(n: Identity, stuck: set<Identity>)
    | DoClose(stuck: set<Identity>)

  // Every descriptor in circulation has passed the construction gate.
  predicate Legal(step: Step) { step.DoMaterialize? ==> Gated(step.d) }

  function Apply(ctx: Context, m: Entries, step: Step): Entries {
    match step
    case DoMaterialize(d, answer) => Materialize(m, ctx, d, answer).0
    case DoUnregister(n, stuck) => Unregister(m, n, stuck).0
    case DoClose(stuck) => Left(m, stuck)
  }

  function Run(ctx: Context, m: Entries, steps: seq<Step>): Entries
    decreases |steps|
  {
    if steps == [] then m else Run(ctx, Apply(ctx, m, steps[0]), steps[1..])
  }

  ghost predicate Reachable(ctx: Context, m: Entries) {
    exists steps :: (forall i | 0 <= i < |steps| :: Legal(steps[i])) && m == Run(ctx, map[], steps)
  }

  // An entry is what importing its gated descriptor here gave.
  ghost predicate Genuine(ctx: Context, n: Identity, e: Imported) {
    && e.descriptor.identity == n && Gated(e.descriptor)
    && exists answer :: Import(ctx, e.descriptor, answer) == Ok(e)
  }

  ghost predicate Inv(ctx: Context, m: Entries) { forall n | n in m :: Genuine(ctx, n, m[n]) }

  lemma StepKeepsInv(ctx: Context, m: Entries, step: Step)
    requires Inv(ctx, m) && Legal(step)
    ensures Inv(ctx, Apply(ctx, m, step))
  {
    hide Adapter, Gated;
  }

  lemma {:induction false} RunKeepsInv(ctx: Context, m: Entries, steps: seq<Step>)
    requires Inv(ctx, m) && forall i | 0 <= i < |steps| :: Legal(steps[i])
    ensures Inv(ctx, Run(ctx, m, steps))
    decreases |steps|
  {
    hide Apply, Inv, Legal;
    if steps != [] {
      StepKeepsInv(ctx, m, steps[0]);
      RunKeepsInv(ctx, Apply(ctx, m, steps[0]), steps[1..]);
    }
  }

  lemma ReachableInv(ctx: Context, m: Entries)
    requires Reachable(ctx, m)
    ensures Inv(ctx, m)
  {
    var steps :| (forall i | 0 <= i < |steps| :: Legal(steps[i])) && m == Run(ctx, map[], steps);
    RunKeepsInv(ctx, map[], steps);
  }

  // ---- The main results ------------------------------------------------------------------------

  // What an entry can be: a host backing at any endpoint, or a device backing at a chip of the very
  // Worker that owns it; never a device backing at a host. Its base is the address its descriptor
  // carries, or a mapping at least as large as the descriptor claims.
  lemma EntriesAreLocal(ctx: Context, m: Entries, n: Identity)
    requires Reachable(ctx, m) && n in m
    ensures m[n].descriptor.identity == n && m[n].nbytes == m[n].descriptor.nbytes && m[n].space == m[n].descriptor.space
    ensures m[n].space == Device ==> ctx.deployment != HostCpu && ctx.owner == Some(n.owner)
    ensures match m[n].shm
            case None => m[n].descriptor.backend != PosixShm && m[n].base == BodyAddress(m[n].descriptor)
            case Some(map_) => m[n].descriptor.backend == PosixShm && m[n].base == map_.base && m[n].nbytes <= map_.size
  {
    hide Import, Gated;
    ReachableInv(ctx, m);
    assert Genuine(ctx, n, m[n]);
    var answer :| Import(ctx, m[n].descriptor, answer) == Ok(m[n]);
    ImportIsLocal(ctx, m[n].descriptor, answer);
  }

  lemma ImportIsLocal(ctx: Context, d: Descriptor, answer: Opened)
    requires Gated(d) && Import(ctx, d, answer).Ok?
    ensures var e := Import(ctx, d, answer).value;
            && e.descriptor == d && e.nbytes == d.nbytes && e.space == d.space
            && (d.space == Device ==> ctx.deployment != HostCpu && ctx.owner == Some(d.identity.owner))
            && match e.shm
               case None => d.backend != PosixShm && e.base == BodyAddress(d)
               case Some(shm) => d.backend == PosixShm && e.base == shm.base && e.nbytes <= shm.size
  {
    hide Capabilities;
    ReachableIff(QueryFor(d, ctx));
  }

  // A mapping grants loads and stores exactly as the backing's access mode allows: no write right
  // over a READ backing, no read right over a WRITE backing, all four otherwise.
  lemma RightsFollowAccess(ctx: Context, m: Entries, n: Identity, c: Capability)
    requires Reachable(ctx, m) && n in m
    ensures c in m[n].capabilities <==>
              || (c in WRITES && m[n].descriptor.access != Read)
              || (c in READS && m[n].descriptor.access != Write)
  {
    hide Import, Capabilities, Gated;
    ReachableInv(ctx, m);
    assert Genuine(ctx, n, m[n]);
    var answer :| Import(ctx, m[n].descriptor, answer) == Ok(m[n]);
    MappedDirectly(ctx, m[n].descriptor, answer);
    DirectRights(m[n].descriptor.access, c);
  }

  // Only direct mappings produce an address.
  lemma MappedDirectly(ctx: Context, d: Descriptor, answer: Opened)
    requires Gated(d) && Import(ctx, d, answer).Ok?
    ensures var e := Import(ctx, d, answer).value; e.descriptor == d && e.capabilities == Capabilities(DirectMap, d.access)
  {
    hide Capabilities;
    ReachableIff(QueryFor(d, ctx));
  }

  lemma DirectRights(access: Access, c: Capability)
    ensures c in Capabilities(DirectMap, access) <==> (c in WRITES && access != Read) || (c in READS && access != Write)
  {
  }

  predicate HeldThroughout(ctx: Context, m: Entries, steps: seq<Step>, n: Identity)
    decreases |steps|
  {
    n in m && (steps != [] ==> HeldThroughout(ctx, Apply(ctx, m, steps[0]), steps[1..], n))
  }

  // While an identity stays registered it keeps its base, its descriptor and its rights, whatever
  // else the endpoint imports, drops or closes.
  lemma {:induction false} EntryNeverChanges(ctx: Context, m: Entries, steps: seq<Step>, n: Identity)
    requires HeldThroughout(ctx, m, steps, n)
    ensures n in Run(ctx, m, steps) && Run(ctx, m, steps)[n] == m[n]
    decreases |steps|
  {
    if steps != [] {
      EntryNeverChanges(ctx, Apply(ctx, m, steps[0]), steps[1..], n);
    }
  }

  // One identity means one thing until it is dropped: after any run that keeps it registered, its
  // first descriptor is answered with the first entry, any other is refused, and nothing is mapped.
  lemma OneIdentityOneMeaning(ctx: Context, m: Entries, steps: seq<Step>, d: Descriptor, answer: Opened)
    requires HeldThroughout(ctx, m, steps, d.identity)
    ensures var now := Run(ctx, m, steps); var first := m[d.identity];
            Materialize(now, ctx, d, answer) == (now, if d == first.descriptor then Ok(first) else Err(Conflict))
  {
    EntryNeverChanges(ctx, m, steps, d.identity);
  }

  // The gate is what keeps device backings out of hosts: without it, a host endpoint of the owning
  // Worker maps a DEVICE descriptor exactly when its backend is one the gate pairs with host memory.
  lemma UngatedHostImportIff(m: Entries, ctx: Context, d: Descriptor, mapping: Mapping)
    requires ctx.deployment == HostCpu && d.space == Device && d.identity !in m && mapping.size >= d.nbytes
    ensures Materialize(m, ctx, d, Mapped(mapping)).1.Ok? <==>
              ctx.owner == Some(d.identity.owner) && d.backend in {ForkShm, ForkCow, PosixShm}
    ensures Gated(d) ==> d.backend !in {ForkShm, ForkCow, PosixShm}
  {
    ReachableIff(QueryFor(d, ctx));
  }

  // A wrapped device buffer, followed from its source to a consumer: a chip of the owning Worker
  // imports it at the wrapped address without mapping anything; the owning host is told to copy
  // through the owner; every other endpoint is refused.
  lemma WrappedBufferArrives(h: BufferSource.History, sctx: BufferSource.Context, n: Identity, d: Descriptor,
                             m: Entries, ctx: Context, answer: Opened)
    requires BufferSource.Reachable(h) && BufferSource.Validate(h.source, sctx, n, d).None? && n !in m
    ensures var r := Materialize(m, ctx, d, answer).1;
            if ctx.owner != Some(n.owner) then r == Err(ForeignOwner)
            else if ctx.deployment == HostCpu then r == Err(NoAddress(Candidate(OwnerDelegatedCopy, OwnerDeviceCopy)))
            else r.Ok? && r.value.base == h.source.records[n].base && r.value.shm == None && r.value.space == Device
  {
    BufferSource.ValidatedNamesItsRange(h, sctx, n, d);
    AdapterIff(d, ctx);
    ReachableIff(QueryFor(d, ctx));
  }

  // ---- The object ------------------------------------------------------------------------------

  class Registry {
    const ctx: Context
    var entries: Entries

    constructor (ctx: Context)
      ensures this.ctx == ctx && entries == map[]
    {
      this.ctx, entries := ctx, map[];
    }

    method MaterializeOne(d: Descriptor, answer: Opened) returns (r: Result<Imported, Failure>)
      modifies this
      ensures (entries, r) == Materialize(old(entries), ctx, d, answer)
    {
      if d.identity in entries {
        var cached := entries[d.identity];
        return if cached.descriptor != d then Err(Conflict) else Ok(cached);
      }
      var chosen := SelectAdapter(d, ctx);
      if chosen.Err? { return Err(chosen.error); }
      var c := chosen.value;
      if !Resolvable(c.profile) { return Err(NoAddress(c)); }
      var resolved := Resolve(c.profile, d, answer);
      if resolved.Err? { return Err(resolved.error); }
      var (base, shm) := resolved.value;
      var e := Imported(base, d.nbytes, d.space, shm, d, c.profile, Capabilities(c.kind, d.access));
      entries := entries[d.identity := e];
      r := Ok(e);
    }

    method UnregisterOne(n: Identity, stuck: set<Identity>) returns (e: Option<Failure>)
      modifies this
      ensures (entries, e) == Unregister(old(entries), n, stuck)
    {
      if n !in entries { return None; }
      if entries[n].shm.Some? && n in stuck { return Some(StillExported(n)); }
      entries := entries - {n};
      e := None;
    }

    // Attempt every mapping, in the dictionary's order; drop exactly those that closed and report
    // the first that did not.
    method CloseAll(order: seq<Identity>, stuck: set<Identity>) returns (e: Option<Failure>)
      requires Enumerates(order, entries.Keys)
      modifies this
      ensures entries == Left(old(entries), stuck)
      ensures e.None? <==> entries == map[]
      ensures e.Some? ==> e.value.StillExported? && IsFirst(old(entries), stuck, order, e.value.n)
    {
      hide Swept, Failing, Left, Enumerates, IsFirst;
      var errors: seq<Identity> := [];
      assert order[..0] == [];
      StartSweep(entries, stuck);
      for i := 0 to |order|
        invariant entries == Swept(old(entries), stuck, order[..i])
        invariant errors == Failing(old(entries), stuck, order[..i])
      {
        SweepStep(old(entries), stuck, order, i);
        var n := order[i];
        if entries[n].shm.Some? && n in stuck {
          errors := errors + [n];
          continue;
        }
        entries := entries - {n};
      }
      assert order[..|order|] == order;
      SweepEnd(old(entries), stuck, order);
      e := if errors != [] then Some(StillExported(errors[0])) else None;
    }
  }
}
