/** Single-owner region planning: choose a provider, then attach every other member through the first
    adapter the access service supports. */
module BackendPlanner {
  import opened Prelude
  import opened BufferAccess
  import EndpointPaths
  import opened EndpointRegistry
  import Sorting

  datatype Role = Provider | Consumer
  datatype Attachment = Attachment(member: Identity, role: Role, adapter: Option<Candidate>)

  datatype Part = Payload | Counter
  datatype PartPlan = PartPlan(part: Part, backend: BackendKind, attachments: seq<Attachment>)

  datatype Plan = Plan(orderedMembers: seq<Identity>, payload: PartPlan, counter: PartPlan, provider: Identity)

  // Why a region cannot be planned, with the endpoints and the refused adapters it names.
  datatype Refusal =
    | ProviderNotInMembers(registered: Option<Record>)
    | NoDefaultProvider
    | AdapterUnsupported(provider: Record, member: Record, attempts: seq<Candidate>)
    | UnsupportedCombination(provider: Record, member: Record)

  datatype Fault = NegativeLayout | ForeignRecord | SessionUnavailable

  datatype Outcome = Planned(plan: Plan) | Refused(why: Refusal) | Raised(fault: Fault)

  type Service = (Query, Candidate) -> bool

  // What the access service answers while each part is planned; a service may change its mind between.
  type Answers = Part -> Service

  // ---- The provider ----------------------------------------------------------------------------

  // The first member with this deployment.
  function FirstWith(members: seq<Record>, d: Deployment): (r: Option<Record>)
    ensures r.Some? <==> exists m | m in members :: m.deployment == d
    ensures r.Some? ==> r.value in members && r.value.deployment == d
    ensures r.Some? ==>
              exists i | 0 <= i < |members| :: members[i] == r.value && forall j | 0 <= j < i :: members[j].deployment != d
  {
    if members == [] then None
    else if members[0].deployment == d then Some(members[0])
    else
      var r := FirstWith(members[1..], d);
      assert r.Some? ==>
               var i :| 0 <= i < |members[1..]| && members[1..][i] == r.value
                        && forall j | 0 <= j < i :: members[1..][j].deployment != d;
               members[i + 1] == r.value && forall j | 0 <= j < i + 1 :: members[j].deployment != d;
      r
  }

  // The last member with this identity, as a dictionary of the members would answer.
  function Lookup(members: seq<Record>, n: Identity): (r: Option<Record>)
    ensures r.Some? <==> exists m | m in members :: m.identity == n
    ensures r.Some? ==> r.value in members && r.value.identity == n
  {
    if members == [] then None
    else
      var last := members[|members| - 1];
      if last.identity == n then Some(last) else Lookup(members[..|members| - 1], n)
  }

  // An explicit provider must be a member; otherwise AI cores come before AI CPUs before hosts, and
  // earlier members before later ones.
  function ChooseProvider(reg: Registry, members: seq<Record>, wanted: Option<Identity>): (r: Result<Record, Refusal>)
    ensures r.Ok? ==> r.value in members
    ensures r.Ok? <==> if wanted.Some? then exists m | m in members :: m.identity == wanted.value else members != []
    ensures r.Ok? && wanted.Some? ==> r.value.identity == wanted.value
    ensures r.Ok? && wanted.None? && r.value.deployment == HostCpu ==> forall m | m in members :: m.deployment == HostCpu
    ensures r.Ok? && wanted.None? && r.value.deployment == DeviceAicpu ==>
              forall m | m in members :: m.deployment != DeviceAicore
  {
    if wanted.Some? then
      var m := Lookup(members, wanted.value);
      if m.Some? then Ok(m.value)
      else Err(ProviderNotInMembers(if wanted.value in reg.byIdentity then Some(reg.byIdentity[wanted.value]) else None))
    else
      var aicore, aicpu, host := FirstWith(members, DeviceAicore), FirstWith(members, DeviceAicpu), FirstWith(members, HostCpu);
      assert members != [] ==> members[0] in members;
      if aicore.Some? then Ok(aicore.value)
      else if aicpu.Some? then Ok(aicpu.value)
      else if host.Some? then Ok(host.value)
      else Err(NoDefaultProvider)
  }

  // The backing family the provider owns.
  function BackendFor(provider: Record): BackendKind {
    if provider.deployment == HostCpu then PosixShm else VmmShareable
  }

  // ---- One part --------------------------------------------------------------------------------

  // A consumer's query never claims to be at the provider's own endpoint.
  function QueryFor(backend: BackendKind, provider: Record, m: Record): Query {
    Query(backend, m.deployment, provider.nodeScope == m.nodeScope, false)
  }

  function AdapterFor(service: Service, backend: BackendKind, provider: Record, m: Record): Option<Candidate> {
    var q := QueryFor(backend, provider, m);
    FirstSupported(q, service, Candidates(q))
  }

  predicate Attachable(service: Service, backend: BackendKind, provider: Record, m: Record) {
    m.identity == provider.identity || AdapterFor(service, backend, provider, m).Some?
  }

  // The provider attaches without an adapter, everybody else through the first supported one.
  function AttachmentFor(service: Service, backend: BackendKind, provider: Record, m: Record): Attachment {
    if m.identity == provider.identity then Attachment(m.identity, Provider, None)
    else Attachment(m.identity, Consumer, AdapterFor(service, backend, provider, m))
  }

  // Why a member cannot be attached.
  function RefusalFor(service: Service, backend: BackendKind, provider: Record, m: Record): Option<Refusal> {
    var all := Candidates(QueryFor(backend, provider, m));
    if Attachable(service, backend, provider, m) then None
    else Some(if all == [] then UnsupportedCombination(provider, m) else AdapterUnsupported(provider, m, all))
  }

  // The refusal of the first member that cannot be attached.
  function FirstRefusal(service: Service, backend: BackendKind, provider: Record, members: seq<Record>): (r: Option<Refusal>)
    ensures r.None? <==> forall m | m in members :: Attachable(service, backend, provider, m)
  {
    if members == [] then None
    else if RefusalFor(service, backend, provider, members[0]).Some? then RefusalFor(service, backend, provider, members[0])
    else FirstRefusal(service, backend, provider, members[1..])
  }

  // Try the candidates in order; collect the refused ones for the report.
  method ConsumerAttachment(service: Service, backend: BackendKind, provider: Record, m: Record)
    returns (r: Result<Attachment, Refusal>)
    requires m.identity != provider.identity
    ensures r.Ok? <==> Attachable(service, backend, provider, m)
    ensures r.Ok? ==> r.value == AttachmentFor(service, backend, provider, m)
    ensures r.Err? ==> Some(r.error) == RefusalFor(service, backend, provider, m)
  {
    hide Candidates;
    var q := QueryFor(backend, provider, m);
    var cs := Candidates(q);
    var attempts: seq<Candidate> := [];
    assert cs[0..] == cs;
    for i := 0 to |cs|
      invariant attempts == cs[..i]
      invariant FirstSupported(q, service, cs[i..]) == AdapterFor(service, backend, provider, m)
    {
      assert cs[i..][0] == cs[i] && cs[i..][1..] == cs[i + 1..];
      if service(q, cs[i]) { return Ok(Attachment(m.identity, Consumer, Some(cs[i]))); }
      attempts := attempts + [cs[i]];
    }
    assert cs[|cs|..] == [] && attempts == cs;
    r := Err(if attempts != [] then AdapterUnsupported(provider, m, attempts) else UnsupportedCombination(provider, m));
  }

  // All members in order, or the refusal of the first one that cannot be attached.
  method PlanPart(part: Part, service: Service, backend: BackendKind, provider: Record, members: seq<Record>)
    returns (r: Result<PartPlan, Refusal>)
    ensures if r.Err? then Some(r.error) == FirstRefusal(service, backend, provider, members)
            else FirstRefusal(service, backend, provider, members).None?
    ensures r.Ok? ==>
              && r.value.part == part && r.value.backend == backend && |r.value.attachments| == |members|
              && forall i | 0 <= i < |members| :: r.value.attachments[i] == AttachmentFor(service, backend, provider, members[i])
  {
    hide Attachable, AttachmentFor, RefusalFor, FirstRefusal;
    var attachments: seq<Attachment> := [];
    assert members[0..] == members;
    for i := 0 to |members|
      invariant |attachments| == i
      invariant FirstRefusal(service, backend, provider, members) == FirstRefusal(service, backend, provider, members[i..])
      invariant forall j | 0 <= j < i :: attachments[j] == AttachmentFor(service, backend, provider, members[j])
    {
      var m := members[i];
      RefusalStep(service, backend, provider, members, i);
      if m.identity == provider.identity {
        ProviderAttaches(service, backend, provider, m);
        attachments := attachments + [Attachment(m.identity, Provider, None)];
        continue;
      }
      var one := ConsumerAttachment(service, backend, provider, m);
      if one.Err? { return Err(one.error); }
      attachments := attachments + [one.value];
    }
    r := Ok(PartPlan(part, backend, attachments));
  }

  lemma RefusalStep(service: Service, backend: BackendKind, provider: Record, members: seq<Record>, i: nat)
    requires i < |members|
    ensures RefusalFor(service, backend, provider, members[i]).None? <==> Attachable(service, backend, provider, members[i])
    ensures FirstRefusal(service, backend, provider, members[i..]) ==
              if RefusalFor(service, backend, provider, members[i]).Some? then RefusalFor(service, backend, provider, members[i])
              else FirstRefusal(service, backend, provider, members[i + 1..])
  {
    hide Attachable;
    assert members[i..][0] == members[i] && members[i..][1..] == members[i + 1..];
  }

  lemma ProviderAttaches(service: Service, backend: BackendKind, provider: Record, m: Record)
    requires m.identity == provider.identity
    ensures Attachable(service, backend, provider, m)
    ensures AttachmentFor(service, backend, provider, m) == Attachment(m.identity, Provider, None)
  {
  }

  // ---- The plan --------------------------------------------------------------------------------

  // A member is the registry's own record, and its MPI session, if any, was seen available.
  predicate Usable(reg: Registry, m: Record) {
    && m.identity in reg.byIdentity && reg.byIdentity[m.identity] == m
    && (m.identity.id in reg.mpi ==> reg.mpi[m.identity.id].available)
  }

  function FaultOf(reg: Registry, m: Record): (r: Option<Fault>)
    ensures r.None? <==> Usable(reg, m)
  {
    if m.identity !in reg.byIdentity || reg.byIdentity[m.identity] != m then Some(ForeignRecord)
    else if m.identity.id in reg.mpi && !reg.mpi[m.identity.id].available then Some(SessionUnavailable)
    else None
  }

  // The fault of the first member that cannot be used.
  function FirstFault(reg: Registry, members: seq<Record>): (r: Option<Fault>)
    ensures r.None? <==> forall m | m in members :: Usable(reg, m)
  {
    if members == [] then None
    else if FaultOf(reg, members[0]).Some? then FaultOf(reg, members[0])
    else FirstFault(reg, members[1..])
  }

  // What a part of a successful plan looks like.
  ghost predicate PartOk(p: PartPlan, part: Part, answers: Answers, provider: Record, members: seq<Record>) {
    && p.part == part && p.backend == BackendFor(provider) && |p.attachments| == |members|
    && forall i | 0 <= i < |members| ::
         p.attachments[i] == AttachmentFor(answers(part), BackendFor(provider), provider, members[i])
  }

  ghost predicate PlanOk(plan: Plan, answers: Answers, provider: Record, members: seq<Record>) {
    && plan.provider == provider.identity
    && |plan.orderedMembers| == |members| && (forall i | 0 <= i < |members| :: plan.orderedMembers[i] == members[i].identity)
    && PartOk(plan.payload, Payload, answers, provider, members) && PartOk(plan.counter, Counter, answers, provider, members)
  }

  method RequireUsable(reg: Registry, members: seq<Record>) returns (fault: Option<Fault>)
    ensures fault == FirstFault(reg, members)
  {
    assert members[0..] == members;
    for i := 0 to |members|
      invariant FirstFault(reg, members) == FirstFault(reg, members[i..])
    {
      var m := members[i];
      assert members[i..][0] == m && members[i..][1..] == members[i + 1..];
      if m.identity !in reg.byIdentity || reg.byIdentity[m.identity] != m { return Some(ForeignRecord); }
      if m.identity.id in reg.mpi && !reg.mpi[m.identity.id].available { return Some(SessionUnavailable); }
    }
    fault := None;
  }

  method MakePlan(reg: Registry, answers: Answers, members: seq<Record>, wanted: Option<Identity>,
                  payloadBytes: int, counterBytes: int) returns (r: Outcome)
    ensures r.Raised? <==> payloadBytes < 0 || counterBytes < 0 || FirstFault(reg, members).Some?
    ensures r.Raised? ==>
              r.fault == if payloadBytes < 0 || counterBytes < 0 then NegativeLayout else FirstFault(reg, members).value
    ensures !r.Raised? ==>
              match ChooseProvider(reg, members, wanted)
              case Err(why) => r == Refused(why)
              case Ok(provider) =>
                var payload := FirstRefusal(answers(Payload), BackendFor(provider), provider, members);
                var counter := FirstRefusal(answers(Counter), BackendFor(provider), provider, members);
                if payload.Some? then r == Refused(payload.value)
                else if counter.Some? then r == Refused(counter.value)
                else r.Planned? && PlanOk(r.plan, answers, provider, members)
  {
    hide Attachable, AttachmentFor, FirstRefusal, FirstFault;
    if payloadBytes < 0 || counterBytes < 0 { return Raised(NegativeLayout); }
    var fault := RequireUsable(reg, members);
    if fault.Some? { return Raised(fault.value); }
    var chosen := ChooseProvider(reg, members, wanted);
    if chosen.Err? { return Refused(chosen.error); }
    var provider := chosen.value;
    var backend := BackendFor(provider);
    var payload := PlanPart(Payload, answers(Payload), backend, provider, members);
    if payload.Err? { return Refused(payload.error); }
    var counter := PlanPart(Counter, answers(Counter), backend, provider, members);
    if counter.Err? { return Refused(counter.error); }
    var ordered := seq(|members|, i requires 0 <= i < |members| => members[i].identity);
    r := Planned(Plan(ordered, payload.value, counter.value, provider.identity));
  }

  // ---- Under the default service ---------------------------------------------------------------

  // The default service attaches a consumer exactly when it is a host on the provider's node.
  lemma DefaultAttachesIff(provider: Record, m: Record)
    ensures Attachable(DefaultService, BackendFor(provider), provider, m) <==>
              m.identity == provider.identity || (m.deployment == HostCpu && m.nodeScope == provider.nodeScope)
  {
    ReachableIff(QueryFor(BackendFor(provider), provider, m));
  }

  function Providers(attachments: seq<Attachment>): nat {
    if attachments == [] then 0
    else (if attachments[0].role == Provider then 1 else 0) + Providers(attachments[1..])
  }

  lemma {:induction false} OneProvider(service: Service, backend: BackendKind, provider: Record, members: seq<Record>,
                                       attachments: seq<Attachment>)
    requires |attachments| == |members|
    requires forall i | 0 <= i < |members| :: attachments[i] == AttachmentFor(service, backend, provider, members[i])
    requires DistinctIdentities(members)
    ensures Providers(attachments) == if exists m | m in members :: m.identity == provider.identity then 1 else 0
  {
    if members != [] {
      OneProvider(service, backend, provider, members[1..], attachments[1..]);
      assert members == [members[0]] + members[1..];
      assert members[0].identity == provider.identity ==> forall m | m in members[1..] :: m.identity != provider.identity;
    }
  }

  // For any list of distinct members the default service plans the region exactly when a provider can
  // be chosen and every other member is a host on its node, unless a member is not the registry's own
  // or its session is unavailable. Both parts then list all members in order, with exactly one
  // provider attachment.
  method PlanRegion(reg: Registry, members: seq<Record>, wanted: Option<Identity>, payloadBytes: int, counterBytes: int)
    returns (r: Outcome)
    requires DistinctIdentities(members)
    ensures r.Raised? <==> payloadBytes < 0 || counterBytes < 0 || exists m | m in members :: !Usable(reg, m)
    ensures r.Planned? <==>
              && !r.Raised? && ChooseProvider(reg, members, wanted).Ok?
              && var p := ChooseProvider(reg, members, wanted).value;
                 forall m | m in members && m.identity != p.identity :: m.deployment == HostCpu && m.nodeScope == p.nodeScope
    ensures r.Planned? ==>
              && PlanOk(r.plan, _ => DefaultService, ChooseProvider(reg, members, wanted).value, members)
              && Providers(r.plan.payload.attachments) == 1 && Providers(r.plan.counter.attachments) == 1
  {
    r := MakePlan(reg, _ => DefaultService, members, wanted, payloadBytes, counterBytes);
    var chosen := ChooseProvider(reg, members, wanted);
    if chosen.Ok? {
      var p := chosen.value;
      forall m | m in members
        ensures Attachable(DefaultService, BackendFor(p), p, m) <==>
                  m.identity == p.identity || (m.deployment == HostCpu && m.nodeScope == p.nodeScope)
      {
        DefaultAttachesIff(p, m);
      }
      if r.Planned? {
        OneProvider(DefaultService, BackendFor(p), p, members, r.plan.payload.attachments);
        OneProvider(DefaultService, BackendFor(p), p, members, r.plan.counter.attachments);
      }
    }
  }

  // ---- From selectors to a plan ----------------------------------------------------------------

  lemma LastIsOnly(rs: seq<Record>, r: Record, last: Record)
    requires DistinctIdentities(rs) && r in rs && IsLast(rs, IdentityIs(r.identity), last)
    ensures last == r
  {
    var i :| 0 <= i < |rs| && rs[i] == r;
    var j :| 0 <= j < |rs| && rs[j] == last && last.identity == r.identity;
    assert i == j;
  }

  // In a registry with one record per identity, every record is the registry's own.
  lemma RecordsAreOwn(reg: Registry, r: Record)
    requires Indexed(reg) && DistinctIdentities(reg.records) && r in reg.records
    ensures r.identity in reg.byIdentity && reg.byIdentity[r.identity] == r
  {
    hide PathsParsed, IsLast;
    LastIsOnly(reg.records, r, reg.byIdentity[r.identity]);
  }

  lemma ResolvedAreRecords(reg: Registry, sel: Selector)
    requires Indexed(reg) && Resolve(reg, sel).Ok?
    ensures forall r | r in Resolve(reg, sel).value :: r in reg.records
  {
    hide EndpointPaths.ParsePath, Sorting.Sort, Descendants, IsLast, BySegments;
    if sel.kind == At {
      var k := (sel.path, sel.deployment);
      LastIsRecord(reg.records, KeyIs(k), reg.byKey[k]);
    } else {
      var parent := EndpointPaths.ParsePath(sel.path, reg.rootLevel).value;
      var all := Descendants(reg, parent, sel.deployment);
      DescendantsExact(reg, parent, sel.deployment);
      forall r | r in Resolve(reg, sel).value ensures r in reg.records {
        assert r in multiset(Resolve(reg, sel).value) && r in multiset(all) && r in all;
      }
    }
  }

  lemma LastIsRecord(rs: seq<Record>, p: Record -> bool, r: Record)
    requires IsLast(rs, p, r)
    ensures r in rs
  {
  }

  lemma {:induction false} FlattenedAreRecords(reg: Registry, sels: seq<Selector>)
    requires Indexed(reg) && Flatten(reg, sels).Ok?
    ensures forall r | r in Flatten(reg, sels).value :: r in reg.records
  {
    hide Indexed, Resolve;
    if sels != [] {
      ResolvedAreRecords(reg, sels[0]);
      FlattenedAreRecords(reg, sels[1..]);
    }
  }

  // A provider selector must name exactly one endpoint, whatever goes wrong with it otherwise.
  function ResolveProvider(reg: Registry, sel: Option<Selector>): Result<Option<Identity>, Reason> {
    if sel.None? then Ok(None)
    else match Resolve(reg, sel.value)
      case Ok(rs) => if |rs| == 1 then Ok(Some(rs[0].identity)) else Err(ProviderNotSingle)
      case Err(_) => Err(ProviderNotSingle)
  }

  predicate Available(reg: Registry, m: Record) { m.identity.id in reg.mpi ==> reg.mpi[m.identity.id].available }

  // Selectors in, plan out, on a registry built from a snapshot. It fails to resolve exactly when a
  // selector does, an endpoint is named twice or the provider is not one endpoint; it raises exactly
  // when a member's session was seen unavailable; and otherwise the default service plans it exactly
  // when every member but the provider is a host on the provider's node.
  method PlanSelected(reg: Registry, sels: seq<Selector>, providerSel: Option<Selector>, payloadBytes: nat, counterBytes: nat)
    returns (r: Result<Outcome, Reason>)
    requires Indexed(reg) && DistinctIdentities(reg.records)
    ensures r.Ok? <==>
              && Flatten(reg, sels).Ok? && DistinctIdentities(Flatten(reg, sels).value) && ResolveProvider(reg, providerSel).Ok?
    ensures r.Ok? ==>
              var members, wanted := Flatten(reg, sels).value, ResolveProvider(reg, providerSel).value;
              && (r.value.Raised? <==> exists m | m in members :: !Available(reg, m))
              && (!r.value.Raised? ==> (r.value.Planned? <==>
                    && ChooseProvider(reg, members, wanted).Ok?
                    && var p := ChooseProvider(reg, members, wanted).value;
                       forall m | m in members && m.identity != p.identity :: m.deployment == HostCpu && m.nodeScope == p.nodeScope))
  {
    hide Indexed, Resolve, Flatten, ChooseProvider;
    var resolved := ResolveMembers(reg, sels);
    if resolved.Err? { return Err(resolved.error); }
    var members := resolved.value;
    var provider := ResolveProvider(reg, providerSel);
    if provider.Err? { return Err(provider.error); }
    FlattenedAreRecords(reg, sels);
    forall m | m in members ensures Usable(reg, m) <==> Available(reg, m) { RecordsAreOwn(reg, m); }
    var planned := PlanRegion(reg, members, provider.value, payloadBytes, counterBytes);
    r := Ok(planned);
  }
}
