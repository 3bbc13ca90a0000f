/** The endpoint registry: built once from a topology snapshot, then queried. Its indexes are
    compared with a plain scan of its records. */
module EndpointRegistry {
  import opened Prelude
  import opened EndpointPaths
  import opened Text
  import opened Sorting
  import opened BufferAccess

  datatype Identity = Identity(session: Bytes, epoch: int, id: nat)

  datatype Record = Record(identity: Identity, path: string, deployment: Deployment, nodeScope: nat)

  // What an owner observed about the MPI session an endpoint belongs to.
  datatype Session = Session(ownerPath: string, sessionId: nat, sessionEpoch: nat, rank: nat, workerId: nat, available: bool)

  datatype Entry = Entry(path: string, deployment: Deployment, node: string, owner: Option<Bytes>,
                         hasAllocator: Option<bool>, mpi: Option<Session>)

  datatype BuildError =
    | DuplicateEntry | BadNonce | NonceBoundTwice | AllocatorWithoutNonce | BadPath | BadSession

  type Key = (string, Deployment)

  function KeyOf(e: Entry): Key { (e.path, e.deployment) }

  function RecordKey(r: Record): Key { (r.path, r.deployment) }

  // ---- Entries to records ----------------------------------------------------------------------

  const NONCE_BYTES: nat := 8

  // A nonce has eight bytes, not all zero.
  predicate NonceOk(n: Bytes) { |n| == NONCE_BYTES && exists i | 0 <= i < |n| :: n[i] != 0 }

  predicate EntryOk(e: Entry) {
    (e.owner.Some? ==> NonceOk(e.owner.value)) && (e.hasAllocator == Some(true) ==> e.owner.Some?)
  }

  ghost predicate EntriesOk(es: seq<Entry>) {
    && (forall i | 0 <= i < |es| :: EntryOk(es[i]))
    && (forall i, j | 0 <= i < j < |es| :: KeyOf(es[i]) != KeyOf(es[j]))
    && (forall i, j | 0 <= i < j < |es| && es[i].owner.Some? :: es[i].owner != es[j].owner)
  }

  // Records carry their position as endpoint id, and two of them share a node scope exactly when
  // their hosts are the same after normalization, scope 0 being the local host.
  ghost predicate RecordsOf(es: seq<Entry>, session: Bytes, epoch: int, normalize: string -> string, rs: seq<Record>) {
    && |rs| == |es|
    && (forall i | 0 <= i < |rs| ::
          rs[i].identity == Identity(session, epoch, i) && rs[i].path == es[i].path && rs[i].deployment == es[i].deployment)
    && (forall i, j | 0 <= i < |rs| && 0 <= j < |rs| ::
          rs[i].nodeScope == rs[j].nodeScope <==> normalize(es[i].node) == normalize(es[j].node))
    && (forall i | 0 <= i < |rs| :: rs[i].nodeScope == 0 <==> normalize(es[i].node) == "local")
  }

  // Each nonce names the one endpoint that minted it.
  ghost predicate BindingsOf(es: seq<Entry>, bindings: map<Bytes, nat>) {
    && (forall n | n in bindings :: bindings[n] < |es| && es[bindings[n]].owner == Some(n))
    && (forall i | 0 <= i < |es| && es[i].owner.Some? :: es[i].owner.value in bindings && bindings[es[i].owner.value] == i)
  }

  // The scope numbers handed out so far: different hosts have different ones, "local" has 0.
  ghost predicate ScopesOk(scopes: map<string, nat>, next: nat) {
    && "local" in scopes && scopes["local"] == 0
    && (forall h | h in scopes :: scopes[h] < next)
    && (forall g, h | g in scopes && h in scopes && scopes[g] == scopes[h] :: g == h)
  }

  ghost predicate SeenKeys(es: seq<Entry>, seen: set<Key>) {
    && (forall j | 0 <= j < |es| :: KeyOf(es[j]) in seen)
    && (forall k | k in seen :: exists j | 0 <= j < |es| :: KeyOf(es[j]) == k)
  }

  // What has been recorded for the entries scanned so far.
  ghost predicate Recorded(es: seq<Entry>, session: Bytes, epoch: int, normalize: string -> string,
                           scopes: map<string, nat>, rs: seq<Record>) {
    && |rs| == |es|
    && forall j | 0 <= j < |es| ::
         && normalize(es[j].node) in scopes
         && rs[j] == Record(Identity(session, epoch, j), es[j].path, es[j].deployment, scopes[normalize(es[j].node)])
  }

  lemma EntriesMore(es: seq<Entry>, e: Entry, seen: set<Key>, bindings: map<Bytes, nat>)
    requires EntriesOk(es) && SeenKeys(es, seen) && BindingsOf(es, bindings)
    ensures EntriesOk(es + [e]) <==>
              EntryOk(e) && KeyOf(e) !in seen && (e.owner.Some? ==> e.owner.value !in bindings)
  {
    hide EntryOk;
    var fs := es + [e];
    assert fs[|es|] == e && forall j | 0 <= j < |es| :: fs[j] == es[j];
    if KeyOf(e) in seen {
      var j :| 0 <= j < |es| && KeyOf(es[j]) == KeyOf(e);
      assert KeyOf(fs[j]) == KeyOf(fs[|es|]);
    }
    if e.owner.Some? && e.owner.value in bindings {
      var j := bindings[e.owner.value];
      assert fs[j].owner == fs[|es|].owner;
    }
  }

  lemma SeenMore(es: seq<Entry>, e: Entry, seen: set<Key>)
    requires SeenKeys(es, seen)
    ensures SeenKeys(es + [e], seen + {KeyOf(e)})
  {
    var fs := es + [e];
    assert fs[|es|] == e && forall j | 0 <= j < |es| :: fs[j] == es[j];
    forall k | k in seen + {KeyOf(e)} ensures exists j | 0 <= j < |fs| :: KeyOf(fs[j]) == k {
      if k in seen {
        var j :| 0 <= j < |es| && KeyOf(es[j]) == k;
        assert KeyOf(fs[j]) == k;
      } else {
        assert KeyOf(fs[|es|]) == k;
      }
    }
  }

  lemma BindingsMore(es: seq<Entry>, e: Entry, bindings: map<Bytes, nat>)
    requires BindingsOf(es, bindings) && (e.owner.Some? ==> e.owner.value !in bindings)
    ensures BindingsOf(es + [e], if e.owner.Some? then bindings[e.owner.value := |es|] else bindings)
  {
    var fs := es + [e];
    assert fs[|es|] == e && forall j | 0 <= j < |es| :: fs[j] == es[j];
  }

  lemma EntriesPrefix(es: seq<Entry>, i: nat)
    requires i <= |es| && EntriesOk(es)
    ensures EntriesOk(es[..i])
  {
  }

  lemma RecordedMore(es: seq<Entry>, e: Entry, session: Bytes, epoch: int, normalize: string -> string,
                     scopes: map<string, nat>, scopes': map<string, nat>, rs: seq<Record>)
    requires Recorded(es, session, epoch, normalize, scopes, rs)
    requires forall h | h in scopes :: h in scopes' && scopes'[h] == scopes[h]
    requires normalize(e.node) in scopes'
    ensures var r := Record(Identity(session, epoch, |es|), e.path, e.deployment, scopes'[normalize(e.node)]);
            Recorded(es + [e], session, epoch, normalize, scopes', rs + [r])
  {
    assert forall j | 0 <= j < |es| :: normalize(es[j].node) in scopes;
  }

  lemma RecordedIsRecordsOf(es: seq<Entry>, session: Bytes, epoch: int, normalize: string -> string,
                            scopes: map<string, nat>, next: nat, rs: seq<Record>)
    requires Recorded(es, session, epoch, normalize, scopes, rs) && ScopesOk(scopes, next)
    ensures RecordsOf(es, session, epoch, normalize, rs)
  {
  }

  lemma NothingScanned(es: seq<Entry>, session: Bytes, epoch: int, normalize: string -> string)
    ensures ScopesOk(map["local" := 0], 1) && Recorded(es[..0], session, epoch, normalize, map["local" := 0], [])
    ensures EntriesOk(es[..0]) && SeenKeys(es[..0], {}) && BindingsOf(es[..0], map[])
  {
  }

  lemma ScopesMore(scopes: map<string, nat>, next: nat, host: string)
    requires ScopesOk(scopes, next)
    ensures host !in scopes ==> ScopesOk(scopes[host := next], next + 1)
  {
  }

  method ScanEntries(es: seq<Entry>, session: Bytes, epoch: int, normalize: string -> string)
    returns (r: Result<(seq<Record>, map<Bytes, nat>), BuildError>)
    ensures r.Ok? <==> EntriesOk(es)
    ensures r.Ok? ==> RecordsOf(es, session, epoch, normalize, r.value.0) && BindingsOf(es, r.value.1)
  {
    hide EntriesOk, SeenKeys, BindingsOf, Recorded, NonceOk, RecordsOf, ScopesOk;
    var scopes: map<string, nat>, next := map["local" := 0], 1;
    var records: seq<Record> := [];
    var seen: set<Key> := {};
    var bindings: map<Bytes, nat> := map[];
    NothingScanned(es, session, epoch, normalize);
    for i := 0 to |es|
      invariant ScopesOk(scopes, next)
      invariant Recorded(es[..i], session, epoch, normalize, scopes, records)
      invariant EntriesOk(es[..i]) && SeenKeys(es[..i], seen) && BindingsOf(es[..i], bindings)
    {
      var entry := es[i];
      assert es[..i + 1] == es[..i] + [entry];
      EntriesMore(es[..i], entry, seen, bindings);
      SeenMore(es[..i], entry, seen);
      if EntriesOk(es) { EntriesPrefix(es, i + 1); }
      if KeyOf(entry) in seen { return Err(DuplicateEntry); }
      seen := seen + {KeyOf(entry)};
      var host := normalize(entry.node);
      ghost var scopesBefore := scopes;
      ScopesMore(scopes, next, host);
      if host !in scopes {
        scopes := scopes[host := next];
        next := next + 1;
      }
      if entry.owner.None? || entry.owner.value !in bindings { BindingsMore(es[..i], entry, bindings); }
      if entry.owner.Some? {
        if !NonceOk(entry.owner.value) { return Err(BadNonce); }
        if entry.owner.value in bindings { return Err(NonceBoundTwice); }
        bindings := bindings[entry.owner.value := i];
      } else if entry.hasAllocator == Some(true) {
        return Err(AllocatorWithoutNonce);
      }
      RecordedMore(es[..i], entry, session, epoch, normalize, scopesBefore, scopes, records);
      records := records + [Record(Identity(session, epoch, i), entry.path, entry.deployment, scopes[host])];
    }
    assert es[..|es|] == es;
    RecordedIsRecordsOf(es, session, epoch, normalize, scopes, next, records);
    r := Ok((records, bindings));
  }

  // ---- MPI sessions ----------------------------------------------------------------------------

  // The endpoint lies on the rank's worker, or below it.
  predicate OnRank(path: string, v: Session) {
    var rankPath := FormatWorkerPath(3, Some(v.ownerPath), Some(v.workerId));
    path == rankPath || Below(path, rankPath)
  }

  // Two views may not disagree: one epoch per session, one view per rank, one view per worker.
  predicate Agree(u: Session, v: Session) {
    && (u.ownerPath == v.ownerPath && u.sessionId == v.sessionId ==> u.sessionEpoch == v.sessionEpoch)
    && (u.ownerPath == v.ownerPath && u.sessionId == v.sessionId && u.rank == v.rank ==> u == v)
    && (u.ownerPath == v.ownerPath && u.workerId == v.workerId ==> u == v)
  }

  predicate SessionFits(e: Entry, rootLevel: nat) {
    e.mpi.Some? ==> ParsePath(e.mpi.value.ownerPath, rootLevel).Some? && OnRank(e.path, e.mpi.value)
  }

  ghost predicate SessionsOk(es: seq<Entry>, rootLevel: nat) {
    && (forall i | 0 <= i < |es| :: SessionFits(es[i], rootLevel))
    && (forall i, j | 0 <= i < |es| && 0 <= j < |es| && es[i].mpi.Some? && es[j].mpi.Some? ::
          Agree(es[i].mpi.value, es[j].mpi.value))
  }

  // One of the dictionaries the views fill: `key` determines `value` over the views seen so far.
  ghost predicate Filled<K(!new), V>(es: seq<Entry>, key: Session -> K, value: Session -> V, d: map<K, V>) {
    && (forall i | 0 <= i < |es| && es[i].mpi.Some? ::
          key(es[i].mpi.value) in d && d[key(es[i].mpi.value)] == value(es[i].mpi.value))
    && (forall k | k in d :: exists i | 0 <= i < |es| && es[i].mpi.Some? :: key(es[i].mpi.value) == k)
  }

  // `d.setdefault(key(v), value(v)) == value(v)`
  predicate Fits<K, V(==)>(key: Session -> K, value: Session -> V, d: map<K, V>, v: Session) {
    key(v) in d ==> d[key(v)] == value(v)
  }

  // No earlier view has the same key and a different value.
  ghost predicate Determined<K, V>(es: seq<Entry>, key: Session -> K, value: Session -> V, v: Session) {
    forall i | 0 <= i < |es| && es[i].mpi.Some? :: key(es[i].mpi.value) == key(v) ==> value(es[i].mpi.value) == value(v)
  }

  // One lookup is as good as comparing with every earlier view.
  lemma FitsIffDetermined<K(!new), V>(es: seq<Entry>, key: Session -> K, value: Session -> V, d: map<K, V>, v: Session)
    requires Filled(es, key, value, d)
    ensures Fits(key, value, d, v) <==> Determined(es, key, value, v)
  {
    if key(v) in d {
      var i :| 0 <= i < |es| && es[i].mpi.Some? && key(es[i].mpi.value) == key(v);
      assert d[key(v)] == value(es[i].mpi.value);
    }
  }

  lemma FilledMore<K(!new), V>(es: seq<Entry>, key: Session -> K, value: Session -> V, d: map<K, V>, e: Entry)
    requires Filled(es, key, value, d) && (e.mpi.Some? ==> Fits(key, value, d, e.mpi.value))
    ensures Filled(es + [e], key, value, if e.mpi.Some? then d[key(e.mpi.value) := value(e.mpi.value)] else d)
  {
    var fs := es + [e];
    var d' := if e.mpi.Some? then d[key(e.mpi.value) := value(e.mpi.value)] else d;
    assert fs[|es|] == e && forall i | 0 <= i < |es| :: fs[i] == es[i];
    forall k | k in d' ensures exists i | 0 <= i < |fs| && fs[i].mpi.Some? :: key(fs[i].mpi.value) == k {
      if k in d {
        var i :| 0 <= i < |es| && es[i].mpi.Some? && key(es[i].mpi.value) == k;
        assert fs[i] == es[i];
      } else {
        assert fs[|es|].mpi.Some? && key(fs[|es|].mpi.value) == k;
      }
    }
  }

  function SessionKey(v: Session): (string, nat) { (v.ownerPath, v.sessionId) }
  function RankKey(v: Session): (string, nat, nat) { (v.ownerPath, v.sessionId, v.rank) }
  function WorkerKey(v: Session): (string, nat) { (v.ownerPath, v.workerId) }
  function EpochOf(v: Session): nat { v.sessionEpoch }
  function Itself(v: Session): Session { v }

  datatype Views = Views(epochs: map<(string, nat), nat>, ranks: map<(string, nat, nat), Session>,
                         workers: map<(string, nat), Session>)

  function AddView(d: Views, v: Session): Views {
    Views(d.epochs[SessionKey(v) := v.sessionEpoch], d.ranks[RankKey(v) := v], d.workers[WorkerKey(v) := v])
  }

  predicate Accepts(d: Views, v: Session) {
    Fits(SessionKey, EpochOf, d.epochs, v) && Fits(RankKey, Itself, d.ranks, v) && Fits(WorkerKey, Itself, d.workers, v)
  }

  ghost predicate AllFilled(es: seq<Entry>, d: Views) {
    && Filled(es, SessionKey, EpochOf, d.epochs) && Filled(es, RankKey, Itself, d.ranks)
    && Filled(es, WorkerKey, Itself, d.workers)
  }

  ghost predicate AgreesWithAll(es: seq<Entry>, v: Session) {
    forall i | 0 <= i < |es| && es[i].mpi.Some? :: Agree(es[i].mpi.value, v)
  }

  lemma AgreesIffDetermined(es: seq<Entry>, v: Session)
    ensures AgreesWithAll(es, v) <==>
              Determined(es, SessionKey, EpochOf, v) && Determined(es, RankKey, Itself, v) && Determined(es, WorkerKey, Itself, v)
  {
    if Determined(es, SessionKey, EpochOf, v) && Determined(es, RankKey, Itself, v) && Determined(es, WorkerKey, Itself, v) {
      forall i | 0 <= i < |es| && es[i].mpi.Some? ensures Agree(es[i].mpi.value, v) {
        var u := es[i].mpi.value;
        assert SessionKey(u) == SessionKey(v) ==> EpochOf(u) == EpochOf(v);
        assert RankKey(u) == RankKey(v) ==> Itself(u) == Itself(v);
        assert WorkerKey(u) == WorkerKey(v) ==> Itself(u) == Itself(v);
      }
    }
  }

  lemma AcceptsIffAgrees(es: seq<Entry>, d: Views, v: Session)
    requires AllFilled(es, d)
    ensures Accepts(d, v) <==> AgreesWithAll(es, v)
  {
    hide Filled, Fits, Determined, AgreesWithAll;
    FitsIffDetermined(es, SessionKey, EpochOf, d.epochs, v);
    FitsIffDetermined(es, RankKey, Itself, d.ranks, v);
    FitsIffDetermined(es, WorkerKey, Itself, d.workers, v);
    AgreesIffDetermined(es, v);
  }

  lemma AllFilledMore(es: seq<Entry>, d: Views, e: Entry)
    requires AllFilled(es, d) && (e.mpi.Some? ==> Accepts(d, e.mpi.value))
    ensures AllFilled(es + [e], if e.mpi.Some? then AddView(d, e.mpi.value) else d)
  {
    hide Filled;
    FilledMore(es, SessionKey, EpochOf, d.epochs, e);
    FilledMore(es, RankKey, Itself, d.ranks, e);
    FilledMore(es, WorkerKey, Itself, d.workers, e);
  }

  lemma SessionsMore(es: seq<Entry>, e: Entry, rootLevel: nat)
    requires SessionsOk(es, rootLevel)
    ensures SessionsOk(es + [e], rootLevel) <==>
              SessionFits(e, rootLevel)
              && (e.mpi.Some? ==> AgreesWithAll(es, e.mpi.value))
  {
    hide SessionFits;
    var fs := es + [e];
    assert fs[|es|] == e && forall i | 0 <= i < |es| :: fs[i] == es[i];
  }

  // The construction-time check accepts exactly the snapshots whose views all fit their endpoints
  // and pairwise agree.
  method CheckSessions(es: seq<Entry>, rootLevel: nat) returns (ok: bool)
    ensures ok <==> SessionsOk(es, rootLevel)
  {
    hide SessionsOk, AllFilled, Accepts, AddView, OnRank, ParsePath;
    var d := Views(map[], map[], map[]);
    NoSessions(es, rootLevel);
    for i := 0 to |es|
      invariant SessionsOk(es[..i], rootLevel) && AllFilled(es[..i], d)
    {
      SessionStep(es, i, d, rootLevel);
      if es[i].mpi.Some? {
        var v := es[i].mpi.value;
        if ParsePath(v.ownerPath, rootLevel).None? || !OnRank(es[i].path, v) || !Accepts(d, v) { return false; }
        d := AddView(d, v);
      }
    }
    assert es[..|es|] == es;
    ok := true;
  }

  lemma NoSessions(es: seq<Entry>, rootLevel: nat)
    ensures SessionsOk(es[..0], rootLevel) && AllFilled(es[..0], Views(map[], map[], map[]))
  {
  }

  // One more entry is in order exactly when its view fits and the dictionaries accept it.
  lemma SessionStep(es: seq<Entry>, i: nat, d: Views, rootLevel: nat)
    requires i < |es| && SessionsOk(es[..i], rootLevel) && AllFilled(es[..i], d)
    ensures SessionsOk(es[..i + 1], rootLevel) <==>
              SessionFits(es[i], rootLevel) && (es[i].mpi.Some? ==> Accepts(d, es[i].mpi.value))
    ensures SessionsOk(es, rootLevel) ==> SessionsOk(es[..i + 1], rootLevel)
    ensures SessionsOk(es[..i + 1], rootLevel) ==>
              AllFilled(es[..i + 1], if es[i].mpi.Some? then AddView(d, es[i].mpi.value) else d)
  {
    hide SessionsOk, AllFilled, Accepts, AgreesWithAll, SessionFits, AddView;
    assert es[..i + 1] == es[..i] + [es[i]];
    SessionsMore(es[..i], es[i], rootLevel);
    if SessionsOk(es, rootLevel) { SessionsPrefix(es, i + 1, rootLevel); }
    if es[i].mpi.Some? { AcceptsIffAgrees(es[..i], d, es[i].mpi.value); }
    if SessionsOk(es[..i + 1], rootLevel) { AllFilledMore(es[..i], d, es[i]); }
  }

  lemma SessionsPrefix(es: seq<Entry>, i: nat, rootLevel: nat)
    requires i <= |es| && SessionsOk(es, rootLevel)
    ensures SessionsOk(es[..i], rootLevel)
  {
    hide SessionFits, Agree;
  }

  // ---- The registry and its indexes ------------------------------------------------------------

  datatype Registry = Registry(
    rootLevel: nat,
    records: seq<Record>,
    byIdentity: map<Identity, Record>,
    byKey: map<Key, Record>,
    parsed: map<string, seq<Segment>>,
    byOwner: map<Bytes, Record>,
    mpi: map<nat, Session>)

  function KeyIs(k: Key): Record -> bool { (r: Record) => RecordKey(r) == k }

  function IdentityIs(n: Identity): Record -> bool { (r: Record) => r.identity == n }

  // The last record of a scan that has this property: what a dictionary built in order keeps.
  ghost predicate IsLast(rs: seq<Record>, p: Record -> bool, r: Record) {
    exists i | 0 <= i < |rs| :: rs[i] == r && p(r) && forall j | i < j < |rs| :: !p(rs[j])
  }

  lemma LastMore(rs: seq<Record>, p: Record -> bool, r: Record, x: Record)
    ensures p(x) ==> IsLast(rs + [x], p, x)
    ensures !p(x) && IsLast(rs, p, r) ==> IsLast(rs + [x], p, r)
  {
    var ss := rs + [x];
    assert ss[|rs|] == x;
    if !p(x) && IsLast(rs, p, r) {
      var i :| 0 <= i < |rs| && rs[i] == r && p(r) && forall j | i < j < |rs| :: !p(rs[j]);
      assert ss[i] == r && forall j | i < j < |ss| :: !p(ss[j]);
    }
  }

  // The two record indexes answer what a scan of the records would ...
  ghost predicate KeysIndexed(rs: seq<Record>, byKey: map<Key, Record>, byIdentity: map<Identity, Record>) {
    && (forall k | k in byKey :: IsLast(rs, KeyIs(k), byKey[k]))
    && (forall r | r in rs :: RecordKey(r) in byKey)
    && (forall n | n in byIdentity :: IsLast(rs, IdentityIs(n), byIdentity[n]))
    && (forall r | r in rs :: r.identity in byIdentity)
  }

  lemma KeysMore(rs: seq<Record>, byKey: map<Key, Record>, byIdentity: map<Identity, Record>, x: Record)
    requires KeysIndexed(rs, byKey, byIdentity)
    ensures KeysIndexed(rs + [x], byKey[RecordKey(x) := x], byIdentity[x.identity := x])
  {
    hide IsLast;
    var byKey', byIdentity' := byKey[RecordKey(x) := x], byIdentity[x.identity := x];
    assert forall r | r in rs + [x] :: r in rs || r == x;
    forall k | k in byKey' ensures IsLast(rs + [x], KeyIs(k), byKey'[k]) {
      LastMore(rs, KeyIs(k), byKey'[k], x);
    }
    forall n | n in byIdentity' ensures IsLast(rs + [x], IdentityIs(n), byIdentity'[n]) {
      LastMore(rs, IdentityIs(n), byIdentity'[n], x);
    }
  }

  // ... and every recorded path, and no other, has its parse.
  ghost predicate PathsParsed(rs: seq<Record>, rootLevel: nat, parsed: map<string, seq<Segment>>) {
    && (forall p | p in parsed :: ParsePath(p, rootLevel) == Some(parsed[p]))
    && (forall p :: p in parsed <==> exists r | r in rs :: r.path == p)
  }

  ghost predicate Indexed(reg: Registry) {
    KeysIndexed(reg.records, reg.byKey, reg.byIdentity) && PathsParsed(reg.records, reg.rootLevel, reg.parsed)
  }

  // The owner index sends exactly the snapshot's nonces to the records of their entries.
  ghost predicate OwnersIndexed(es: seq<Entry>, rs: seq<Record>, byOwner: map<Bytes, Record>) {
    && |rs| == |es|
    && (forall n :: n in byOwner <==> exists i | 0 <= i < |es| :: es[i].owner == Some(n))
    && (forall i | 0 <= i < |es| && es[i].owner.Some? :: byOwner[es[i].owner.value] == rs[i])
  }

  lemma OwnersFromBindings(es: seq<Entry>, rs: seq<Record>, bindings: map<Bytes, nat>)
    requires |rs| == |es| && BindingsOf(es, bindings)
    ensures OwnersIndexed(es, rs, map n | n in bindings :: rs[bindings[n]])
  {
  }

  lemma PathsMore(rs: seq<Record>, rootLevel: nat, parsed: map<string, seq<Segment>>, x: Record)
    requires PathsParsed(rs, rootLevel, parsed) && ParsePath(x.path, rootLevel).Some?
    ensures PathsParsed(rs + [x], rootLevel, parsed[x.path := ParsePath(x.path, rootLevel).value])
  {
    hide ParsePath;
    assert forall r :: r in rs + [x] <==> r in rs || r == x;
    assert x in rs + [x];
  }

  // The constructor's dictionaries, filled record by record; a path that does not parse ends it.
  method BuildIndexes(rootLevel: nat, rs: seq<Record>)
    returns (ok: bool, byKey: map<Key, Record>, byIdentity: map<Identity, Record>, parsed: map<string, seq<Segment>>)
    ensures ok <==> forall r | r in rs :: ParsePath(r.path, rootLevel).Some?
    ensures ok ==> KeysIndexed(rs, byKey, byIdentity) && PathsParsed(rs, rootLevel, parsed)
  {
    byKey, byIdentity, parsed := map[], map[], map[];
    assert rs[..0] == [];
    for i := 0 to |rs|
      invariant forall r | r in rs[..i] :: ParsePath(r.path, rootLevel).Some?
      invariant KeysIndexed(rs[..i], byKey, byIdentity) && PathsParsed(rs[..i], rootLevel, parsed)
    {
      hide KeysIndexed, PathsParsed, ParsePath;
      assert rs[..i + 1] == rs[..i] + [rs[i]];
      var segments := ParseEndpointPath(rs[i].path, rootLevel);
      if segments.None? {
        assert rs[i] in rs;
        return false, byKey, byIdentity, parsed;
      }
      KeysMore(rs[..i], byKey, byIdentity, rs[i]);
      PathsMore(rs[..i], rootLevel, parsed, rs[i]);
      byKey, byIdentity := byKey[RecordKey(rs[i]) := rs[i]], byIdentity[rs[i].identity := rs[i]];
      parsed := parsed[rs[i].path := segments.value];
    }
    assert rs[..|rs|] == rs;
    ok := true;
  }

  ghost predicate SnapshotOk(es: seq<Entry>, rootLevel: nat) {
    && EntriesOk(es) && SessionsOk(es, rootLevel)
    && forall i | 0 <= i < |es| :: ParsePath(es[i].path, rootLevel).Some?
  }

  function SessionMap(es: seq<Entry>): map<nat, Session> {
    map i | 0 <= i < |es| && es[i].mpi.Some? :: es[i].mpi.value
  }

  // A snapshot is accepted exactly when its entries are distinct and well-formed, every path parses
  // and the MPI views agree; the registry then has one record per entry and faithful indexes.
  method FromSnapshot(es: seq<Entry>, rootLevel: nat, session: Bytes, epoch: int, normalize: string -> string)
    returns (r: Result<Registry, BuildError>)
    ensures r.Ok? <==> SnapshotOk(es, rootLevel)
    ensures r.Ok? ==>
              && Indexed(r.value) && RecordsOf(es, session, epoch, normalize, r.value.records)
              && DistinctIdentities(r.value.records)
              && r.value.rootLevel == rootLevel && r.value.mpi == SessionMap(es)
              && OwnersIndexed(es, r.value.records, r.value.byOwner)
  {
    hide EntriesOk, SessionsOk, ParsePath, KeysIndexed, PathsParsed, OwnersIndexed;
    var scanned := ScanEntries(es, session, epoch, normalize);
    if scanned.Err? { return Err(scanned.error); }
    var (records, bindings) := scanned.value;
    var ok, byKey, byIdentity, parsed := BuildIndexes(rootLevel, records);
    SamePaths(es, session, epoch, normalize, records, rootLevel);
    if !ok { return Err(BadPath); }
    var consistent := CheckSessions(es, rootLevel);
    if !consistent { return Err(BadSession); }
    OwnersFromBindings(es, records, bindings);
    var byOwner := map n | n in bindings :: records[bindings[n]];
    r := Ok(Registry(rootLevel, records, byIdentity, byKey, parsed, byOwner, SessionMap(es)));
  }

  lemma SamePaths(es: seq<Entry>, session: Bytes, epoch: int, normalize: string -> string, rs: seq<Record>, rootLevel: nat)
    requires RecordsOf(es, session, epoch, normalize, rs)
    ensures (forall r | r in rs :: ParsePath(r.path, rootLevel).Some?) <==>
            forall i | 0 <= i < |es| :: ParsePath(es[i].path, rootLevel).Some?
  {
    hide ParsePath;
    assert forall i | 0 <= i < |es| :: rs[i] in rs && rs[i].path == es[i].path;
  }

  // ---- Selectors -------------------------------------------------------------------------------

  datatype SelectorKind = At | Under
  datatype Selector = Selector(kind: SelectorKind, path: string, deployment: Deployment)

  datatype Reason =
    | PathNotFound | EndpointNotRegistered | EmptyUnderSelector | DuplicateEndpoint | InvalidPath | ProviderNotSingle

  // Segments compare by level, then index, a missing index counting as -1.
  predicate SegmentLess(a: Segment, b: Segment) {
    a.level < b.level || (a.level == b.level && IndexKey(a) < IndexKey(b))
  }

  function IndexKey(a: Segment): int { if a.index.Some? then a.index.value else -1 }

  predicate SegmentsLe(a: seq<Segment>, b: seq<Segment>) {
    a == [] || (b != [] && (SegmentLess(a[0], b[0]) || (a[0] == b[0] && SegmentsLe(a[1..], b[1..]))))
  }

  lemma {:induction false} SegmentsTotal(a: seq<Segment>, b: seq<Segment>)
    ensures SegmentsLe(a, b) || SegmentsLe(b, a)
  {
    if a != [] && b != [] { SegmentsTotal(a[1..], b[1..]); }
  }

  lemma {:induction false} SegmentsTransitive(a: seq<Segment>, b: seq<Segment>, c: seq<Segment>)
    requires SegmentsLe(a, b) && SegmentsLe(b, c)
    ensures SegmentsLe(a, c)
  {
    if a != [] && a[0] == b[0] == c[0] { SegmentsTransitive(a[1..], b[1..], c[1..]); }
  }

  function ParsedOf(reg: Registry, path: string): seq<Segment> {
    if path in reg.parsed then reg.parsed[path] else []
  }

  // The sort key comparison of two records.
  function BySegments(reg: Registry): (Record, Record) -> bool {
    (a: Record, b: Record) => SegmentsLe(ParsedOf(reg, a.path), ParsedOf(reg, b.path))
  }

  lemma BySegmentsOrders(reg: Registry)
    ensures TotalPreorder(BySegments(reg))
  {
    var le := BySegments(reg);
    forall a, b ensures le(a, b) || le(b, a) { SegmentsTotal(ParsedOf(reg, a.path), ParsedOf(reg, b.path)); }
    forall a, b, c | le(a, b) && le(b, c) ensures le(a, c) {
      SegmentsTransitive(ParsedOf(reg, a.path), ParsedOf(reg, b.path), ParsedOf(reg, c.path));
    }
  }

  function Descendants(reg: Registry, parent: seq<Segment>, deployment: Deployment): seq<Record> {
    Filter((r: Record) => r.deployment == deployment && StrictPrefix(parent, ParsedOf(reg, r.path)), reg.records)
  }

  function Resolve(reg: Registry, sel: Selector): Result<seq<Record>, Reason> {
    var parsed := ParsePath(sel.path, reg.rootLevel);
    if parsed.None? then Err(InvalidPath)
    else if sel.path !in reg.parsed then Err(PathNotFound)
    else if sel.kind == At then
      var k := (sel.path, sel.deployment);
      if k in reg.byKey then Ok([reg.byKey[k]]) else Err(EndpointNotRegistered)
    else
      var rs := Sort(BySegments(reg), Descendants(reg, parsed.value, sel.deployment));
      if rs == [] then Err(EmptyUnderSelector) else Ok(rs)
  }

  // AT answers with the record a scan finds for that path and deployment, or with the right error.
  lemma AtIsScan(reg: Registry, sel: Selector)
    requires Indexed(reg) && sel.kind == At
    ensures Resolve(reg, sel).Ok? <==> exists r | r in reg.records :: r.path == sel.path && r.deployment == sel.deployment
    ensures Resolve(reg, sel).Ok? ==>
              && |Resolve(reg, sel).value| == 1
              && IsLast(reg.records, KeyIs((sel.path, sel.deployment)), Resolve(reg, sel).value[0])
    ensures Resolve(reg, sel).Err? ==>
              Resolve(reg, sel).error ==
                if ParsePath(sel.path, reg.rootLevel).None? then InvalidPath
                else if forall r | r in reg.records :: r.path != sel.path then PathNotFound
                else EndpointNotRegistered
  {
    hide ParsePath, IsLast, Sort, Indexed, Descendants;
    ByKeyIsScan(reg, (sel.path, sel.deployment));
    KnownPaths(reg, sel.path);
  }

  lemma ByKeyIsScan(reg: Registry, k: Key)
    requires Indexed(reg)
    ensures k in reg.byKey <==> exists r | r in reg.records :: r.path == k.0 && r.deployment == k.1
    ensures k in reg.byKey ==> IsLast(reg.records, KeyIs(k), reg.byKey[k])
  {
    hide PathsParsed;
    if k in reg.byKey {
      assert IsLast(reg.records, KeyIs(k), reg.byKey[k]);
      assert reg.byKey[k] in reg.records;
    }
    if r :| r in reg.records && r.path == k.0 && r.deployment == k.1 { assert RecordKey(r) == k; }
  }

  // The strict descendants with that deployment, by a scan that parses every recorded path.
  ghost predicate AreDescendants(reg: Registry, parent: seq<Segment>, deployment: Deployment, all: seq<Record>) {
    forall r :: r in all <==>
      && r in reg.records && r.deployment == deployment
      && ParsePath(r.path, reg.rootLevel).Some? && StrictPrefix(parent, ParsePath(r.path, reg.rootLevel).value)
  }

  lemma DescendantsExact(reg: Registry, parent: seq<Segment>, deployment: Deployment)
    requires Indexed(reg)
    ensures AreDescendants(reg, parent, deployment, Descendants(reg, parent, deployment))
  {
    hide ParsePath, KeysIndexed;
    forall r ensures r in Descendants(reg, parent, deployment) <==>
      && r in reg.records && r.deployment == deployment
      && ParsePath(r.path, reg.rootLevel).Some? && StrictPrefix(parent, ParsePath(r.path, reg.rootLevel).value)
    {
      if r in reg.records { assert r.path in reg.parsed; }
    }
  }

  // In segment order, ties in the order they came in.
  ghost predicate StablySorted(reg: Registry, all: seq<Record>, rs: seq<Record>) {
    && multiset(rs) == multiset(all) && Sorted(BySegments(reg), rs)
    && forall p | Tied(BySegments(reg), p) :: Filter(p, rs) == Filter(p, all)
  }

  lemma SortIsStable(reg: Registry, all: seq<Record>)
    ensures StablySorted(reg, all, Sort(BySegments(reg), all))
  {
    BySegmentsOrders(reg);
    hide BySegments, Tied, Filter;
    SortSorts(BySegments(reg), all);
    forall p | Tied(BySegments(reg), p) ensures Filter(p, Sort(BySegments(reg), all)) == Filter(p, all) {
      SortStable(BySegments(reg), all, p);
    }
  }

  lemma KnownPaths(reg: Registry, path: string)
    requires Indexed(reg)
    ensures path in reg.parsed ==> ParsePath(path, reg.rootLevel).Some?
    ensures path in reg.parsed <==> exists r | r in reg.records :: r.path == path
  {
  }

  // UNDER answers with exactly the strict descendants of that deployment, each as often as recorded,
  // in segment order, ties in registration order; and with the right error when the path does not
  // parse, is not recorded or has no such descendant.
  lemma UnderIsExact(reg: Registry, sel: Selector)
    requires Indexed(reg) && sel.kind == Under
    ensures var path := ParsePath(sel.path, reg.rootLevel);
            if path.None? then Resolve(reg, sel) == Err(InvalidPath)
            else if forall r | r in reg.records :: r.path != sel.path then Resolve(reg, sel) == Err(PathNotFound)
            else
              var all := Descendants(reg, path.value, sel.deployment);
              && AreDescendants(reg, path.value, sel.deployment, all)
              && match Resolve(reg, sel)
                 case Ok(rs) => all != [] && StablySorted(reg, all, rs)
                 case Err(error) => all == [] && error == EmptyUnderSelector
  {
    hide ParsePath, Sort, StablySorted, Descendants, AreDescendants, Indexed, BySegments;
    KnownPaths(reg, sel.path);
    if sel.path in reg.parsed {
      var parent := ParsePath(sel.path, reg.rootLevel).value;
      var all := Descendants(reg, parent, sel.deployment);
      DescendantsExact(reg, parent, sel.deployment);
      SortIsStable(reg, all);
      SameLength(Sort(BySegments(reg), all), all);
    }
  }

  // ---- Member lists ----------------------------------------------------------------------------

  // The selectors' answers one after the other, while they all resolve.
  function Flatten(reg: Registry, sels: seq<Selector>): Result<seq<Record>, Reason> {
    if sels == [] then Ok([])
    else
      match Resolve(reg, sels[0])
      case Err(e) => Err(e)
      case Ok(rs) =>
        match Flatten(reg, sels[1..])
        case Err(e) => Err(e)
        case Ok(rest) => Ok(rs + rest)
  }

  predicate DistinctIdentities(rs: seq<Record>) {
    forall i, j | 0 <= i < j < |rs| :: rs[i].identity != rs[j].identity
  }

  lemma {:induction false} FlattenAppend(reg: Registry, a: seq<Selector>, b: seq<Selector>)
    ensures Flatten(reg, a + b) ==
            if Flatten(reg, a).Err? then Flatten(reg, a)
            else if Flatten(reg, b).Err? then Flatten(reg, b)
            else Ok(Flatten(reg, a).value + Flatten(reg, b).value)
  {
    hide Resolve;
    if a == [] {
      assert a + b == b;
      assert Flatten(reg, b).Ok? ==> [] + Flatten(reg, b).value == Flatten(reg, b).value;
    } else {
      assert (a + b)[0] == a[0] && (a + b)[1..] == a[1..] + b;
      FlattenAppend(reg, a[1..], b);
      var r, x, y := Resolve(reg, a[0]), Flatten(reg, a[1..]), Flatten(reg, b);
      assert r.Ok? && x.Ok? && y.Ok? ==> r.value + (x.value + y.value) == (r.value + x.value) + y.value;
    }
  }

  ghost predicate Gathered(rs: seq<Record>, seen: set<Identity>) {
    && DistinctIdentities(rs)
    && (forall r | r in rs :: r.identity in seen)
    && (forall n | n in seen :: exists r | r in rs :: r.identity == n)
  }

  lemma GatheredMore(rs: seq<Record>, seen: set<Identity>, r: Record)
    requires Gathered(rs, seen)
    ensures DistinctIdentities(rs + [r]) <==> r.identity !in seen
    ensures r.identity !in seen ==> Gathered(rs + [r], seen + {r.identity})
  {
    var ss := rs + [r];
    assert ss[|rs|] == r && forall i | 0 <= i < |rs| :: ss[i] == rs[i] && rs[i] in rs;
    if r.identity in seen {
      var q :| q in rs && q.identity == r.identity;
      var i :| 0 <= i < |rs| && rs[i] == q;
      assert ss[i].identity == ss[|rs|].identity;
    } else {
      forall n | n in seen + {r.identity} ensures exists q | q in ss :: q.identity == n {
        if n in seen {
          var q :| q in rs && q.identity == n;
          assert q in ss;
        } else {
          assert r in ss;
        }
      }
    }
  }

  lemma DistinctPrefix(a: seq<Record>, b: seq<Record>)
    requires a <= b && DistinctIdentities(b)
    ensures DistinctIdentities(a)
  {
  }

  // A member list resolves exactly when every selector does and no endpoint comes up twice; it then
  // lists the selectors' endpoints in order.
  method ResolveMembers(reg: Registry, sels: seq<Selector>) returns (r: Result<seq<Record>, Reason>)
    ensures r.Ok? <==> Flatten(reg, sels).Ok? && DistinctIdentities(Flatten(reg, sels).value)
    ensures r.Ok? ==> r.value == Flatten(reg, sels).value
    ensures r.Err? && Flatten(reg, sels).Ok? ==> r.error == DuplicateEndpoint
  {
    hide Resolve, DistinctIdentities, Gathered, Flatten;
    var resolved: seq<Record>, seen: set<Identity> := [], {};
    FlattenNone(reg);
    assert sels[..0] == [];
    for i := 0 to |sels|
      invariant Flatten(reg, sels[..i]) == Ok(resolved) && Gathered(resolved, seen)
    {
      var answer := Resolve(reg, sels[i]);
      FlattenNext(reg, sels, i);
      if answer.Err? { return Err(answer.error); }
      ghost var before := resolved;
      assert before + answer.value[..0] == before;
      for j := 0 to |answer.value|
        invariant resolved == before + answer.value[..j] && Gathered(resolved, seen)
      {
        var record := answer.value[j];
        assert answer.value[..j + 1] == answer.value[..j] + [record];
        GatheredMore(resolved, seen, record);
        if record.identity in seen {
          if Flatten(reg, sels).Ok? && DistinctIdentities(Flatten(reg, sels).value) {
            DistinctPrefix(resolved + [record], Flatten(reg, sels).value);
          }
          return Err(DuplicateEndpoint);
        }
        seen := seen + {record.identity};
        resolved := resolved + [record];
      }
      assert answer.value[..|answer.value|] == answer.value;
    }
    assert sels[..|sels|] == sels;
    GatheredDistinct(resolved, seen);
    r := Ok(resolved);
  }

  lemma FlattenNone(reg: Registry)
    ensures Flatten(reg, []) == Ok([]) && Gathered([], {})
  {
  }

  lemma GatheredDistinct(rs: seq<Record>, seen: set<Identity>)
    requires Gathered(rs, seen)
    ensures DistinctIdentities(rs)
  {
  }

  // What one more selector adds, and that later selectors can neither take it away nor hide an error.
  lemma FlattenNext(reg: Registry, sels: seq<Selector>, i: nat)
    requires i < |sels| && Flatten(reg, sels[..i]).Ok?
    ensures Resolve(reg, sels[i]).Ok? ==>
              Flatten(reg, sels[..i + 1]) == Ok(Flatten(reg, sels[..i]).value + Resolve(reg, sels[i]).value)
    ensures Resolve(reg, sels[i]).Err? ==> Flatten(reg, sels) == Err(Resolve(reg, sels[i]).error)
    ensures Resolve(reg, sels[i]).Ok? && Flatten(reg, sels).Ok? ==>
              Flatten(reg, sels[..i]).value + Resolve(reg, sels[i]).value <= Flatten(reg, sels).value
  {
    hide Resolve;
    var one := [sels[i]];
    assert sels[..i + 1] == sels[..i] + one && sels == sels[..i + 1] + sels[i + 1..] && one[1..] == [];
    FlattenAppend(reg, sels[..i], one);
    FlattenAppend(reg, sels[..i + 1], sels[i + 1..]);
    var a := Resolve(reg, sels[i]);
    assert a.Ok? ==> a.value + [] == a.value;
  }
}
