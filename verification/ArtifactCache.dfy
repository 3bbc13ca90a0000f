/** Processes sharing the on-disk artifact cache: load, lock, compile, publish, prune.

    Each file-system operation is one atomic step; a publication replaces the binary and then the
    manifest, so a reader can see the new binary with the old manifest. The lock is taken on the
    inode a process opened. Opening a lock file sets its modification time; pruning looks that time up
    and, in a second operation, unlinks the path of a lock older than the retention. Time passes in
    steps of its own. Any operation may fail, and a process may die, at any point. The hash is an
    arbitrary function; the theorems that need it injective say so. */
module ArtifactCache {
  import opened Prelude

  type Key = string

  datatype Manifest = Manifest(version: nat, key: Key, size: nat, sha: Bytes)

  // `retention` is the age, in the unit of the clock, from which pruning removes a lock.
  datatype Config = Config(version: nat, hash: Bytes -> Bytes, retention: nat)

  // Where one `get_or_compile` call stands. An `inode` is the lock file it has open.
  datatype Pc =
    | Fresh                         // about to read the manifest, no lock
    | Read1(seen: Manifest)         // has the manifest, about to read the binary
    | Missed                        // about to open the lock file
    | Uncached                      // the cache directory is unusable: compile and return
    | Opened(inode: nat)            // waiting for the lock
    | Locked(inode: nat)            // holds it, about to read the manifest again
    | Read2(inode: nat, seen: Manifest)
    | Missed2(inode: nat)           // about to compile
    | Compiled(inode: nat, raw: Bytes)  // about to write the temporaries
    | Staged(inode: nat, raw: Bytes)  // both temporaries written
    | BinaryOut(inode: nat, raw: Bytes)  // binary replaced, manifest not yet
    | Published(inode: nat, raw: Bytes)  // both replaced; prunes, then returns
    | PublishFailed(inode: nat, raw: Bytes)
    | Returned(raw: Bytes, own: bool)
    | Gone                          // died, or its compile raised

  // `compiled` is what this call's own compile produced.
  datatype Proc = Proc(key: Key, pc: Pc, compiled: Option<Bytes>)

  // A call that is pruning: what it takes for old, and the lock it has found old and not unlinked yet.
  datatype Pruner = Pruner(cutoff: int, marked: Option<Key>)

  // `mtime` belongs to the lock inodes. `openedAt` is history: when each call opened its lock file. So is
  // `published`: the calls that completed both replacements, with what they published.
  datatype State = State(
    binary: map<Key, Bytes>,
    manifest: map<Key, Manifest>,
    lockPath: map<Key, nat>,
    inodes: nat,
    holder: map<nat, nat>,
    procs: seq<Proc>,
    published: set<(Key, Bytes)>,
    now: nat,
    mtime: map<nat, nat>,
    openedAt: map<nat, nat>,
    pruners: map<nat, Pruner>)

  datatype Choice = Choice(fails: bool, raw: Bytes)  // `raw`: what a compile produces if one runs

  datatype Step =
    | Spawn(key: Key)
    | Move(proc: nat, choice: Choice)
    | Crash(proc: nat)
    | PruneBinary(proc: nat, key: Key)
    | PruneManifest(proc: nat, key: Key)
    | Tick(elapsed: nat)
    | BeginPrune(proc: nat)              // fixes the cutoff, once per call
    | StatLock(proc: nat, key: Key)      // finds this lock older than the cutoff
    | UnlinkLock(proc: nat)              // unlinks the path of the lock it found old

  function Init(): State { State(map[], map[], map[], 0, map[], [], {}, 0, map[], map[], map[]) }

  function ManifestOf(cfg: Config, key: Key, raw: Bytes): Manifest {
    Manifest(cfg.version, key, |raw|, cfg.hash(raw))
  }

  // ---- The steps -------------------------------------------------------------------------------

  function Put(s: State, p: nat, pc: Pc): State
    requires p < |s.procs|
  {
    s.(procs := s.procs[p := s.procs[p].(pc := pc)])
  }

  // Closing the lock file gives the lock up.
  function Unlock(s: State, inode: nat): State { s.(holder := s.holder - {inode}) }

  predicate HasInode(pc: Pc) {
    pc.Opened? || pc.Locked? || pc.Read2? || pc.Missed2? || pc.Compiled? || pc.Staged? || pc.BinaryOut?
    || pc.Published? || pc.PublishFailed?
  }

  // Past the lock and not yet returned.
  predicate Critical(pc: Pc) { HasInode(pc) && !pc.Opened? }

  // The manifest read earlier describes exactly the binary that is there now.
  predicate Matches(cfg: Config, s: State, k: Key, m: Manifest) {
    k in s.binary && m == ManifestOf(cfg, k, s.binary[k])
  }

  // What the moving call sees and does next ...
  function Next(cfg: Config, s: State, q: Proc, c: Choice): Proc {
    var k := q.key;
    match q.pc
    case Fresh => q.(pc := if c.fails || k !in s.manifest then Missed else Read1(s.manifest[k]))
    case Read1(m) =>
      q.(pc := if !c.fails && Matches(cfg, s, k, m) then Returned(s.binary[k], false) else Missed)
    case Missed =>
      q.(pc := if c.fails then Uncached else Opened(if k in s.lockPath then s.lockPath[k] else s.inodes))
    case Uncached => Proc(k, Returned(c.raw, true), Some(c.raw))
    case Opened(i) => q.(pc := if c.fails then Uncached else Locked(i))
    case Locked(i) => q.(pc := if c.fails || k !in s.manifest then Missed2(i) else Read2(i, s.manifest[k]))
    case Read2(i, m) =>
      q.(pc := if !c.fails && Matches(cfg, s, k, m) then Returned(s.binary[k], false) else Missed2(i))
    case Missed2(i) => Proc(k, Compiled(i, c.raw), Some(c.raw))
    case Compiled(i, raw) => q.(pc := if c.fails then PublishFailed(i, raw) else Staged(i, raw))
    case Staged(i, raw) => q.(pc := if c.fails then PublishFailed(i, raw) else BinaryOut(i, raw))
    case BinaryOut(i, raw) => q.(pc := if c.fails then PublishFailed(i, raw) else Published(i, raw))
    case Published(_, raw) => q.(pc := Returned(raw, true))
    case PublishFailed(_, raw) => q.(pc := Returned(raw, true))
    case Returned(_, _) => q
    case Gone => q
  }

  // The lock file a call for this key opens: the one its path names, or a new one.
  function LockOf(s: State, k: Key): nat { if k in s.lockPath then s.lockPath[k] else s.inodes }

  predicate Opens(q: Proc, c: Choice) { q.pc.Missed? && !c.fails }

  predicate Takes(q: Proc, c: Choice) { q.pc.Opened? && !c.fails }

  predicate LetsGo(cfg: Config, s: State, q: Proc, c: Choice) {
    q.pc.Published? || q.pc.PublishFailed? || (q.pc.Read2? && !c.fails && Matches(cfg, s, q.key, q.pc.seen))
  }

  predicate Replaces(q: Proc, c: Choice) { q.pc.Staged? && !c.fails }

  predicate Publishes(q: Proc, c: Choice) { q.pc.BinaryOut? && !c.fails }

  function HolderAfter(cfg: Config, s: State, p: nat, q: Proc, c: Choice): map<nat, nat> {
    if Takes(q, c) then s.holder[q.pc.inode := p]
    else if LetsGo(cfg, s, q, c) then s.holder - {q.pc.inode}
    else s.holder
  }

  // ... and what that does to the shared directory and the locks. Opening the lock file of a key
  // creates it if need be and makes it new; closing it gives the lock up.
  function Effect(cfg: Config, s: State, p: nat, c: Choice): (t: State)
    requires p < |s.procs|
    ensures t.procs == s.procs && t.now == s.now && t.pruners == s.pruners
  {
    var q := s.procs[p];
    var opens, i := Opens(q, c), LockOf(s, q.key);
    s.(binary := if Replaces(q, c) then s.binary[q.key := q.pc.raw] else s.binary,
       manifest := if Publishes(q, c) then s.manifest[q.key := ManifestOf(cfg, q.key, q.pc.raw)] else s.manifest,
       published := if Publishes(q, c) then s.published + {(q.key, q.pc.raw)} else s.published,
       lockPath := if opens then s.lockPath[q.key := i] else s.lockPath,
       inodes := if opens && q.key !in s.lockPath then s.inodes + 1 else s.inodes,
       mtime := if opens then s.mtime[i := s.now] else s.mtime,
       openedAt := if opens then s.openedAt[p := s.now] else s.openedAt,
       holder := HolderAfter(cfg, s, p, q, c))
  }

  function DoMove(cfg: Config, s: State, p: nat, c: Choice): State
    requires p < |s.procs|
  {
    Effect(cfg, s, p, c).(procs := s.procs[p := Next(cfg, s, s.procs[p], c)])
  }

  function DoCrash(s: State, p: nat): State
    requires p < |s.procs|
  {
    var pc := s.procs[p].pc;
    Put(if Critical(pc) then Unlock(s, pc.inode) else s, p, Gone)
  }

  // Pruning happens after a successful publication, before the call returns.
  predicate MayPrune(s: State, p: nat) { p < |s.procs| && s.procs[p].pc.Published? }

  predicate Pruning(s: State, p: nat) { MayPrune(s, p) && p in s.pruners }

  // The lock file of this key is older than what the pruning call takes for old.
  predicate Old(s: State, p: nat, k: Key) {
    p in s.pruners && k in s.lockPath && s.lockPath[k] in s.mtime && s.mtime[s.lockPath[k]] < s.pruners[p].cutoff
  }

  predicate Enabled(s: State, step: Step) {
    match step
    case Spawn(_) => true
    case Move(p, _) =>
      p < |s.procs| && !s.procs[p].pc.Returned? && !s.procs[p].pc.Gone?
      && (s.procs[p].pc.Opened? ==> s.procs[p].pc.inode !in s.holder)
    case Crash(p) => p < |s.procs| && !s.procs[p].pc.Returned?
    case PruneBinary(p, _) => Pruning(s, p)
    case PruneManifest(p, _) => Pruning(s, p)
    case Tick(_) => true
    case BeginPrune(p) => MayPrune(s, p) && p !in s.pruners
    case StatLock(p, k) => Pruning(s, p) && Old(s, p, k)
    case UnlinkLock(p) => Pruning(s, p) && s.pruners[p].marked.Some?
  }

  function Apply(cfg: Config, s: State, step: Step): State
    requires Enabled(s, step)
  {
    match step
    case Spawn(k) => s.(procs := s.procs + [Proc(k, Fresh, None)])
    case Move(p, c) => DoMove(cfg, s, p, c)
    case Crash(p) => DoCrash(s, p)
    case PruneBinary(_, k) => s.(binary := s.binary - {k})
    case PruneManifest(_, k) => s.(manifest := s.manifest - {k})
    case Tick(elapsed) => s.(now := s.now + elapsed)
    case BeginPrune(p) => s.(pruners := s.pruners[p := Pruner(s.now - cfg.retention, None)])
    case StatLock(p, k) => s.(pruners := s.pruners[p := s.pruners[p].(marked := Some(k))])
    case UnlinkLock(p) =>
      s.(lockPath := s.lockPath - {s.pruners[p].marked.value}, pruners := s.pruners[p := s.pruners[p].(marked := None)])
  }

  predicate IsRun(cfg: Config, s: State, steps: seq<Step>)
    decreases |steps|
  {
    steps == [] || (Enabled(s, steps[0]) && IsRun(cfg, Apply(cfg, s, steps[0]), steps[1..]))
  }

  function Run(cfg: Config, s: State, steps: seq<Step>): State
    requires IsRun(cfg, s, steps)
    decreases |steps|
  {
    if steps == [] then s else Run(cfg, Apply(cfg, s, steps[0]), steps[1..])
  }

  ghost predicate Reachable(cfg: Config, s: State) {
    exists steps :: IsRun(cfg, Init(), steps) && Run(cfg, Init(), steps) == s
  }

  ghost predicate Injective(hash: Bytes -> Bytes) {
    forall x, y | hash(x) == hash(y) :: x == y
  }

  // ---- Nothing torn is ever returned -----------------------------------------------------------

  // A manifest on disk or in a reader's hands was written for a completed publication of its key.
  ghost predicate Vouched(cfg: Config, published: set<(Key, Bytes)>, m: Manifest) {
    exists raw :: (m.key, raw) in published && m == ManifestOf(cfg, m.key, raw)
  }

  predicate HasOwn(pc: Pc) {
    pc.Compiled? || pc.Staged? || pc.BinaryOut? || pc.Published? || pc.PublishFailed? || (pc.Returned? && pc.own)
  }

  ghost predicate ProcOk(cfg: Config, s: State, p: nat)
    requires p < |s.procs|
  {
    var q := s.procs[p];
    && (q.pc.Read1? || q.pc.Read2? ==> Vouched(cfg, s.published, q.pc.seen))
    && (HasOwn(q.pc) ==> q.compiled == Some(q.pc.raw))
    && (!HasOwn(q.pc) && !q.pc.Gone? ==> q.compiled.None?)
    && (q.pc.Returned? && !q.pc.own ==> (q.key, q.pc.raw) in s.published)
  }

  // What is published was compiled by some call for that very key.
  ghost predicate FromCompile(s: State, k: Key, raw: Bytes) {
    exists p | 0 <= p < |s.procs| :: s.procs[p].key == k && s.procs[p].compiled == Some(raw)
  }

  ghost predicate Inv(cfg: Config, s: State) {
    && (forall k | k in s.manifest :: s.manifest[k].key == k && Vouched(cfg, s.published, s.manifest[k]))
    && (forall p | 0 <= p < |s.procs| :: ProcOk(cfg, s, p))
    && (forall k, raw | (k, raw) in s.published :: FromCompile(s, k, raw))
  }

  lemma VouchedStays(cfg: Config, a: set<(Key, Bytes)>, b: set<(Key, Bytes)>, m: Manifest)
    requires Vouched(cfg, a, m) && a <= b
    ensures Vouched(cfg, b, m)
  {
    var raw :| (m.key, raw) in a && m == ManifestOf(cfg, m.key, raw);
    assert (m.key, raw) in b;
  }

  // A vouched manifest that matches the bytes at hand names those bytes.
  lemma MatchIsPublished(cfg: Config, published: set<(Key, Bytes)>, m: Manifest, k: Key, raw: Bytes)
    requires Injective(cfg.hash) && Vouched(cfg, published, m) && m == ManifestOf(cfg, k, raw)
    ensures (k, raw) in published
  {
    var pub :| (m.key, pub) in published && m == ManifestOf(cfg, m.key, pub);
    assert cfg.hash(pub) == cfg.hash(raw);
  }

  lemma NextOk(cfg: Config, s: State, p: nat, c: Choice)
    requires Injective(cfg.hash) && Inv(cfg, s) && p < |s.procs| && !s.procs[p].pc.Gone?
    ensures var q, q' := s.procs[p], Next(cfg, s, s.procs[p], c);
            && q'.key == q.key && (q.compiled.Some? ==> q'.compiled == q.compiled)
            && (q'.pc.Read1? || q'.pc.Read2? ==> Vouched(cfg, s.published, q'.pc.seen))
            && (HasOwn(q'.pc) ==> q'.compiled == Some(q'.pc.raw))
            && (!HasOwn(q'.pc) ==> q'.compiled.None?)
            && (q'.pc.Returned? && !q'.pc.own ==> (q.key, q'.pc.raw) in s.published)
  {
    assert ProcOk(cfg, s, p);
    var q := s.procs[p];
    if (q.pc.Read1? || q.pc.Read2?) && Matches(cfg, s, q.key, q.pc.seen) {
      MatchIsPublished(cfg, s.published, q.pc.seen, q.key, s.binary[q.key]);
    }
  }

  // `published` only grows, by what the moving call compiled for its key.
  lemma EffectShape(cfg: Config, s: State, p: nat, c: Choice)
    requires p < |s.procs|
    ensures var t, q := Effect(cfg, s, p, c), s.procs[p];
            && s.published <= t.published
            && (t.published != s.published || t.manifest != s.manifest ==> q.pc.BinaryOut?)
            && (q.pc.BinaryOut? ==> t.published <= s.published + {(q.key, q.pc.raw)})
            && (q.pc.BinaryOut? && t.manifest != s.manifest ==>
                  t.manifest == s.manifest[q.key := ManifestOf(cfg, q.key, q.pc.raw)] && (q.key, q.pc.raw) in t.published)
  {
    hide Matches, ManifestOf;
  }

  lemma OwnIsVouched(cfg: Config, published: set<(Key, Bytes)>, k: Key, raw: Bytes)
    requires (k, raw) in published
    ensures ManifestOf(cfg, k, raw).key == k && Vouched(cfg, published, ManifestOf(cfg, k, raw))
  {
  }

  lemma OwnIsFromCompile(t: State, p: nat, raw: Bytes)
    requires p < |t.procs| && t.procs[p].compiled == Some(raw)
    ensures FromCompile(t, t.procs[p].key, raw)
  {
  }

  lemma MoveKeepsInv(cfg: Config, s: State, p: nat, c: Choice)
    requires Injective(cfg.hash) && Inv(cfg, s) && Enabled(s, Move(p, c))
    ensures Inv(cfg, DoMove(cfg, s, p, c))
  {
    hide Effect, Next, Injective, FromCompile, Vouched, ManifestOf;
    var t := DoMove(cfg, s, p, c);
    NextOk(cfg, s, p, c);
    EffectShape(cfg, s, p, c);
    assert ProcOk(cfg, s, p);
    GrowKeepsInv(cfg, s, t);
    if t.manifest != s.manifest { OwnIsVouched(cfg, t.published, s.procs[p].key, s.procs[p].pc.raw); }
    forall k, raw | (k, raw) in t.published ensures FromCompile(t, k, raw) {
      if (k, raw) !in s.published { OwnIsFromCompile(t, p, raw); }
    }
    if t.procs[p].pc.Read1? || t.procs[p].pc.Read2? { VouchedStays(cfg, s.published, t.published, t.procs[p].pc.seen); }
    assert ProcOk(cfg, t, p);
  }

  // What held before holds after, as long as nothing published or compiled is forgotten.
  lemma GrowKeepsInv(cfg: Config, s: State, t: State)
    requires Inv(cfg, s) && s.published <= t.published && |s.procs| <= |t.procs|
    requires forall p | 0 <= p < |s.procs| ::
               t.procs[p].key == s.procs[p].key
               && (s.procs[p].compiled.Some? ==> t.procs[p].compiled == s.procs[p].compiled)
    ensures forall p | 0 <= p < |s.procs| && t.procs[p] == s.procs[p] :: ProcOk(cfg, t, p)
    ensures forall k, raw | (k, raw) in s.published :: FromCompile(t, k, raw)
    ensures forall k | k in s.manifest :: s.manifest[k].key == k && Vouched(cfg, t.published, s.manifest[k])
  {
    forall p | 0 <= p < |s.procs| && t.procs[p] == s.procs[p] ensures ProcOk(cfg, t, p) {
      assert ProcOk(cfg, s, p);
      if s.procs[p].pc.Read1? || s.procs[p].pc.Read2? { VouchedStays(cfg, s.published, t.published, s.procs[p].pc.seen); }
    }
    forall k, raw | (k, raw) in s.published ensures FromCompile(t, k, raw) {
      assert FromCompile(s, k, raw);
      var p :| 0 <= p < |s.procs| && s.procs[p].key == k && s.procs[p].compiled == Some(raw);
      assert t.procs[p].key == k && t.procs[p].compiled == Some(raw);
    }
    forall k | k in s.manifest ensures Vouched(cfg, t.published, s.manifest[k]) {
      VouchedStays(cfg, s.published, t.published, s.manifest[k]);
    }
  }

  // Steps that publish nothing and only forget manifests.
  lemma QuietKeepsInv(cfg: Config, s: State, t: State)
    requires Inv(cfg, s) && t.published == s.published && |s.procs| <= |t.procs|
    requires forall k | k in t.manifest :: k in s.manifest && t.manifest[k] == s.manifest[k]
    requires forall p | 0 <= p < |s.procs| ::
               t.procs[p].key == s.procs[p].key
               && (s.procs[p].compiled.Some? ==> t.procs[p].compiled == s.procs[p].compiled)
    requires forall p | 0 <= p < |t.procs| :: (p < |s.procs| && t.procs[p] == s.procs[p]) || ProcOk(cfg, t, p)
    ensures Inv(cfg, t)
  {
    hide Vouched, FromCompile, ProcOk;
    GrowKeepsInv(cfg, s, t);
  }

  lemma StepKeepsInv(cfg: Config, s: State, step: Step)
    requires Injective(cfg.hash) && Inv(cfg, s) && Enabled(s, step)
    ensures Inv(cfg, Apply(cfg, s, step))
  {
    hide Vouched, FromCompile, Inv, DoMove, Injective;
    if step.Move? {
      MoveKeepsInv(cfg, s, step.proc, step.choice);
    } else {
      QuietKeepsInv(cfg, s, Apply(cfg, s, step));
    }
  }

  lemma {:induction false} RunKeepsInv(cfg: Config, s: State, steps: seq<Step>)
    requires Injective(cfg.hash) && Inv(cfg, s) && IsRun(cfg, s, steps)
    ensures Inv(cfg, Run(cfg, s, steps))
    decreases |steps|
  {
    if steps != [] {
      hide Apply, Inv, Injective;
      StepKeepsInv(cfg, s, steps[0]);
      RunKeepsInv(cfg, Apply(cfg, s, steps[0]), steps[1..]);
    }
  }

  // In every interleaving, with or without mutual exclusion, a call that returns gives its own
  // compile result or bytes that some call compiled and completely published for the same key.
  lemma ReturnedIsGenuine(cfg: Config, s: State, p: nat)
    requires Injective(cfg.hash) && Reachable(cfg, s) && p < |s.procs| && s.procs[p].pc.Returned?
    ensures var q := s.procs[p];
            if q.pc.own then q.compiled == Some(q.pc.raw)
            else (q.key, q.pc.raw) in s.published && FromCompile(s, q.key, q.pc.raw)
  {
    var steps :| IsRun(cfg, Init(), steps) && Run(cfg, Init(), steps) == s;
    RunKeepsInv(cfg, Init(), steps);
    assert ProcOk(cfg, s, p);
  }

  // ---- The lock --------------------------------------------------------------------------------

  ghost predicate LockInv(s: State) {
    && (forall k | k in s.lockPath :: s.lockPath[k] < s.inodes)
    && (forall i | i in s.holder :: i < s.inodes)
    && (forall p | 0 <= p < |s.procs| :: HolderOk(s, p))
  }

  // An open lock file exists, and a call past the lock is its holder.
  ghost predicate HolderOk(s: State, p: nat)
    requires p < |s.procs|
  {
    var pc := s.procs[p].pc;
    && (HasInode(pc) ==> pc.inode < s.inodes)
    && (Critical(pc) ==> pc.inode in s.holder && s.holder[pc.inode] == p)
  }

  // Every open lock file is the one its key's path names: true until a lock path is unlinked.
  ghost predicate PathInv(s: State) {
    forall p | 0 <= p < |s.procs| && HasInode(s.procs[p].pc) ::
      s.procs[p].key in s.lockPath && s.lockPath[s.procs[p].key] == s.procs[p].pc.inode
  }

  // Where a call goes: it keeps its lock file, or opens the one of its key; it gets past the lock only
  // by taking it, and leaves only by letting go.
  lemma NextLock(cfg: Config, s: State, q: Proc, c: Choice)
    ensures var a, b := q.pc, Next(cfg, s, q, c).pc;
            && Next(cfg, s, q, c).key == q.key
            && (HasInode(b) && HasInode(a) ==> b.inode == a.inode)
            && (HasInode(b) && !HasInode(a) ==> Opens(q, c) && b == Opened(LockOf(s, q.key)))
            && (Opens(q, c) ==> b == Opened(LockOf(s, q.key)))
            && (Critical(b) && !Critical(a) ==> Takes(q, c))
            && (Critical(b) && Critical(a) ==> !LetsGo(cfg, s, q, c))
            && (Settled(a) && !a.Gone? ==> b.Returned?)
  {
    hide Matches;
  }

  lemma MoveLockPath(cfg: Config, s: State, p: nat, c: Choice)
    requires p < |s.procs|
    ensures var t := DoMove(cfg, s, p, c); var a, b := s.procs[p].pc, t.procs[p].pc;
            && t.inodes >= s.inodes
            && (forall k | k in s.lockPath :: k in t.lockPath && t.lockPath[k] == s.lockPath[k])
            && (forall k | k in t.lockPath && k !in s.lockPath :: t.lockPath[k] == s.inodes < t.inodes)
            && t.procs[p].key == s.procs[p].key
            && (HasInode(b) && HasInode(a) ==> b.inode == a.inode)
            && (HasInode(b) && !HasInode(a) ==>
                  b.Opened? && s.procs[p].key in t.lockPath && b.inode == t.lockPath[s.procs[p].key])
  {
    hide Next, HasInode, Matches, ManifestOf;
    NextLock(cfg, s, s.procs[p], c);
  }

  // ... and takes a lock that is free, keeps its own, or lets go of its own.
  lemma MoveHolder(cfg: Config, s: State, p: nat, c: Choice)
    requires Enabled(s, Move(p, c))
    ensures var t := DoMove(cfg, s, p, c); var a, b := s.procs[p].pc, t.procs[p].pc;
            && (forall i | i in s.holder && !(HasInode(a) && a.inode == i) :: i in t.holder && t.holder[i] == s.holder[i])
            && (forall i | i in t.holder :: i in s.holder || (HasInode(a) && a.inode == i))
            && (Critical(b) && Critical(a) && a.inode in s.holder ==>
                  b.inode in t.holder && t.holder[b.inode] == s.holder[b.inode])
            && (Critical(b) && !Critical(a) ==>
                  a.Opened? && b.inode !in s.holder && b.inode in t.holder && t.holder[b.inode] == p)
  {
    hide Next, Matches, ManifestOf;
    NextLock(cfg, s, s.procs[p], c);
  }

  lemma MoveKeepsLocks(cfg: Config, s: State, p: nat, c: Choice)
    requires LockInv(s) && Enabled(s, Move(p, c))
    ensures LockInv(DoMove(cfg, s, p, c))
    ensures PathInv(s) ==> PathInv(DoMove(cfg, s, p, c))
  {
    hide DoMove, HasInode, Next;
    var t := DoMove(cfg, s, p, c);
    MoveLockPath(cfg, s, p, c);
    MoveHolder(cfg, s, p, c);
    MoveOne(cfg, s, p, c);
    assert HolderOk(s, p);
    forall q | 0 <= q < |t.procs| ensures HolderOk(t, q) { assert HolderOk(s, q); }
  }

  lemma MoveOne(cfg: Config, s: State, p: nat, c: Choice)
    requires p < |s.procs|
    ensures DoMove(cfg, s, p, c).procs == s.procs[p := Next(cfg, s, s.procs[p], c)]
  {
    hide Effect, Next;
  }

  // Some call has the lock file of this key open.
  ghost predicate InUse(s: State, k: Key) {
    exists q | 0 <= q < |s.procs| :: s.procs[q].key == k && HasInode(s.procs[q].pc)
  }

  // The step unlinks the path of a lock file somebody has open.
  ghost predicate Orphans(s: State, step: Step)
    requires Enabled(s, step)
  {
    step.UnlinkLock? && InUse(s, s.pruners[step.proc].marked.value)
  }

  // That, and nothing else, breaks the link between open lock files and their paths.
  lemma StepKeepsLocks(cfg: Config, s: State, step: Step)
    requires LockInv(s) && Enabled(s, step)
    ensures LockInv(Apply(cfg, s, step))
    ensures PathInv(s) ==> (PathInv(Apply(cfg, s, step)) <==> !Orphans(s, step))
  {
    hide DoMove, DoCrash, LockInv, PathInv, HasInode;
    match step
    case Move(p, c) => MoveKeepsLocks(cfg, s, p, c);
    case Crash(p) => CrashKeepsLocks(s, p);
    case Spawn(k) => SpawnKeepsLocks(s, k);
    case UnlinkLock(p) => UnlinkKeepsLocks(s, Apply(cfg, s, step), s.pruners[p].marked.value);
    case _ => SameLocks(s, Apply(cfg, s, step));
  }

  lemma CrashKeepsLocks(s: State, p: nat)
    requires LockInv(s) && p < |s.procs|
    ensures LockInv(DoCrash(s, p)) && (PathInv(s) ==> PathInv(DoCrash(s, p)))
  {
    hide HasInode;
    var t := DoCrash(s, p);
    GoneHasNone();
    assert forall q | 0 <= q < |s.procs| && q != p :: t.procs[q] == s.procs[q];
    assert HolderOk(s, p);
    forall q | 0 <= q < |t.procs| ensures HolderOk(t, q) { assert HolderOk(s, q); }
  }

  lemma SpawnKeepsLocks(s: State, k: Key)
    requires LockInv(s)
    ensures var t := s.(procs := s.procs + [Proc(k, Fresh, None)]); LockInv(t) && (PathInv(s) ==> PathInv(t))
  {
    hide HasInode;
    GoneHasNone();
    var t := s.(procs := s.procs + [Proc(k, Fresh, None)]);
    forall q | 0 <= q < |t.procs| ensures HolderOk(t, q) {
      if q < |s.procs| { assert HolderOk(s, q); }
    }
  }

  lemma SameLocks(s: State, t: State)
    requires t.procs == s.procs && t.lockPath == s.lockPath && t.inodes == s.inodes && t.holder == s.holder
    ensures (LockInv(s) ==> LockInv(t)) && (PathInv(s) ==> PathInv(t))
  {
    hide HasInode;
    if LockInv(s) { forall q | 0 <= q < |t.procs| ensures HolderOk(t, q) { assert HolderOk(s, q); } }
  }

  lemma UnlinkKeepsLocks(s: State, t: State, k: Key)
    requires LockInv(s) && t.procs == s.procs && t.inodes == s.inodes && t.holder == s.holder && t.lockPath == s.lockPath - {k}
    ensures LockInv(t) && (PathInv(s) ==> (PathInv(t) <==> !InUse(s, k)))
  {
    hide HasInode;
    forall q | 0 <= q < |t.procs| ensures HolderOk(t, q) { assert HolderOk(s, q); }
    if PathInv(s) && InUse(s, k) {
      var q :| 0 <= q < |s.procs| && s.procs[q].key == k && HasInode(s.procs[q].pc);
      assert t.procs[q] == s.procs[q];
    }
  }

  ghost predicate KeepsPaths(cfg: Config, s: State, steps: seq<Step>)
    requires IsRun(cfg, s, steps)
    decreases |steps|
  {
    steps == [] || (!Orphans(s, steps[0]) && KeepsPaths(cfg, Apply(cfg, s, steps[0]), steps[1..]))
  }

  lemma {:induction false} RunKeepsLocks(cfg: Config, s: State, steps: seq<Step>)
    requires LockInv(s) && IsRun(cfg, s, steps)
    ensures LockInv(Run(cfg, s, steps))
    ensures PathInv(s) && KeepsPaths(cfg, s, steps) ==> PathInv(Run(cfg, s, steps))
    decreases |steps|
  {
    hide Apply, LockInv, PathInv, Orphans;
    if steps != [] {
      StepKeepsLocks(cfg, s, steps[0]);
      RunKeepsLocks(cfg, Apply(cfg, s, steps[0]), steps[1..]);
    }
  }

  // Two calls past the lock on one inode are one call. For one key that is mutual exclusion as long
  // as no lock file in use is unlinked.
  lemma MutualExclusion(cfg: Config, steps: seq<Step>, p: nat, q: nat)
    requires IsRun(cfg, Init(), steps)
    requires var s := Run(cfg, Init(), steps);
             p < |s.procs| && q < |s.procs| && Critical(s.procs[p].pc) && Critical(s.procs[q].pc)
             && (s.procs[p].pc.inode == s.procs[q].pc.inode
                 || (s.procs[p].key == s.procs[q].key && KeepsPaths(cfg, Init(), steps)))
    ensures p == q
  {
    RunKeepsLocks(cfg, Init(), steps);
    var s := Run(cfg, Init(), steps);
    assert HolderOk(s, p) && HolderOk(s, q);
  }

  // ---- When a lock in use is unlinked ----------------------------------------------------------

  // A lock file was last opened no earlier than any call that has it open opened it, and never in the
  // future; a pruning call fixed its cutoff a retention before a moment already past, and prunes only
  // between its publication and its return.
  ghost predicate TimeInv(cfg: Config, s: State) {
    && (forall k | k in s.lockPath :: s.lockPath[k] in s.mtime)
    && (forall i | i in s.mtime :: s.mtime[i] <= s.now)
    && (forall p | 0 <= p < |s.procs| :: OpenOk(s, p))
    && (forall p | p in s.pruners :: PrunerOk(cfg, s, p))
  }

  ghost predicate OpenOk(s: State, p: nat)
    requires p < |s.procs|
  {
    HasInode(s.procs[p].pc) ==>
      p in s.openedAt && s.procs[p].pc.inode in s.mtime && s.openedAt[p] <= s.mtime[s.procs[p].pc.inode]
  }

  ghost predicate PrunerOk(cfg: Config, s: State, p: nat)
    requires p in s.pruners
  {
    s.pruners[p].cutoff + cfg.retention <= s.now && p < |s.procs| && Settled(s.procs[p].pc)
  }

  predicate Settled(pc: Pc) { pc.Published? || pc.Returned? || pc.Gone? }

  // A move sets the time of at most one lock file, the one it opens, to now.
  lemma MoveTimes(cfg: Config, s: State, p: nat, c: Choice)
    requires Enabled(s, Move(p, c))
    ensures var t := DoMove(cfg, s, p, c); var a, b := s.procs[p].pc, t.procs[p].pc;
            && t.now == s.now && t.pruners == s.pruners
            && (forall q | q in s.openedAt && q != p :: q in t.openedAt && t.openedAt[q] == s.openedAt[q])
            && (forall i | i in s.mtime :: i in t.mtime && (t.mtime[i] == s.mtime[i] || t.mtime[i] == s.now))
            && (forall i | i in t.mtime && i !in s.mtime :: t.mtime[i] == s.now)
            && (HasInode(b) && HasInode(a) ==> t.openedAt == s.openedAt)
            && (HasInode(b) && !HasInode(a) ==>
                  && a.Missed? && !c.fails && p in t.openedAt && t.openedAt[p] == s.now
                  && b.inode in t.mtime && t.mtime[b.inode] == s.now)
            && (forall k | k in t.lockPath && k !in s.lockPath :: t.lockPath[k] in t.mtime)
            && (Settled(a) ==> b.Returned?)
  {
    hide Next, Matches, ManifestOf;
    NextLock(cfg, s, s.procs[p], c);
  }

  lemma MoveKeepsTimes(cfg: Config, s: State, p: nat, c: Choice)
    requires TimeInv(cfg, s) && Enabled(s, Move(p, c))
    ensures TimeInv(cfg, DoMove(cfg, s, p, c))
  {
    hide DoMove, HasInode, Next;
    var t := DoMove(cfg, s, p, c);
    MoveTimes(cfg, s, p, c);
    MoveLockPath(cfg, s, p, c);
    MoveOne(cfg, s, p, c);
    forall q | 0 <= q < |t.procs| ensures OpenOk(t, q) {
      assert OpenOk(s, q);
    }
    forall r | r in t.pruners ensures PrunerOk(cfg, t, r) {
      assert PrunerOk(cfg, s, r);
    }
  }

  lemma StepKeepsTimes(cfg: Config, s: State, step: Step)
    requires TimeInv(cfg, s) && Enabled(s, step)
    ensures TimeInv(cfg, Apply(cfg, s, step))
  {
    hide DoMove, DoCrash, HasInode, TimeInv;
    match step
    case Move(p, c) => MoveKeepsTimes(cfg, s, p, c);
    case Crash(p) => CrashKeepsTimes(cfg, s, p);
    case _ => QuietKeepsTimes(cfg, s, Apply(cfg, s, step));
  }

  lemma CrashKeepsTimes(cfg: Config, s: State, p: nat)
    requires TimeInv(cfg, s) && p < |s.procs|
    ensures TimeInv(cfg, DoCrash(s, p))
  {
    hide HasInode;
    var t := DoCrash(s, p);
    GoneHasNone();
    assert t.procs[p].pc == Gone;
    forall q | 0 <= q < |t.procs| ensures OpenOk(t, q) {
      assert OpenOk(s, q) && (q != p ==> t.procs[q] == s.procs[q]);
    }
    forall r | r in t.pruners ensures PrunerOk(cfg, t, r) {
      assert PrunerOk(cfg, s, r) && (r != p ==> t.procs[r] == s.procs[r]);
    }
  }

  lemma GoneHasNone()
    ensures !HasInode(Gone) && !HasInode(Fresh)
  {
  }

  lemma QuietKeepsTimes(cfg: Config, s: State, t: State)
    requires TimeInv(cfg, s) && |s.procs| <= |t.procs| && s.now <= t.now && t.mtime == s.mtime && t.openedAt == s.openedAt
    requires forall q | 0 <= q < |s.procs| :: t.procs[q] == s.procs[q]
    requires forall q | |s.procs| <= q < |t.procs| :: t.procs[q].pc.Fresh?
    requires forall k | k in t.lockPath :: k in s.lockPath && t.lockPath[k] == s.lockPath[k]
    requires forall r | r in t.pruners ::
               (r in s.pruners && t.pruners[r].cutoff == s.pruners[r].cutoff)
               || (t.pruners[r].cutoff + cfg.retention <= t.now && MayPrune(t, r))
    ensures TimeInv(cfg, t)
  {
    hide HasInode;
    GoneHasNone();
    forall q | 0 <= q < |t.procs| ensures OpenOk(t, q) {
      if q < |s.procs| { assert OpenOk(s, q); }
    }
    forall r | r in t.pruners ensures PrunerOk(cfg, t, r) {
      if r in s.pruners { assert PrunerOk(cfg, s, r); }
    }
  }

  // No call has had its lock file open for longer than the retention.
  ghost predicate Timely(cfg: Config, s: State) {
    forall p | 0 <= p < |s.procs| && HasInode(s.procs[p].pc) && p in s.openedAt :: s.now <= s.openedAt[p] + cfg.retention
  }

  ghost predicate TimelyRun(cfg: Config, s: State, steps: seq<Step>)
    requires IsRun(cfg, s, steps)
    decreases |steps|
  {
    Timely(cfg, s) && (steps != [] ==> TimelyRun(cfg, Apply(cfg, s, steps[0]), steps[1..]))
  }

  // The step opens a lock file that a pruning call has found old and is about to unlink.
  ghost predicate Races(s: State, step: Step) {
    && step.Move? && step.proc < |s.procs| && s.procs[step.proc].pc.Missed? && !step.choice.fails
    && exists r | r in s.pruners :: Pruning(s, r) && s.pruners[r].marked == Some(s.procs[step.proc].key)
  }

  ghost predicate RaceFree(cfg: Config, s: State, steps: seq<Step>)
    requires IsRun(cfg, s, steps)
    decreases |steps|
  {
    steps == [] || (!Races(s, steps[0]) && RaceFree(cfg, Apply(cfg, s, steps[0]), steps[1..]))
  }

  // Nobody uses a lock that is marked for removal.
  ghost predicate MarkUnused(s: State, r: nat) {
    Pruning(s, r) && s.pruners[r].marked.Some? ==> !InUse(s, s.pruners[r].marked.value)
  }

  ghost predicate MarksInv(s: State) { forall r | r in s.pruners :: MarkUnused(s, r) }

  // A lock found old is in use by nobody who keeps to the retention.
  lemma OldIsUnused(cfg: Config, s: State, p: nat, k: Key)
    requires TimeInv(cfg, s) && PathInv(s) && Timely(cfg, s) && Old(s, p, k)
    ensures !InUse(s, k)
  {
    hide HasInode;
    assert PrunerOk(cfg, s, p);
    forall q | 0 <= q < |s.procs| && s.procs[q].key == k ensures !HasInode(s.procs[q].pc) {
      assert OpenOk(s, q);
    }
  }

  lemma MoveKeepsMarks(cfg: Config, s: State, p: nat, c: Choice)
    requires TimeInv(cfg, s) && MarksInv(s) && Enabled(s, Move(p, c)) && !Races(s, Move(p, c))
    ensures MarksInv(DoMove(cfg, s, p, c))
  {
    hide DoMove, HasInode, Next;
    var t := DoMove(cfg, s, p, c);
    MoveTimes(cfg, s, p, c);
    MoveLockPath(cfg, s, p, c);
    MoveOne(cfg, s, p, c);
    forall r | r in t.pruners && Pruning(t, r) && t.pruners[r].marked.Some? ensures !InUse(t, t.pruners[r].marked.value) {
      assert r != p && Pruning(s, r) && MarkUnused(s, r);
      var k := t.pruners[r].marked.value;
      forall q | 0 <= q < |t.procs| && t.procs[q].key == k ensures !HasInode(t.procs[q].pc) {
        assert s.procs[q].key == k;
      }
    }
  }

  lemma StepKeepsMarks(cfg: Config, s: State, step: Step)
    requires TimeInv(cfg, s) && PathInv(s) && MarksInv(s) && Timely(cfg, s) && Enabled(s, step) && !Races(s, step)
    ensures MarksInv(Apply(cfg, s, step)) && !Orphans(s, step)
  {
    hide TimeInv, PathInv, Timely, DoMove, Races, HasInode;
    if step.Move? {
      MoveKeepsMarks(cfg, s, step.proc, step.choice);
    } else {
      var t := Apply(cfg, s, step);
      if step.StatLock? { OldIsUnused(cfg, s, step.proc, step.key); }
      if step.UnlinkLock? { assert MarkUnused(s, step.proc); }
      forall r | r in t.pruners && Pruning(t, r) && t.pruners[r].marked.Some? ensures !InUse(t, t.pruners[r].marked.value) {
        var k := t.pruners[r].marked.value;
        StayUnused(cfg, s, step, k);
        if !(step.StatLock? && step.proc == r) { assert r in s.pruners && MarkUnused(s, r); }
      }
    }
  }

  // Only a move opens a lock file.
  lemma StayUnused(cfg: Config, s: State, step: Step, k: Key)
    requires Enabled(s, step) && !step.Move? && !InUse(s, k)
    ensures !InUse(Apply(cfg, s, step), k)
  {
    var t := Apply(cfg, s, step);
    forall q | 0 <= q < |t.procs| && t.procs[q].key == k ensures !HasInode(t.procs[q].pc) {
      if q < |s.procs| { assert s.procs[q].key == k; }
    }
  }

  // In a run in which no call keeps its lock file open longer than the retention, and none opens one
  // between the look at its age and its removal, no lock file in use is ever unlinked.
  lemma {:induction false} PromptRunsKeepPaths(cfg: Config, s: State, steps: seq<Step>)
    requires LockInv(s) && PathInv(s) && TimeInv(cfg, s) && MarksInv(s)
    requires IsRun(cfg, s, steps) && TimelyRun(cfg, s, steps) && RaceFree(cfg, s, steps)
    ensures KeepsPaths(cfg, s, steps)
    decreases |steps|
  {
    hide Apply, LockInv, PathInv, TimeInv, MarksInv, Orphans, Races, Timely;
    if steps != [] {
      StepKeepsMarks(cfg, s, steps[0]);
      StepKeepsTimes(cfg, s, steps[0]);
      StepKeepsLocks(cfg, s, steps[0]);
      PromptRunsKeepPaths(cfg, Apply(cfg, s, steps[0]), steps[1..]);
    }
  }

  // Mutual exclusion per key, with pruning: it holds in every such run.
  lemma PromptRunsExclude(cfg: Config, steps: seq<Step>, p: nat, q: nat)
    requires IsRun(cfg, Init(), steps) && TimelyRun(cfg, Init(), steps) && RaceFree(cfg, Init(), steps)
    requires var s := Run(cfg, Init(), steps);
             p < |s.procs| && q < |s.procs| && Critical(s.procs[p].pc) && Critical(s.procs[q].pc)
             && s.procs[p].key == s.procs[q].key
    ensures p == q
  {
    PromptRunsKeepPaths(cfg, Init(), steps);
    MutualExclusion(cfg, steps, p, q);
  }

  // ---- Both conditions are needed --------------------------------------------------------------

  // A pruning call that starts now finds a lock old exactly when its last opening is longer ago than
  // the retention.
  lemma FoundOldIff(cfg: Config, s: State, p: nat, k: Key)
    requires TimeInv(cfg, s) && MayPrune(s, p) && p !in s.pruners
    ensures Enabled(Apply(cfg, s, BeginPrune(p)), StatLock(p, k)) <==>
              k in s.lockPath && s.mtime[s.lockPath[k]] + cfg.retention < s.now
  {
  }

  // A new call for `k` that gets past the lock: spawned, it misses, opens the lock file and takes it.
  function EnterSteps(p: nat, k: Key): seq<Step> {
    [Spawn(k), Move(p, Choice(true, [])), Move(p, Choice(false, [])), Move(p, Choice(false, []))]
  }

  function WithPc(s: State, p: nat, pc: Pc): State
    requires p < |s.procs|
  {
    s.(procs := s.procs[p := s.procs[p].(pc := pc)])
  }

  // A call has opened the lock file of its key ...
  function AfterOpen(s: State, p: nat): State
    requires p < |s.procs|
  {
    var k, i := s.procs[p].key, LockOf(s, s.procs[p].key);
    WithPc(s, p, Opened(i)).(
      lockPath := s.lockPath[k := i], inodes := if k in s.lockPath then s.inodes else s.inodes + 1,
      mtime := s.mtime[i := s.now], openedAt := s.openedAt[p := s.now])
  }

  // ... and taken the lock.
  function AfterTake(s: State, p: nat, i: nat): State
    requires p < |s.procs|
  {
    WithPc(s, p, Locked(i)).(holder := s.holder[i := p])
  }

  lemma OpenStep(cfg: Config, s: State, p: nat)
    requires p < |s.procs| && s.procs[p].pc.Missed?
    ensures Apply(cfg, s, Move(p, Choice(false, []))) == AfterOpen(s, p)
  {
  }

  lemma TakeStep(cfg: Config, s: State, p: nat, i: nat)
    requires p < |s.procs| && s.procs[p].pc == Opened(i) && i !in s.holder
    ensures Apply(cfg, s, Move(p, Choice(false, []))) == AfterTake(s, p, i)
  {
  }

  function Arrived(s: State, k: Key, pc: Pc): State { s.(procs := s.procs + [Proc(k, pc, None)]) }

  lemma MissStep(cfg: Config, s: State, k: Key)
    ensures Enabled(Arrived(s, k, Fresh), Move(|s.procs|, Choice(true, [])))
    ensures Apply(cfg, Arrived(s, k, Fresh), Move(|s.procs|, Choice(true, []))) == Arrived(s, k, Missed)
  {
    var t := Apply(cfg, Arrived(s, k, Fresh), Move(|s.procs|, Choice(true, [])));
    assert t.procs == s.procs + [Proc(k, Missed, None)];
  }

  function Entered(s: State, k: Key): State {
    var p, t := |s.procs|, Arrived(s, k, Missed);
    AfterTake(AfterOpen(t, p), p, LockOf(s, k))
  }

  lemma Enter(cfg: Config, s: State, k: Key)
    requires LockOf(s, k) !in s.holder
    ensures IsRun(cfg, s, EnterSteps(|s.procs|, k)) && Run(cfg, s, EnterSteps(|s.procs|, k)) == Entered(s, k)
  {
    hide DoMove, IsRun, Run;
    var p, i := |s.procs|, LockOf(s, k);
    var bad, ok := Choice(true, []), Choice(false, []);
    var s1, s2 := Arrived(s, k, Fresh), Arrived(s, k, Missed);
    MissStep(cfg, s, k);
    OpenStep(cfg, s2, p);
    TakeStep(cfg, AfterOpen(s2, p), p, i);
    var s4 := Entered(s, k);
    RunNone(cfg, s4);
    RunTwo(cfg, s2, Move(p, ok), Move(p, ok), [], s4);
    var rest := [Move(p, ok)] + ([Move(p, ok)] + []);
    RunTwo(cfg, s, Spawn(k), Move(p, bad), rest, s4);
    assert EnterSteps(p, k) == [Spawn(k)] + ([Move(p, bad)] + rest);
  }

  lemma RunNone(cfg: Config, s: State)
    ensures IsRun(cfg, s, []) && Run(cfg, s, []) == s
  {
  }

  // Once a lock in use is marked, five steps put a second call past the lock for the same key.
  lemma UnlinkingLosesExclusion(cfg: Config, s: State, pruner: nat, p: nat) returns (steps: seq<Step>, q: nat)
    requires LockInv(s) && Pruning(s, pruner) && p < |s.procs| && Critical(s.procs[p].pc)
    requires s.pruners[pruner].marked == Some(s.procs[p].key)
    ensures IsRun(cfg, s, steps) && |steps| == 5 && forall i | 0 <= i < |steps| :: !steps[i].Tick?
    ensures var t := Run(cfg, s, steps);
            p < |t.procs| && t.procs[p] == s.procs[p] && q < |t.procs| && q != p
            && t.procs[q].key == s.procs[p].key && Critical(t.procs[q].pc)
  {
    hide IsRun, Run;
    var k := s.procs[p].key;
    q := |s.procs|;
    var s1 := Apply(cfg, s, UnlinkLock(pruner));
    assert LockOf(s1, k) == s.inodes && s.inodes !in s1.holder;
    Enter(cfg, s1, k);
    RunOne(cfg, s, UnlinkLock(pruner), EnterSteps(q, k), Entered(s1, k));
    steps := [UnlinkLock(pruner)] + EnterSteps(q, k);
  }

  // So a call that stays past the lock longer than the retention can lose it: two steps of a pruning
  // call mark its lock.
  lemma OverstayingLosesExclusion(cfg: Config, s: State, pruner: nat, p: nat) returns (steps: seq<Step>, q: nat)
    requires LockInv(s) && TimeInv(cfg, s) && MayPrune(s, pruner) && pruner !in s.pruners
    requires p < |s.procs| && Critical(s.procs[p].pc) && s.procs[p].key in s.lockPath
    requires s.mtime[s.lockPath[s.procs[p].key]] + cfg.retention < s.now
    ensures IsRun(cfg, s, steps) && |steps| == 7
    ensures var t := Run(cfg, s, steps);
            p < |t.procs| && t.procs[p] == s.procs[p] && q < |t.procs| && q != p
            && t.procs[q].key == s.procs[p].key && Critical(t.procs[q].pc)
  {
    hide DoMove, IsRun, Run, LockInv, TimeInv, Old;
    var k := s.procs[p].key;
    var s2 := Mark(cfg, s, pruner, k);
    steps, q := UnlinkingLosesExclusion(cfg, s2, pruner, p);
    RunTwo(cfg, s, BeginPrune(pruner), StatLock(pruner, k), steps, Run(cfg, s2, steps));
    steps := [BeginPrune(pruner)] + ([StatLock(pruner, k)] + steps);
  }

  // And keeping to the retention is not enough: a call may open a lock file after its age was looked
  // at and before it is unlinked.
  lemma RacingLosesExclusion(cfg: Config, s: State, pruner: nat, p: nat) returns (steps: seq<Step>, q: nat)
    requires LockInv(s) && TimeInv(cfg, s) && MayPrune(s, pruner) && pruner !in s.pruners
    requires p < |s.procs| && s.procs[p].pc.Missed? && s.procs[p].key in s.lockPath
    requires s.mtime[s.lockPath[s.procs[p].key]] + cfg.retention < s.now && s.lockPath[s.procs[p].key] !in s.holder
    ensures IsRun(cfg, s, steps) && |steps| == 9 && forall i | 0 <= i < |steps| :: !steps[i].Tick?
    ensures var t := Run(cfg, s, steps);
            && p < |t.procs| && q < |t.procs| && p != q && t.procs[p].key == t.procs[q].key == s.procs[p].key
            && Critical(t.procs[p].pc) && Critical(t.procs[q].pc)
  {
    hide DoMove, IsRun, Run, LockInv, TimeInv, Old;
    var k, ok := s.procs[p].key, Choice(false, []);
    var s2 := Mark(cfg, s, pruner, k);
    OpenStep(cfg, s2, p);
    var s3 := AfterOpen(s2, p);
    TakeStep(cfg, s3, p, s.lockPath[k]);
    var s4 := AfterTake(s3, p, s.lockPath[k]);
    StepKeepsLocks(cfg, s2, Move(p, ok));
    StepKeepsLocks(cfg, s3, Move(p, ok));
    var rest;
    rest, q := UnlinkingLosesExclusion(cfg, s4, pruner, p);
    var t := Run(cfg, s4, rest);
    RunOne(cfg, s3, Move(p, ok), rest, t);
    RunOne(cfg, s2, Move(p, ok), [Move(p, ok)] + rest, t);
    steps := [Move(p, ok)] + ([Move(p, ok)] + rest);
    RunTwo(cfg, s, BeginPrune(pruner), StatLock(pruner, k), steps, t);
    steps := [BeginPrune(pruner)] + ([StatLock(pruner, k)] + steps);
  }

  // A call that starts pruning now marks an old lock in two steps, which change nothing else.
  lemma Mark(cfg: Config, s: State, pruner: nat, k: Key) returns (t: State)
    requires LockInv(s) && TimeInv(cfg, s) && MayPrune(s, pruner) && pruner !in s.pruners
    requires k in s.lockPath && s.mtime[s.lockPath[k]] + cfg.retention < s.now
    ensures Enabled(s, BeginPrune(pruner)) && Enabled(Apply(cfg, s, BeginPrune(pruner)), StatLock(pruner, k))
    ensures t == Apply(cfg, Apply(cfg, s, BeginPrune(pruner)), StatLock(pruner, k)) && LockInv(t)
    ensures t == s.(pruners := s.pruners[pruner := Pruner(s.now - cfg.retention, Some(k))])
  {
    hide DoMove, LockInv;
    FoundOldIff(cfg, s, pruner, k);
    var s1 := Apply(cfg, s, BeginPrune(pruner));
    t := Apply(cfg, s1, StatLock(pruner, k));
    StepKeepsLocks(cfg, s, BeginPrune(pruner));
    StepKeepsLocks(cfg, s1, StatLock(pruner, k));
  }

  lemma RunTwo(cfg: Config, s: State, a: Step, b: Step, rest: seq<Step>, t: State)
    requires Enabled(s, a) && Enabled(Apply(cfg, s, a), b)
    requires var u := Apply(cfg, Apply(cfg, s, a), b); IsRun(cfg, u, rest) && Run(cfg, u, rest) == t
    ensures IsRun(cfg, s, [a] + ([b] + rest)) && Run(cfg, s, [a] + ([b] + rest)) == t
  {
    hide Apply, IsRun, Run, Enabled;
    RunOne(cfg, Apply(cfg, s, a), b, rest, t);
    RunOne(cfg, s, a, [b] + rest, t);
  }

  lemma RunOne(cfg: Config, s: State, step: Step, rest: seq<Step>, t: State)
    requires Enabled(s, step) && IsRun(cfg, Apply(cfg, s, step), rest) && Run(cfg, Apply(cfg, s, step), rest) == t
    ensures IsRun(cfg, s, [step] + rest) && Run(cfg, s, [step] + rest) == t
  {
    hide Apply;
    assert ([step] + rest)[0] == step && ([step] + rest)[1..] == rest;
  }

  // ---- A timely run that loses exclusion -------------------------------------------------------

  // Every open lock file was opened at this very moment.
  ghost predicate JustOpened(s: State, p: nat)
    requires p < |s.procs|
  {
    HasInode(s.procs[p].pc) ==> p in s.openedAt && s.openedAt[p] == s.now
  }

  ghost predicate AllFresh(s: State) { forall p | 0 <= p < |s.procs| :: JustOpened(s, p) }

  lemma FreshStep(cfg: Config, s: State, step: Step)
    requires AllFresh(s) && Enabled(s, step) && !step.Tick?
    ensures AllFresh(Apply(cfg, s, step)) && Timely(cfg, s)
  {
    hide DoMove, DoCrash, HasInode;
    var t := Apply(cfg, s, step);
    GoneHasNone();
    assert Timely(cfg, s) by {
      forall p | 0 <= p < |s.procs| && HasInode(s.procs[p].pc) && p in s.openedAt
        ensures s.now <= s.openedAt[p] + cfg.retention
      {
        assert JustOpened(s, p);
      }
    }
    if step.Move? {
      MoveTimes(cfg, s, step.proc, step.choice);
      MoveOne(cfg, s, step.proc, step.choice);
      forall q | 0 <= q < |t.procs| ensures JustOpened(t, q) { assert JustOpened(s, q); }
    } else if step.Crash? {
      FreshCrash(s, step.proc);
    } else {
      forall q | 0 <= q < |t.procs| ensures JustOpened(t, q) {
        if q < |s.procs| { assert JustOpened(s, q); }
      }
    }
  }

  lemma FreshCrash(s: State, p: nat)
    requires AllFresh(s) && p < |s.procs|
    ensures AllFresh(DoCrash(s, p))
  {
    hide HasInode;
    var t := DoCrash(s, p);
    GoneHasNone();
    forall q | 0 <= q < |t.procs| ensures JustOpened(t, q) {
      assert JustOpened(s, q) && (q != p ==> t.procs[q] == s.procs[q]);
    }
  }

  ghost predicate NoTicks(steps: seq<Step>) { forall i | 0 <= i < |steps| :: !steps[i].Tick? }

  // While the clock stands still nobody overstays.
  lemma {:induction false} FreshRun(cfg: Config, s: State, steps: seq<Step>)
    requires AllFresh(s) && IsRun(cfg, s, steps) && NoTicks(steps)
    ensures TimelyRun(cfg, s, steps) && AllFresh(Run(cfg, s, steps))
    decreases |steps|
  {
    hide Apply, AllFresh, Timely;
    if steps == [] {
      FreshStep(cfg, s, Spawn(""));
    } else {
      FreshStep(cfg, s, steps[0]);
      FreshRun(cfg, Apply(cfg, s, steps[0]), steps[1..]);
    }
  }

  // `t` is reached from `s` without anybody overstaying.
  ghost predicate TimelyPath(cfg: Config, s: State, steps: seq<Step>, t: State) {
    IsRun(cfg, s, steps) && TimelyRun(cfg, s, steps) && Run(cfg, s, steps) == t
  }

  lemma {:induction false} JoinPaths(cfg: Config, s: State, a: seq<Step>, t: State, b: seq<Step>, u: State)
    requires TimelyPath(cfg, s, a, t) && TimelyPath(cfg, t, b, u)
    ensures TimelyPath(cfg, s, a + b, u)
    decreases |a|
  {
    hide Apply, Timely;
    if a == [] {
      assert a + b == b;
    } else {
      JoinPaths(cfg, Apply(cfg, s, a[0]), a[1..], t, b, u);
      assert (a + b)[0] == a[0] && (a + b)[1..] == a[1..] + b;
    }
  }

  lemma FreshPath(cfg: Config, s: State, steps: seq<Step>, t: State)
    requires AllFresh(s) && IsRun(cfg, s, steps) && NoTicks(steps) && Run(cfg, s, steps) == t
    ensures TimelyPath(cfg, s, steps, t) && AllFresh(t)
  {
    hide AllFresh, IsRun, Run, NoTicks;
    FreshRun(cfg, s, steps);
  }

  // A call past the lock that finds nothing compiles and publishes in five more steps.
  function PublishSteps(p: nat): seq<Step> {
    var bad, ok := Choice(true, []), Choice(false, []);
    [Move(p, bad), Move(p, ok), Move(p, ok), Move(p, ok), Move(p, ok)]
  }

  function AfterPublish(cfg: Config, s: State, p: nat, i: nat): State
    requires p < |s.procs|
  {
    var k := s.procs[p].key;
    s.(procs := s.procs[p := Proc(k, Published(i, []), Some([]))], binary := s.binary[k := []],
       manifest := s.manifest[k := ManifestOf(cfg, k, [])], published := s.published + {(k, [])})
  }

  lemma Publish(cfg: Config, s: State, p: nat, i: nat)
    requires p < |s.procs| && s.procs[p].pc == Locked(i)
    ensures IsRun(cfg, s, PublishSteps(p)) && Run(cfg, s, PublishSteps(p)) == AfterPublish(cfg, s, p, i)
  {
    hide IsRun, Run;
    var bad, ok, k := Choice(true, []), Choice(false, []), s.procs[p].key;
    var s1 := s.(procs := s.procs[p := s.procs[p].(pc := Missed2(i))]);
    var s2 := s.(procs := s.procs[p := Proc(k, Compiled(i, []), Some([]))]);
    var s3 := s.(procs := s.procs[p := Proc(k, Staged(i, []), Some([]))]);
    var s4 := s.(procs := s.procs[p := Proc(k, BinaryOut(i, []), Some([]))], binary := s.binary[k := []]);
    var t := AfterPublish(cfg, s, p, i);
    Stage1(cfg, s, p, i);
    Stage2(cfg, s1, p, i);
    Stage3(cfg, s2, p, i);
    Stage4(cfg, s3, p, i);
    Stage5(cfg, s4, p, i);
    assert s1.procs[p := Proc(k, Compiled(i, []), Some([]))] == s2.procs && s2.procs[p := Proc(k, Staged(i, []), Some([]))] == s3.procs
           && s3.procs[p := Proc(k, BinaryOut(i, []), Some([]))] == s4.procs && s4.procs[p := Proc(k, Published(i, []), Some([]))] == t.procs;
    RunNone(cfg, t);
    RunOne(cfg, s4, Move(p, ok), [], t);
    RunTwo(cfg, s2, Move(p, ok), Move(p, ok), [Move(p, ok)] + [], t);
    var rest := [Move(p, ok)] + ([Move(p, ok)] + ([Move(p, ok)] + []));
    RunTwo(cfg, s, Move(p, bad), Move(p, ok), rest, t);
    assert PublishSteps(p) == [Move(p, bad)] + ([Move(p, ok)] + rest);
  }

  lemma Stage1(cfg: Config, s: State, p: nat, i: nat)
    requires p < |s.procs| && s.procs[p].pc == Locked(i)
    ensures Apply(cfg, s, Move(p, Choice(true, []))) == s.(procs := s.procs[p := s.procs[p].(pc := Missed2(i))])
  {
  }

  lemma Stage2(cfg: Config, s: State, p: nat, i: nat)
    requires p < |s.procs| && s.procs[p].pc == Missed2(i)
    ensures Apply(cfg, s, Move(p, Choice(false, []))) == s.(procs := s.procs[p := Proc(s.procs[p].key, Compiled(i, []), Some([]))])
  {
  }

  lemma Stage3(cfg: Config, s: State, p: nat, i: nat)
    requires p < |s.procs| && s.procs[p].pc == Compiled(i, [])
    ensures Apply(cfg, s, Move(p, Choice(false, []))) == s.(procs := s.procs[p := s.procs[p].(pc := Staged(i, []))])
  {
  }

  lemma Stage4(cfg: Config, s: State, p: nat, i: nat)
    requires p < |s.procs| && s.procs[p].pc == Staged(i, [])
    ensures Apply(cfg, s, Move(p, Choice(false, [])))
            == s.(procs := s.procs[p := s.procs[p].(pc := BinaryOut(i, []))], binary := s.binary[s.procs[p].key := []])
  {
  }

  lemma Stage5(cfg: Config, s: State, p: nat, i: nat)
    requires p < |s.procs| && s.procs[p].pc == BinaryOut(i, [])
    ensures Apply(cfg, s, Move(p, Choice(false, [])))
            == s.(procs := s.procs[p := s.procs[p].(pc := Published(i, []))],
                  manifest := s.manifest[s.procs[p].key := ManifestOf(cfg, s.procs[p].key, [])],
                  published := s.published + {(s.procs[p].key, [])})
  {
  }

  // One call runs to its publication.
  lemma PublishPath(cfg: Config, s: State, k: Key) returns (steps: seq<Step>)
    requires LockOf(s, k) !in s.holder && AllFresh(s)
    ensures TimelyPath(cfg, s, steps, AfterPublish(cfg, Entered(s, k), |s.procs|, LockOf(s, k)))
    ensures AllFresh(AfterPublish(cfg, Entered(s, k), |s.procs|, LockOf(s, k)))
  {
    hide IsRun, Run, TimelyPath, AllFresh;
    var p, i := |s.procs|, LockOf(s, k);
    var t := Entered(s, k);
    Enter(cfg, s, k);
    FreshPath(cfg, s, EnterSteps(p, k), t);
    Publish(cfg, t, p, i);
    var u := AfterPublish(cfg, t, p, i);
    FreshPath(cfg, t, PublishSteps(p), u);
    JoinPaths(cfg, s, EnterSteps(p, k), t, PublishSteps(p), u);
    steps := EnterSteps(p, k) + PublishSteps(p);
  }

  // The published call returns, and more than the retention goes by.
  lemma LeavePath(cfg: Config, s: State, p: nat, i: nat, elapsed: nat) returns (steps: seq<Step>, t: State)
    requires p < |s.procs| && s.procs[p].pc == Published(i, []) && AllFresh(s)
    requires forall q | 0 <= q < |s.procs| && q != p :: !HasInode(s.procs[q].pc)
    ensures TimelyPath(cfg, s, steps, t) && AllFresh(t)
    ensures t == s.(procs := s.procs[p := s.procs[p].(pc := Returned([], true))], holder := s.holder - {i}, now := s.now + elapsed)
  {
    var u := Apply(cfg, s, Move(p, Choice(false, [])));
    assert u == s.(procs := s.procs[p := s.procs[p].(pc := Returned([], true))], holder := s.holder - {i});
    FreshStep(cfg, s, Move(p, Choice(false, [])));
    FreshStep(cfg, u, Spawn(""));
    t := Apply(cfg, u, Tick(elapsed));
    forall q | 0 <= q < |t.procs| ensures JustOpened(t, q) { }
    FreshStep(cfg, t, Spawn(""));
    RunNone(cfg, t);
    RunTwo(cfg, s, Move(p, Choice(false, [])), Tick(elapsed), [], t);
    steps := [Move(p, Choice(false, []))] + ([Tick(elapsed)] + []);
    assert steps[1..] == [Tick(elapsed)] && steps[1..][1..] == [];
    assert TimelyRun(cfg, t, []) && TimelyRun(cfg, u, steps[1..]);
  }

  lemma {:induction false} RunKeepsTimes(cfg: Config, s: State, steps: seq<Step>)
    requires TimeInv(cfg, s) && IsRun(cfg, s, steps)
    ensures TimeInv(cfg, Run(cfg, s, steps))
    decreases |steps|
  {
    hide Apply, TimeInv;
    if steps != [] {
      StepKeepsTimes(cfg, s, steps[0]);
      RunKeepsTimes(cfg, Apply(cfg, s, steps[0]), steps[1..]);
    }
  }

  // Whatever the retention, there is a run in which nobody keeps a lock file open longer than that and
  // still two calls for one key end up past the lock.
  lemma TimelyIsNotEnough(cfg: Config) returns (steps: seq<Step>, p: nat, q: nat)
    ensures IsRun(cfg, Init(), steps) && TimelyRun(cfg, Init(), steps)
    ensures var t := Run(cfg, Init(), steps);
            && p < |t.procs| && q < |t.procs| && p != q && t.procs[p].key == t.procs[q].key
            && Critical(t.procs[p].pc) && Critical(t.procs[q].pc)
  {
    hide IsRun, Run, TimelyRun, AllFresh, Apply, TimeInv, LockInv;
    var s, a := Setting(cfg);
    RunKeepsLocksFromStart(cfg, a);
    p := 2;
    var b;
    b, q := RacingLosesExclusion(cfg, s, 1, p);
    var t := Run(cfg, s, b);
    FreshPath(cfg, s, b, t);
    JoinPaths(cfg, Init(), a, s, b, t);
    steps := a + b;
  }

  lemma RunKeepsLocksFromStart(cfg: Config, steps: seq<Step>)
    requires IsRun(cfg, Init(), steps)
    ensures LockInv(Run(cfg, Init(), steps)) && TimeInv(cfg, Run(cfg, Init(), steps))
  {
    RunKeepsLocks(cfg, Init(), steps);
    RunKeepsTimes(cfg, Init(), steps);
  }

  // The stage for it: call 0 has used the lock of "a" and left, the retention has passed, call 1 has
  // just published "b", and call 2 has just missed "a".
  lemma Setting(cfg: Config) returns (s: State, steps: seq<Step>)
    ensures TimelyPath(cfg, Init(), steps, s) && AllFresh(s)
    ensures |s.procs| == 3 && s.procs[1].pc.Published? && s.procs[2] == Proc("a", Missed, None) && s.pruners == map[]
    ensures "a" in s.lockPath && s.lockPath["a"] == 0 && 0 !in s.holder && 0 in s.mtime
    ensures s.mtime[0] + cfg.retention < s.now
  {
    hide IsRun, Run, TimelyPath, Apply, ManifestOf;
    var a := PublishPath(cfg, Init(), "a");
    var s1 := AfterPublish(cfg, Entered(Init(), "a"), 0, 0);
    var b, s2 := LeavePath(cfg, s1, 0, 0, cfg.retention + 1);
    JoinPaths(cfg, Init(), a, s1, b, s2);
    var c := PublishPath(cfg, s2, "b");
    var s3 := AfterPublish(cfg, Entered(s2, "b"), 1, 1);
    JoinPaths(cfg, Init(), a + b, s2, c, s3);
    var d := MissPath(cfg, s3, "a");
    s := Arrived(s3, "a", Missed);
    JoinPaths(cfg, Init(), a + b + c, s3, d, s);
    steps := a + b + c + d;
  }

  lemma MissPath(cfg: Config, s: State, k: Key) returns (steps: seq<Step>)
    requires AllFresh(s)
    ensures TimelyPath(cfg, s, steps, Arrived(s, k, Missed)) && AllFresh(Arrived(s, k, Missed))
  {
    hide IsRun, Run, TimelyPath, AllFresh, DoMove;
    var t, bad := Arrived(s, k, Missed), Choice(true, []);
    MissStep(cfg, s, k);
    RunNone(cfg, t);
    RunTwo(cfg, s, Spawn(k), Move(|s.procs|, bad), [], t);
    steps := [Spawn(k)] + ([Move(|s.procs|, bad)] + []);
    FreshPath(cfg, s, steps, t);
  }

  // ---- One compile per key ---------------------------------------------------------------------

  // Nothing fails, nobody dies, nothing is pruned.
  predicate Undisturbed(step: Step) { step.Spawn? || step.Tick? || (step.Move? && !step.choice.fails) }

  // The directory holds a complete pair for this key.
  predicate Complete(cfg: Config, s: State, k: Key, raw: Bytes) {
    k in s.binary && s.binary[k] == raw && k in s.manifest && s.manifest[k] == ManifestOf(cfg, k, raw)
  }

  predicate Finished(pc: Pc) { pc.Published? || (pc.Returned? && pc.own) }

  ghost predicate CalmProc(cfg: Config, s: State, p: nat)
    requires p < |s.procs|
  {
    var q := s.procs[p];
    && !q.pc.Uncached? && !q.pc.PublishFailed? && !q.pc.Gone?
    && (q.compiled.Some? <==> HasOwn(q.pc)) && (HasOwn(q.pc) ==> q.compiled == Some(q.pc.raw))
    && (Finished(q.pc) ==> Complete(cfg, s, q.key, q.pc.raw))
    && (q.pc.BinaryOut? ==> q.key in s.binary && s.binary[q.key] == q.pc.raw)
    && (q.pc.Read2? ==> Matches(cfg, s, q.key, q.pc.seen))
    && (q.pc.Missed2? ==> forall r | 0 <= r < |s.procs| && s.procs[r].key == q.key :: s.procs[r].compiled.None?)
  }

  ghost predicate HasPublisher(s: State, k: Key) {
    exists p | 0 <= p < |s.procs| :: s.procs[p].key == k && Finished(s.procs[p].pc)
  }

  ghost predicate Calm(cfg: Config, s: State) {
    && LockInv(s) && PathInv(s)
    && (forall p | 0 <= p < |s.procs| :: CalmProc(cfg, s, p))
    && (forall p, q | 0 <= p < |s.procs| && 0 <= q < |s.procs| && p != q && s.procs[p].key == s.procs[q].key ::
          s.procs[p].compiled.None? || s.procs[q].compiled.None?)
    && (forall k | k in s.manifest :: HasPublisher(s, k))
  }

  lemma Exclusive(cfg: Config, s: State, p: nat, q: nat)
    requires LockInv(s) && PathInv(s) && p < |s.procs| && q < |s.procs| && s.procs[p].key == s.procs[q].key
    requires Critical(s.procs[p].pc) && Critical(s.procs[q].pc)
    ensures p == q
  {
    assert HolderOk(s, p) && HolderOk(s, q);
  }

  // A call past the lock finds either nothing compiled for its key, or a complete pair.
  lemma LockedView(cfg: Config, s: State, p: nat)
    requires Calm(cfg, s) && p < |s.procs| && s.procs[p].pc.Locked?
    ensures var k := s.procs[p].key;
            if k in s.manifest then Matches(cfg, s, k, s.manifest[k])
            else forall r | 0 <= r < |s.procs| && s.procs[r].key == k :: s.procs[r].compiled.None?
  {
    var k := s.procs[p].key;
    assert CalmProc(cfg, s, p);
    if k in s.manifest {
      assert HasPublisher(s, k);
      var r :| 0 <= r < |s.procs| && s.procs[r].key == k && Finished(s.procs[r].pc);
      assert CalmProc(cfg, s, r);
    } else {
      forall r | 0 <= r < |s.procs| && s.procs[r].key == k && Critical(s.procs[r].pc) ensures r == p {
        Exclusive(cfg, s, p, r);
      }
      forall r | 0 <= r < |s.procs| && s.procs[r].key == k ensures s.procs[r].compiled.None? {
        assert CalmProc(cfg, s, r);
      }
    }
  }

  // What an undisturbed move does to the directory: nothing, unless the mover publishes.
  lemma CalmEffect(cfg: Config, s: State, p: nat, c: Choice)
    requires p < |s.procs| && !c.fails
    ensures var t, q := DoMove(cfg, s, p, c), s.procs[p];
            && t.binary == (if q.pc.Staged? then s.binary[q.key := q.pc.raw] else s.binary)
            && t.manifest == (if q.pc.BinaryOut? then s.manifest[q.key := ManifestOf(cfg, q.key, q.pc.raw)] else s.manifest)
  {
  }

  lemma CalmMover(cfg: Config, s: State, p: nat, c: Choice)
    requires Calm(cfg, s) && Enabled(s, Move(p, c)) && !c.fails
    ensures var t := DoMove(cfg, s, p, c);
            && t.procs[p].key == s.procs[p].key
            && CalmProc(cfg, t, p)
            && (t.procs[p].compiled != s.procs[p].compiled ==> s.procs[p].pc.Missed2?)
            && (Finished(s.procs[p].pc) ==> Finished(t.procs[p].pc))
            && (s.procs[p].pc.BinaryOut? ==> Finished(t.procs[p].pc))
  {
    hide LockInv, PathInv, HasPublisher;
    assert CalmProc(cfg, s, p);
    if s.procs[p].pc.Locked? { LockedView(cfg, s, p); }
    var t := DoMove(cfg, s, p, c);
    MoveOne(cfg, s, p, c);
    assert forall r | 0 <= r < |s.procs| && r != p :: t.procs[r] == s.procs[r];
  }

  lemma CalmOther(cfg: Config, s: State, p: nat, c: Choice, q: nat)
    requires Calm(cfg, s) && Enabled(s, Move(p, c)) && !c.fails && q < |s.procs| && q != p
    ensures CalmProc(cfg, DoMove(cfg, s, p, c), q)
  {
    hide DoMove, Next, LockInv, PathInv, HasPublisher;
    var t := DoMove(cfg, s, p, c);
    assert CalmProc(cfg, s, q) && CalmProc(cfg, s, p);
    MoveOne(cfg, s, p, c);
    CalmEffect(cfg, s, p, c);
    CalmMover(cfg, s, p, c);
    if s.procs[q].key == s.procs[p].key && Critical(s.procs[p].pc) && Critical(s.procs[q].pc) {
      Exclusive(cfg, s, p, q);
    }
  }

  lemma PublisherStays(cfg: Config, s: State, p: nat, c: Choice)
    requires Calm(cfg, s) && Enabled(s, Move(p, c)) && !c.fails
    ensures var t := DoMove(cfg, s, p, c); forall k | k in t.manifest :: HasPublisher(t, k)
  {
    hide DoMove, Next, LockInv, PathInv, CalmProc;
    var t := DoMove(cfg, s, p, c);
    MoveOne(cfg, s, p, c);
    CalmEffect(cfg, s, p, c);
    CalmMover(cfg, s, p, c);
    forall k | k in t.manifest ensures HasPublisher(t, k) {
      if k in s.manifest {
        assert HasPublisher(s, k);
        var r :| 0 <= r < |s.procs| && s.procs[r].key == k && Finished(s.procs[r].pc);
        assert t.procs[r].key == k && Finished(t.procs[r].pc);
      } else {
        assert t.procs[p].key == k && Finished(t.procs[p].pc);
      }
    }
  }

  lemma CalmMove(cfg: Config, s: State, p: nat, c: Choice)
    requires Calm(cfg, s) && Enabled(s, Move(p, c)) && !c.fails
    ensures Calm(cfg, DoMove(cfg, s, p, c))
  {
    hide DoMove, Next, LockInv, PathInv, HasPublisher;
    var t := DoMove(cfg, s, p, c);
    assert CalmProc(cfg, s, p);
    MoveKeepsLocks(cfg, s, p, c);
    MoveOne(cfg, s, p, c);
    CalmMover(cfg, s, p, c);
    PublisherStays(cfg, s, p, c);
    forall q | 0 <= q < |t.procs| ensures CalmProc(cfg, t, q) {
      if q != p { CalmOther(cfg, s, p, c, q); }
    }
  }

  lemma CalmStep(cfg: Config, s: State, step: Step)
    requires Calm(cfg, s) && Enabled(s, step) && Undisturbed(step)
    ensures Calm(cfg, Apply(cfg, s, step))
  {
    if step.Move? {
      CalmMove(cfg, s, step.proc, step.choice);
    } else {
      hide LockInv, PathInv, HasInode;
      StepKeepsLocks(cfg, s, step);
      var t := Apply(cfg, s, step);
      forall p | 0 <= p < |t.procs| ensures CalmProc(cfg, t, p) {
        if p < |s.procs| { assert CalmProc(cfg, s, p); }
      }
      forall k | k in t.manifest ensures HasPublisher(t, k) {
        assert HasPublisher(s, k);
        var r :| 0 <= r < |s.procs| && s.procs[r].key == k && Finished(s.procs[r].pc);
        assert t.procs[r] == s.procs[r];
      }
    }
  }

  lemma {:induction false} CalmRun(cfg: Config, s: State, steps: seq<Step>)
    requires Calm(cfg, s) && IsRun(cfg, s, steps) && forall step | step in steps :: Undisturbed(step)
    ensures Calm(cfg, Run(cfg, s, steps))
    decreases |steps|
  {
    hide Apply, Calm;
    if steps != [] {
      CalmStep(cfg, s, steps[0]);
      CalmRun(cfg, Apply(cfg, s, steps[0]), steps[1..]);
    }
  }

  // Without pruning, failures or deaths, concurrent misses on a key compile it once: at most one of
  // the calls for it ever compiles, and all that return, return the same bytes.
  lemma CompilesOnce(cfg: Config, steps: seq<Step>, p: nat, q: nat)
    requires Injective(cfg.hash) && IsRun(cfg, Init(), steps) && forall step | step in steps :: Undisturbed(step)
    requires var s := Run(cfg, Init(), steps);
             p < |s.procs| && q < |s.procs| && s.procs[p].key == s.procs[q].key
    ensures var s := Run(cfg, Init(), steps);
            && (p != q ==> s.procs[p].compiled.None? || s.procs[q].compiled.None?)
            && (s.procs[p].pc.Returned? && s.procs[q].pc.Returned? ==> s.procs[p].pc.raw == s.procs[q].pc.raw)
  {
    var s := Run(cfg, Init(), steps);
    CalmRun(cfg, Init(), steps);
    RunKeepsInv(cfg, Init(), steps);
    hide Run, IsRun;
    if s.procs[p].pc.Returned? && s.procs[q].pc.Returned? {
      var a := Origin(cfg, s, p);
      var b := Origin(cfg, s, q);
      assert a == b;
    }
  }

  // Whatever a call returned, one call compiled.
  lemma Origin(cfg: Config, s: State, p: nat) returns (o: nat)
    requires Inv(cfg, s) && p < |s.procs| && s.procs[p].pc.Returned?
    ensures o < |s.procs| && s.procs[o].key == s.procs[p].key && s.procs[o].compiled == Some(s.procs[p].pc.raw)
  {
    assert ProcOk(cfg, s, p);
    var q := s.procs[p];
    if q.pc.own {
      o := p;
    } else {
      assert FromCompile(s, q.key, q.pc.raw);
      o :| 0 <= o < |s.procs| && s.procs[o].key == q.key && s.procs[o].compiled == Some(q.pc.raw);
    }
  }
}
