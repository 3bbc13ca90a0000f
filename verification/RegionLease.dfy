/** The mapped-region lease/close protocol as an interleaving of atomic steps.

    Every critical section of `RegionEntry` and `RegionRegistry` is one step; `close` gives up the
    entry lock while it waits for leases and while it runs the native unmap, so one call of it takes
    several steps and other calls run in between. A condition-variable wait is a step that is
    enabled only while its predicate holds. */
module RegionLease {
  import opened Prelude

  datatype Phase = Open | Closing | Closed

  // One RegionEntry object. `mapped` is `mapping_ != nullptr`; `handle` is the handle it was
  // registered under.
  datatype Entry = Entry(handle: nat, mapped: bool, leases: nat, phase: Phase, error: Option<string>)

  // Where a `close(handle)` call that found its entry stands. An outcome is the stored exception,
  // if any.
  datatype Pc =
    | Found                                // looked the entry up, has not taken its lock yet
    | AwaitClosed                          // somebody else is closing; waiting for CLOSED
    | Draining                             // set CLOSING; waiting for the leases to go
    | Unmapping(native: bool)              // took the mapping out; `native`: it was not null
    | InNative                             // inside the native close
    | Unmapped(outcome: Option<string>)    // native close returned; result not published yet
    | Erasing(outcome: Option<string>)     // `entry->close()` returned; registry erase to come
    | Done(outcome: Option<string>)

  datatype Closer = Closer(handle: nat, entry: nat, pc: Pc)

  // `entries` holds every RegionEntry ever made, an index standing for the object. `held` counts the
  // live RegionLease objects per entry. `winner`, `closers` and `unmaps` are history: which call
  // moved the entry to CLOSING, every close call that found an entry, and the native closes started.
  datatype State = State(
    regions: map<nat, nat>,
    nextHandle: nat,
    entries: seq<Entry>,
    held: multiset<nat>,
    closers: seq<Closer>,
    winner: map<nat, nat>,
    unmaps: multiset<nat>)

  datatype Step =
    | Emplace
    | Lease(handle: nat)
    | DropLease(entry: nat)
    | CallClose(handle: nat)
    | Advance(closer: nat, native: Option<string>)  // `native`: what the native close throws, if run

  function Init(): State {
    State(map[], 1, [], multiset{}, [], map[], multiset{})
  }

  // ---- The steps -------------------------------------------------------------------------------

  function DoEmplace(s: State): State {
    if s.nextHandle in s.regions then s  // throws: handle space exhausted
    else
      var next := if s.nextHandle == UINT64_MAX then 1 else s.nextHandle + 1;
      s.(regions := s.regions[s.nextHandle := |s.entries|],
         nextHandle := next,
         entries := s.entries + [Entry(s.nextHandle, true, 0, Open, None)])
  }

  predicate Granted(s: State, handle: nat) {
    handle in s.regions && s.regions[handle] < |s.entries| && s.entries[s.regions[handle]].phase == Open
  }

  function DoLease(s: State, handle: nat): State {
    if !Granted(s, handle) then s  // throws: closed or unknown
    else
      var e := s.regions[handle];
      s.(entries := s.entries[e := s.entries[e].(leases := s.entries[e].leases + 1)],
         held := s.held + multiset{e})
  }

  function DoDrop(s: State, e: nat): State
    requires e < |s.entries|
  {
    var entry := s.entries[e];
    var left := if entry.leases == 0 then 0 else entry.leases - 1;
    s.(entries := s.entries[e := entry.(leases := left)], held := s.held - multiset{e})
  }

  function DoCallClose(s: State, handle: nat): State {
    if handle !in s.regions then s
    else s.(closers := s.closers + [Closer(handle, s.regions[handle], Found)])
  }

  // What a step of a close call does to its entry ...
  function EntryAfter(entry: Entry, pc: Pc): Entry {
    match pc
    case Found =>
      if entry.phase != Open then entry
      else if entry.leases == 0 then entry.(phase := Closing, mapped := false)
      else entry.(phase := Closing)
    case Draining => entry.(mapped := false)
    case Unmapped(outcome) => entry.(phase := Closed, error := outcome)
    case _ => entry
  }

  // ... and where it stands afterwards.
  function PcAfter(entry: Entry, pc: Pc, native: Option<string>): Pc {
    match pc
    case Found =>
      if entry.phase == Closed then Erasing(entry.error)
      else if entry.phase == Closing then AwaitClosed
      else if entry.leases == 0 then Unmapping(entry.mapped)
      else Draining
    case AwaitClosed => Erasing(entry.error)
    case Draining => Unmapping(entry.mapped)
    case Unmapping(mapped) => if mapped then InNative else Unmapped(None)
    case InNative => Unmapped(native)
    case Unmapped(outcome) => Erasing(outcome)
    case Erasing(outcome) => Done(outcome)
    case Done(outcome) => Done(outcome)
  }

  // The erase step removes the handle only while it names this very entry.
  function RegionsAfter(s: State, k: Closer): map<nat, nat> {
    if k.pc.Erasing? && k.handle in s.regions && s.regions[k.handle] == k.entry then s.regions - {k.handle} else s.regions
  }

  function DoAdvance(s: State, c: nat, native: Option<string>): State
    requires c < |s.closers| && s.closers[c].entry < |s.entries|
  {
    var k := s.closers[c];
    var entry := s.entries[k.entry];
    s.(regions := RegionsAfter(s, k),
       entries := s.entries[k.entry := EntryAfter(entry, k.pc)],
       closers := s.closers[c := k.(pc := PcAfter(entry, k.pc, native))],
       winner := if k.pc.Found? && entry.phase == Open then s.winner[k.entry := c] else s.winner,
       unmaps := if k.pc == Unmapping(true) then s.unmaps + multiset{k.entry} else s.unmaps)
  }

  // Condition-variable predicates; a finished call takes no more steps.
  predicate Ready(s: State, c: nat) {
    c < |s.closers| && s.closers[c].entry < |s.entries| &&
    var entry := s.entries[s.closers[c].entry];
    match s.closers[c].pc
    case AwaitClosed => entry.phase == Closed
    case Draining => entry.leases == 0
    case Done(_) => false
    case _ => true
  }

  predicate Enabled(s: State, step: Step) {
    match step
    case DropLease(e) => e in s.held && e < |s.entries|  // only a live lease object is destroyed
    case Advance(c, _) => Ready(s, c)
    case _ => true
  }

  function Apply(s: State, step: Step): State
    requires Enabled(s, step)
  {
    match step
    case Emplace => DoEmplace(s)
    case Lease(h) => DoLease(s, h)
    case DropLease(e) => DoDrop(s, e)
    case CallClose(h) => DoCallClose(s, h)
    case Advance(c, native) => DoAdvance(s, c, native)
  }

  // A schedule is any finite list of steps; it is a run when each step is enabled in its turn.
  predicate IsRun(s: State, steps: seq<Step>)
    decreases |steps|
  {
    steps == [] || (Enabled(s, steps[0]) && IsRun(Apply(s, steps[0]), steps[1..]))
  }

  function Run(s: State, steps: seq<Step>): State
    requires IsRun(s, steps)
    decreases |steps|
  {
    if steps == [] then s else Run(Apply(s, steps[0]), steps[1..])
  }

  // ---- The invariant ---------------------------------------------------------------------------

  predicate Owning(pc: Pc) {
    pc.Draining? || pc.Unmapping? || pc.InNative? || pc.Unmapped?
  }

  predicate Started(pc: Pc) {
    pc.InNative? || pc.Unmapped? || pc.Erasing? || pc.Done?
  }

  ghost predicate EntryOk(s: State, e: nat)
    requires e < |s.entries|
  {
    var entry := s.entries[e];
    && entry.leases == s.held[e]
    && (entry.phase == Open <==> e !in s.winner)
    && (entry.phase == Open ==> entry.mapped && s.unmaps[e] == 0)
    && (entry.phase == Closed ==> !entry.mapped && entry.leases == 0)
    && (!entry.mapped ==> entry.leases == 0)
    && (entry.phase != Closed ==> entry.handle in s.regions && s.regions[entry.handle] == e)
  }

  // The one call that moved `e` out of OPEN decides everything else about it.
  ghost predicate WinnerOk(s: State, e: nat)
    requires e < |s.entries|
  {
    e in s.winner ==>
      var w := s.winner[e];
      && w < |s.closers| && s.closers[w].entry == e
      && (Owning(s.closers[w].pc) <==> s.entries[e].phase == Closing)
      && (s.closers[w].pc.Erasing? || s.closers[w].pc.Done? <==> s.entries[e].phase == Closed)
      && (s.closers[w].pc.Draining? ==> s.entries[e].mapped)
      && (s.closers[w].pc.Unmapping? ==> s.closers[w].pc.native)
      && (!s.closers[w].pc.Draining? ==> !s.entries[e].mapped)
      && s.unmaps[e] == (if Started(s.closers[w].pc) then 1 else 0)
  }

  ghost predicate CloserOk(s: State, c: nat)
    requires c < |s.closers|
  {
    var k := s.closers[c];
    && k.entry < |s.entries|
    && k.handle == s.entries[k.entry].handle
    && (Owning(k.pc) ==> k.entry in s.winner && s.winner[k.entry] == c)
    && (k.pc.AwaitClosed? ==> s.entries[k.entry].phase != Open)
    && (k.pc.Erasing? || k.pc.Done? ==>
          s.entries[k.entry].phase == Closed && s.entries[k.entry].error == k.pc.outcome)
  }

  ghost predicate RegistryOk(s: State) {
    && (forall h | h in s.regions :: s.regions[h] < |s.entries| && s.entries[s.regions[h]].handle == h)
    && (forall e | e in s.held :: e < |s.entries|)
    && (forall e | e in s.unmaps :: e < |s.entries|)
    && (forall e | e in s.winner :: e < |s.entries|)
  }

  ghost predicate Inv(s: State) {
    && RegistryOk(s)
    && (forall e | 0 <= e < |s.entries| :: EntryOk(s, e) && WinnerOk(s, e))
    && (forall c | 0 <= c < |s.closers| :: CloserOk(s, c))
  }

  lemma EntryIsOk(s: State, e: nat)
    requires Inv(s) && e < |s.entries|
    ensures EntryOk(s, e) && WinnerOk(s, e)
  {
    hide EntryOk, WinnerOk, CloserOk;
  }

  lemma CloserIsOk(s: State, c: nat)
    requires Inv(s) && c < |s.closers|
    ensures CloserOk(s, c) && EntryOk(s, s.closers[c].entry) && WinnerOk(s, s.closers[c].entry)
  {
    hide EntryOk, WinnerOk;
    assert CloserOk(s, c);
  }

  lemma RegistryIsOk(s: State)
    requires Inv(s)
    ensures RegistryOk(s)
  {
    hide EntryOk, WinnerOk, CloserOk;
  }

  lemma IsInv(s: State)
    requires RegistryOk(s) && (forall e | 0 <= e < |s.entries| :: EntryOk(s, e) && WinnerOk(s, e))
    requires forall c | 0 <= c < |s.closers| :: CloserOk(s, c)
    ensures Inv(s)
  {
    hide EntryOk, WinnerOk, CloserOk, RegistryOk;
  }

  lemma EmplaceKeepsInv(s: State)
    requires Inv(s)
    ensures Inv(DoEmplace(s))
  {
    var t := DoEmplace(s);
    if s.nextHandle !in s.regions {
      forall e | 0 <= e < |t.entries| ensures EntryOk(t, e) && WinnerOk(t, e) {
        if e < |s.entries| {
          assert EntryOk(s, e) && WinnerOk(s, e) && t.entries[e] == s.entries[e];
        } else {
          assert e !in s.held && e !in s.unmaps && e !in s.winner;
        }
      }
      forall c | 0 <= c < |t.closers| ensures CloserOk(t, c) {
        assert CloserOk(s, c) && t.closers[c] == s.closers[c];
      }
    }
  }

  lemma LeaseKeepsInv(s: State, h: nat)
    requires Inv(s)
    ensures Inv(DoLease(s, h))
  {
    if Granted(s, h) {
      var t := DoLease(s, h);
      assert EntryOk(s, s.regions[h]);
      assert forall c | 0 <= c < |s.closers| :: CloserOk(s, c) && t.closers[c] == s.closers[c];
      forall e | 0 <= e < |t.entries| ensures EntryOk(t, e) && WinnerOk(t, e) {
        assert EntryOk(s, e) && WinnerOk(s, e);
      }
    }
  }

  lemma DropKeepsInv(s: State, e: nat)
    requires Inv(s) && Enabled(s, DropLease(e))
    ensures Inv(DoDrop(s, e))
  {
    hide Inv;
    var t := DoDrop(s, e);
    EntryIsOk(s, e);
    RegistryIsOk(s);
    forall c | 0 <= c < |t.closers| ensures CloserOk(t, c) { CloserIsOk(s, c); }
    forall d | 0 <= d < |t.entries| ensures EntryOk(t, d) && WinnerOk(t, d) { EntryIsOk(s, d); }
    IsInv(t);
  }

  lemma CallCloseKeepsInv(s: State, h: nat)
    requires Inv(s)
    ensures Inv(DoCallClose(s, h))
  {
    var t := DoCallClose(s, h);
    assert forall c | 0 <= c < |s.closers| :: CloserOk(s, c) && t.closers[c] == s.closers[c];
    forall e | 0 <= e < |t.entries| ensures EntryOk(t, e) && WinnerOk(t, e) {
      assert EntryOk(s, e) && WinnerOk(s, e);
    }
  }

  // A close call only touches its own entry.
  ghost predicate OnlyTouches(s: State, t: State, c: nat)
    requires c < |s.closers|
  {
    var e := s.closers[c].entry;
    && |t.entries| == |s.entries| && |t.closers| == |s.closers|
    && t.held == s.held && t.closers[c].entry == e
    && (forall d | 0 <= d < |s.entries| && d != e ::
          t.entries[d] == s.entries[d] && t.unmaps[d] == s.unmaps[d])
    && (forall d | d != e :: (d in t.winner <==> d in s.winner) && (d in s.winner ==> t.winner[d] == s.winner[d]))
    && (forall k | 0 <= k < |s.closers| && k != c :: t.closers[k] == s.closers[k])
    && (forall h | h in t.regions :: h in s.regions && t.regions[h] == s.regions[h])
    && (forall h | h in s.regions && s.regions[h] != e :: h in t.regions)
  }

  lemma OthersStayOk(s: State, t: State, c: nat)
    requires Inv(s) && c < |s.closers| && OnlyTouches(s, t, c)
    ensures forall d | 0 <= d < |t.entries| && d != s.closers[c].entry :: EntryOk(t, d) && WinnerOk(t, d)
    ensures forall k | 0 <= k < |t.closers| && t.closers[k].entry != s.closers[c].entry && k != c :: CloserOk(t, k)
  {
    var e := s.closers[c].entry;
    assert CloserOk(s, c);
    forall d | 0 <= d < |t.entries| && d != e ensures EntryOk(t, d) && WinnerOk(t, d) {
      assert EntryOk(s, d) && WinnerOk(s, d);
      if d in s.winner { assert CloserOk(s, s.winner[d]); }
    }
    forall k | 0 <= k < |t.closers| && t.closers[k].entry != e && k != c ensures CloserOk(t, k) {
      assert CloserOk(s, k);
    }
  }

  lemma AdvanceOnlyTouches(s: State, c: nat, native: Option<string>)
    requires Inv(s) && Ready(s, c)
    ensures OnlyTouches(s, DoAdvance(s, c, native), c)
  {
    hide Inv, EntryAfter, PcAfter;
  }

  lemma AdvanceKeepsOwnEntry(s: State, c: nat, native: Option<string>)
    requires Inv(s) && Ready(s, c)
    ensures var t := DoAdvance(s, c, native); var e := s.closers[c].entry;
            |t.entries| == |s.entries| && EntryOk(t, e) && WinnerOk(t, e)
  {
    hide Inv;
    CloserIsOk(s, c);
  }

  lemma AdvanceKeepsOwnClosers(s: State, c: nat, native: Option<string>)
    requires Inv(s) && Ready(s, c)
    ensures var t := DoAdvance(s, c, native);
            forall k | 0 <= k < |t.closers| && t.closers[k].entry == s.closers[c].entry :: CloserOk(t, k)
  {
    hide Inv;
    var t := DoAdvance(s, c, native);
    var e := s.closers[c].entry;
    CloserIsOk(s, c);
    forall k | 0 <= k < |t.closers| && t.closers[k].entry == e ensures CloserOk(t, k) {
      CloserIsOk(s, k);
    }
  }

  lemma AdvanceKeepsRegistry(s: State, c: nat, native: Option<string>)
    requires Inv(s) && Ready(s, c)
    ensures RegistryOk(DoAdvance(s, c, native))
  {
    hide Inv;
    CloserIsOk(s, c);
    RegistryIsOk(s);
  }

  lemma AdvanceKeepsInv(s: State, c: nat, native: Option<string>)
    requires Inv(s) && Ready(s, c)
    ensures Inv(DoAdvance(s, c, native))
  {
    hide Inv, DoAdvance, EntryOk, WinnerOk, CloserOk, RegistryOk;
    var t := DoAdvance(s, c, native);
    AdvanceOnlyTouches(s, c, native);
    OthersStayOk(s, t, c);
    AdvanceKeepsOwnEntry(s, c, native);
    AdvanceKeepsOwnClosers(s, c, native);
    AdvanceKeepsRegistry(s, c, native);
    IsInv(t);
  }

  lemma StepKeepsInv(s: State, step: Step)
    requires Inv(s) && Enabled(s, step)
    ensures Inv(Apply(s, step))
  {
    match step
    case Emplace => EmplaceKeepsInv(s);
    case Lease(h) => LeaseKeepsInv(s, h);
    case DropLease(e) => DropKeepsInv(s, e);
    case CallClose(h) => CallCloseKeepsInv(s, h);
    case Advance(c, native) => AdvanceKeepsInv(s, c, native);
  }

  lemma {:induction false} RunKeepsInv(s: State, steps: seq<Step>)
    requires Inv(s) && IsRun(s, steps)
    ensures Inv(Run(s, steps))
    decreases |steps|
  {
    if steps != [] {
      StepKeepsInv(s, steps[0]);
      RunKeepsInv(Apply(s, steps[0]), steps[1..]);
    }
  }

  // ---- What the protocol promises --------------------------------------------------------------

  // Some schedule of any number of calls leads here.
  ghost predicate Reachable(s: State) {
    exists steps :: IsRun(Init(), steps) && Run(Init(), steps) == s
  }

  lemma ReachableInv(s: State)
    requires Reachable(s)
    ensures Inv(s)
  {
    var steps :| IsRun(Init(), steps) && Run(Init(), steps) == s;
    RunKeepsInv(Init(), steps);
  }

  // The lease count is exactly the number of live lease objects, and while it is positive the
  // mapping a lease dereferences is there.
  lemma LeasesPinTheMapping(s: State, e: nat)
    requires Reachable(s) && e < |s.entries|
    ensures s.entries[e].leases == s.held[e]
    ensures s.held[e] > 0 ==> s.entries[e].mapped
  {
    ReachableInv(s);
    assert EntryOk(s, e);
  }

  // A step that starts a native close finds no lease, on a region that is closing and that no
  // native close has been started on before.
  lemma UnmapStartsWhenIdle(s: State, step: Step, e: nat)
    requires Reachable(s) && Enabled(s, step) && Apply(s, step).unmaps[e] != s.unmaps[e]
    ensures e < |s.entries| && s.held[e] == 0 && s.entries[e].phase == Closing
    ensures s.unmaps[e] == 0 && Apply(s, step).unmaps[e] == 1
  {
    ReachableInv(s);
    assert CloserOk(s, step.closer);
    assert EntryOk(s, e) && WinnerOk(s, e);
  }

  lemma StepKeepsClosing(s: State, step: Step, e: nat)
    requires Inv(s) && Enabled(s, step) && e < |s.entries| && s.entries[e].phase != Open
    ensures var t := Apply(s, step);
            e < |t.entries| && t.entries[e].phase != Open && t.held[e] <= s.held[e]
            && (s.entries[e].phase == Closed ==>
                  t.entries[e].phase == Closed && t.entries[e].error == s.entries[e].error)
  {
    hide Inv;
    if step.Advance? {
      CloserIsOk(s, step.closer);
      EntryIsOk(s, e);
    } else if step.Lease? {
      RegistryIsOk(s);
    }
  }

  // Once a close call has moved a region out of OPEN, no continuation of the run grants a lease on
  // it: the number of live leases can only go down. Once it is closed, its outcome is fixed.
  lemma {:induction false} NoLeaseAfterClosing(s: State, steps: seq<Step>, e: nat)
    requires Inv(s) && IsRun(s, steps) && e < |s.entries| && s.entries[e].phase != Open
    ensures var t := Run(s, steps);
            e < |t.entries| && t.entries[e].phase != Open && t.held[e] <= s.held[e]
            && (s.entries[e].phase == Closed ==>
                  t.entries[e].phase == Closed && t.entries[e].error == s.entries[e].error)
    decreases |steps|
  {
    if steps != [] {
      StepKeepsInv(s, steps[0]);
      StepKeepsClosing(s, steps[0], e);
      NoLeaseAfterClosing(Apply(s, steps[0]), steps[1..], e);
    }
  }

  // However many calls close one region, its native close is started at most once; as soon as one
  // of them has returned it has been started exactly once, and all that returned report one outcome.
  lemma ClosersAgree(s: State, c: nat, d: nat)
    requires Reachable(s) && c < |s.closers| && d < |s.closers| && s.closers[c].entry == s.closers[d].entry
    ensures s.unmaps[s.closers[c].entry] <= 1
    ensures s.closers[c].pc.Done? ==> s.unmaps[s.closers[c].entry] == 1
    ensures s.closers[c].pc.Done? && s.closers[d].pc.Done? ==> s.closers[c].pc == s.closers[d].pc
  {
    ReachableInv(s);
    assert CloserOk(s, c) && CloserOk(s, d);
    assert EntryOk(s, s.closers[c].entry) && WinnerOk(s, s.closers[c].entry);
  }

  // A handle leaves the registry only in the erase step of a call that found its entry there, and
  // that entry is closed by then. Handles may be reissued after the counter wraps, so this needs
  // the object comparison in the erase step.
  lemma EraseRemovesOnlyTheClosed(s: State, step: Step, h: nat)
    requires Reachable(s) && Enabled(s, step) && h in s.regions
    ensures var t := Apply(s, step); var e := s.regions[h];
            if h in t.regions then t.regions[h] == e
            else step.Advance? && s.closers[step.closer].pc.Erasing?
                 && s.closers[step.closer].handle == h && s.closers[step.closer].entry == e
                 && e < |s.entries| && s.entries[e].phase == Closed && s.held[e] == 0
  {
    ReachableInv(s);
    if step.Advance? {
      assert CloserOk(s, step.closer);
      assert EntryOk(s, s.closers[step.closer].entry);
    }
  }

  // A region that is not closed yet can always be found under its own handle.
  lemma OpenRegionsStayRegistered(s: State, e: nat)
    requires Reachable(s) && e < |s.entries| && s.entries[e].phase != Closed
    ensures s.entries[e].handle in s.regions && s.regions[s.entries[e].handle] == e
  {
    ReachableInv(s);
    assert EntryOk(s, e);
  }

  // ---- Progress --------------------------------------------------------------------------------

  function Left(pc: Pc): nat {
    match pc
    case Found => 6
    case Draining => 5
    case Unmapping(_) => 4
    case InNative => 3
    case Unmapped(_) => 2
    case AwaitClosed => 2
    case Erasing(_) => 1
    case Done(_) => 0
  }

  function Remaining(closers: seq<Closer>): nat {
    if closers == [] then 0 else Left(closers[0].pc) + Remaining(closers[1..])
  }

  lemma {:induction false} RemainingUpdate(closers: seq<Closer>, c: nat, k: Closer)
    requires c < |closers|
    ensures Remaining(closers[c := k]) == Remaining(closers) - Left(closers[c].pc) + Left(k.pc)
  {
    if c > 0 {
      assert closers[c := k][1..] == closers[1..][c - 1 := k];
      RemainingUpdate(closers[1..], c - 1, k);
    } else {
      assert closers[0 := k][1..] == closers[1..];
    }
  }

  // No deadlock: an unfinished call can itself move, or it waits for the call that owns the closing of
  // its region and that one can, unless a lease on the region is still held.
  lemma SomeCloserIsReady(s: State, c: nat) returns (r: nat)
    requires Inv(s) && c < |s.closers| && !s.closers[c].pc.Done?
    requires s.held[s.closers[c].entry] == 0
    ensures Ready(s, r) && s.closers[r].entry == s.closers[c].entry
    ensures r == c || (s.closers[c].pc.AwaitClosed? && s.closers[c].entry in s.winner && r == s.winner[s.closers[c].entry])
  {
    var e := s.closers[c].entry;
    assert CloserOk(s, c) && EntryOk(s, e) && WinnerOk(s, e);
    r := if s.closers[c].pc.AwaitClosed? && s.entries[e].phase == Closing then s.winner[e] else c;
    assert CloserOk(s, r);
  }

  // A step of a close call uses up one of the steps left to all of them.
  lemma AdvanceUsesUp(s: State, c: nat, native: Option<string>)
    requires Inv(s) && Ready(s, c)
    ensures var t := DoAdvance(s, c, native);
            |t.closers| == |s.closers| && t.held == s.held && Remaining(t.closers) < Remaining(s.closers)
  {
    hide Inv, Remaining;
    var t := DoAdvance(s, c, native);
    CloserIsOk(s, c);
    RemainingUpdate(s.closers, c, t.closers[c]);
    assert t.closers == s.closers[c := t.closers[c]];
  }

  // Every schedule of the pending close calls ends: however their steps interleave and whatever each
  // native close answers, no more than `Remaining` of them happen. With the leases gone it ends with
  // every call returned, for until then some call is ready.
  lemma {:induction false} ClosersFinish(s: State, steps: seq<Step>) returns (r: nat)
    requires Inv(s) && IsRun(s, steps) && forall i | 0 <= i < |steps| :: steps[i].Advance?
    ensures var t := Run(s, steps);
            && |t.closers| == |s.closers| && t.held == s.held
            && |steps| + Remaining(t.closers) <= Remaining(s.closers)
            && (s.held == multiset{} ==> Ready(t, r) || forall c | 0 <= c < |t.closers| :: t.closers[c].pc.Done?)
    decreases |steps|
  {
    hide Ready, Inv, DoAdvance;
    if steps == [] {
      r := ReadyOrDone(s);
    } else {
      var step := steps[0];
      assert step.Advance? && Enabled(s, step);
      AdvanceKeepsInv(s, step.closer, step.native);
      AdvanceUsesUp(s, step.closer, step.native);
      r := ClosersFinish(Apply(s, step), steps[1..]);
    }
  }

  lemma ReadyOrDone(s: State) returns (r: nat)
    requires Inv(s)
    ensures s.held == multiset{} ==> Ready(s, r) || forall c | 0 <= c < |s.closers| :: s.closers[c].pc.Done?
  {
    r := 0;
    if c :| 0 <= c < |s.closers| && !s.closers[c].pc.Done? {
      if s.held == multiset{} { r := SomeCloserIsReady(s, c); }
    }
  }
}
