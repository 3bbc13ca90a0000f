/** Process-reported close observations of an MPI job: what a report may say, what the ledger keeps of
    it, and why the order, repetition or loss of reports does not matter. */
module CleanupLedger {
  import opened Prelude

  // A JSON value as decoded from the wire; objects keep their member order.
  datatype Json =
    | Null | Bool(b: bool) | Number(n: int) | Fraction(text: string) | Str(s: string) | List(items: seq<Json>)
    | Object(members: seq<Member>)
  datatype Member = Member(key: string, value: Json)

  const SCHEMA: int := 1
  const MAX_REPORT_BYTES: nat := 32 * 1024
  const MAX_FAILURES: nat := 8
  const MAX_FAILURE_BYTES: nat := 512

  // ---- Sizes on the wire -----------------------------------------------------------------------

  function CharUtf8(c: char): nat {
    if c < '\U{80}' then 1 else if c < '\U{800}' then 2 else if c < '\U{10000}' then 3 else 4
  }

  function Utf8(s: string): nat { if s == "" then 0 else CharUtf8(s[0]) + Utf8(s[1..]) }

  // ASCII-only JSON: two-character escapes, `\uXXXX`, or a surrogate pair of them.
  function CharJson(c: char): nat {
    if c in {'"', '\\', '\n', '\r', '\t', '\U{8}', '\U{C}'} then 2
    else if ' ' <= c <= '~' then 1
    else if c < '\U{10000}' then 6
    else 12
  }

  function TextJson(s: string): nat { if s == "" then 0 else CharJson(s[0]) + TextJson(s[1..]) }

  function Digits(n: nat): nat { if n < 10 then 1 else 1 + Digits(n / 10) }

  // Bytes of `json.dumps(v)`.
  function Size(v: Json): nat
    decreases v
  {
    match v
    case Null => 4
    case Bool(b) => if b then 4 else 5
    case Number(n) => if n < 0 then 1 + Digits(-n) else Digits(n)
    case Fraction(text) => |text|
    case Str(s) => 2 + TextJson(s)
    case List(items) => 2 + SizeItems(items)
    case Object(members) => 2 + SizeMembers(members)
  }

  function SizeItems(items: seq<Json>): nat
    decreases items
  {
    if items == [] then 0 else Size(items[0]) + (if |items| > 1 then 2 else 0) + SizeItems(items[1..])
  }

  function SizeMembers(members: seq<Member>): nat
    decreases members
  {
    if members == [] then 0
    else 2 + TextJson(members[0].key) + 2 + Size(members[0].value) + (if |members| > 1 then 2 else 0) + SizeMembers(members[1..])
  }

  // ---- Reports ---------------------------------------------------------------------------------

  datatype Command = UnknownCommand | Observed | NotObserved
  datatype Cleanup = UnknownCleanup | Succeeded | Failed

  // Job and role are compared, never parsed, so they may be any value on the wire.
  datatype Identity = Identity(job: Json, session: int, rank: int, worker: Option<int>, role: Json)

  datatype Report = Report(id: Identity, sequence: nat, command: Command, cleanup: Cleanup, failures: seq<string>)

  function CommandText(c: Command): string {
    match c case UnknownCommand => "unknown" case Observed => "observed" case NotObserved => "not_observed"
  }

  function CleanupText(c: Cleanup): string {
    match c case UnknownCleanup => "unknown" case Succeeded => "succeeded" case Failed => "failed"
  }

  function Texts(ss: seq<string>): seq<Json> { seq(|ss|, i requires 0 <= i < |ss| => Str(ss[i])) }

  function DictMembers(r: Report): seq<Member> {
    [Member("schema", Number(SCHEMA)), Member("job_id", r.id.job), Member("session_id", Number(r.id.session)),
            Member("rank", Number(r.id.rank)),
            Member("worker_id", if r.id.worker.None? then Null else Number(r.id.worker.value)), Member("role", r.id.role),
            Member("sequence", Number(r.sequence)), Member("command", Str(CommandText(r.command))),
            Member("cleanup", Str(CleanupText(r.cleanup))), Member("failures", List(Texts(r.failures)))]
  }

  function ToDict(r: Report): Json { Object(DictMembers(r)) }

  // ---- Decoding --------------------------------------------------------------------------------

  datatype Error = TooLarge | Incomplete | BadSchema | BadNumber | BadWorker | BadFailures | BadCommand | BadOutcome
    | BadSequence | IdentityMismatch | StaleOrConflicting

  const FIELDS: set<string> := {"schema", "job_id", "session_id", "rank", "worker_id", "role", "sequence", "command",
                                "cleanup", "failures"}

  function Keys(members: seq<Member>): set<string> { set m | m in members :: m.key }

  function Get(members: seq<Member>, key: string): (v: Json)
    requires key in Keys(members)
    ensures Member(key, v) in members
  {
    if members[0].key == key then members[0].value
    else
      assert members == [members[0]] + members[1..];
      Get(members[1..], key)
  }

  predicate FailureOk(v: Json) { v.Str? && Utf8(v.s) <= MAX_FAILURE_BYTES }

  predicate OutcomeOk(sequence: int, cleanup: Json, failures: nat) {
    if sequence == 1 then cleanup == Str("unknown") && failures == 0
    else (cleanup == Str("succeeded") && failures == 0) || (cleanup == Str("failed") && failures != 0)
  }

  function CleanupOf(v: Json): Cleanup {
    if v == Str("succeeded") then Succeeded else if v == Str("failed") then Failed else UnknownCleanup
  }

  function Decode(payload: Json): Result<Report, Error> {
    if Size(payload) > MAX_REPORT_BYTES then Err(TooLarge)
    else if !payload.Object? || Keys(payload.members) != FIELDS then Err(Incomplete)
    else
      var m := payload.members;
      var rank, session, sequence, worker := Get(m, "rank"), Get(m, "session_id"), Get(m, "sequence"), Get(m, "worker_id");
      var failures, command, cleanup := Get(m, "failures"), Get(m, "command"), Get(m, "cleanup");
      if Get(m, "schema") != Number(SCHEMA) then Err(BadSchema)
      else if !rank.Number? || !session.Number? || !sequence.Number? then Err(BadNumber)
      else if !worker.Null? && !worker.Number? then Err(BadWorker)
      else if !failures.List? || |failures.items| > MAX_FAILURES then Err(BadFailures)
      else if exists v | v in failures.items :: !FailureOk(v) then Err(BadFailures)
      else if command != Str("observed") && command != Str("not_observed") then Err(BadCommand)
      else if sequence.n != 1 && sequence.n != 2 then Err(BadSequence)
      else if !OutcomeOk(sequence.n, cleanup, |failures.items|) then Err(BadOutcome)
      else
        Ok(Report(Identity(Get(m, "job_id"), session.n, rank.n, if worker.Null? then None else Some(worker.n), Get(m, "role")),
                  sequence.n, if command == Str("observed") then Observed else NotObserved, CleanupOf(cleanup),
                  seq(|failures.items|, i requires 0 <= i < |failures.items| =>
                        if failures.items[i].Str? then failures.items[i].s else "")))
  }

  // What any decoded report satisfies.
  predicate WellFormed(r: Report) {
    && r.command != UnknownCommand
    && |r.failures| <= MAX_FAILURES && (forall f | f in r.failures :: Utf8(f) <= MAX_FAILURE_BYTES)
    && (if r.sequence == 1 then r.cleanup == UnknownCleanup && r.failures == []
        else r.sequence == 2 && r.cleanup != UnknownCleanup && (r.cleanup == Failed <==> r.failures != []))
  }

  lemma DecodeIsWellFormed(payload: Json)
    requires Decode(payload).Ok?
    ensures WellFormed(Decode(payload).value)
  {
    var m := payload.members;
    var items := Get(m, "failures").items;
    var r := Decode(payload).value;
    forall f | f in r.failures ensures Utf8(f) <= MAX_FAILURE_BYTES {
      var i :| 0 <= i < |r.failures| && r.failures[i] == f;
      assert items[i] in items;
      assert FailureOk(items[i]);
    }
  }

  // With distinct keys, looking a member's key up finds that member.
  lemma {:induction false} GetAt(members: seq<Member>, i: nat)
    requires i < |members| && forall j, k | 0 <= j < k < |members| :: members[j].key != members[k].key
    ensures members[i].key in Keys(members) && Get(members, members[i].key) == members[i].value
  {
    assert members[i] in members;
    if i > 0 {
      GetAt(members[1..], i - 1);
    }
  }

  const NAMES: seq<string> := ["schema", "job_id", "session_id", "rank", "worker_id", "role", "sequence", "command",
                               "cleanup", "failures"]

  lemma NamesDiffer()
    ensures forall j, k | 0 <= j < k < |NAMES| :: NAMES[j] != NAMES[k]
  {
    assert NAMES[0][0] == 's' && NAMES[1][0] == 'j' && NAMES[3][1] == 'a' && NAMES[5][1] == 'o' && NAMES[7][1] == 'o'
           && NAMES[8][1] == 'l' && NAMES[6][0] == 's' && NAMES[9][0] == 'f';
  }

  lemma DictNames(r: Report)
    ensures |DictMembers(r)| == |NAMES|
    ensures forall i | 0 <= i < |NAMES| :: DictMembers(r)[i].key == NAMES[i]
  {
  }

  lemma DictKeys(r: Report)
    ensures Keys(DictMembers(r)) == FIELDS
  {
    hide DictMembers;
    DictNames(r);
    var m := DictMembers(r);
    assert forall i | 0 <= i < |NAMES| :: m[i] in m;
    assert NAMES[0] in Keys(m) && NAMES[1] in Keys(m) && NAMES[2] in Keys(m) && NAMES[3] in Keys(m) && NAMES[4] in Keys(m)
           && NAMES[5] in Keys(m) && NAMES[6] in Keys(m) && NAMES[7] in Keys(m) && NAMES[8] in Keys(m) && NAMES[9] in Keys(m);
  }

  lemma DictGet(r: Report, i: nat)
    requires i < |NAMES|
    ensures |DictMembers(r)| == |NAMES| && NAMES[i] in Keys(DictMembers(r))
    ensures Get(DictMembers(r), NAMES[i]) == DictMembers(r)[i].value
  {
    hide DictMembers, Get, Keys;
    DictNames(r);
    NamesDiffer();
    GetAt(DictMembers(r), i);
  }

  lemma DictReads(r: Report)
    ensures Keys(DictMembers(r)) == FIELDS
    ensures var m := DictMembers(r);
            && Get(m, "schema") == Number(SCHEMA) && Get(m, "job_id") == r.id.job && Get(m, "session_id") == Number(r.id.session)
            && Get(m, "rank") == Number(r.id.rank)
            && Get(m, "worker_id") == (if r.id.worker.None? then Null else Number(r.id.worker.value))
            && Get(m, "role") == r.id.role && Get(m, "sequence") == Number(r.sequence)
            && Get(m, "command") == Str(CommandText(r.command)) && Get(m, "cleanup") == Str(CleanupText(r.cleanup))
            && Get(m, "failures") == List(Texts(r.failures))
  {
    hide Get, Keys, CommandText, CleanupText, Texts;
    DictKeys(r);
    DictGet(r, 0); DictGet(r, 1); DictGet(r, 2); DictGet(r, 3); DictGet(r, 4);
    DictGet(r, 5); DictGet(r, 6); DictGet(r, 7); DictGet(r, 8); DictGet(r, 9);
  }

  // A well-formed report survives the wire exactly when its encoding fits.
  lemma RoundTrip(r: Report)
    requires WellFormed(r)
    ensures Decode(ToDict(r)) == if Size(ToDict(r)) <= MAX_REPORT_BYTES then Ok(r) else Err(TooLarge)
  {
    hide DictMembers, Get, Keys, Size, Utf8;
    DictReads(r);
    forall i | 0 <= i < |r.failures| ensures FailureOk(Texts(r.failures)[i]) {
      assert r.failures[i] in r.failures;
    }
    if Size(ToDict(r)) <= MAX_REPORT_BYTES {
      assert Decode(ToDict(r)).Ok?;
      assert Decode(ToDict(r)).value.failures == r.failures;
    }
  }

  // ---- Honest reports fit ----------------------------------------------------------------------

  // Escaping costs at most six JSON bytes per UTF-8 byte.
  lemma {:induction false} EscapeBound(s: string)
    ensures TextJson(s) <= 6 * Utf8(s)
  {
    if s != "" { EscapeBound(s[1..]); }
  }

  lemma {:induction false} PlainText(s: string)
    requires forall i | 0 <= i < |s| :: 'a' <= s[i] <= 'z' || s[i] == '_'
    ensures TextJson(s) == |s|
  {
    if s != "" { PlainText(s[1..]); }
  }

  lemma {:induction false} FailuresBound(fs: seq<string>)
    requires forall f | f in fs :: Utf8(f) <= MAX_FAILURE_BYTES
    ensures SizeItems(Texts(fs)) <= (4 + 6 * MAX_FAILURE_BYTES) * |fs|
  {
    if fs != [] {
      FailuresBound(fs[1..]);
      EscapeBound(fs[0]);
      assert Texts(fs)[1..] == Texts(fs[1..]);
    }
  }

  function MemberSize(m: Member): nat { 4 + TextJson(m.key) + Size(m.value) }

  // One more member costs its own bytes and at most a separator.
  lemma DropMember(members: seq<Member>, i: nat)
    requires i < |members|
    ensures SizeMembers(members[i..]) <= MemberSize(members[i]) + 2 + SizeMembers(members[i + 1..])
  {
    assert members[i..][1..] == members[i + 1..];
  }

  function IdentitySize(id: Identity): nat {
    Size(id.job) + Size(Number(id.session)) + Size(Number(id.rank))
    + (if id.worker.None? then 4 else Size(Number(id.worker.value))) + Size(id.role)
  }

  const IDENTITY_ROOM: nat := 8000

  lemma TenMembers(m: seq<Member>)
    requires |m| == 10
    ensures SizeMembers(m) <= MemberSize(m[0]) + MemberSize(m[1]) + MemberSize(m[2]) + MemberSize(m[3]) + MemberSize(m[4])
                              + MemberSize(m[5]) + MemberSize(m[6]) + MemberSize(m[7]) + MemberSize(m[8]) + MemberSize(m[9]) + 20
  {
    hide SizeMembers, MemberSize;
    DropMember(m, 0); DropMember(m, 1); DropMember(m, 2); DropMember(m, 3); DropMember(m, 4);
    DropMember(m, 5); DropMember(m, 6); DropMember(m, 7); DropMember(m, 8); DropMember(m, 9);
    assert m[0..] == m && m[10..] == [];
    NoMembers();
  }

  lemma NoMembers()
    ensures SizeMembers([]) == 0
  {
  }

  lemma NameSize(r: Report, i: nat)
    requires i < 10
    ensures |DictMembers(r)| == 10 && MemberSize(DictMembers(r)[i]) == 4 + |NAMES[i]| + Size(DictMembers(r)[i].value)
  {
    hide Size, DictMembers;
    DictNames(r);
    PlainText(NAMES[i]);
  }

  lemma TotalSize(r: Report)
    ensures Size(ToDict(r)) <= 132 + IdentitySize(r.id) + Size(Number(r.sequence)) + Size(Str(CommandText(r.command)))
                               + Size(Str(CleanupText(r.cleanup))) + Size(List(Texts(r.failures)))
  {
    hide MemberSize, SizeMembers, Texts, CommandText, CleanupText;
    var m := DictMembers(r);
    TenMembers(m);
    NameSize(r, 0); NameSize(r, 1); NameSize(r, 2); NameSize(r, 3); NameSize(r, 4);
    NameSize(r, 5); NameSize(r, 6); NameSize(r, 7); NameSize(r, 8); NameSize(r, 9);
    assert |NAMES[0]| + |NAMES[1]| + |NAMES[2]| + |NAMES[3]| + |NAMES[4]| + |NAMES[5]| + |NAMES[6]| + |NAMES[7]| + |NAMES[8]|
           + |NAMES[9]| == 69;
  }

  // Whatever its failure texts escape to, a well-formed report fits beside an identity of this size.
  lemma HonestReportsFit(r: Report)
    requires WellFormed(r) && IdentitySize(r.id) <= IDENTITY_ROOM
    ensures Size(ToDict(r)) <= MAX_REPORT_BYTES && Decode(ToDict(r)) == Ok(r)
  {
    hide Decode, ToDict, IdentitySize, CommandText, CleanupText, Texts, Size, WellFormed;
    TotalSize(r);
    PartSizes(r);
    RoundTrip(r);
  }

  lemma PartSizes(r: Report)
    requires WellFormed(r)
    ensures Size(Number(r.sequence)) == 1 && Size(Str(CommandText(r.command))) <= 14 && Size(Str(CleanupText(r.cleanup))) <= 11
    ensures Size(List(Texts(r.failures))) <= 2 + 8 * (4 + 6 * MAX_FAILURE_BYTES)
  {
    hide TextJson, Utf8, SizeItems, Texts;
    FailuresBound(r.failures);
    PlainText(CommandText(r.command));
    PlainText(CleanupText(r.cleanup));
  }

  // A failure text is cut to the longest prefix that fits.
  function Clip(s: string, limit: nat): (r: string)
    ensures r <= s && Utf8(r) <= limit
    ensures r != s ==> Utf8(s[..|r| + 1]) > limit
  {
    if s == "" || CharUtf8(s[0]) > limit then ""
    else
      var rest := Clip(s[1..], limit - CharUtf8(s[0]));
      var r := [s[0]] + rest;
      assert r[1..] == rest;
      assert rest != s[1..] ==> s[..|r| + 1][1..] == s[1..][..|rest| + 1];
      r
  }

  // ---- The reporting rank ----------------------------------------------------------------------

  function Unreported(id: Identity): Report { Report(id, 0, UnknownCommand, UnknownCleanup, []) }

  function BeginReport(id: Identity, command: Command): Report { Report(id, 1, command, UnknownCleanup, []) }

  function FinalReport(id: Identity, command: Command, failures: seq<string>): Report {
    Report(id, 2, command, if failures == [] then Succeeded else Failed,
           if |failures| <= MAX_FAILURES then failures else failures[..MAX_FAILURES])
  }

  class Reporter {
    const id: Identity
    var command: Command

    constructor (id: Identity)
      ensures this.id == id && command == NotObserved
    {
      this.id, command := id, NotObserved;
    }

    method Begin(command: Command) returns (r: Report)
      modifies this
      ensures this.command == command && r == BeginReport(id, command)
    {
      this.command := command;
      r := Report(id, 1, command, UnknownCleanup, []);
    }

    // The final report repeats the command already announced.
    method Finish(failures: seq<string>) returns (r: Report)
      ensures r == FinalReport(id, command, failures)
    {
      var kept := failures;
      if |kept| > MAX_FAILURES { kept := kept[..MAX_FAILURES]; }
      r := Report(id, 2, command, if failures == [] then Succeeded else Failed, kept);
    }
  }

  // ---- The ledger ------------------------------------------------------------------------------

  type Reports = map<int, Report>

  function Accept(m: Reports, payload: Json): (Reports, Result<bool, Error>) {
    match Decode(payload)
    case Err(e) => (m, Err(e))
    case Ok(r) =>
      if r.id.rank !in m || m[r.id.rank].id != r.id then (m, Err(IdentityMismatch))
      else
        var previous := m[r.id.rank];
        if r == previous then (m, Ok(false))
        else if r.sequence <= previous.sequence || (previous.sequence != 0 && r.command != previous.command)
        then (m, Err(StaleOrConflicting))
        else (m[r.id.rank := r], Ok(true))
  }

  function Run(m: Reports, payloads: seq<Json>): Reports {
    if payloads == [] then m else Accept(Run(m, payloads[..|payloads| - 1]), payloads[|payloads| - 1]).0
  }

  // `b` may stand where `a` stood: same identity, no earlier sequence, the command once reported is
  // kept, and a final report is final.
  predicate Later(a: Report, b: Report) {
    && a.id == b.id && a.sequence <= b.sequence
    && (a.sequence != 0 ==> a.command == b.command)
    && (a.sequence == b.sequence || a.sequence >= 2 ==> a == b)
  }

  predicate Advances(m: Reports, n: Reports) { m.Keys == n.Keys && forall k | k in m :: Later(m[k], n[k]) }

  lemma AcceptAdvances(m: Reports, payload: Json)
    ensures Advances(m, Accept(m, payload).0)
    ensures Accept(m, payload).1 != Ok(true) <==> Accept(m, payload).0 == m
  {
    hide Decode;
    if Decode(payload).Ok? {
      DecodeIsWellFormed(payload);
      var r := Decode(payload).value;
      if Accept(m, payload).1 == Ok(true) { assert Accept(m, payload).0[r.id.rank] == r; }
    }
  }

  // For every sequence of payloads, honest or not: the ranks and their identities stay, sequences
  // only rise, and neither a reported command nor a final outcome ever changes.
  lemma {:induction false} RunAdvances(m: Reports, payloads: seq<Json>)
    ensures Advances(m, Run(m, payloads))
  {
    hide Accept;
    if payloads != [] {
      var before := payloads[..|payloads| - 1];
      RunAdvances(m, before);
      AcceptAdvances(Run(m, before), payloads[|payloads| - 1]);
    }
  }

  // ---- Delivery --------------------------------------------------------------------------------

  // What one rank will say: the command it observed and the failures of its close.
  datatype Conduct = Conduct(id: Identity, command: Command, failures: seq<string>) {
    function Begin(): Report { BeginReport(id, command) }
    function Final(): Report { FinalReport(id, command, failures) }
  }

  // It observed a command, clipped its failure texts, and what it sends fits the limit.
  predicate Honest(c: Conduct) {
    && c.command != UnknownCommand && (forall f | f in c.failures :: Utf8(f) <= MAX_FAILURE_BYTES)
    && Size(ToDict(c.Begin())) <= MAX_REPORT_BYTES && Size(ToDict(c.Final())) <= MAX_REPORT_BYTES
  }

  // A rank whose identity leaves room is honest whatever its failures are.
  lemma RoomMakesHonest(c: Conduct)
    requires c.command != UnknownCommand && (forall f | f in c.failures :: Utf8(f) <= MAX_FAILURE_BYTES)
    requires IdentitySize(c.id) <= IDENTITY_ROOM
    ensures Honest(c)
  {
    hide Size, ToDict, IdentitySize, Utf8, WellFormed;
    ConductIsWellFormed(c);
    HonestReportsFit(c.Begin());
    HonestReportsFit(c.Final());
  }

  lemma ConductIsWellFormed(c: Conduct)
    requires c.command != UnknownCommand && (forall f | f in c.failures :: Utf8(f) <= MAX_FAILURE_BYTES)
    ensures WellFormed(c.Begin()) && WellFormed(c.Final())
  {
    hide Utf8;
  }

  type Conducts = map<int, Conduct>

  predicate AllHonest(cs: Conducts) { forall k | k in cs :: cs[k].id.rank == k && Honest(cs[k]) }

  function Initial(cs: Conducts): Reports { map k | k in cs :: Unreported(cs[k].id) }

  // Junk: it does not decode, or names no member of this job.
  predicate Foreign(cs: Conducts, p: Json) {
    Decode(p).Ok? ==> forall k | k in cs :: Decode(p).value.id != cs[k].id
  }

  predicate FromRank(c: Conduct, p: Json) { p == ToDict(c.Begin()) || p == ToDict(c.Final()) }

  predicate Delivery(cs: Conducts, payloads: seq<Json>) {
    forall i | 0 <= i < |payloads| :: Foreign(cs, payloads[i]) || exists k | k in cs :: FromRank(cs[k], payloads[i])
  }

  // What the ledger knows of one rank after these deliveries, whatever their order or number.
  function Known(c: Conduct, payloads: seq<Json>): Report {
    if ToDict(c.Final()) in payloads then c.Final()
    else if ToDict(c.Begin()) in payloads then c.Begin()
    else Unreported(c.id)
  }

  lemma HonestDecodes(c: Conduct)
    requires Honest(c)
    ensures Decode(ToDict(c.Begin())) == Ok(c.Begin()) && Decode(ToDict(c.Final())) == Ok(c.Final())
    ensures ToDict(c.Begin()) != ToDict(c.Final())
  {
    hide Decode, ToDict, Utf8, Size, WellFormed;
    ConductIsWellFormed(c);
    RoundTrip(c.Begin());
    RoundTrip(c.Final());
  }

  // One more payload moves what is known of a rank exactly as the ledger's rules move its entry.
  lemma KnownStep(cs: Conducts, m: Reports, payloads: seq<Json>, p: Json, k: int)
    requires AllHonest(cs) && k in cs
    requires m.Keys == cs.Keys && m[k] == Known(cs[k], payloads)
    requires Foreign(cs, p) || exists j | j in cs :: FromRank(cs[j], p)
    ensures Accept(m, p).0.Keys == cs.Keys && Accept(m, p).0[k] == Known(cs[k], payloads + [p])
  {
    hide Decode, ToDict, Honest;
    HonestDecodes(cs[k]);
    if !Foreign(cs, p) {
      var j :| j in cs && FromRank(cs[j], p);
      HonestDecodes(cs[j]);
    }
  }

  // The ledger is a function of which reports arrived: order and repetition do not matter, and junk
  // leaves no trace.
  lemma {:induction false} LedgerIsWhatArrived(cs: Conducts, payloads: seq<Json>)
    requires AllHonest(cs) && Delivery(cs, payloads)
    ensures Run(Initial(cs), payloads) == map k | k in cs :: Known(cs[k], payloads)
  {
    hide AllHonest, Accept, Known, Foreign, FromRank;
    if payloads == [] {
      NothingKnown(cs);
    } else {
      var before, p := payloads[..|payloads| - 1], payloads[|payloads| - 1];
      LedgerIsWhatArrived(cs, before);
      assert payloads == before + [p];
      var m := Run(Initial(cs), before);
      if cs == map[] { RunAdvances(Initial(cs), payloads); }
      forall k | k in cs ensures Accept(m, p).0.Keys == cs.Keys && Accept(m, p).0[k] == Known(cs[k], payloads) {
        KnownStep(cs, m, before, p, k);
      }
      RunAdvances(Initial(cs), payloads);
    }
  }

  lemma NothingKnown(cs: Conducts)
    ensures Initial(cs) == map k | k in cs :: Known(cs[k], [])
  {
  }

  // Any two deliveries that both include every rank's final report end in the same ledger, in which
  // every rank shows its own final report.
  lemma FinalReportsDecide(cs: Conducts, payloads: seq<Json>)
    requires AllHonest(cs) && Delivery(cs, payloads)
    requires forall k | k in cs :: ToDict(cs[k].Final()) in payloads
    ensures Run(Initial(cs), payloads) == map k | k in cs :: cs[k].Final()
  {
    hide AllHonest, Delivery, ToDict, Run;
    LedgerIsWhatArrived(cs, payloads);
    var known := Run(Initial(cs), payloads);
    assert known.Keys == cs.Keys;
    assert forall k | k in cs :: known[k] == cs[k].Final();
    assert known == map k | k in cs :: cs[k].Final();
  }

  // ---- The object ------------------------------------------------------------------------------

  // Rank 0 runs the job; every executor has its own rank. Later entries of the same rank win.
  function Enrol(job: Json, session: int, executors: seq<(int, int)>): Reports {
    if executors == [] then map[0 := Unreported(Identity(job, session, 0, None, Str("L4")))]
    else
      var (rank, worker) := executors[|executors| - 1];
      Enrol(job, session, executors[..|executors| - 1])[rank := Unreported(Identity(job, session, rank, Some(worker), Str("L3")))]
  }

  lemma {:induction false} EnrolIsUnreported(job: Json, session: int, executors: seq<(int, int)>)
    ensures var m := Enrol(job, session, executors);
            0 in m && forall k | k in m :: m[k] == Unreported(m[k].id) && m[k].id.rank == k
  {
    if executors != [] { EnrolIsUnreported(job, session, executors[..|executors| - 1]); }
  }

  lemma StartsUnreported(cs: Conducts, m: Reports)
    requires cs.Keys == m.Keys && forall k | k in m :: cs[k].id == m[k].id && m[k] == Unreported(m[k].id)
    ensures m == Initial(cs)
  {
    assert m.Keys == Initial(cs).Keys;
    assert forall k | k in m :: m[k] == Initial(cs)[k];
  }

  // The whole story of a job: whatever the order, repetition or loss of what its ranks sent, and
  // whatever junk came between, a ledger that received every final report shows exactly those.
  lemma JobConverges(job: Json, session: int, executors: seq<(int, int)>, cs: Conducts, payloads: seq<Json>)
    requires var m := Enrol(job, session, executors);
             cs.Keys == m.Keys && forall k | k in m :: cs[k].id == m[k].id && Honest(cs[k])
    requires Delivery(cs, payloads) && forall k | k in cs :: ToDict(cs[k].Final()) in payloads
    ensures Run(Enrol(job, session, executors), payloads) == map k | k in cs :: cs[k].Final()
  {
    hide Enrol, Run, Delivery, Honest, ToDict;
    EnrolIsUnreported(job, session, executors);
    StartsUnreported(cs, Enrol(job, session, executors));
    FinalReportsDecide(cs, payloads);
  }

  class Ledger {
    var reports: Reports

    constructor (job: Json, session: int, executors: seq<(int, int)>)
      ensures reports == Enrol(job, session, executors)
    {
      reports := map[0 := Unreported(Identity(job, session, 0, None, Str("L4")))];
      new;
      for i := 0 to |executors|
        invariant reports == Enrol(job, session, executors[..i])
      {
        assert executors[..i + 1][..i] == executors[..i];
        var (rank, worker) := executors[i];
        reports := reports[rank := Unreported(Identity(job, session, rank, Some(worker), Str("L3")))];
      }
      assert executors[..|executors|] == executors;
    }

    method AcceptPayload(payload: Json) returns (r: Result<bool, Error>)
      modifies this
      ensures (reports, r) == Accept(old(reports), payload)
    {
      hide Decode;
      var decoded := Decode(payload);
      if decoded.Err? { return Err(decoded.error); }
      var report := decoded.value;
      if report.id.rank !in reports || reports[report.id.rank].id != report.id { return Err(IdentityMismatch); }
      var previous := reports[report.id.rank];
      if report == previous { return Ok(false); }
      if report.sequence <= previous.sequence || (previous.sequence != 0 && report.command != previous.command) {
        return Err(StaleOrConflicting);
      }
      reports := reports[report.id.rank := report];
      r := Ok(true);
    }
  }
}
