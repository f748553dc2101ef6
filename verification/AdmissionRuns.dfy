/** Every run of issuing, redeeming, crashing, backing up, restoring and recovering: at most one
    operation is ever answered 'admitted' for a pass, and the ledger and every database copy agree. */
module AdmissionRuns {
  import opened Options
  import opened Admission

  /** An 'admitted' reply that reached the person scanning. */
  datatype Answer = Answer(pass: PassId, actor: Id, key: Id)

  /** `backups` is the one line of history, oldest first; `calls` are redemptions between two steps;
      `listed` are ledger records a recovery loop has read and not yet applied. `issued`, `answered` and
      `exposed` are history: the seat every pass was issued for, every admitted reply, and the weddings
      brought back to life by a serving system that had forgotten an admitted pass of theirs (`Forgets`). */
  datatype World = World(
    db: Db,
    ledger: Ledger,
    backups: seq<Db>,
    calls: set<Call>,
    listed: set<(PassId, Entry)>,
    answered: set<Answer>,
    issued: map<PassId, Seat>,
    serving: bool,
    exposed: set<Id>)

  datatype Op =
    | Issue(pass: PassId, seat: Seat, token: Id, manual: Id)
    | Withdraw(pass: PassId, status: Status, version: nat)
    | Refresh(pass: PassId)
    | Reissue(pass: PassId, token: Id, manual: Id)
    | Edit(live: set<Id>, events: map<EventId, Event>, confirmed: set<Seat>, removed: set<Person>)
    | CheckHolds(request: Request)
    | Lock(request: Request, found: Option<PassId>, fails: bool)
    | WriteCommitted(call: Call)
    | Reply(call: Call)
    | Crash(call: Call)
    | Backup
    | Restore(index: nat)
    | Quarantine
    | List(pass: PassId)
    | Apply(pass: PassId, entry: Entry)
    | Start(records: Listing)
    | Resolve(pass: PassId, fails: bool)

  /** The listing names every record of the ledger and nothing else. */
  ghost predicate Lists(records: Listing, ledger: Ledger) {
    && (forall i :: 0 <= i < |records| ==> records[i].0 in ledger && ledger[records[i].0] == records[i].1)
    && (forall p :: p in ledger ==> (p, ledger[p]) in records)
  }

  predicate Anchored(db: Db, p: PassId) {
    p in db.passes || (p in db.holds && db.holds[p].open)
  }

  /** An open hold that no operator can resolve: it stops the whole wedding from redeeming. */
  predicate Blocked(db: Db, ledger: Ledger, wedding: Id) {
    exists p :: p in db.holds && p.wedding == wedding && db.holds[p].open && !Discardable(db, ledger, p)
  }

  /** Somebody was admitted under a pass of which neither a row nor a hold is left, and nothing stands in the
      way of admitting again. */
  predicate Forgets(w: World, wedding: Id) {
    && w.serving && !Blocked(w.db, w.ledger, wedding)
    && exists a :: a in w.answered && a.pass.wedding == wedding && !Anchored(w.db, a.pass)
  }

  function NewlyExposed(w: World, live: set<Id>): set<Id> {
    set x | x in live && x !in w.db.live && Forgets(w, x)
  }

  ghost predicate Enabled(w: World, op: Op) {
    match op
    case Issue(p, seat, _, _) =>
      p !in w.issued && p.wedding == seat.wedding && forall q :: q in w.db.passes ==> SeatOf(q, w.db.passes[q]) != seat
    case Withdraw(p, status, version) =>
      p in w.db.passes && w.db.passes[p].status == Active && (status == Revoked || status == Expired) && w.db.passes[p].version <= version
    case Refresh(p) => p in w.db.passes && w.db.passes[p].status == Active
    case Reissue(p, _, _) => p in w.db.passes && w.db.passes[p].status != Used && p !in w.ledger
    case Edit(_, _, _, _) => true
    case CheckHolds(r) => w.serving && r.wedding in w.db.live && !OpenHold(w.db, r.wedding)
    case Lock(r, found, _) => Checked(r) in w.calls && Finds(w.db, r, found)
    case WriteCommitted(call) => call in w.calls && call.Acknowledging?
    case Reply(call) => call in w.calls && call.Replying?
    case Crash(call) => call in w.calls
    case Backup => true
    case Restore(i) => i < |w.backups|
    case Quarantine => !w.serving
    case List(p) => p in w.ledger
    case Apply(p, entry) => (p, entry) in w.listed
    case Start(records) => !w.serving && Lists(records, w.ledger)
    case Resolve(p, _) => Discardable(w.db, w.ledger, p)
  }

  ghost function After(w: World, op: Op): World
    requires Enabled(w, op)
  {
    match op
    case Issue(p, seat, token, manual) =>
      w.(db := WithPass(w.db, p, Pass(seat.attendee, seat.event, Active, 1, token, manual)), issued := w.issued[p := seat])
    case Withdraw(p, status, version) => w.(db := WithPass(w.db, p, w.db.passes[p].(status := status, version := version)))
    case Refresh(p) => w.(db := WithPass(w.db, p, w.db.passes[p].(version := w.db.passes[p].version + 1)))
    case Reissue(p, token, manual) =>
      w.(db := WithPass(w.db, p, w.db.passes[p].(status := Active, version := w.db.passes[p].version + 1, token := token, manual := manual)))
    case Edit(live, events, confirmed, removed) =>
      w.(db := w.db.(live := live, events := events, confirmed := confirmed, removed := removed),
         exposed := w.exposed + NewlyExposed(w, live))
    case CheckHolds(r) => w.(calls := w.calls + {Checked(r)})
    case Lock(r, found, fails) => AfterLock(w, r, found, fails)
    case WriteCommitted(call) =>
      w.(ledger := w.ledger[call.pass := call.entry.(committed := true)], calls := w.calls - {call} + {Replying(call.key, call.scan)})
    case Reply(call) =>
      w.(calls := w.calls - {call},
         answered := if call.scan.outcome == Admitted && call.scan.pass.Some?
                     then w.answered + {Answer(call.scan.pass.value, call.key.actor, call.key.key)} else w.answered)
    case Crash(call) => w.(calls := w.calls - {call})
    case Backup => w.(backups := w.backups + [w.db])
    case Restore(i) => w.(db := w.backups[i], backups := w.backups[..i + 1], calls := {}, listed := {}, serving := false)
    case Quarantine => w.(db := Quarantined(w.db))
    case List(p) => w.(listed := w.listed + {(p, w.ledger[p])})
    case Apply(p, entry) => w.(db := Reconcile(w.db, p, entry), listed := w.listed - {(p, entry)})
    case Start(records) => w.(db := ReconcileAll(w.db, records), serving := true)
    case Resolve(p, fails) =>
      w.(ledger := w.ledger - {p},
         db := if fails then w.db else w.db.(holds := w.db.holds[p := Hold(UncertainAdmission, false)]))
  }

  function WithPass(db: Db, p: PassId, pass: Pass): Db {
    db.(passes := db.passes[p := pass])
  }

  /** The locked transaction; when its commit fails after the intent, only the intent remains. */
  ghost function AfterLock(w: World, r: Request, found: Option<PassId>, fails: bool): World
    requires Finds(w.db, r, found)
  {
    var rest := w.(calls := w.calls - {Checked(r)});
    if fails then
      var d := Decide(w.db, w.ledger, r, found);
      if d.Admit? then rest.(ledger := w.ledger[d.pass := d.entry]) else rest
    else
      match Locked(w.db, w.ledger, r, found)
      case Refused(_) => rest
      case Landed(db, ledger, call) => rest.(db := db, ledger := ledger, calls := rest.calls + {call})
  }

  /** A system before its first pass. */
  predicate Fresh(w: World) {
    && w.db.passes == map[] && w.db.admissions == map[] && w.db.scans == map[] && w.db.holds == map[] && w.ledger == map[]
    && w.backups == [] && w.calls == {} && w.listed == {} && w.answered == {} && w.issued == map[] && w.exposed == {}
  }

  ghost predicate Run(w: World, ops: seq<Op>, end: World)
    decreases |ops|
  {
    if ops == [] then end == w else Enabled(w, ops[0]) && Run(After(w, ops[0]), ops[1..], end)
  }

  // ---------- what every step keeps ----------

  predicate SameAttempt(a: Entry, b: Entry) {
    a.(committed := true) == b.(committed := true)
  }

  /** Every pass has the seat it was issued for, and no seat has two passes. */
  ghost predicate SeatsFit(db: Db, issued: map<PassId, Seat>) {
    && (forall p :: p in db.passes ==> p in issued && issued[p] == SeatOf(p, db.passes[p]))
    && (forall p, q :: p in db.passes && q in db.passes && SeatOf(p, db.passes[p]) == SeatOf(q, db.passes[q]) ==> p == q)
  }

  /** Used passes are those with an admission row, and the ledger records them. */
  ghost predicate UsesFit(db: Db, ledger: Ledger) {
    && (forall p :: p in db.admissions ==> p in UsedPasses(db))
    && (forall p :: p in UsedPasses(db) ==> Recorded(db, ledger, p))
  }

  ghost predicate ScansFit(db: Db, ledger: Ledger) {
    forall k :: k in db.scans && db.scans[k].outcome == Admitted ==> ScanFits(db, ledger, k, db.scans[k])
  }

  ghost predicate HoldsFit(db: Db) {
    forall p :: p in db.holds && (!db.holds[p].open || db.holds[p].reason == UncertainAdmission) ==> p in db.passes
  }

  /** One copy of the database agrees with the ledger. */
  ghost predicate Agrees(db: Db, ledger: Ledger, issued: map<PassId, Seat>) {
    SeatsFit(db, issued) && UsesFit(db, ledger) && ScansFit(db, ledger) && HoldsFit(db)
  }

  /** A used pass has its one admission, and the ledger records that same admission. */
  predicate Recorded(db: Db, ledger: Ledger, p: PassId) {
    && p in db.admissions && p in ledger
    && db.admissions[p] == Admission(ledger[p].admission, ledger[p].attendee, ledger[p].event)
  }

  predicate ScanFits(db: Db, ledger: Ledger, k: ScanKey, scan: Scan) {
    && scan.pass.Some? && scan.pass.value in UsedPasses(db)
    && scan.pass.value in ledger && ledger[scan.pass.value].actor == k.actor && ledger[scan.pass.value].key == k.key
  }

  ghost predicate LedgerFits(ledger: Ledger, issued: map<PassId, Seat>) {
    forall p :: p in ledger ==> p in issued && issued[p] == Seat(p.wedding, ledger[p].attendee, ledger[p].event)
  }

  predicate CallFits(db: Db, ledger: Ledger, call: Call) {
    match call
    case Checked(_) => true
    case Acknowledging(p, entry, key, scan) =>
      && p in UsedPasses(db) && p in ledger && SameAttempt(ledger[p], entry)
      && entry.actor == key.actor && entry.key == key.key && scan.pass == Some(p)
    case Replying(key, scan) =>
      scan.outcome == Admitted ==>
        scan.pass.Some? && scan.pass.value in UsedPasses(db) && Committed(ledger, scan.pass.value, key.actor, key.key)
  }

  predicate Committed(ledger: Ledger, p: PassId, actor: Id, key: Id) {
    p in ledger && ledger[p].committed && ledger[p].actor == actor && ledger[p].key == key
  }

  ghost predicate Listable(ledger: Ledger, issued: map<PassId, Seat>, p: PassId, entry: Entry) {
    && p in issued && issued[p] == Seat(p.wedding, entry.attendee, entry.event)
    && (entry.committed ==> p in ledger && ledger[p] == entry)
  }

  /** Later copies of the database know every pass and every use that earlier ones know. */
  ghost predicate Monotone(db: Db, backups: seq<Db>) {
    && (forall i, j :: 0 <= i < j < |backups| ==> UsedPasses(backups[i]) <= UsedPasses(backups[j]))
    && (forall i :: 0 <= i < |backups| ==> UsedPasses(backups[i]) <= UsedPasses(db))
    && (forall i, j :: 0 <= i < j < |backups| ==> backups[i].passes.Keys <= backups[j].passes.Keys)
    && (forall i :: 0 <= i < |backups| ==> backups[i].passes.Keys <= db.passes.Keys)
  }

  ghost predicate Safe(w: World) {
    && Agrees(w.db, w.ledger, w.issued)
    && (forall i :: 0 <= i < |w.backups| ==> Agrees(w.backups[i], w.ledger, w.issued))
    && Monotone(w.db, w.backups)
    && LedgerFits(w.ledger, w.issued)
    && (forall c :: c in w.calls ==> CallFits(w.db, w.ledger, c))
    && (forall r :: r in w.listed ==> Listable(w.ledger, w.issued, r.0, r.1))
    && (forall a :: a in w.answered ==> Committed(w.ledger, a.pass, a.actor, a.key))
  }

  /** The ledger may gain records and commit them; the attempt a known use refers to stays. */
  ghost predicate Grows(db: Db, before: Ledger, ledger: Ledger) {
    && (forall p :: p in UsedPasses(db) && p in before ==> p in ledger && SameAttempt(before[p], ledger[p]))
    && (forall p :: p in before && before[p].committed ==> p in ledger && ledger[p] == before[p])
  }

  lemma AgreesUnderGrowth(db: Db, before: Ledger, ledger: Ledger, issued: map<PassId, Seat>)
    requires Agrees(db, before, issued) && Grows(db, before, ledger)
    ensures Agrees(db, ledger, issued)
  {
    forall p | p in UsedPasses(db) ensures Recorded(db, ledger, p) {
      assert Recorded(db, before, p);
    }
    forall k | k in db.scans && db.scans[k].outcome == Admitted ensures ScanFits(db, ledger, k, db.scans[k]) {
      assert ScanFits(db, before, k, db.scans[k]);
    }
  }

  /** A ledger write leaves everything but the live database's own agreement in place. */
  lemma SafeUnderGrowth(w: World, v: World)
    requires Safe(w) && Grows(w.db, w.ledger, v.ledger)
    requires v.backups == w.backups && v.issued == w.issued && v.listed == w.listed && v.answered == w.answered
    requires UsedPasses(w.db) <= UsedPasses(v.db) && w.db.passes.Keys <= v.db.passes.Keys
    ensures forall i :: 0 <= i < |v.backups| ==> Agrees(v.backups[i], v.ledger, v.issued)
    ensures Monotone(v.db, v.backups)
    ensures forall c :: c in w.calls ==> CallFits(v.db, v.ledger, c)
    ensures forall r :: r in v.listed ==> Listable(v.ledger, v.issued, r.0, r.1)
    ensures forall a :: a in v.answered ==> Committed(v.ledger, a.pass, a.actor, a.key)
  {
    hide Agrees;
    forall i | 0 <= i < |v.backups| ensures Agrees(v.backups[i], v.ledger, v.issued) {
      assert UsedPasses(w.backups[i]) <= UsedPasses(w.db);
      assert Grows(w.backups[i], w.ledger, v.ledger);
      AgreesUnderGrowth(w.backups[i], w.ledger, v.ledger, v.issued);
    }
    forall c | c in w.calls ensures CallFits(v.db, v.ledger, c) {
      assert CallFits(w.db, w.ledger, c);
    }
    forall r | r in v.listed ensures Listable(v.ledger, v.issued, r.0, r.1) {
      assert Listable(w.ledger, w.issued, r.0, r.1);
    }
    forall a | a in v.answered ensures Committed(v.ledger, a.pass, a.actor, a.key) {
      assert Committed(w.ledger, a.pass, a.actor, a.key);
    }
  }

  /** Rows may change their status and version, as long as no pass becomes used or stops being so. */
  ghost predicate SameUses(db: Db, v: Db) {
    && v.admissions == db.admissions && v.scans == db.scans && v.holds == db.holds
    && v.passes.Keys == db.passes.Keys && UsedPasses(v) == UsedPasses(db)
    && forall p :: p in db.passes ==> SeatOf(p, v.passes[p]) == SeatOf(p, db.passes[p])
  }

  lemma AgreesUnderSameUses(db: Db, v: Db, ledger: Ledger, issued: map<PassId, Seat>)
    requires Agrees(db, ledger, issued) && SameUses(db, v)
    ensures Agrees(v, ledger, issued)
  {
    forall p | p in UsedPasses(v) ensures Recorded(v, ledger, p) {
      assert Recorded(db, ledger, p);
    }
    forall k | k in v.scans && v.scans[k].outcome == Admitted ensures ScanFits(v, ledger, k, v.scans[k]) {
      assert ScanFits(db, ledger, k, db.scans[k]);
    }
    forall p | p in v.passes ensures p in issued && issued[p] == SeatOf(p, v.passes[p]) {
      assert p in db.passes;
    }
    forall p | p in v.holds && !v.holds[p].open ensures p in v.passes {
      assert p in db.passes;
    }
  }

  /** Steps that only touch the status of unused rows. */
  lemma QuietStepSafe(w: World, v: World)
    requires Safe(w) && SameUses(w.db, v.db)
    requires v.ledger == w.ledger && v.backups == w.backups && v.issued == w.issued && v.listed == w.listed
    requires v.answered == w.answered && v.calls == w.calls
    ensures Safe(v)
  {
    AgreesUnderSameUses(w.db, v.db, w.ledger, w.issued);
    SafeUnderGrowth(w, v);
  }

  lemma IssuedAgrees(db: Db, ledger: Ledger, issued: map<PassId, Seat>, p: PassId, pass: Pass)
    requires Agrees(db, ledger, issued) && p !in issued && pass.status == Active
    requires forall q :: q in db.passes ==> SeatOf(q, db.passes[q]) != SeatOf(p, pass)
    ensures Agrees(WithPass(db, p, pass), ledger, issued[p := SeatOf(p, pass)])
    ensures UsedPasses(WithPass(db, p, pass)) == UsedPasses(db)
  {
    var v := WithPass(db, p, pass);
    assert p !in db.passes && UsedPasses(v) == UsedPasses(db);
    hide UsedPasses;
    forall q | q in UsedPasses(v) ensures Recorded(v, ledger, q) {
      assert Recorded(db, ledger, q);
    }
    forall k | k in v.scans && v.scans[k].outcome == Admitted ensures ScanFits(v, ledger, k, v.scans[k]) {
      assert ScanFits(db, ledger, k, db.scans[k]);
    }
  }

  lemma IssueSafe(w: World, op: Op)
    requires Safe(w) && Enabled(w, op) && op.Issue?
    ensures Safe(After(w, op))
  {
    var v, p := After(w, op), op.pass;
    IssuedAgrees(w.db, w.ledger, w.issued, p, Pass(op.seat.attendee, op.seat.event, Active, 1, op.token, op.manual));
    assert v.issued == w.issued[p := op.seat] && p !in w.issued && v.ledger == w.ledger && v.backups == w.backups;
    hide Agrees, After, Enabled;
    forall i | 0 <= i < |w.backups| ensures Agrees(v.backups[i], v.ledger, v.issued) {
      AgreesUnderIssue(w.backups[i], w.ledger, w.issued, v.issued);
    }
    SafeUnderGrowth(w, w.(db := v.db));
    forall r | r in v.listed ensures Listable(v.ledger, v.issued, r.0, r.1) {
      assert Listable(w.ledger, w.issued, r.0, r.1);
    }
  }

  lemma AgreesUnderIssue(db: Db, ledger: Ledger, before: map<PassId, Seat>, issued: map<PassId, Seat>)
    requires Agrees(db, ledger, before) && forall p :: p in before ==> p in issued && issued[p] == before[p]
    ensures Agrees(db, ledger, issued)
  {
  }

  lemma LockSafe(w: World, op: Op)
    requires Safe(w) && Enabled(w, op) && op.Lock?
    ensures Safe(After(w, op))
  {
    var r, found := op.request, op.found;
    var d := Decide(w.db, w.ledger, r, found);
    match d
    case Refuse(_) =>
    case Replay(scan) => ReplaySafe(w, op, scan);
    case Note(scan) => NoteSafe(w, op, scan);
    case Admit(p, entry) => AdmitSafe(w, op, p, entry);
  }

  lemma ReplaySafe(w: World, op: Op, scan: Scan)
    requires Safe(w) && Enabled(w, op) && op.Lock? && Decide(w.db, w.ledger, op.request, op.found) == Replay(scan)
    ensures Safe(After(w, op))
  {
    hide Reconcile, Discardable, OpenHold, Lists;
    var k := KeyOf(op.request);
    if scan.outcome == Admitted {
      assert ScanFits(w.db, w.ledger, k, w.db.scans[k]);
    }
    assert CallFits(w.db, w.ledger, Resume(w.ledger, k, scan));
  }

  lemma NotedAgrees(db: Db, ledger: Ledger, issued: map<PassId, Seat>, k: ScanKey, scan: Scan)
    requires Agrees(db, ledger, issued) && scan.outcome != Admitted
    ensures Agrees(db.(scans := db.scans[k := scan]), ledger, issued)
    ensures UsedPasses(db.(scans := db.scans[k := scan])) == UsedPasses(db)
  {
    var v := db.(scans := db.scans[k := scan]);
    assert UsedPasses(v) == UsedPasses(db);
    hide UsedPasses;
    forall p | p in UsedPasses(v) ensures Recorded(v, ledger, p) {
      assert Recorded(db, ledger, p);
    }
    forall j | j in v.scans && v.scans[j].outcome == Admitted ensures ScanFits(v, ledger, j, v.scans[j]) {
      assert ScanFits(db, ledger, j, db.scans[j]);
    }
  }

  lemma NoteSafe(w: World, op: Op, scan: Scan)
    requires Safe(w) && Enabled(w, op) && op.Lock? && Decide(w.db, w.ledger, op.request, op.found) == Note(scan)
    ensures Safe(After(w, op))
  {
    var v, k := After(w, op), KeyOf(op.request);
    assert scan.outcome != Admitted;
    hide Decide, Finds, Agrees, UsedPasses;
    NotedAgrees(w.db, w.ledger, w.issued, k, scan);
    if op.fails {
      assert v == w.(calls := w.calls - {Checked(op.request)});
    } else {
      assert v == w.(db := w.db.(scans := w.db.scans[k := scan]), calls := w.calls - {Checked(op.request)} + {Replying(k, scan)});
    }
    hide After, Enabled;
    SafeUnderGrowth(w, v);
  }

  /** Writing an intent for an unused pass disturbs no known use: a new record is written only where
      there was none, and an old one is taken up with the same attempt. */
  lemma IntentGrows(w: World, r: Request, found: Option<PassId>, p: PassId, entry: Entry)
    requires Safe(w) && Finds(w.db, r, found) && Decide(w.db, w.ledger, r, found) == Admit(p, entry)
    ensures Grows(w.db, w.ledger, w.ledger[p := entry])
    ensures p in w.db.passes && w.db.passes[p].status == Active && LedgerFits(w.ledger[p := entry], w.issued)
    ensures forall i :: 0 <= i < |w.backups| ==> p !in UsedPasses(w.backups[i])
    ensures entry.attendee == w.db.passes[p].attendee && entry.event == w.db.passes[p].event == r.event
    ensures entry.actor == r.actor && entry.key == r.key && !entry.committed && p.wedding == r.wedding
  {
    assert p !in UsedPasses(w.db);
    forall i | 0 <= i < |w.backups| ensures p !in UsedPasses(w.backups[i]) {
      assert UsedPasses(w.backups[i]) <= UsedPasses(w.db);
    }
  }

  lemma AdmitSafe(w: World, op: Op, p: PassId, entry: Entry)
    requires Safe(w) && Enabled(w, op) && op.Lock? && Decide(w.db, w.ledger, op.request, op.found) == Admit(p, entry)
    ensures Safe(After(w, op))
  {
    hide Decide, Finds, Agrees, Reconcile, Discardable;
    IntentGrows(w, op.request, op.found, p, entry);
    var v, k := After(w, op), KeyOf(op.request);
    AgreesUnderGrowth(w.db, w.ledger, w.ledger[p := entry], w.issued);
    if op.fails {
      assert v == w.(calls := w.calls - {Checked(op.request)}, ledger := w.ledger[p := entry]);
      hide After, Enabled, Grows;
      SafeUnderGrowth(w, v);
    } else {
      var scan := Scan(op.request.input, Admitted, Some(p));
      var call := Acknowledging(p, entry, k, scan);
      assert v == w.(db := MarkUsed(w.db, p, entry).(scans := w.db.scans[k := scan]), ledger := w.ledger[p := entry],
                     calls := w.calls - {Checked(op.request)} + {call});
      hide After, Enabled, Grows;
      AdmitAgrees(w.db, w.ledger[p := entry], w.issued, p, entry, k, scan);
      SafeUnderGrowth(w, v);
      assert CallFits(v.db, v.ledger, call);
    }
  }

  lemma AdmitUses(db: Db, ledger: Ledger, p: PassId, entry: Entry)
    requires UsesFit(db, ledger) && p in db.passes && p in ledger && ledger[p] == entry
    ensures UsesFit(MarkUsed(db, p, entry), ledger) && UsedPasses(MarkUsed(db, p, entry)) == UsedPasses(db) + {p}
  {
    var v := MarkUsed(db, p, entry);
    assert UsedPasses(v) == UsedPasses(db) + {p};
    hide UsedPasses;
    forall q | q in UsedPasses(v) ensures Recorded(v, ledger, q) {
      assert q != p ==> Recorded(db, ledger, q);
    }
  }

  lemma AdmitAgrees(db: Db, ledger: Ledger, issued: map<PassId, Seat>, p: PassId, entry: Entry, k: ScanKey, scan: Scan)
    requires Agrees(db, ledger, issued) && p in db.passes && db.passes[p].status == Active
    requires p in ledger && ledger[p] == entry && entry.actor == k.actor && entry.key == k.key && scan.pass == Some(p)
    ensures Agrees(MarkUsed(db, p, entry).(scans := db.scans[k := scan]), ledger, issued)
    ensures UsedPasses(MarkUsed(db, p, entry).(scans := db.scans[k := scan])) == UsedPasses(db) + {p}
  {
    var marked := MarkUsed(db, p, entry);
    var v := marked.(scans := db.scans[k := scan]);
    AdmitUses(db, ledger, p, entry);
    assert UsedPasses(v) == UsedPasses(marked);
    hide UsedPasses;
    forall q | q in UsedPasses(v) ensures Recorded(v, ledger, q) {
      assert Recorded(marked, ledger, q);
    }
    hide UsesFit;
    AdmitScans(db, v, ledger, p, k, scan);
  }

  lemma AdmitScans(db: Db, v: Db, ledger: Ledger, p: PassId, k: ScanKey, scan: Scan)
    requires ScansFit(db, ledger) && v.scans == db.scans[k := scan] && UsedPasses(v) == UsedPasses(db) + {p}
    requires p in ledger && ledger[p].actor == k.actor && ledger[p].key == k.key && scan.pass == Some(p)
    ensures ScansFit(v, ledger)
  {
    hide UsedPasses;
    forall j | j in v.scans && v.scans[j].outcome == Admitted ensures ScanFits(v, ledger, j, v.scans[j]) {
      if j != k {
        assert ScanFits(db, ledger, j, db.scans[j]);
      }
    }
  }

  lemma WriteCommittedSafe(w: World, op: Op)
    requires Safe(w) && Enabled(w, op) && op.WriteCommitted?
    ensures Safe(After(w, op))
  {
    hide Finds, Decide, Locked, Reconcile, Discardable;
    var v, c := After(w, op), op.call;
    assert CallFits(w.db, w.ledger, c);
    assert v == w.(ledger := w.ledger[c.pass := c.entry.(committed := true)], calls := w.calls - {c} + {Replying(c.key, c.scan)});
    hide After, Enabled;
    assert Grows(w.db, w.ledger, v.ledger);
    AgreesUnderGrowth(w.db, w.ledger, v.ledger, w.issued);
    hide Agrees;
    SafeUnderGrowth(w, v);
  }

  lemma RestoreSafe(w: World, op: Op)
    requires Safe(w) && Enabled(w, op) && op.Restore?
    ensures Safe(After(w, op))
  {
    hide Agrees;
    var v := After(w, op);
    forall i | 0 <= i < |v.backups| ensures UsedPasses(v.backups[i]) <= UsedPasses(v.db) {
      if i < op.index {
        assert UsedPasses(w.backups[i]) <= UsedPasses(w.backups[op.index]);
      }
    }
  }

  lemma HeldAgrees(db: Db, ledger: Ledger, issued: map<PassId, Seat>, p: PassId, reason: Reason)
    requires Agrees(db, ledger, issued) && (reason == UncertainAdmission ==> p in db.passes)
    ensures Agrees(Held(db, p, reason), ledger, issued) && UsedPasses(Held(db, p, reason)) == UsedPasses(db)
  {
    var v := Held(db, p, reason);
    assert UsedPasses(v) == UsedPasses(db);
    hide UsedPasses;
    forall q | q in UsedPasses(v) ensures Recorded(v, ledger, q) {
      assert Recorded(db, ledger, q);
    }
    forall k | k in v.scans && v.scans[k].outcome == Admitted ensures ScanFits(v, ledger, k, v.scans[k]) {
      assert ScanFits(db, ledger, k, db.scans[k]);
    }
  }

  lemma ReplayedUses(db: Db, ledger: Ledger, p: PassId, version: nat)
    requires UsesFit(db, ledger) && p in db.passes && p in ledger
    ensures var v := Replayed(db, p, ledger[p], version);
            UsesFit(v, ledger) && UsedPasses(v) == UsedPasses(db) + {p}
  {
    var v := Replayed(db, p, ledger[p], version);
    assert UsedPasses(v) == UsedPasses(db) + {p};
    hide UsedPasses;
    forall q | q in UsedPasses(v) ensures Recorded(v, ledger, q) {
      assert q != p ==> Recorded(db, ledger, q);
    }
  }

  lemma ScansUnderUses(db: Db, v: Db, ledger: Ledger)
    requires ScansFit(db, ledger) && v.scans == db.scans && UsedPasses(db) <= UsedPasses(v)
    ensures ScansFit(v, ledger)
  {
    hide UsedPasses;
    forall k | k in v.scans && v.scans[k].outcome == Admitted ensures ScanFits(v, ledger, k, v.scans[k]) {
      assert ScanFits(db, ledger, k, db.scans[k]);
    }
  }

  lemma ReplayAgrees(db: Db, ledger: Ledger, issued: map<PassId, Seat>, p: PassId, version: nat)
    requires Agrees(db, ledger, issued) && p in db.passes && p in ledger
    ensures var v := Replayed(db, p, ledger[p], version);
            Agrees(v, ledger, issued) && UsedPasses(v) == UsedPasses(db) + {p}
  {
    hide UsesFit, ScansFit, UsedPasses;
    var v := Replayed(db, p, ledger[p], version);
    ReplayedUses(db, ledger, p, version);
    ScansUnderUses(db, v, ledger);
  }

  function Replayed(db: Db, p: PassId, entry: Entry, version: nat): Db
    requires p in db.passes
  {
    db.(passes := db.passes[p := db.passes[p].(status := Used, version := version)],
        admissions := db.admissions[p := Admission(entry.admission, entry.attendee, entry.event)])
  }

  lemma RowFacts(db: Db, ledger: Ledger, issued: map<PassId, Seat>, p: PassId)
    requires Agrees(db, ledger, issued)
    ensures p in db.passes ==> p in issued && issued[p] == SeatOf(p, db.passes[p])
    ensures p in db.admissions ==> p in db.passes && db.passes[p].status == Used
  {
  }

  /** Reconciling a record, however long ago it was read, keeps the database in agreement. */
  lemma ReconcileAgrees(db: Db, ledger: Ledger, issued: map<PassId, Seat>, p: PassId, entry: Entry)
    requires Agrees(db, ledger, issued) && Listable(ledger, issued, p, entry)
    ensures Agrees(Reconcile(db, p, entry), ledger, issued)
    ensures UsedPasses(db) <= UsedPasses(Reconcile(db, p, entry)) <= UsedPasses(db) + {p}
    ensures Reconcile(db, p, entry).passes.Keys == db.passes.Keys
  {
    hide Agrees, UsedPasses;
    RowFacts(db, ledger, issued, p);
    if p.wedding in db.live && p !in db.passes {
      HeldAgrees(db, ledger, issued, p, MissingLineage);
    } else if p.wedding in db.live && db.passes[p].status != Used {
      if entry.committed {
        ReplayAgrees(db, ledger, issued, p, Max(db.passes[p].version, entry.passVersion + 1));
      } else {
        HeldAgrees(db, ledger, issued, p, UncertainAdmission);
      }
    }
  }

  lemma {:induction false} ReconcileAllAgrees(db: Db, ledger: Ledger, issued: map<PassId, Seat>, records: Listing)
    requires Agrees(db, ledger, issued) && forall i :: 0 <= i < |records| ==> Listable(ledger, issued, records[i].0, records[i].1)
    ensures Agrees(ReconcileAll(db, records), ledger, issued)
    ensures UsedPasses(db) <= UsedPasses(ReconcileAll(db, records)) && ReconcileAll(db, records).passes.Keys == db.passes.Keys
  {
    hide Agrees, Reconcile, Listable;
    if records != [] {
      var last := |records| - 1;
      ReconcileAllAgrees(db, ledger, issued, records[..last]);
      assert Listable(ledger, issued, records[last].0, records[last].1);
      ReconcileAgrees(ReconcileAll(db, records[..last]), ledger, issued, records[last].0, records[last].1);
    }
  }

  lemma ApplySafe(w: World, op: Op)
    requires Safe(w) && Enabled(w, op) && op.Apply?
    ensures Safe(After(w, op))
  {
    var v := After(w, op);
    assert Listable(w.ledger, w.issued, op.pass, op.entry);
    ReconcileAgrees(w.db, w.ledger, w.issued, op.pass, op.entry);
    SafeUnderGrowth(w, v.(listed := w.listed));
  }

  lemma StartSafe(w: World, op: Op)
    requires Safe(w) && Enabled(w, op) && op.Start?
    ensures Safe(After(w, op))
  {
    var v, records := After(w, op), op.records;
    forall i | 0 <= i < |records| ensures Listable(w.ledger, w.issued, records[i].0, records[i].1) {
    }
    ReconcileAllAgrees(w.db, w.ledger, w.issued, records);
    SafeUnderGrowth(w, v);
  }

  lemma HoldResolved(db: Db, ledger: Ledger, issued: map<PassId, Seat>, p: PassId)
    requires Agrees(db, ledger, issued) && p in db.passes
    ensures var v := db.(holds := db.holds[p := Hold(UncertainAdmission, false)]);
            Agrees(v, ledger, issued) && UsedPasses(v) == UsedPasses(db)
  {
    var v := db.(holds := db.holds[p := Hold(UncertainAdmission, false)]);
    assert UsedPasses(v) == UsedPasses(db);
    hide UsedPasses;
    forall q | q in UsedPasses(v) ensures Recorded(v, ledger, q) {
      assert Recorded(db, ledger, q);
    }
    forall k | k in v.scans && v.scans[k].outcome == Admitted ensures ScanFits(v, ledger, k, v.scans[k]) {
      assert ScanFits(db, ledger, k, db.scans[k]);
    }
  }

  lemma ResolveSafe(w: World, op: Op)
    requires Safe(w) && Enabled(w, op) && op.Resolve?
    ensures Safe(After(w, op))
  {
    hide Finds, Decide, Locked, Reconcile, Agrees;
    var v, p := After(w, op), op.pass;
    assert p !in UsedPasses(w.db) && p in w.db.passes;
    assert v == w.(ledger := w.ledger - {p}, db := if op.fails then w.db else w.db.(holds := w.db.holds[p := Hold(UncertainAdmission, false)]));
    assert p in w.ledger ==> !w.ledger[p].committed;
    hide After, Enabled, UsedPasses, Discardable;
    assert Grows(w.db, w.ledger, v.ledger);
    AgreesUnderGrowth(w.db, w.ledger, v.ledger, w.issued);
    HoldResolved(w.db, v.ledger, w.issued, p);
    SafeUnderGrowth(w, v);
  }

  predicate Easy(op: Op) {
    op.Withdraw? || op.Refresh? || op.Reissue? || op.Edit? || op.Quarantine?
  }

  lemma EasySteps(w: World, op: Op)
    requires Enabled(w, op) && Easy(op)
    ensures var v := After(w, op);
      && SameUses(w.db, v.db)
      && v.ledger == w.ledger && v.backups == w.backups && v.issued == w.issued && v.listed == w.listed
      && v.answered == w.answered && v.calls == w.calls
  {
    hide Finds, Decide, Locked, Reconcile, Discardable, OpenHold;
    assert UsedPasses(After(w, op).db) == UsedPasses(w.db);
  }

  lemma EasyStepsSafe(w: World, op: Op)
    requires Safe(w) && Enabled(w, op) && Easy(op)
    ensures Safe(After(w, op))
  {
    hide Safe, After, Enabled, SameUses;
    EasySteps(w, op);
    QuietStepSafe(w, After(w, op));
  }

  lemma ReplySafe(w: World, op: Op)
    requires Safe(w) && Enabled(w, op) && op.Reply?
    ensures Safe(After(w, op))
  {
    hide Agrees, LedgerFits, Monotone;
    assert CallFits(w.db, w.ledger, op.call);
  }

  lemma SmallStepsSafe(w: World, op: Op)
    requires Safe(w) && Enabled(w, op) && (op.Backup? || op.CheckHolds? || op.Crash? || op.List?)
    ensures Safe(After(w, op))
  {
    hide Agrees, UsedPasses;
  }

  lemma StepSafe(w: World, op: Op)
    requires Safe(w) && Enabled(w, op)
    ensures Safe(After(w, op))
  {
    hide Safe, After, Enabled;
    match op {
      case Issue(_, _, _, _) => IssueSafe(w, op);
      case Lock(_, _, _) => LockSafe(w, op);
      case WriteCommitted(_) => WriteCommittedSafe(w, op);
      case Restore(_) => RestoreSafe(w, op);
      case Apply(_, _) => ApplySafe(w, op);
      case Start(_) => StartSafe(w, op);
      case Resolve(_, _) => ResolveSafe(w, op);
      case Withdraw(_, _, _) => EasyStepsSafe(w, op);
      case Refresh(_) => EasyStepsSafe(w, op);
      case Reissue(_, _, _) => EasyStepsSafe(w, op);
      case Edit(_, _, _, _) => EasyStepsSafe(w, op);
      case Quarantine => EasyStepsSafe(w, op);
      case Reply(_) => ReplySafe(w, op);
      case Backup => SmallStepsSafe(w, op);
      case CheckHolds(_) => SmallStepsSafe(w, op);
      case Crash(_) => SmallStepsSafe(w, op);
      case List(_) => SmallStepsSafe(w, op);
    }
  }
}
