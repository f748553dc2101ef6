/** What holds of every run of the admission protocol. */
module AdmissionTheorems {
  import opened Options
  import opened Seqs
  import opened Admission
  import opened AdmissionRuns

  lemma {:induction false} RunSafe(w: World, ops: seq<Op>, end: World)
    requires Safe(w) && Run(w, ops, end)
    ensures Safe(end)
    decreases |ops|
  {
    hide Safe, Enabled, After;
    if ops != [] {
      StepSafe(w, ops[0]);
      RunSafe(After(w, ops[0]), ops[1..], end);
    }
  }

  lemma FreshSafe(w: World)
    requires Fresh(w)
    ensures Safe(w)
  {
  }

  // ---------- at most one admission per pass ----------

  /** However calls crash, time passes and the database is rolled back, at most one operation of one
      actor is ever told 'admitted' for a pass, and the ledger says so. */
  lemma AtMostOneAdmission(w: World, ops: seq<Op>, end: World, a: Answer, b: Answer)
    requires Fresh(w) && Run(w, ops, end)
    requires a in end.answered && b in end.answered && a.pass == b.pass
    ensures a == b && Committed(end.ledger, a.pass, a.actor, a.key)
  {
    FreshSafe(w);
    RunSafe(w, ops, end);
  }

  /** In the live database and in every retained backup, a used pass has one admission row, no other
      pass has one, and the ledger's record names the same admission, attendee and event. */
  lemma LedgerAndDatabasesAgree(w: World, ops: seq<Op>, end: World, db: Db, p: PassId)
    requires Fresh(w) && Run(w, ops, end)
    requires db == end.db || db in end.backups
    ensures p in db.admissions <==> p in db.passes && db.passes[p].status == Used
    ensures p in db.admissions ==>
      && p in end.ledger
      && db.admissions[p] == Admission(end.ledger[p].admission, db.passes[p].attendee, db.passes[p].event)
      && end.ledger[p].attendee == db.passes[p].attendee && end.ledger[p].event == db.passes[p].event
  {
    FreshSafe(w);
    RunSafe(w, ops, end);
    assert Agrees(db, end.ledger, end.issued);
    assert p in db.passes && db.passes[p].status == Used ==> p in UsedPasses(db);
    assert p in UsedPasses(db) ==> Recorded(db, end.ledger, p);
  }

  lemma LockCommitted(w: World, op: Op, p: PassId)
    requires Enabled(w, op) && op.Lock? && p in w.ledger && w.ledger[p].committed
    ensures p in After(w, op).ledger && After(w, op).ledger[p] == w.ledger[p]
  {
    hide Finds, Reconcile, Discardable;
    var d := Decide(w.db, w.ledger, op.request, op.found);
    assert d.Admit? ==> d.pass != p;
    hide Decide;
  }

  lemma CommittedStep(w: World, op: Op, p: PassId)
    requires Safe(w) && Enabled(w, op) && p in w.ledger && w.ledger[p].committed
    ensures p in After(w, op).ledger && After(w, op).ledger[p] == w.ledger[p]
  {
    hide Agrees, Finds, Decide, Locked, Reconcile, AfterLock;
    if op.Lock? {
      LockCommitted(w, op, p);
    } else if op.WriteCommitted? {
      assert CallFits(w.db, w.ledger, op.call);
    }
  }

  /** A committed record never changes, reverts to an intent or disappears. */
  lemma {:induction false} CommittedForever(w: World, ops: seq<Op>, end: World, p: PassId)
    requires Safe(w) && Run(w, ops, end) && p in w.ledger && w.ledger[p].committed
    ensures p in end.ledger && end.ledger[p] == w.ledger[p]
    decreases |ops|
  {
    hide Safe, Enabled, After;
    if ops != [] {
      StepSafe(w, ops[0]);
      CommittedStep(w, ops[0], p);
      CommittedForever(After(w, ops[0]), ops[1..], end, p);
    }
  }

  lemma LockUses(w: World, op: Op)
    requires Safe(w) && Enabled(w, op) && op.Lock?
    ensures UsedPasses(w.db) <= UsedPasses(After(w, op).db)
  {
    hide Safe, Finds, Reconcile, Discardable;
  }

  lemma RecoveryUses(w: World, op: Op)
    requires Safe(w) && Enabled(w, op) && (op.Apply? || op.Start?)
    ensures UsedPasses(w.db) <= UsedPasses(After(w, op).db)
  {
    hide Agrees, UsedPasses, Finds, Decide;
    if op.Apply? {
      assert Listable(w.ledger, w.issued, op.pass, op.entry);
      ReconcileAgrees(w.db, w.ledger, w.issued, op.pass, op.entry);
    } else {
      forall i | 0 <= i < |op.records| ensures Listable(w.ledger, w.issued, op.records[i].0, op.records[i].1) {
      }
      ReconcileAllAgrees(w.db, w.ledger, w.issued, op.records);
    }
  }

  lemma OtherUses(w: World, op: Op)
    requires Enabled(w, op) && (op.Edit? || op.CheckHolds? || op.WriteCommitted? || op.Resolve?)
    ensures UsedPasses(w.db) <= UsedPasses(After(w, op).db)
  {
    hide Finds, Decide, Reconcile, AfterLock;
  }

  lemma UsedStep(w: World, op: Op)
    requires Safe(w) && Enabled(w, op) && !op.Restore?
    ensures UsedPasses(w.db) <= UsedPasses(After(w, op).db)
  {
    hide Safe, Enabled, After, UsedPasses;
    if op.Lock? {
      LockUses(w, op);
    } else if op.Apply? || op.Start? {
      RecoveryUses(w, op);
    } else if Uninvolved(op) {
      UninvolvedKeeps(w, op);
    } else {
      OtherUses(w, op);
    }
  }

  /** Without a restore, a used pass stays used. */
  lemma {:induction false} UsedUntilRestored(w: World, ops: seq<Op>, end: World)
    requires Safe(w) && Run(w, ops, end) && forall op :: op in ops ==> !op.Restore?
    ensures UsedPasses(w.db) <= UsedPasses(end.db)
    decreases |ops|
  {
    hide Safe, Enabled, After, UsedPasses;
    if ops != [] {
      StepSafe(w, ops[0]);
      UsedStep(w, ops[0]);
      UsedUntilRestored(After(w, ops[0]), ops[1..], end);
    }
  }

  // ---------- recovery ----------

  /** What reconciling leaves as it finds it. */
  predicate Settled(db: Db, p: PassId, entry: Entry) {
    || p.wedding !in db.live
    || if p !in db.passes || SeatOf(p, db.passes[p]) != Seat(p.wedding, entry.attendee, entry.event) then p in db.holds
       else db.passes[p].status == Used || (!entry.committed && p in db.holds)
  }

  lemma SettledIsFixed(db: Db, p: PassId, entry: Entry)
    ensures Reconcile(db, p, entry) == db <==> Settled(db, p, entry)
    ensures Settled(Reconcile(db, p, entry), p, entry)
  {
    var v := Reconcile(db, p, entry);
    if !Settled(db, p, entry) {
      if p in db.passes && SeatOf(p, db.passes[p]) == Seat(p.wedding, entry.attendee, entry.event) && entry.committed {
        assert v.passes[p] != db.passes[p];
      } else {
        assert p in v.holds;
      }
    }
  }

  lemma SettledStays(db: Db, p: PassId, entry: Entry, q: PassId, other: Entry)
    requires Settled(db, p, entry) && (p == q ==> entry == other)
    ensures Settled(Reconcile(db, q, other), p, entry)
  {
  }

  lemma {:induction false} AllSettled(db: Db, records: Listing, i: nat)
    requires i < |records|
    requires forall j, k :: 0 <= j < |records| && 0 <= k < |records| && records[j].0 == records[k].0 ==> records[j].1 == records[k].1
    ensures Settled(ReconcileAll(db, records), records[i].0, records[i].1)
    decreases |records|
  {
    hide Settled, Reconcile;
    var last, front := |records| - 1, ReconcileAll(db, records[..|records| - 1]);
    SettledIsFixed(front, records[last].0, records[last].1);
    if i < last {
      AllSettled(db, records[..last], i);
      SettledStays(front, records[i].0, records[i].1, records[last].0, records[last].1);
    }
  }

  lemma {:induction false} SettledUnchanged(db: Db, records: Listing)
    requires forall i :: 0 <= i < |records| ==> Settled(db, records[i].0, records[i].1)
    ensures ReconcileAll(db, records) == db
    decreases |records|
  {
    hide Settled, Reconcile;
    if records != [] {
      var last := |records| - 1;
      SettledUnchanged(db, records[..last]);
      SettledIsFixed(db, records[last].0, records[last].1);
    }
  }

  lemma ReconcileRows(db: Db, q: PassId, entry: Entry)
    ensures Reconcile(db, q, entry).live == db.live && Reconcile(db, q, entry).passes.Keys == db.passes.Keys
  {
    var v := Reconcile(db, q, entry);
    if q in db.passes {
      assert forall p :: p in v.passes <==> p in db.passes;
    }
  }

  /** Reconciling never touches an existing hold, opens every hold it places, and marks a pass used
      only for a committed record. */
  lemma ReconcileEffect(db: Db, q: PassId, entry: Entry, p: PassId)
    ensures var v := Reconcile(db, q, entry);
            && v.live == db.live && v.passes.Keys == db.passes.Keys
            && (p in db.holds ==> p in v.holds && v.holds[p] == db.holds[p])
            && (p !in db.holds && p in v.holds ==> v.holds[p].open)
            && (!IsUsed(db, p) && (p == q ==> !entry.committed) ==> !IsUsed(v, p))
  {
    ReconcileRows(db, q, entry);
    ReconcileUses(db, q, entry, p);
    hide IsUsed;
  }

  lemma ReconcileUses(db: Db, q: PassId, entry: Entry, p: PassId)
    ensures !IsUsed(db, p) && (p == q ==> !entry.committed) ==> !IsUsed(Reconcile(db, q, entry), p)
  {
  }

  predicate IsUsed(db: Db, p: PassId) {
    p in db.passes && db.passes[p].status == Used
  }

  lemma {:induction false} ReconcileAllEffect(db: Db, records: Listing, p: PassId)
    ensures var v := ReconcileAll(db, records);
            && v.live == db.live && v.passes.Keys == db.passes.Keys
            && (p in db.holds ==> p in v.holds && v.holds[p] == db.holds[p])
            && (p !in db.holds && p in v.holds ==> v.holds[p].open)
            && (!IsUsed(db, p) && (forall i :: 0 <= i < |records| && records[i].0 == p ==> !records[i].1.committed) ==> !IsUsed(v, p))
    decreases |records|
  {
    hide Reconcile, IsUsed;
    if records != [] {
      var last := |records| - 1;
      ReconcileAllEffect(db, records[..last], p);
      ReconcileEffect(ReconcileAll(db, records[..last]), records[last].0, records[last].1, p);
    }
  }

  /** After a restart every committed record of a live wedding has its pass used with the recorded
      admission, or an open hold keeps the whole wedding from redeeming; and recovering again changes
      nothing, whatever order the ledger is listed in. */
  lemma RecoveryConverges(w: World, records: Listing, again: Listing)
    requires Safe(w) && Enabled(w, Start(records)) && Lists(again, w.ledger)
    ensures var v := After(w, Start(records));
            && ReconcileAll(v.db, again) == v.db
            && forall p :: p in w.ledger && p.wedding in v.db.live && w.ledger[p].committed ==>
                 || (p in UsedPasses(v.db) && p in v.db.admissions && v.db.admissions[p].id == w.ledger[p].admission)
                 || forall r: Request :: r.wedding == p.wedding ==> !Enabled(v, CheckHolds(r))
  {
    var v := After(w, Start(records));
    StepSafe(w, Start(records));
    assert forall p :: p in w.ledger ==> Settled(v.db, p, w.ledger[p]) by { StartSettles(w, records); }
    hide Safe, Agrees, Settled, ReconcileAll;
    forall i | 0 <= i < |again| ensures Settled(v.db, again[i].0, again[i].1) {
    }
    SettledUnchanged(v.db, again);
    forall p | p in w.ledger && p.wedding in v.db.live && w.ledger[p].committed
      ensures || (p in UsedPasses(v.db) && p in v.db.admissions && v.db.admissions[p].id == w.ledger[p].admission)
              || forall r: Request :: r.wedding == p.wedding ==> !Enabled(v, CheckHolds(r)) {
      CommittedSettles(v, p);
    }
  }

  lemma StartSettles(w: World, records: Listing)
    requires Lists(records, w.ledger)
    ensures forall p :: p in w.ledger ==> Settled(ReconcileAll(w.db, records), p, w.ledger[p])
  {
    hide Settled, ReconcileAll;
    forall p | p in w.ledger ensures Settled(ReconcileAll(w.db, records), p, w.ledger[p]) {
      var i :| 0 <= i < |records| && records[i] == (p, w.ledger[p]);
      AllSettled(w.db, records, i);
    }
  }

  lemma CommittedSettles(v: World, p: PassId)
    requires Safe(v) && p in v.ledger && v.ledger[p].committed && p.wedding in v.db.live && Settled(v.db, p, v.ledger[p])
    ensures || (p in UsedPasses(v.db) && p in v.db.admissions && v.db.admissions[p].id == v.ledger[p].admission)
            || forall r: Request :: r.wedding == p.wedding ==> !Enabled(v, CheckHolds(r))
  {
    if p in v.db.passes {
      assert v.issued[p] == SeatOf(p, v.db.passes[p]) == Seat(p.wedding, v.ledger[p].attendee, v.ledger[p].event);
      assert p in UsedPasses(v.db) ==> Recorded(v.db, v.ledger, p);
    } else {
      assert v.db.holds[p].open;
      assert OpenHold(v.db, p.wedding);
    }
  }

  /** An uncertain intent is held after a restart exactly if no hold of that pass was resolved before:
      the hold row is inserted at most once, so a resolved one is not opened again. */
  lemma IntentHeldIff(w: World, records: Listing, p: PassId)
    requires Safe(w) && Enabled(w, Start(records))
    requires p in w.ledger && !w.ledger[p].committed && p.wedding in w.db.live
    requires p in w.db.passes && w.db.passes[p].status != Used
    ensures var v := After(w, Start(records)).db;
            && p in v.passes && v.passes[p].status != Used
            && (p in v.holds && v.holds[p].open <==> !(p in w.db.holds && !w.db.holds[p].open))
  {
    StartSettles(w, records);
    StepSafe(w, Start(records));
    ReconcileAllEffect(w.db, records, p);
    var v := After(w, Start(records));
    assert !IsUsed(w.db, p) && !IsUsed(v.db, p);
    assert v.issued[p] == SeatOf(p, v.db.passes[p]) == Seat(p.wedding, w.ledger[p].attendee, w.ledger[p].event);
  }

  // ---------- runs, one step at a time ----------

  lemma {:induction false} RunSnoc(w: World, ops: seq<Op>, mid: World, op: Op)
    requires Run(w, ops, mid) && Enabled(mid, op)
    ensures Run(w, ops + [op], After(mid, op))
    decreases |ops|
  {
    hide Enabled, After;
    if ops == [] {
      assert Run(After(w, op), [], After(w, op));
      assert [op][1..] == [];
      assert ops + [op] == [op];
    } else {
      RunSnoc(After(w, ops[0]), ops[1..], mid, op);
      assert (ops + [op])[1..] == ops[1..] + [op];
    }
  }

  // ---------- at most one admission per seat ----------

  /** Two passes issued for one seat, the first admitted and the second in ledger and database. */
  ghost predicate Claims(w: World, a: Answer, q: PassId) {
    && a in w.answered && a.pass in w.issued && q in w.issued && w.issued[a.pass] == w.issued[q]
    && w.issued[a.pass].wedding !in w.exposed && q in w.ledger && q in w.db.passes
  }

  ghost predicate Doubles(w: World, a: Answer, b: Answer) {
    && a in w.answered && b in w.answered && a.pass in w.issued && b.pass in w.issued
    && w.issued[a.pass] == w.issued[b.pass] && w.issued[a.pass].wedding !in w.exposed
  }

  /** Outside exposed weddings: while serving, every admitted pass of a live wedding is known or the wedding
      is blocked; a redemption past the hold check finds every admitted pass; and no seat has an admitted
      pass and a second one that was admitted or may be. */
  ghost predicate SeatSafe(w: World) {
    && (forall a :: w.serving && a in w.answered && a.pass.wedding in w.db.live && a.pass.wedding !in w.exposed ==>
          Anchored(w.db, a.pass) || Blocked(w.db, w.ledger, a.pass.wedding))
    && (forall r, a :: Checked(r) in w.calls && a in w.answered && a.pass.wedding == r.wedding && r.wedding !in w.exposed ==> a.pass in w.db.passes)
    && (forall a, q :: Claims(w, a, q) ==> a.pass == q)
    && (forall a, b :: Doubles(w, a, b) ==> a.pass == b.pass)
  }

  /** What a step may do without any care for seats. */
  ghost predicate Calm(w: World, v: World) {
    && v.answered == w.answered && v.exposed == w.exposed && v.db.live == w.db.live && (v.serving ==> w.serving)
    && (forall p :: p in w.issued ==> p in v.issued && v.issued[p] == w.issued[p])
    && (forall r :: Checked(r) in v.calls ==> Checked(r) in w.calls)
    && w.db.passes.Keys <= v.db.passes.Keys
    && (forall q :: q in v.ledger && q in v.db.passes ==> q in w.ledger && q in w.db.passes)
    && (forall p :: Anchored(w.db, p) ==> Anchored(v.db, p))
  }

  lemma AnsweredFits(w: World)
    requires Safe(w)
    ensures forall a :: a in w.answered ==> a.pass in w.ledger && w.ledger[a.pass].committed && a.pass in w.issued && w.issued[a.pass].wedding == a.pass.wedding
    ensures forall q :: q in w.ledger ==> q in w.issued
  {
    forall a | a in w.answered ensures a.pass in w.ledger && w.ledger[a.pass].committed {
      assert Committed(w.ledger, a.pass, a.actor, a.key);
    }
  }

  lemma SeatCalm(w: World, v: World)
    requires Safe(w) && SeatSafe(w) && Calm(w, v)
    requires forall x :: Blocked(w.db, w.ledger, x) ==> Blocked(v.db, v.ledger, x)
    ensures SeatSafe(v)
  {
    AnsweredFits(w);
    hide Safe;
    forall a, q | Claims(v, a, q) ensures a.pass == q {
      assert Claims(w, a, q);
    }
    forall a, b | Doubles(v, a, b) ensures a.pass == b.pass {
      assert Doubles(w, a, b);
    }
  }

  lemma ResolveHolds(w: World, op: Op, p: PassId)
    requires Enabled(w, op) && op.Resolve? && p in w.db.holds && !Discardable(w.db, w.ledger, p)
    ensures p in After(w, op).db.holds && After(w, op).db.holds[p] == w.db.holds[p]
  {
    hide Finds, Decide, AfterLock, Reconcile, OpenHold, Lists;
    assert op.pass != p;
  }

  lemma RecoveryHolds(w: World, op: Op, p: PassId)
    requires Enabled(w, op) && (op.Start? || op.Apply?) && p in w.db.holds
    ensures p in After(w, op).db.holds && After(w, op).db.holds[p] == w.db.holds[p]
  {
    hide Finds, Decide, AfterLock, Reconcile, Discardable, OpenHold, Lists;
    if op.Start? {
      ReconcileAllEffect(w.db, op.records, p);
    } else {
      ReconcileEffect(w.db, op.pass, op.entry, p);
    }
  }

  lemma HoldStays(w: World, op: Op, p: PassId)
    requires Enabled(w, op) && !op.Restore? && p in w.db.holds && !Discardable(w.db, w.ledger, p)
    ensures p in After(w, op).db.holds && After(w, op).db.holds[p] == w.db.holds[p]
  {
    hide After, Enabled, Discardable;
    if op.Lock? {
      LockHolds(w, op);
    } else if op.Start? || op.Apply? {
      RecoveryHolds(w, op, p);
    } else if op.Resolve? {
      ResolveHolds(w, op, p);
    } else {
      OtherHolds(w, op);
    }
  }

  lemma OtherHolds(w: World, op: Op)
    requires Enabled(w, op) && !op.Lock? && !op.Start? && !op.Apply? && !op.Resolve? && !op.Restore?
    ensures After(w, op).db.holds == w.db.holds
  {
    hide Finds, Decide, AfterLock, Reconcile, Discardable, OpenHold, Lists;
  }

  lemma LockHolds(w: World, op: Op)
    requires Enabled(w, op) && op.Lock?
    ensures After(w, op).db.holds == w.db.holds
  {
    hide Finds, Reconcile, Discardable;
  }

  /** Nothing but a restore ever lifts a hold that cannot be resolved. */
  lemma BlockedStays(w: World, op: Op, x: Id)
    requires Safe(w) && Enabled(w, op) && !op.Restore? && Blocked(w.db, w.ledger, x)
    ensures Blocked(After(w, op).db, After(w, op).ledger, x)
  {
    hide After, Enabled;
    var p :| p in w.db.holds && p.wedding == x && w.db.holds[p].open && !Discardable(w.db, w.ledger, p);
    HoldStays(w, op, p);
    UsedStep(w, op);
    var v := After(w, op);
    if w.db.holds[p].reason == UncertainAdmission {
      assert p in w.db.passes;
      assert p in UsedPasses(w.db) || (p in w.ledger && w.ledger[p].committed);
      if p in UsedPasses(w.db) {
        assert p in UsedPasses(v.db);
      } else {
        CommittedStep(w, op, p);
      }
    }
    assert !Discardable(v.db, v.ledger, p);
  }

  lemma SeatCalmStep(w: World, op: Op)
    requires Safe(w) && SeatSafe(w) && Enabled(w, op) && !op.Restore? && Calm(w, After(w, op))
    ensures SeatSafe(After(w, op))
  {
    hide Safe, After, Enabled, Calm, Blocked, SeatSafe;
    forall x | Blocked(w.db, w.ledger, x) ensures Blocked(After(w, op).db, After(w, op).ledger, x) {
      BlockedStays(w, op, x);
    }
    SeatCalm(w, After(w, op));
  }

  lemma LockCalm(w: World, op: Op)
    requires Enabled(w, op) && op.Lock? && !Decide(w.db, w.ledger, op.request, op.found).Admit?
    ensures Calm(w, After(w, op))
  {
    hide Decide, Finds;
  }

  lemma AdmitFrame(w: World, op: Op, p: PassId, entry: Entry)
    requires Enabled(w, op) && op.Lock? && Decide(w.db, w.ledger, op.request, op.found) == Admit(p, entry)
    ensures var v := After(w, op);
      && v.ledger == w.ledger[p := entry] && v.db.holds == w.db.holds && v.db.live == w.db.live && v.answered == w.answered
      && v.exposed == w.exposed && v.serving == w.serving && (forall r :: Checked(r) in v.calls ==> Checked(r) in w.calls)
      && v.db.passes.Keys == w.db.passes.Keys && v.issued == w.issued && Checked(op.request) in w.calls
  {
    assert p in w.db.passes;
    hide Decide, Finds, Reconcile, Discardable;
    var v, scan := After(w, op), Scan(op.request.input, Admitted, Some(p));
    var call := Acknowledging(p, entry, KeyOf(op.request), scan);
    assert op.fails ==> v == w.(calls := w.calls - {Checked(op.request)}, ledger := w.ledger[p := entry]);
    assert !op.fails ==> v == w.(db := MarkUsed(w.db, p, entry).(scans := w.db.scans[KeyOf(op.request) := scan]), ledger := w.ledger[p := entry],
                                 calls := w.calls - {Checked(op.request)} + {call});
    hide After;
  }

  lemma SeatAdmit(w: World, op: Op, p: PassId, entry: Entry)
    requires Safe(w) && SeatSafe(w) && Enabled(w, op) && op.Lock?
    requires Decide(w.db, w.ledger, op.request, op.found) == Admit(p, entry)
    ensures SeatSafe(After(w, op))
  {
    IntentGrows(w, op.request, op.found, p, entry);
    AdmitFrame(w, op, p, entry);
    SeatsOfRows(w, p);
    AnsweredFits(w);
    hide Blocked;
    forall x | Blocked(w.db, w.ledger, x) ensures Blocked(After(w, op).db, After(w, op).ledger, x) {
      BlockedStays(w, op, x);
    }
    hide Decide, Finds, After, Enabled, Safe, UsedPasses, Grows;
    var v := After(w, op);
    forall a, q | Claims(v, a, q) ensures a.pass == q {
      if q == p {
        SeatsOfRows(w, a.pass);
        SeatsUnique(w, p);
      } else {
        assert Claims(w, a, q);
      }
    }
    forall a, b | Doubles(v, a, b) ensures a.pass == b.pass {
      assert Doubles(w, a, b);
    }
  }

  lemma SeatsUnique(w: World, p: PassId)
    requires Safe(w) && p in w.db.passes
    ensures forall q :: q in w.db.passes && SeatOf(q, w.db.passes[q]) == SeatOf(p, w.db.passes[p]) ==> q == p
  {
  }

  lemma SeatsOfRows(w: World, p: PassId)
    requires Safe(w) && p in w.db.passes
    ensures p in w.issued && w.issued[p] == SeatOf(p, w.db.passes[p])
    ensures p in w.ledger ==> w.ledger[p].attendee == w.db.passes[p].attendee && w.ledger[p].event == w.db.passes[p].event
  {
  }

  lemma SeatRestore(w: World, op: Op)
    requires Safe(w) && SeatSafe(w) && Enabled(w, op) && op.Restore?
    ensures SeatSafe(After(w, op))
  {
    var v := After(w, op);
    assert v.db.passes.Keys <= w.db.passes.Keys;
    forall a, q | Claims(v, a, q) ensures a.pass == q {
      assert Claims(w, a, q);
    }
    forall a, b | Doubles(v, a, b) ensures a.pass == b.pass {
      assert Doubles(w, a, b);
    }
  }

  lemma ApplyCalm(w: World, op: Op)
    requires Enabled(w, op) && op.Apply?
    ensures Calm(w, After(w, op))
  {
    ReconcileRows(w.db, op.pass, op.entry);
    hide Finds, Decide, AfterLock, Discardable, OpenHold, Lists;
    forall p | Anchored(w.db, p) ensures Anchored(After(w, op).db, p) {
      ReconcileEffect(w.db, op.pass, op.entry, p);
    }
  }

  lemma WriteCalm(w: World, op: Op)
    requires Safe(w) && Enabled(w, op) && op.WriteCommitted?
    ensures Calm(w, After(w, op))
  {
    hide Finds, Decide, AfterLock, Reconcile, Discardable, OpenHold, Lists;
    assert CallFits(w.db, w.ledger, op.call);
  }

  lemma ResolveCalm(w: World, op: Op)
    requires Enabled(w, op) && op.Resolve?
    ensures Calm(w, After(w, op))
  {
    hide Finds, Decide, AfterLock, Reconcile, OpenHold, Lists;
  }

  lemma SeatStart(w: World, op: Op)
    requires Safe(w) && SeatSafe(w) && Enabled(w, op) && op.Start?
    ensures SeatSafe(After(w, op))
  {
    var v := After(w, op);
    StartSettles(w, op.records);
    StepSafe(w, op);
    AnsweredFits(w);
    ReconcileAllEffect(w.db, op.records, PassId(0, 0));
    assert v.db.live == w.db.live && v.db.passes.Keys == w.db.passes.Keys;
    assert v.ledger == w.ledger && v.issued == w.issued && v.calls == w.calls && v.answered == w.answered && v.exposed == w.exposed;
    forall a | a in v.answered && a.pass.wedding in v.db.live ensures Anchored(v.db, a.pass) {
      SettledAnchored(v, a.pass);
    }
    hide ReconcileAll, After, Enabled, Safe;
    forall a, q | Claims(v, a, q) ensures a.pass == q {
      assert Claims(w, a, q);
    }
    forall a, b | Doubles(v, a, b) ensures a.pass == b.pass {
      assert Doubles(w, a, b);
    }
  }

  lemma SettledAnchored(v: World, p: PassId)
    requires Safe(v) && p in v.ledger && p.wedding in v.db.live && Settled(v.db, p, v.ledger[p])
    ensures Anchored(v.db, p)
  {
  }

  lemma ReplyFits(w: World, op: Op, a: Answer)
    requires Safe(w) && Enabled(w, op) && op.Reply? && a in After(w, op).answered && a !in w.answered
    ensures a.pass in w.db.passes && a.pass in w.ledger && a.pass in w.issued && w.issued[a.pass] == SeatOf(a.pass, w.db.passes[a.pass])
  {
    hide Finds, Decide, AfterLock, Reconcile, Discardable, OpenHold, Lists;
    assert CallFits(w.db, w.ledger, op.call);
  }

  lemma ReplyFrame(w: World, op: Op)
    requires Enabled(w, op) && op.Reply?
    ensures var v := After(w, op); v == w.(calls := w.calls - {op.call}, answered := v.answered)
  {
    hide Finds, Decide, AfterLock, Reconcile, Discardable, OpenHold, Lists;
  }

  lemma SeatReply(w: World, op: Op)
    requires Safe(w) && SeatSafe(w) && Enabled(w, op) && op.Reply?
    ensures SeatSafe(After(w, op))
  {
    var v := After(w, op);
    ReplyFrame(w, op);
    forall a | a in v.answered && a !in w.answered
      ensures a.pass in w.db.passes && a.pass in w.ledger && a.pass in w.issued && w.issued[a.pass] == SeatOf(a.pass, w.db.passes[a.pass]) {
      ReplyFits(w, op, a);
    }
    hide After, Enabled, Blocked;
    forall a, q | Claims(v, a, q) ensures a.pass == q {
      if a in w.answered {
        assert Claims(w, a, q);
      } else {
        SeatsUnique(w, q);
        SeatsOfRows(w, q);
      }
    }
    hide Safe;
    forall a, b | Doubles(v, a, b) ensures a.pass == b.pass {
      OneOfSeat(w, v, a, b);
    }
  }

  lemma OneOfSeat(w: World, v: World, a: Answer, b: Answer)
    requires SeatSafe(w) && Doubles(v, a, b) && v.issued == w.issued && v.exposed == w.exposed && v.ledger == w.ledger && v.db == w.db
    requires forall c :: c in v.answered && c !in w.answered ==> c.pass in w.ledger && c.pass in w.db.passes
    requires forall c, q :: Claims(v, c, q) ==> c.pass == q
    ensures a.pass == b.pass
  {
    if a in w.answered && b in w.answered {
      assert Doubles(w, a, b);
    } else if b !in w.answered {
      assert Claims(v, a, b.pass);
    } else {
      assert Claims(v, b, a.pass);
    }
  }

  predicate Uninvolved(op: Op) {
    || op.Issue? || op.Withdraw? || op.Refresh? || op.Reissue? || op.Reply? || op.Crash? || op.Backup? || op.Quarantine? || op.List?
  }

  lemma UninvolvedFrame(w: World, op: Op)
    requires Enabled(w, op) && Uninvolved(op)
    ensures var v := After(w, op);
            && v.ledger == w.ledger && v.db.live == w.db.live && v.exposed == w.exposed && v.db.holds == w.db.holds
            && v.serving == w.serving && v.calls <= w.calls && forall p :: p in w.db.passes ==> p in v.db.passes
  {
    hide Finds, Decide, AfterLock, Reconcile, Discardable, OpenHold, Lists;
  }

  lemma UninvolvedKeeps(w: World, op: Op)
    requires Safe(w) && Enabled(w, op) && Uninvolved(op)
    ensures var v := After(w, op);
            && v.ledger == w.ledger && v.db.live == w.db.live && v.exposed == w.exposed && v.db.holds == w.db.holds
            && v.serving == w.serving && UsedPasses(v.db) == UsedPasses(w.db) && v.calls <= w.calls
            && forall p :: p in w.db.passes ==> p in v.db.passes
  {
    UninvolvedFrame(w, op);
    if Easy(op) {
      EasySteps(w, op);
    } else {
      assert op.Issue? ==> op.pass !in w.db.passes;
      hide Safe, Finds, Decide, AfterLock, Reconcile, Discardable, Enabled;
      assert UsedPasses(After(w, op).db) == UsedPasses(w.db);
    }
  }

  lemma UninvolvedHistory(w: World, op: Op)
    requires Safe(w) && Enabled(w, op) && Uninvolved(op) && !op.Reply?
    ensures After(w, op).answered == w.answered
    ensures forall p :: p in w.issued ==> p in After(w, op).issued && After(w, op).issued[p] == w.issued[p]
    ensures forall q :: q in After(w, op).db.passes ==> q in w.db.passes || q !in w.issued
  {
    hide Safe, Finds, Decide, AfterLock, Reconcile, Discardable, OpenHold, Lists, UsedPasses;
  }

  lemma UninvolvedCalm(w: World, op: Op)
    requires Safe(w) && Enabled(w, op) && Uninvolved(op) && !op.Reply?
    ensures Calm(w, After(w, op))
  {
    UninvolvedKeeps(w, op);
    UninvolvedHistory(w, op);
    AnsweredFits(w);
    hide Safe, After, Enabled, UsedPasses;
  }

  lemma SeatCheck(w: World, op: Op)
    requires Safe(w) && SeatSafe(w) && Enabled(w, op) && op.CheckHolds?
    ensures SeatSafe(After(w, op))
  {
    hide Agrees;
    var v := After(w, op);
    assert v == w.(calls := w.calls + {Checked(op.request)});
    forall a | a in w.answered && a.pass.wedding == op.request.wedding && a.pass.wedding !in w.exposed ensures a.pass in w.db.passes {
      assert !Blocked(w.db, w.ledger, a.pass.wedding);
      assert Anchored(w.db, a.pass);
    }
    forall a, q | Claims(v, a, q) ensures a.pass == q {
      assert Claims(w, a, q);
    }
    forall a, b | Doubles(v, a, b) ensures a.pass == b.pass {
      assert Doubles(w, a, b);
    }
  }

  lemma SeatEdit(w: World, op: Op)
    requires Safe(w) && SeatSafe(w) && Enabled(w, op) && op.Edit?
    ensures SeatSafe(After(w, op))
  {
    hide Agrees, Discardable;
    var v := After(w, op);
    assert v.ledger == w.ledger && v.db.passes == w.db.passes && v.db.holds == w.db.holds && v.db.live == op.live;
    assert forall x :: Blocked(w.db, w.ledger, x) <==> Blocked(v.db, v.ledger, x) by {
      assert forall p :: Discardable(w.db, w.ledger, p) <==> Discardable(v.db, v.ledger, p) by { EditDiscards(w, v); }
    }
    forall a | v.serving && a in v.answered && a.pass.wedding in v.db.live && a.pass.wedding !in v.exposed
      ensures Anchored(v.db, a.pass) || Blocked(v.db, v.ledger, a.pass.wedding) {
      if a.pass.wedding !in w.db.live {
        assert a.pass.wedding !in NewlyExposed(w, op.live);
        assert !Forgets(w, a.pass.wedding);
      }
    }
    forall a, q | Claims(v, a, q) ensures a.pass == q {
      assert Claims(w, a, q);
    }
    forall a, b | Doubles(v, a, b) ensures a.pass == b.pass {
      assert Doubles(w, a, b);
    }
  }

  lemma EditDiscards(w: World, v: World)
    requires v.ledger == w.ledger && v.db.passes == w.db.passes && v.db.holds == w.db.holds && v.db.admissions == w.db.admissions
    ensures forall p :: Discardable(w.db, w.ledger, p) <==> Discardable(v.db, v.ledger, p)
  {
  }

  lemma SeatLock(w: World, op: Op)
    requires Safe(w) && SeatSafe(w) && Enabled(w, op) && op.Lock?
    ensures SeatSafe(After(w, op))
  {
    var d := Decide(w.db, w.ledger, op.request, op.found);
    hide Safe, SeatSafe, After, Calm, Decide;
    if d.Admit? {
      SeatAdmit(w, op, d.pass, d.entry);
    } else {
      LockCalm(w, op);
      SeatCalmStep(w, op);
    }
  }

  lemma SeatStep(w: World, op: Op)
    requires Safe(w) && SeatSafe(w) && Enabled(w, op)
    ensures SeatSafe(After(w, op))
  {
    hide Safe, SeatSafe, Enabled, After, Calm;
    if op.Lock? {
      SeatLock(w, op);
    } else if op.Restore? {
      SeatRestore(w, op);
    } else if op.Start? {
      SeatStart(w, op);
    } else if op.Reply? {
      SeatReply(w, op);
    } else if op.CheckHolds? {
      SeatCheck(w, op);
    } else if op.Edit? {
      SeatEdit(w, op);
    } else {
      if op.WriteCommitted? {
        WriteCalm(w, op);
      } else if op.Apply? {
        ApplyCalm(w, op);
      } else if op.Resolve? {
        ResolveCalm(w, op);
      } else {
        UninvolvedCalm(w, op);
      }
      SeatCalmStep(w, op);
    }
  }

  lemma {:induction false} RunSeatSafe(w: World, ops: seq<Op>, end: World)
    requires Safe(w) && SeatSafe(w) && Run(w, ops, end)
    ensures Safe(end) && SeatSafe(end)
    decreases |ops|
  {
    hide Safe, SeatSafe, Enabled, After;
    if ops != [] {
      StepSafe(w, ops[0]);
      SeatStep(w, ops[0]);
      RunSeatSafe(After(w, ops[0]), ops[1..], end);
    }
  }

  /** Even when a restore forgets a pass and another is issued for the same seat, the seat is admitted
      at most once, unless its wedding was recovered from deletion while an admitted pass of it was
      forgotten. */
  lemma AtMostOneAdmissionPerSeat(w: World, ops: seq<Op>, end: World, a: Answer, b: Answer)
    requires Fresh(w) && Run(w, ops, end)
    requires a in end.answered && b in end.answered
    requires a.pass in end.issued && b.pass in end.issued && end.issued[a.pass] == end.issued[b.pass]
    requires end.issued[a.pass].wedding !in end.exposed
    ensures a == b
  {
    FreshSafe(w);
    RunSeatSafe(w, ops, end);
    assert Doubles(end, a, b);
    assert Committed(end.ledger, a.pass, a.actor, a.key) && Committed(end.ledger, b.pass, b.actor, b.key);
  }

  // ---------- retrying ----------

  /** Nothing stands between this scan and its admission. */
  ghost predicate Admissible(w: World, r: Request, p: PassId) {
    && w.serving && r.wedding in w.db.live && !OpenHold(w.db, r.wedding)
    && EventId(r.wedding, r.event) in w.db.events && KeyOf(r) !in w.db.scans
    && (var e := w.db.events[EventId(r.wedding, r.event)];
        e.enabled && Opens(e).Some? && Closes(e).Some? && Opens(e).value <= r.now < Closes(e).value)
    && Matches(w.db, r, p) && w.db.passes[p].status == Active
    && SeatOf(p, w.db.passes[p]) in w.db.confirmed && Person(r.wedding, w.db.passes[p].attendee) !in w.db.removed
    && (p in w.ledger ==> Resumable(w.ledger[p], r, w.db.passes[p]))
  }

  /** What a completed admission leaves behind. */
  ghost predicate AdmittedAfter(w: World, r: Request, p: PassId, end: World)
    requires p in w.db.passes
  {
    var pass := w.db.passes[p];
    && p in end.ledger
    && var e := end.ledger[p];
       && e == Entry(true, pass.attendee, pass.event, if p in w.ledger then w.ledger[p].admission else r.newId, r.actor, r.key, pass.version)
       && end.ledger == w.ledger[p := e] && end.answered == w.answered + {Answer(p, r.actor, r.key)}
       && end.db == MarkUsed(w.db, p, e).(scans := w.db.scans[KeyOf(r) := Scan(r.input, Admitted, Some(p))])
       && end.backups == w.backups && end.issued == w.issued && end.serving == w.serving && end.exposed == w.exposed
  }

  function AdmissionEntry(w: World, r: Request, p: PassId): Entry
    requires p in w.db.passes
  {
    var pass := w.db.passes[p];
    Entry(false, pass.attendee, pass.event, if p in w.ledger then w.ledger[p].admission else r.newId, r.actor, r.key, pass.version)
  }

  function AdmissionScan(r: Request, p: PassId): Scan {
    Scan(r.input, Admitted, Some(p))
  }

  lemma FirstSteps(w: World, r: Request, p: PassId)
    requires Admissible(w, r, p)
    ensures Enabled(w, CheckHolds(r)) && Enabled(After(w, CheckHolds(r)), Lock(r, Some(p), false))
    ensures var e := AdmissionEntry(w, r, p);
      After(After(w, CheckHolds(r)), Lock(r, Some(p), false)) ==
        w.(db := MarkUsed(w.db, p, e).(scans := w.db.scans[KeyOf(r) := AdmissionScan(r, p)]), ledger := w.ledger[p := e],
           calls := w.calls + {Checked(r)} - {Checked(r)} + {Acknowledging(p, e, KeyOf(r), AdmissionScan(r, p))})
  {
    assert Finds(w.db, r, Some(p));
    var d := Decide(w.db, w.ledger, r, Some(p));
    assert d == Admit(p, AdmissionEntry(w, r, p));
    hide Decide, Admissible, Reconcile, Discardable;
    assert Enabled(w, CheckHolds(r));
    assert After(w, CheckHolds(r)) == w.(calls := w.calls + {Checked(r)});
  }

  lemma AdmissionSteps(w: World, r: Request, p: PassId) returns (call: Call, reply: Call)
    requires Admissible(w, r, p)
    ensures Enabled(w, CheckHolds(r)) && Enabled(After(w, CheckHolds(r)), Lock(r, Some(p), false))
    ensures var w2 := After(After(w, CheckHolds(r)), Lock(r, Some(p), false));
            && Enabled(w2, WriteCommitted(call)) && Enabled(After(w2, WriteCommitted(call)), Reply(reply))
            && AdmittedAfter(w, r, p, After(After(w2, WriteCommitted(call)), Reply(reply)))
  {
    FirstSteps(w, r, p);
    var w2, e := After(After(w, CheckHolds(r)), Lock(r, Some(p), false)), AdmissionEntry(w, r, p);
    hide Decide, Locked, AfterLock, Admissible, Reconcile, Finds, MarkUsed;
    call := Acknowledging(p, e, KeyOf(r), AdmissionScan(r, p));
    reply := Replying(KeyOf(r), AdmissionScan(r, p));
    assert call in w2.calls;
    var w3 := After(w2, WriteCommitted(call));
    assert w3 == w2.(ledger := w2.ledger[p := e.(committed := true)], calls := w2.calls - {call} + {reply});
  }

  lemma AdmissionCompletes(w0: World, ops: seq<Op>, w: World, r: Request, p: PassId) returns (more: seq<Op>, end: World)
    requires Run(w0, ops, w) && Admissible(w, r, p)
    ensures Run(w0, ops + more, end) && p in w.db.passes && AdmittedAfter(w, r, p, end)
  {
    assert p in w.db.passes;
    hide Run, Admissible, Enabled, After, AdmittedAfter;
    var call, reply := AdmissionSteps(w, r, p);
    more := [CheckHolds(r), Lock(r, Some(p), false), WriteCommitted(call), Reply(reply)];
    var w1 := After(w, more[0]);
    var w2 := After(w1, more[1]);
    var w3 := After(w2, more[2]);
    end := After(w3, more[3]);
    RunSnoc(w0, ops, w, more[0]);
    assert ops + [more[0]] == ops + more[..1];
    RunSnoc(w0, ops + more[..1], w1, more[1]);
    assert ops + more[..1] + [more[1]] == ops + more[..2];
    RunSnoc(w0, ops + more[..2], w2, more[2]);
    assert ops + more[..2] + [more[2]] == ops + more[..3];
    RunSnoc(w0, ops + more[..3], w3, more[3]);
    assert ops + more[..3] + [more[3]] == ops + more;
  }

  /** After a failed commit the same scan can still be completed, with the admission it began: same
      actor, key and credential, no hold, the pass as it was and the window open. */
  lemma RetryCompletes(w: World, r: Request, p: PassId)
    requires Safe(w) && Admissible(w, r, p) && p in w.ledger
    ensures exists ops, end :: Run(w, ops, end) && Answer(p, r.actor, r.key) in end.answered
                            && p in end.ledger && end.ledger[p] == w.ledger[p].(committed := true)
  {
    SeatsOfRows(w, p);
    assert Resumable(w.ledger[p], r, w.db.passes[p]);
    assert Run(w, [], w);
    hide Safe, Admissible, Run, MarkUsed;
    var ops, end := AdmissionCompletes(w, [], w, r, p);
    assert [] + ops == ops;
  }

  // ---------- exactly when a seat can be admitted twice ----------

  /** Whether a seat of the wedding can be admitted under two passes without being exposed from here on. */
  ghost predicate CanAdmitTwice(w: World, x: Id) {
    exists ops, end, a, b :: Run(w.(exposed := w.exposed - {x}), ops, end) && Doubles(end, a, b) && a.pass != b.pass && end.issued[a.pass].wedding == x
  }

  /** Of all the steps a system can take, exactly one leads to a seat that some continuation admits twice:
      bringing its wedding back to life while serving, with an admitted pass of it forgotten. */
  lemma SeatTwiceIff(start: World, ops: seq<Op>, w: World, op: Op, x: Id)
    requires Fresh(start) && Run(start, ops, w) && Enabled(w, op) && x !in w.exposed
    ensures CanAdmitTwice(After(w, op), x) <==> op.Edit? && x in NewlyExposed(w, op.live)
  {
    FreshSafe(start);
    RunSeatSafe(start, ops, w);
    SafeSeatTwiceIff(w, op, x);
  }

  lemma SafeSeatTwiceIff(w: World, op: Op, x: Id)
    requires Safe(w) && SeatSafe(w) && Enabled(w, op) && x !in w.exposed
    ensures CanAdmitTwice(After(w, op), x) <==> op.Edit? && x in NewlyExposed(w, op.live)
  {
    ExposedExactly(w, op, x);
    hide Safe, SeatSafe, After, Enabled, Forgets, NewlyExposed;
    if op.Edit? && x in NewlyExposed(w, op.live) {
      ForgottenAdmitsTwice(w, op, x);
    } else {
      StepSafe(w, op);
      SeatStep(w, op);
      StaysSingle(After(w, op), x);
    }
  }

  lemma ExposedExactly(w: World, op: Op, x: Id)
    requires Enabled(w, op) && x !in w.exposed
    ensures x in After(w, op).exposed <==> op.Edit? && x in NewlyExposed(w, op.live)
  {
    hide Finds, Decide, Locked, Reconcile, Discardable, Forgets, OpenHold;
  }

  lemma StaysSingle(v: World, x: Id)
    requires Safe(v) && SeatSafe(v) && x !in v.exposed
    ensures !CanAdmitTwice(v, x)
  {
    hide Safe, SeatSafe, Doubles;
    assert v.(exposed := v.exposed - {x}) == v;
    forall ops, end, a, b | Run(v, ops, end) && Doubles(end, a, b) ensures a.pass == b.pass {
      RunSeatSafe(v, ops, end);
      assert SeatSafe(end);
      DoublesAgree(end, a, b);
    }
  }

  lemma DoublesAgree(w: World, a: Answer, b: Answer)
    requires SeatSafe(w) && Doubles(w, a, b)
    ensures a.pass == b.pass
  {
  }

  /** A live, serving wedding with a forgotten admission and no hold that would stay. */
  ghost predicate Ripe(w: World, a: Answer, x: Id) {
    && Safe(w) && w.serving && x in w.db.live && x !in w.exposed
    && a in w.answered && a.pass.wedding == x && a.pass !in w.db.passes && a.pass in w.issued
    && (forall p :: p in w.db.holds && p.wedding == x && w.db.holds[p].open ==> Discardable(w.db, w.ledger, p))
    && (forall q :: q in w.db.passes && SeatOf(q, w.db.passes[q]) == w.issued[a.pass] ==> q !in w.ledger)
  }

  lemma RevivedIsRipe(w: World, op: Op, x: Id) returns (a: Answer)
    requires Safe(w) && SeatSafe(w) && Enabled(w, op) && op.Edit? && x !in w.exposed && x in NewlyExposed(w, op.live)
    ensures Ripe(After(w, op).(exposed := After(w, op).exposed - {x}), a, x)
  {
    a :| a in w.answered && a.pass.wedding == x && !Anchored(w.db, a.pass);
    AnsweredFits(w);
    var v := After(w, op).(exposed := After(w, op).exposed - {x});
    assert Safe(v) by { EasyStepsSafe(w, op); }
    forall q | q in w.db.passes && SeatOf(q, w.db.passes[q]) == w.issued[a.pass] ensures q !in w.ledger {
      SeatsOfRows(w, q);
      assert !Claims(w, a, q);
    }
    EditDiscards(w, v);
    hide Safe, Agrees, Discardable;
    forall p | p in v.db.holds && p.wedding == x && v.db.holds[p].open ensures Discardable(v.db, v.ledger, p) {
      assert !Blocked(w.db, w.ledger, x);
      assert Discardable(w.db, w.ledger, p);
    }
  }

  function OpenHolds(db: Db, x: Id): set<PassId> {
    set p | p in db.holds && p.wedding == x && db.holds[p].open
  }

  lemma ResolveEffect(w: World, p: PassId)
    requires Enabled(w, Resolve(p, false))
    ensures After(w, Resolve(p, false)) == w.(ledger := w.ledger - {p}, db := w.db.(holds := w.db.holds[p := Hold(UncertainAdmission, false)]))
  {
    hide Finds, Decide, AfterLock, Reconcile, OpenHold, Lists;
  }

  lemma ResolveStep(w: World, p: PassId, a: Answer, x: Id)
    requires Ripe(w, a, x) && p in OpenHolds(w.db, x)
    ensures Enabled(w, Resolve(p, false))
    ensures var v := After(w, Resolve(p, false)); Ripe(v, a, x) && OpenHolds(v.db, x) == OpenHolds(w.db, x) - {p} && v.issued == w.issued && v.answered == w.answered
  {
    hide Safe, After;
    assert Enabled(w, Resolve(p, false)) by { hide Finds, OpenHold, Lists; }
    hide Enabled;
    StepSafe(w, Resolve(p, false));
    ResolveEffect(w, p);
    var v := After(w, Resolve(p, false));
    assert OpenHolds(v.db, x) == OpenHolds(w.db, x) - {p};
  }

  /** The operator resolves the wedding's holds one after another. */
  lemma {:induction false} Unholds(v: World, ops: seq<Op>, w: World, a: Answer, x: Id) returns (more: seq<Op>, end: World)
    requires Run(v, ops, w) && Ripe(w, a, x)
    ensures Run(v, more, end) && Ripe(end, a, x) && !OpenHold(end.db, x) && end.issued == w.issued && end.answered == w.answered
    decreases |OpenHolds(w.db, x)|
  {
    more, end := ops, w;
    if OpenHolds(w.db, x) == {} {
      assert forall p :: p in OpenHolds(w.db, x) <==> p in w.db.holds && p.wedding == x && w.db.holds[p].open;
    } else {
      hide Run, Ripe, After, Enabled;
      var p :| p in OpenHolds(w.db, x);
      ResolveStep(w, p, a, x);
      RunSnoc(v, ops, w, Resolve(p, false));
      more, end := Unholds(v, ops + [Resolve(p, false)], After(w, Resolve(p, false)), a, x);
    }
  }

  /** The guest's event is open now, and the guest is confirmed for it. */
  function Opening(w: World, seat: Seat): Op {
    Edit(w.db.live, w.db.events[EventId(seat.wedding, seat.event) := Event(true, Some(0), None, None)],
         w.db.confirmed + {seat}, w.db.removed - {Person(seat.wedding, seat.attendee)})
  }

  ghost predicate OpenFor(w: World, seat: Seat) {
    && EventId(seat.wedding, seat.event) in w.db.events && w.db.events[EventId(seat.wedding, seat.event)] == Event(true, Some(0), None, None)
    && seat in w.db.confirmed && Person(seat.wedding, seat.attendee) !in w.db.removed
    && !OpenHold(w.db, seat.wedding)
  }

  lemma OpeningStep(w: World, a: Answer, x: Id)
    requires Ripe(w, a, x) && !OpenHold(w.db, x) && w.issued[a.pass].wedding == x
    ensures var op := Opening(w, w.issued[a.pass]);
            Enabled(w, op) && Ripe(After(w, op), a, x) && OpenFor(After(w, op), w.issued[a.pass])
            && After(w, op).issued == w.issued && After(w, op).answered == w.answered
  {
    var op := Opening(w, w.issued[a.pass]);
    StepSafe(w, op);
    hide Safe, Forgets;
    var v := After(w, op);
    assert NewlyExposed(w, w.db.live) == {};
    EditDiscards(w, v);
  }

  /** Someone gets a pass for the seat whose admission was forgotten: a new one, or the one that is there. */
  lemma PassGranted(w: World, a: Answer, x: Id, token: Id) returns (op: Op, q: PassId)
    requires Ripe(w, a, x) && OpenFor(w, w.issued[a.pass]) && w.issued[a.pass].wedding == x
    ensures Enabled(w, op)
    ensures var v := After(w, op);
      && v.serving && x in v.db.live && v.exposed == w.exposed && v.answered == w.answered && v.db.scans == w.db.scans && OpenFor(v, w.issued[a.pass])
      && q in v.db.passes && q !in v.ledger && q != a.pass && q in v.issued && v.issued[q] == w.issued[a.pass]
      && a.pass in v.issued && v.issued[a.pass] == w.issued[a.pass] && SeatOf(q, v.db.passes[q]) == w.issued[a.pass]
      && v.db.passes[q].status == Active && v.db.passes[q].token == token
  {
    var seat := w.issued[a.pass];
    if held :| held in w.db.passes && SeatOf(held, w.db.passes[held]) == seat {
      q, op := held, Reissue(held, token, token);
      SeatsOfRows(w, q);
      assert w.db.passes[q].status != Used by {
        assert q !in UsedPasses(w.db) by { assert q in UsedPasses(w.db) ==> Recorded(w.db, w.ledger, q); }
      }
    } else {
      var serials := set p | p in w.issued :: p.serial;
      var n := Unused(serials);
      q := PassId(x, n);
      assert q in w.issued ==> q.serial in serials;
      assert q !in w.ledger by { AnsweredFits(w); }
      op := Issue(q, seat, token, token);
    }
  }

  lemma GrantedIsAdmissible(w: World, seat: Seat, q: PassId, r: Request)
    requires w.serving && seat.wedding in w.db.live && OpenFor(w, seat) && q in w.db.passes && q !in w.ledger
    requires SeatOf(q, w.db.passes[q]) == seat && w.db.passes[q].status == Active && w.db.passes[q].token == r.input
    requires r.wedding == seat.wedding && r.event == seat.event && r.now == 0 && KeyOf(r) !in w.db.scans
    ensures Admissible(w, r, q)
  {
  }

  lemma ForgottenAdmitsTwice(w: World, op: Op, x: Id)
    requires Safe(w) && SeatSafe(w) && Enabled(w, op) && op.Edit? && x !in w.exposed && x in NewlyExposed(w, op.live)
    ensures CanAdmitTwice(After(w, op), x)
  {
    hide Safe, SeatSafe, After, Enabled, Forgets, NewlyExposed, Admissible, OpenFor, OpenHold;
    var a := RevivedIsRipe(w, op, x);
    var v := After(w, op).(exposed := After(w, op).exposed - {x});
    assert Run(v, [], v);
    hide Run;
    var ops, w1 := Unholds(v, [], v, a, x);
    RipeSeat(w1, a, x);
    var seat := w1.issued[a.pass];
    OpeningStep(w1, a, x);
    RunSnoc(v, ops, w1, Opening(w1, seat));
    var w2 := After(w1, Opening(w1, seat));
    ops := ops + [Opening(w1, seat)];
    var keys := set k | k in w2.db.scans :: k.key;
    var key := Unused(keys);
    var grant, q := PassGranted(w2, a, x, 0);
    RunSnoc(v, ops, w2, grant);
    ops := ops + [grant];
    var w3 := After(w2, grant);
    var r := Request(x, seat.event, 0, key, 0, 0, 0);
    assert KeyOf(r) in w3.db.scans ==> KeyOf(r).key in keys;
    GrantedIsAdmissible(w3, seat, q, r);
    var more, end := AdmissionCompletes(v, ops, w3, r, q);
    assert Doubles(end, a, Answer(q, r.actor, r.key));
  }

  lemma RipeSeat(w: World, a: Answer, x: Id)
    requires Ripe(w, a, x)
    ensures w.issued[a.pass].wedding == x
  {
    AnsweredFits(w);
  }

  // ---------- what ledger and rows tell ----------

  /** The seat of a record has another pass that ledger and database know: so nobody was told that they were
      admitted under this one. */
  ghost predicate Superseded(db: Db, ledger: Ledger, p: PassId)
    requires p in ledger
  {
    exists q :: q in ledger && q in db.passes && q != p && q.wedding == p.wedding
      && ledger[q].attendee == ledger[p].attendee && ledger[q].event == ledger[p].event
  }

  ghost predicate Remembered(db: Db, ledger: Ledger, x: Id) {
    forall p :: p in ledger && p.wedding == x && ledger[p].committed ==> Anchored(db, p) || Superseded(db, ledger, p)
  }

  /** A serving system with this database and ledger, whatever its history and the calls under way. */
  ghost predicate Shows(w: World, db: Db, ledger: Ledger, x: Id) {
    Safe(w) && SeatSafe(w) && w.db == db && w.ledger == ledger && w.serving && x !in w.exposed
  }

  ghost predicate ReviveHarmless(db: Db, ledger: Ledger, op: Op, x: Id)
    requires op.Edit?
  {
    forall w :: Shows(w, db, ledger, x) ==> !CanAdmitTwice(After(w, op), x)
  }

  /** Bringing a wedding back to life is harmless in every safe state with these rows if and only if the
      wedding is blocked, or each of its committed records has its pass, an open hold, or a later pass. */
  lemma ReviveHarmlessIff(db: Db, ledger: Ledger, op: Op, x: Id, some: World)
    requires op.Edit? && x !in db.live && x in op.live && Shows(some, db, ledger, x)
    ensures ReviveHarmless(db, ledger, op, x) <==> Blocked(db, ledger, x) || Remembered(db, ledger, x)
  {
    hide CanAdmitTwice, After, Safe, SeatSafe, Blocked, Superseded, Anchored;
    if Blocked(db, ledger, x) || Remembered(db, ledger, x) {
      forall w | Shows(w, db, ledger, x) ensures !CanAdmitTwice(After(w, op), x) {
        SafeSeatTwiceIff(w, op, x);
        RememberedNotForgotten(w, x);
      }
    } else {
      var p :| p in ledger && p.wedding == x && ledger[p].committed && !Anchored(db, p) && !Superseded(db, ledger, p);
      var w := OnlyAnswered(some, p);
      SafeSeatTwiceIff(w, op, x);
      assert Forgets(w, x);
    }
  }

  lemma RememberedNotForgotten(w: World, x: Id)
    requires Safe(w) && SeatSafe(w) && x !in w.exposed && (Blocked(w.db, w.ledger, x) || Remembered(w.db, w.ledger, x))
    ensures !Forgets(w, x)
  {
    AnsweredFits(w);
    forall a | a in w.answered && a.pass.wedding == x && Remembered(w.db, w.ledger, x) ensures Anchored(w.db, a.pass) {
      forall q | q in w.ledger && q in w.db.passes && q.wedding == a.pass.wedding
        && w.ledger[q].attendee == w.ledger[a.pass].attendee && w.ledger[q].event == w.ledger[a.pass].event
        ensures q == a.pass
      {
        assert w.issued[a.pass] == w.issued[q];
        assert Claims(w, a, q);
      }
    }
  }

  /** The same rows with another past: nothing under way, and only this record's admission told. */
  lemma OnlyAnswered(some: World, p: PassId) returns (w: World)
    requires Safe(some) && some.serving && p in some.ledger && some.ledger[p].committed && p.wedding !in some.exposed
    requires p.wedding !in some.db.live && !Anchored(some.db, p) && !Superseded(some.db, some.ledger, p)
    ensures w == some.(calls := {}, answered := {Answer(p, some.ledger[p].actor, some.ledger[p].key)})
    ensures Safe(w) && SeatSafe(w)
  {
    var a := Answer(p, some.ledger[p].actor, some.ledger[p].key);
    w := some.(calls := {}, answered := {a});
    assert Safe(w) by { hide Agrees; }
    forall q | q in w.ledger && q in w.db.passes && q in w.issued && p in w.issued && w.issued[p] == w.issued[q] ensures q == p {
      SeatsOfRows(w, q);
      assert w.issued[p] == Seat(p.wedding, w.ledger[p].attendee, w.ledger[p].event);
    }
    hide Safe, Superseded;
    assert forall b, q :: Claims(w, b, q) ==> b.pass == q;
    assert forall b, c :: Doubles(w, b, c) ==> b.pass == c.pass;
  }

  // ---------- what does not hold ----------

  const THE_SEAT := Seat(1, 2, 3)
  const FIRST := PassId(1, 10)
  const SECOND := PassId(1, 11)

  function EmptyDb(): Db {
    Db({1}, map[EventId(1, 3) := Event(true, Some(0), None, None)], {THE_SEAT}, {}, map[], map[], map[], map[])
  }

  function Start0(): World {
    World(EmptyDb(), map[], [], {}, {}, {}, map[], true, {})
  }

  function Scanning(key: Id, input: Id): Request {
    Request(1, 3, 7, key, input, 0, 100 + key)
  }

  function Attempt(key: Id): Entry {
    Entry(false, 2, 3, 100 + key, 7, key, 1)
  }

  function Issued(status: Status): Pass {
    Pass(2, 3, status, 1, 20, 21)
  }

  /** One attempt on the first pass that fails at its commit. */
  lemma FailedAttempt(w: World, ops: seq<Op>, mid: World, key: Id)
    requires Run(w, ops, mid)
    requires mid.serving && mid.db.live == {1} && mid.db.events == EmptyDb().events && mid.db.confirmed == {THE_SEAT} && mid.db.removed == {}
    requires mid.db.passes == map[FIRST := Issued(Active)] && mid.db.scans == map[] && mid.ledger == map[] && !OpenHold(mid.db, 1)
    ensures Run(w, ops + [CheckHolds(Scanning(key, 20))] + [Lock(Scanning(key, 20), Some(FIRST), true)],
                mid.(calls := mid.calls + {Checked(Scanning(key, 20))} - {Checked(Scanning(key, 20))}, ledger := map[FIRST := Attempt(key)]))
  {
    var r := Scanning(key, 20);
    var w1 := After(mid, CheckHolds(r));
    RunSnoc(w, ops, mid, CheckHolds(r));
    assert Finds(w1.db, r, Some(FIRST));
    assert Decide(w1.db, w1.ledger, r, Some(FIRST)) == Admit(FIRST, Attempt(key));
    RunSnoc(w, ops + [CheckHolds(r)], w1, Lock(r, Some(FIRST), true));
    assert map[][FIRST := Attempt(key)] == map[FIRST := Attempt(key)];
  }

  /** Not every uncertain intent has an open hold: once the hold of a pass was resolved, a second failed
      attempt on that pass stays recorded with no hold at all, however often recovery runs. */
  lemma StuckIntentUnheld() returns (ops: seq<Op>, end: World)
    ensures Fresh(Start0()) && Run(Start0(), ops, end)
    ensures FIRST in end.ledger && !end.ledger[FIRST].committed && FIRST in end.db.passes && end.db.passes[FIRST].status == Active && 1 in end.db.live
    ensures !OpenHold(end.db, 1) && Reconcile(end.db, FIRST, end.ledger[FIRST]) == end.db
  {
    var w0 := Start0();
    assert Run(w0, [], w0);
    RunSnoc(w0, [], w0, Issue(FIRST, THE_SEAT, 20, 21));
    var w1 := After(w0, Issue(FIRST, THE_SEAT, 20, 21));
    ops := [] + [Issue(FIRST, THE_SEAT, 20, 21)];
    assert w1.db.passes == map[FIRST := Issued(Active)];
    FailedAttempt(w0, ops, w1, 1);
    ops := ops + [CheckHolds(Scanning(1, 20))] + [Lock(Scanning(1, 20), Some(FIRST), true)];
    var w2 := w1.(calls := w1.calls + {Checked(Scanning(1, 20))} - {Checked(Scanning(1, 20))}, ledger := map[FIRST := Attempt(1)]);
    RunSnoc(w0, ops, w2, List(FIRST));
    ops := ops + [List(FIRST)];
    var w3 := After(w2, List(FIRST));
    RunSnoc(w0, ops, w3, Apply(FIRST, Attempt(1)));
    ops := ops + [Apply(FIRST, Attempt(1))];
    var w4 := After(w3, Apply(FIRST, Attempt(1)));
    assert w4.db.holds == map[FIRST := Hold(UncertainAdmission, true)];
    RunSnoc(w0, ops, w4, Resolve(FIRST, false));
    ops := ops + [Resolve(FIRST, false)];
    var w5 := After(w4, Resolve(FIRST, false));
    assert w5.db.holds == map[FIRST := Hold(UncertainAdmission, false)] && w5.ledger == map[];
    FailedAttempt(w0, ops, w5, 2);
    ops := ops + [CheckHolds(Scanning(2, 20))] + [Lock(Scanning(2, 20), Some(FIRST), true)];
    end := w5.(calls := w5.calls + {Checked(Scanning(2, 20))} - {Checked(Scanning(2, 20))}, ledger := map[FIRST := Attempt(2)]);
  }

  lemma FirstAdmitted() returns (ops: seq<Op>, w: World)
    ensures Run(Start0(), ops, w) && w.backups == [EmptyDb()] && w.ledger.Keys == {FIRST}
    ensures w.answered == {Answer(FIRST, 7, 1)} && w.issued == map[FIRST := THE_SEAT]
  {
    var w0 := Start0();
    assert Run(w0, [], w0);
    RunSnoc(w0, [], w0, Backup);
    var w1 := After(w0, Backup);
    RunSnoc(w0, [] + [Backup], w1, Issue(FIRST, THE_SEAT, 20, 21));
    ops := [] + [Backup] + [Issue(FIRST, THE_SEAT, 20, 21)];
    var w2 := After(w1, Issue(FIRST, THE_SEAT, 20, 21));
    assert Admissible(w2, Scanning(1, 20), FIRST);
    var more;
    more, w := AdmissionCompletes(w0, ops, w2, Scanning(1, 20), FIRST);
    ops := ops + more;
  }

  /** The exception for a seat is real: a wedding deleted when its database was restored to before its
      first pass, and recovered afterwards, admits the same seat again under a second pass. */
  lemma SeatTwiceAfterRecovery() returns (ops: seq<Op>, end: World)
    ensures Fresh(Start0()) && Run(Start0(), ops, end)
    ensures Answer(FIRST, 7, 1) in end.answered && Answer(SECOND, 7, 2) in end.answered
    ensures FIRST in end.issued && SECOND in end.issued && end.issued[FIRST] == end.issued[SECOND]
  {
    var w3;
    ops, w3 := FirstAdmitted();
    hide Run;
    var w6;
    ops, w6 := RestoreAndRecover(Start0(), ops, w3);
    RunSnoc(Start0(), ops, w6, Issue(SECOND, THE_SEAT, 30, 31));
    ops := ops + [Issue(SECOND, THE_SEAT, 30, 31)];
    var w7 := After(w6, Issue(SECOND, THE_SEAT, 30, 31));
    assert Admissible(w7, Scanning(2, 30), SECOND);
    var more;
    more, end := AdmissionCompletes(Start0(), ops, w7, Scanning(2, 30), SECOND);
    ops := ops + more;
  }

  /** Restored to the first backup with the wedding's deletion replayed, restarted, then recovered. */
  lemma RestoreAndRecover(w0: World, ops: seq<Op>, w: World) returns (longer: seq<Op>, end: World)
    requires Run(w0, ops, w) && w.backups == [EmptyDb()] && w.ledger.Keys == {FIRST}
    ensures Run(w0, longer, end)
    ensures end.db == EmptyDb() && end.ledger == w.ledger && end.serving && end.issued == w.issued && end.answered == w.answered
  {
    hide Run, Safe;
    var db := EmptyDb();
    RunSnoc(w0, ops, w, Restore(0));
    var w1 := After(w, Restore(0));
    assert w1 == w.(db := db, backups := [db], calls := {}, listed := {}, serving := false);
    var delete := Edit({}, db.events, db.confirmed, {});
    RunSnoc(w0, ops + [Restore(0)], w1, delete);
    var w2 := After(w1, delete);
    var records := [(FIRST, w.ledger[FIRST])];
    assert Lists(records, w2.ledger);
    RunSnoc(w0, ops + [Restore(0)] + [delete], w2, Start(records));
    assert ReconcileAll(w2.db, records) == w2.db by { SettledUnchanged(w2.db, records); }
    var w3 := After(w2, Start(records));
    var revive := Edit({1}, db.events, db.confirmed, {});
    longer := ops + [Restore(0)] + [delete] + [Start(records)];
    RunSnoc(w0, longer, w3, revive);
    longer, end := longer + [revive], After(w3, revive);
  }
}
