/** Redeeming a pass and recovering from a restore (packages/persistence/src/passes.ts, recovery.ts and
    operator.ts): the database is backed up and rolled back, the admission ledger never is. */
module Admission {
  import opened Options

  type Id = nat

  /** Ledger records and database rows are both found by wedding and pass. */
  datatype PassId = PassId(wedding: Id, serial: Id)

  datatype Seat = Seat(wedding: Id, attendee: Id, event: Id)

  datatype EventId = EventId(wedding: Id, event: Id)

  datatype Person = Person(wedding: Id, attendee: Id)

  datatype Status = Active | Used | Revoked | Expired

  datatype Pass = Pass(attendee: Id, event: Id, status: Status, version: nat, token: Id, manual: Id)

  datatype Admission = Admission(id: Id, attendee: Id, event: Id)

  /** An event as admission sees it; times are milliseconds. */
  datatype Event = Event(enabled: bool, startsAt: Option<int>, admissionStartsAt: Option<int>, admissionEndsAt: Option<int>)

  datatype Outcome = Admitted | AlreadyUsed | Disabled | WindowRequired | OutsideWindow | Invalid | PassRevoked | NotConfirmed

  /** One scan operation: who scans for which event under which operation key. */
  datatype ScanKey = ScanKey(wedding: Id, actor: Id, event: Id, key: Id)

  /** What was stored for it: the credential presented, the outcome and the pass it concerned. */
  datatype Scan = Scan(input: Id, outcome: Outcome, pass: Option<PassId>)

  datatype Reason = UncertainAdmission | MissingLineage | LineageMismatch

  datatype Hold = Hold(reason: Reason, open: bool)

  /** The database: what a backup copies and a restore rolls back. */
  datatype Db = Db(
    live: set<Id>,
    events: map<EventId, Event>,
    confirmed: set<Seat>,
    removed: set<Person>,
    passes: map<PassId, Pass>,
    admissions: map<PassId, Admission>,
    scans: map<ScanKey, Scan>,
    holds: map<PassId, Hold>)

  /** A record of the independent ledger. */
  datatype Entry = Entry(committed: bool, attendee: Id, event: Id, admission: Id, actor: Id, key: Id, passVersion: nat)

  type Ledger = map<PassId, Entry>

  /** A redemption request, with the clock reading and the random admission id it will use. */
  datatype Request = Request(wedding: Id, event: Id, actor: Id, key: Id, input: Id, now: int, newId: Id)

  datatype Refusal =
    | NotFound | RecoveryHold | KeyReused | LedgerUnavailable | StateConflict | NotAdmissible
    | DataRequired | AdmissionConfirmed

  function KeyOf(r: Request): ScanKey {
    ScanKey(r.wedding, r.actor, r.event, r.key)
  }

  function UsedPasses(db: Db): set<PassId> {
    set p | p in db.passes && db.passes[p].status == Used
  }

  function SeatOf(p: PassId, pass: Pass): Seat {
    Seat(p.wedding, pass.attendee, pass.event)
  }

  predicate OpenHold(db: Db, wedding: Id) {
    exists p :: p in db.holds && p.wedding == wedding && db.holds[p].open
  }

  // ---------- the admission window ----------

  const HOUR := 3600000

  function Opens(e: Event): Option<int> {
    if e.admissionStartsAt.Some? then e.admissionStartsAt
    else if e.startsAt.Some? then Some(e.startsAt.value - 2 * HOUR)
    else None
  }

  function Closes(e: Event): Option<int> {
    if e.admissionEndsAt.Some? then e.admissionEndsAt
    else if e.startsAt.Some? then Some(e.startsAt.value + 12 * HOUR)
    else None
  }

  // ---------- one redemption under the event row lock ----------

  predicate Matches(db: Db, r: Request, p: PassId) {
    && p in db.passes && p.wedding == r.wedding && db.passes[p].event == r.event
    && (db.passes[p].token == r.input || db.passes[p].manual == r.input)
  }

  /** `found` is a pass of this event with the presented credential, or there is none. */
  ghost predicate Finds(db: Db, r: Request, found: Option<PassId>) {
    match found
    case Some(p) => Matches(db, r, p)
    case None => forall p :: p in db.passes ==> !Matches(db, r, p)
  }

  datatype Decision =
    | Refuse(refusal: Refusal)
    | Replay(scan: Scan)
    | Note(scan: Scan)
    | Admit(pass: PassId, entry: Entry)

  /** Where a redemption stands between its steps. */
  datatype Call =
    | Checked(request: Request)
    | Acknowledging(pass: PassId, entry: Entry, key: ScanKey, scan: Scan)
    | Replying(key: ScanKey, scan: Scan)

  datatype Landing = Refused(refusal: Refusal) | Landed(db: Db, ledger: Ledger, call: Call)

  /** What a scan of `r` leads to, given the pass its credential finds. */
  ghost function Decide(db: Db, ledger: Ledger, r: Request, found: Option<PassId>): Decision
    requires Finds(db, r, found)
  {
    if EventId(r.wedding, r.event) !in db.events then Refuse(NotFound)
    else if KeyOf(r) in db.scans then
      if db.scans[KeyOf(r)].input == r.input then Replay(db.scans[KeyOf(r)]) else Refuse(KeyReused)
    else
      var event := db.events[EventId(r.wedding, r.event)];
      if found.Some? && db.passes[found.value].status == Used then Note(Scan(r.input, AlreadyUsed, found))
      else if !event.enabled then Note(Scan(r.input, Disabled, None))
      else if Opens(event).None? || Closes(event).None? then Note(Scan(r.input, WindowRequired, None))
      else if r.now < Opens(event).value || Closes(event).value <= r.now then Note(Scan(r.input, OutsideWindow, None))
      else if found.None? || Person(r.wedding, db.passes[found.value].attendee) in db.removed then Note(Scan(r.input, Invalid, None))
      else
        var p, pass := found.value, db.passes[found.value];
        if pass.status != Active then Note(Scan(r.input, PassRevoked, found))
        else if SeatOf(p, pass) !in db.confirmed then Note(Scan(r.input, NotConfirmed, found))
        else if p in ledger && !Resumable(ledger[p], r, pass) then Refuse(RecoveryHold)
        else Admit(p, Entry(false, pass.attendee, pass.event, if p in ledger then ledger[p].admission else r.newId,
                            r.actor, r.key, pass.version))
  }

  /** An earlier intent may be taken up again only by the same actor, key and pass version. */
  predicate Resumable(entry: Entry, r: Request, pass: Pass) {
    !entry.committed && entry.key == r.key && entry.actor == r.actor && entry.passVersion == pass.version
  }

  /** The pass becomes used, with its one admission. */
  function MarkUsed(db: Db, p: PassId, entry: Entry): Db
    requires p in db.passes
  {
    db.(passes := db.passes[p := db.passes[p].(status := Used, version := db.passes[p].version + 1)],
        admissions := db.admissions[p := Admission(entry.admission, entry.attendee, entry.event)])
  }

  /** A repeated admission finishes the ledger record it left behind, if that is still its own. */
  function Resume(ledger: Ledger, key: ScanKey, scan: Scan): Call {
    if scan.outcome == Admitted && scan.pass.Some? && scan.pass.value in ledger
       && var entry := ledger[scan.pass.value]; !entry.committed && entry.key == key.key && entry.actor == key.actor
    then Acknowledging(scan.pass.value, ledger[scan.pass.value], key, scan)
    else Replying(key, scan)
  }

  ghost function Locked(db: Db, ledger: Ledger, r: Request, found: Option<PassId>): Landing
    requires Finds(db, r, found)
  {
    match Decide(db, ledger, r, found)
    case Refuse(refusal) => Refused(refusal)
    case Replay(scan) => Landed(db, ledger, Resume(ledger, KeyOf(r), scan))
    case Note(scan) => Landed(db.(scans := db.scans[KeyOf(r) := scan]), ledger, Replying(KeyOf(r), scan))
    case Admit(p, entry) =>
      var scan := Scan(r.input, Admitted, Some(p));
      Landed(MarkUsed(db, p, entry).(scans := db.scans[KeyOf(r) := scan]), ledger[p := entry],
             Acknowledging(p, entry, KeyOf(r), scan))
  }

  // ---------- what a scan is answered, in rows ----------

  /** From two hours before the start, or the event's own opening, until its own closing, or twelve hours after. */
  ghost predicate InWindow(e: Event, now: int) {
    && (if e.admissionStartsAt.Some? then e.admissionStartsAt.value <= now else e.startsAt.Some? && e.startsAt.value - 7200000 <= now)
    && (if e.admissionEndsAt.Some? then now < e.admissionEndsAt.value else e.startsAt.Some? && now < e.startsAt.value + 43200000)
  }

  ghost predicate Scheduled(e: Event) {
    e.startsAt.Some? || (e.admissionStartsAt.Some? && e.admissionEndsAt.Some?)
  }

  ghost predicate Carries(db: Db, r: Request, p: PassId)
    requires p in db.passes
  {
    && p.wedding == r.wedding && db.passes[p].event == r.event
    && (db.passes[p].token == r.input || db.passes[p].manual == r.input)
  }

  /** The pass, of this wedding and event, whose QR token or manual code was presented. */
  ghost predicate Presented(db: Db, r: Request, found: Option<PassId>) {
    if found.Some? then found.value in db.passes && Carries(db, r, found.value)
    else forall p | p in db.passes :: !Carries(db, r, p)
  }

  /** The pass may be let in: everything but what the ledger says. */
  ghost predicate MayEnter(db: Db, r: Request, found: Option<PassId>) {
    && EventId(r.wedding, r.event) in db.events && db.events[EventId(r.wedding, r.event)].enabled
    && InWindow(db.events[EventId(r.wedding, r.event)], r.now)
    && found.Some? && found.value in db.passes && db.passes[found.value].status == Active
    && Person(r.wedding, db.passes[found.value].attendee) !in db.removed
    && Seat(r.wedding, db.passes[found.value].attendee, r.event) in db.confirmed
  }

  /** The ledger has nothing about the pass, or only this same attempt, unfinished. */
  ghost predicate Unrecorded(ledger: Ledger, r: Request, p: PassId, version: nat) {
    p in ledger ==> !ledger[p].committed && ledger[p].actor == r.actor && ledger[p].key == r.key && ledger[p].passVersion == version
  }

  /** When a scan that was not stored before is answered `outcome`. */
  ghost predicate Due(db: Db, ledger: Ledger, r: Request, found: Option<PassId>, outcome: Outcome)
    requires EventId(r.wedding, r.event) in db.events && (found.Some? ==> found.value in db.passes)
  {
    var e := db.events[EventId(r.wedding, r.event)];
    var used := found.Some? && db.passes[found.value].status == Used;
    var open := !used && e.enabled && InWindow(e, r.now);
    var known := found.Some? && Person(r.wedding, db.passes[found.value].attendee) !in db.removed;
    match outcome
    case AlreadyUsed => used
    case Disabled => !used && !e.enabled
    case WindowRequired => !used && e.enabled && !Scheduled(e)
    case OutsideWindow => !used && e.enabled && Scheduled(e) && !InWindow(e, r.now)
    case Invalid => open && !known
    case PassRevoked => open && known && db.passes[found.value].status != Active
    case NotConfirmed => open && known && db.passes[found.value].status == Active
                         && Seat(r.wedding, db.passes[found.value].attendee, r.event) !in db.confirmed
    case Admitted => MayEnter(db, r, found) && Unrecorded(ledger, r, found.value, db.passes[found.value].version)
  }

  /** What an answer leaves behind: the scan, and for an admission the used pass, its one admission and its
      ledger record, with the admission id of the attempt it takes up. */
  ghost predicate Answered(db: Db, ledger: Ledger, r: Request, found: Option<PassId>, outcome: Outcome, committed: bool, db': Db, ledger': Ledger)
    requires found.Some? ==> found.value in db.passes
  {
    var concerned := if outcome == Disabled || outcome == WindowRequired || outcome == OutsideWindow || outcome == Invalid then None else found;
    && db' == db.(passes := db'.passes, admissions := db'.admissions, scans := db'.scans)
    && db'.scans == db.scans[ScanKey(r.wedding, r.actor, r.event, r.key) := Scan(r.input, outcome, concerned)]
    && if outcome == Admitted && found.Some? then
         var p, row := found.value, db.passes[found.value];
         var id := if p in ledger then ledger[p].admission else r.newId;
         && db'.passes == db.passes[p := row.(status := Used, version := row.version + 1)]
         && db'.admissions == db.admissions[p := Admission(id, row.attendee, r.event)]
         && ledger' == ledger[p := Entry(committed, row.attendee, r.event, id, r.actor, r.key, row.version)]
       else db'.passes == db.passes && db'.admissions == db.admissions && ledger' == ledger
  }

  /** The scan was stored before as an admission whose own ledger record is still an intent. */
  ghost predicate LeftOpen(ledger: Ledger, r: Request, scan: Scan) {
    && scan.outcome == Admitted && scan.pass.Some? && scan.pass.value in ledger && !ledger[scan.pass.value].committed
    && ledger[scan.pass.value].actor == r.actor && ledger[scan.pass.value].key == r.key
  }

  /** A stored scan is answered as before, for the same credential only. */
  lemma LockedRepeats(db: Db, ledger: Ledger, r: Request, found: Option<PassId>)
    requires Finds(db, r, found) && EventId(r.wedding, r.event) in db.events && KeyOf(r) in db.scans
    ensures !Decide(db, ledger, r, found).Admit?
    ensures var l, scan := Locked(db, ledger, r, found), db.scans[KeyOf(r)];
      && (l.Landed? <==> scan.input == r.input)
      && (l.Landed? ==> l.db == db && l.ledger == ledger && (l.call.Acknowledging? || l.call.Replying?) && l.call.scan == scan)
      && (l.Landed? ==> (l.call.Acknowledging? <==> LeftOpen(ledger, r, scan)))
      && (l.Landed? && l.call.Acknowledging? ==> Some(l.call.pass) == scan.pass && l.call.pass in ledger && l.call.entry == ledger[l.call.pass])
  {
  }

  lemma PresentedIsFound(db: Db, r: Request, found: Option<PassId>)
    requires Finds(db, r, found)
    ensures Presented(db, r, found) && (found.Some? ==> found.value in db.passes)
  {
    assert forall p | p in db.passes :: Matches(db, r, p) <==> Carries(db, r, p);
  }

  /** The decision in rows: which scan is due which answer, and which are refused. */
  lemma DecideMeans(db: Db, ledger: Ledger, r: Request, found: Option<PassId>)
    requires Finds(db, r, found) && EventId(r.wedding, r.event) in db.events && KeyOf(r) !in db.scans
    ensures forall o :: Due(db, ledger, r, found, o) <==>
      match Decide(db, ledger, r, found)
      case Refuse(refusal) => false
      case Replay(scan) => false
      case Note(scan) => scan.outcome == o
      case Admit(p, entry) => o == Admitted
    ensures Decide(db, ledger, r, found) == Refuse(RecoveryHold) <==>
      MayEnter(db, r, found) && !Unrecorded(ledger, r, found.value, db.passes[found.value].version)
    ensures Decide(db, ledger, r, found).Refuse? ==> Decide(db, ledger, r, found).refusal == RecoveryHold
    ensures Decide(db, ledger, r, found).Admit? <==> Due(db, ledger, r, found, Admitted)
    ensures var d := Decide(db, ledger, r, found);
      d.Admit? ==>
        && found == Some(d.pass)
        && d.entry == Entry(false, db.passes[d.pass].attendee, r.event, if d.pass in ledger then ledger[d.pass].admission else r.newId,
                            r.actor, r.key, db.passes[d.pass].version)
  {
  }

  lemma LockedAnswers(db: Db, ledger: Ledger, r: Request, found: Option<PassId>)
    requires Finds(db, r, found) && EventId(r.wedding, r.event) in db.events && KeyOf(r) !in db.scans
    ensures forall o :: Locked(db, ledger, r, found).Landed? && Locked(db, ledger, r, found).call.scan.outcome == o <==> Due(db, ledger, r, found, o)
    ensures Locked(db, ledger, r, found) == Refused(RecoveryHold) <==>
      MayEnter(db, r, found) && !Unrecorded(ledger, r, found.value, db.passes[found.value].version)
  {
    DecideMeans(db, ledger, r, found);
    hide Due, Presented, Decide, MayEnter, Unrecorded;
  }

  /** The last write, which says committed. */
  lemma AnsweredCommitted(db: Db, ledger: Ledger, r: Request, found: Option<PassId>, outcome: Outcome, db': Db, ledger': Ledger)
    requires (found.Some? ==> found.value in db.passes) && (outcome == Admitted ==> found.Some?)
    requires Answered(db, ledger, r, found, outcome, false, db', ledger')
    ensures outcome == Admitted ==> found.value in ledger'
    ensures Answered(db, ledger, r, found, outcome, true, db',
      if outcome == Admitted then ledger'[found.value := ledger'[found.value].(committed := true)] else ledger')
  {
  }

  /** What the transaction of a scan that was not stored before leaves behind. */
  lemma LockedLeaves(db: Db, ledger: Ledger, r: Request, found: Option<PassId>)
    requires Finds(db, r, found) && EventId(r.wedding, r.event) in db.events && KeyOf(r) !in db.scans
    ensures var l := Locked(db, ledger, r, found);
      l.Landed? ==>
        && (l.call.Acknowledging? || l.call.Replying?)
        && Answered(db, ledger, r, found, l.call.scan.outcome, false, l.db, l.ledger)
        && (l.call.Acknowledging? <==> l.call.scan.outcome == Admitted)
        && (l.call.Acknowledging? ==> found == Some(l.call.pass) && l.call.pass in l.ledger && l.call.entry == l.ledger[l.call.pass])
  {
    hide Opens, Closes;
  }

  // ---------- reconciling one ledger record with the database ----------

  function Held(db: Db, p: PassId, reason: Reason): Db {
    if p in db.holds then db else db.(holds := db.holds[p := Hold(reason, true)])
  }

  function Max(a: nat, b: nat): nat { if a < b then b else a }

  function Reconcile(db: Db, p: PassId, entry: Entry): Db {
    if p.wedding !in db.live then db
    else if p !in db.passes then Held(db, p, MissingLineage)
    else if db.passes[p].attendee != entry.attendee || db.passes[p].event != entry.event then Held(db, p, LineageMismatch)
    else if db.passes[p].status == Used then db
    else if !entry.committed then Held(db, p, UncertainAdmission)
    else
      db.(passes := db.passes[p := db.passes[p].(status := Used, version := Max(db.passes[p].version, entry.passVersion + 1))],
          admissions := if p in db.admissions then db.admissions
                        else db.admissions[p := Admission(entry.admission, entry.attendee, entry.event)])
  }

  /** A listing of ledger records, in the order the object store yields them. */
  type Listing = seq<(PassId, Entry)>

  function ReconcileAll(db: Db, records: Listing): Db {
    if records == [] then db
    else var last := |records| - 1;
         Reconcile(ReconcileAll(db, records[..last]), records[last].0, records[last].1)
  }

  /** The record is of this pass, and says it was admitted. */
  ghost predicate Confirms(pass: Pass, entry: Entry) {
    entry.committed && entry.attendee == pass.attendee && entry.event == pass.event
  }

  /** A pass stays as it is, or becomes used because a committed record says so, at a version neither lower
      than before nor that of the attempt which was recorded. */
  ghost predicate PassRecovered(db: Db, v: Db, records: Listing, p: PassId)
    requires p in db.passes && p in v.passes
  {
    || v.passes[p] == db.passes[p]
    || (&& db.passes[p].status != Used && p.wedding in db.live && p in v.admissions
        && v.passes[p] == db.passes[p].(status := Used, version := v.passes[p].version)
        && exists i | 0 <= i < |records| :: records[i].0 == p && Confirms(db.passes[p], records[i].1)
             && v.passes[p].version == if db.passes[p].version > records[i].1.passVersion then db.passes[p].version else records[i].1.passVersion + 1)
  }

  /** An admission that was not there before is a committed record's. */
  ghost predicate AdmissionRecovered(db: Db, v: Db, records: Listing, p: PassId)
    requires p in v.admissions && p !in db.admissions
  {
    && p in db.passes && p in v.passes && v.passes[p].status == Used
    && exists i | 0 <= i < |records| :: records[i].0 == p && Confirms(db.passes[p], records[i].1)
         && v.admissions[p] == Admission(records[i].1.admission, db.passes[p].attendee, db.passes[p].event)
  }

  /** Recovery only adds: admissions and holds stay as they are, and nothing but passes, admissions and holds changes. */
  ghost predicate Recovered(db: Db, v: Db, records: Listing) {
    && v == db.(passes := v.passes, admissions := v.admissions, holds := v.holds)
    && v.passes.Keys == db.passes.Keys
    && (forall p | p in db.passes :: PassRecovered(db, v, records, p))
    && (forall p | p in db.admissions :: p in v.admissions && v.admissions[p] == db.admissions[p])
    && (forall p | p in v.admissions && p !in db.admissions :: AdmissionRecovered(db, v, records, p))
    && (forall p | p in db.holds :: p in v.holds && v.holds[p] == db.holds[p])
    && (forall p | p in v.holds && p !in db.holds :: v.holds[p].open && p.wedding in db.live)
  }

  lemma {:induction false} RecoveredAll(db: Db, records: Listing)
    ensures Recovered(db, ReconcileAll(db, records), records)
  {
    hide Reconcile, PassRecovered, AdmissionRecovered;
    if records == [] {
      forall p | p in db.passes ensures PassRecovered(db, db, records, p) {
        PassStays(db, p);
      }
      assert ReconcileAll(db, records) == db;
    } else {
      var last := |records| - 1;
      RecoveredAll(db, records[..last]);
      RecoveredMore(db, ReconcileAll(db, records[..last]), records[..last], records[last]);
      assert records[..last] + [records[last]] == records;
      hide Recovered;
    }
  }

  lemma PassStays(db: Db, p: PassId)
    requires p in db.passes
    ensures PassRecovered(db, db, [], p)
  {
  }

  lemma RecoveredMore(db: Db, v: Db, records: Listing, next: (PassId, Entry))
    requires Recovered(db, v, records)
    ensures Recovered(db, Reconcile(v, next.0, next.1), records + [next])
  {
    var all, w := records + [next], Reconcile(v, next.0, next.1);
    ReconcileFrame(v, next.0, next.1);
    forall p | p in db.passes ensures PassRecovered(db, w, all, p) {
      PassMore(db, v, records, next, p);
    }
    forall p | p in w.admissions && p !in db.admissions ensures AdmissionRecovered(db, w, all, p) {
      AdmissionMore(db, v, records, next, p);
    }
    hide Reconcile, PassRecovered, AdmissionRecovered;
  }

  /** One record changes its own pass, admission and hold at most. */
  lemma ReconcileFrame(v: Db, q: PassId, entry: Entry)
    ensures var w := Reconcile(v, q, entry);
      && w == v.(passes := w.passes, admissions := w.admissions, holds := w.holds) && w.passes.Keys == v.passes.Keys
      && (forall p | p in v.admissions :: p in w.admissions && w.admissions[p] == v.admissions[p])
      && (forall p | p in v.holds :: p in w.holds && w.holds[p] == v.holds[p])
      && (forall p | p in w.holds && p !in v.holds :: w.holds[p].open && p.wedding in v.live)
  {
    HeldFrame(v, q, MissingLineage);
    HeldFrame(v, q, LineageMismatch);
    HeldFrame(v, q, UncertainAdmission);
    hide Held;
  }

  lemma HeldFrame(v: Db, q: PassId, reason: Reason)
    ensures var w := Held(v, q, reason);
      && w == v.(holds := w.holds)
      && (forall p | p in v.holds :: p in w.holds && w.holds[p] == v.holds[p])
      && (forall p | p in w.holds && p !in v.holds :: w.holds[p].open && p == q)
  {
  }

  lemma PassMore(db: Db, v: Db, records: Listing, next: (PassId, Entry), p: PassId)
    requires p in db.passes && p in v.passes && v.live == db.live && PassRecovered(db, v, records, p)
    ensures p in Reconcile(v, next.0, next.1).passes && PassRecovered(db, Reconcile(v, next.0, next.1), records + [next], p)
  {
    var all := records + [next];
    assert all[|records|] == next;
    assert forall i | 0 <= i < |records| :: all[i] == records[i];
  }

  lemma AdmissionMore(db: Db, v: Db, records: Listing, next: (PassId, Entry), p: PassId)
    requires p !in db.admissions && p in Reconcile(v, next.0, next.1).admissions && v.passes.Keys == db.passes.Keys
    requires p in v.admissions ==> AdmissionRecovered(db, v, records, p)
    requires p in db.passes ==> PassRecovered(db, v, records, p)
    ensures AdmissionRecovered(db, Reconcile(v, next.0, next.1), records + [next], p)
  {
    var all := records + [next];
    AdmissionStep(v, next.0, next.1, p);
    if p in v.admissions {
      var i :| 0 <= i < |records| && records[i].0 == p && Confirms(db.passes[p], records[i].1)
        && v.admissions[p] == Admission(records[i].1.admission, db.passes[p].attendee, db.passes[p].event);
      assert all[i] == records[i];
    } else {
      assert all[|records|] == next;
    }
    hide Reconcile;
  }

  lemma AdmissionStep(v: Db, q: PassId, entry: Entry, p: PassId)
    ensures var w := Reconcile(v, q, entry);
      && (p in v.passes && v.passes[p].status == Used ==> p in w.passes && w.passes[p] == v.passes[p])
      && (p in v.admissions ==> p in w.admissions && w.admissions[p] == v.admissions[p])
      && (p in w.admissions && p !in v.admissions ==>
            && p == q && p in v.passes && Confirms(v.passes[p], entry) && p in w.passes && w.passes[p].status == Used
            && w.admissions[p] == Admission(entry.admission, entry.attendee, entry.event))
  {
    hide Held;
    HeldFrame(v, q, MissingLineage);
    HeldFrame(v, q, LineageMismatch);
    HeldFrame(v, q, UncertainAdmission);
  }

  /** Every unused credential of the restored database is withdrawn. */
  function Quarantined(db: Db): Db {
    db.(passes := map p | p in db.passes :: Withdrawn(db.passes[p]))
  }

  function Withdrawn(pass: Pass): Pass {
    if pass.status == Active then pass.(status := Revoked, version := pass.version + 1) else pass
  }

  /** Discarding an uncertain intent needs the operator's open hold and nothing that says it happened. */
  predicate Discardable(db: Db, ledger: Ledger, p: PassId) {
    && p in db.holds && db.holds[p] == Hold(UncertainAdmission, true)
    && p in db.passes && db.passes[p].status != Used && p !in db.admissions
    && (p in ledger ==> !ledger[p].committed)
  }

  // ---------- the services ----------

  /** Faults that end a call part way; the intent write itself is all or nothing. */
  datatype Fault = NoFault | LedgerReadFails | IntentWriteFails | CommitFails | CommittedWriteFails

  class Service {
    var db: Db
    var ledger: Ledger

    constructor (db: Db, ledger: Ledger)
      ensures this.db == db && this.ledger == ledger
    {
      this.db, this.ledger := db, ledger;
    }

    method Find(r: Request) returns (found: Option<PassId>)
      ensures Finds(db, r, found)
    {
      var matching := set p | p in db.passes && Matches(db, r, p);
      if matching == {} {
        assert forall p :: p in matching <==> p in db.passes && Matches(db, r, p);
        return None;
      }
      var p :| p in matching;
      found := Some(p);
    }

    method StoreScan(key: ScanKey, scan: Scan)
      modifies this`db
      ensures db == old(db).(scans := old(db).scans[key := scan])
    {
      db := db.(scans := db.scans[key := scan]);
    }

    /** `admissionWindow`. */
    static method Window(event: Event) returns (opens: Option<int>, closes: Option<int>)
      ensures opens == Opens(event) && closes == Closes(event)
    {
      opens, closes := event.admissionStartsAt, event.admissionEndsAt;
      if opens.None? && event.startsAt.Some? {
        opens := Some(event.startsAt.value - 7200000);
      }
      if closes.None? && event.startsAt.Some? {
        closes := Some(event.startsAt.value + 43200000);
      }
    }

    /** A scan that was stored before: an admission whose own intent is still open is acknowledged first. */
    method Repeat(key: ScanKey, scan: Scan) returns (call: Call)
      ensures call == Resume(ledger, key, scan)
    {
      call := Replying(key, scan);
      if scan.outcome == Admitted && scan.pass.Some? && scan.pass.value in ledger {
        var recorded := ledger[scan.pass.value];
        if !recorded.committed && recorded.key == key.key && recorded.actor == key.actor {
          call := Acknowledging(scan.pass.value, recorded, key, scan);
        }
      }
    }

    /** The transaction of `redeem`, from the event lock to its commit. A refused or failed transaction
        leaves the database alone; only a failing commit leaves something behind, an intent. */
    method RedeemLocked(r: Request, fault: Fault) returns (landing: Landing, ghost found: Option<PassId>)
      modifies this
      ensures Finds(old(db), r, found)
      ensures fault == NoFault || fault == CommittedWriteFails ==> landing == Locked(old(db), old(ledger), r, found)
      ensures landing.Landed? ==> landing == Locked(old(db), old(ledger), r, found) && db == landing.db && ledger == landing.ledger
      ensures landing.Refused? ==> db == old(db)
      ensures landing.Refused? ==>
        ledger == (var d := Decide(old(db), old(ledger), r, found);
                   if d.Admit? && fault == CommitFails then old(ledger)[d.pass := d.entry] else old(ledger))
      ensures Presented(old(db), r, found) && (found.Some? ==> found.value in old(db).passes)
      ensures EventId(r.wedding, r.event) !in old(db).events ==> landing == Refused(NotFound)
      ensures EventId(r.wedding, r.event) in old(db).events && KeyOf(r) !in old(db).scans ==>
        && (landing.Landed? ==>
              && (landing.call.Acknowledging? || landing.call.Replying?)
              && Due(old(db), old(ledger), r, found, landing.call.scan.outcome)
              && Answered(old(db), old(ledger), r, found, landing.call.scan.outcome, false, db, ledger)
              && (landing.call.Acknowledging? <==> landing.call.scan.outcome == Admitted)
              && (landing.call.Acknowledging? ==> found == Some(landing.call.pass) && landing.call.entry == ledger[landing.call.pass]))
        && (fault == NoFault ==> forall o :: landing.Landed? && landing.call.scan.outcome == o <==> Due(old(db), old(ledger), r, found, o))
        && (fault == NoFault ==>
              (landing == Refused(RecoveryHold) <==>
                MayEnter(old(db), r, found) && !Unrecorded(old(ledger), r, found.value, old(db).passes[found.value].version)))
        && (landing.Refused? ==>
              ledger == if fault == CommitFails && Due(old(db), old(ledger), r, found, Admitted) then old(ledger)[found.value :=
                          Entry(false, old(db).passes[found.value].attendee, r.event,
                                if found.value in old(ledger) then old(ledger)[found.value].admission else r.newId,
                                r.actor, r.key, old(db).passes[found.value].version)]
                        else old(ledger))
      ensures EventId(r.wedding, r.event) in old(db).events && KeyOf(r) in old(db).scans ==>
        && db == old(db) && ledger == old(ledger)
        && (landing == Refused(KeyReused) <==> old(db).scans[KeyOf(r)].input != r.input)
        && (landing.Refused? ==> landing.refusal == KeyReused || fault == LedgerReadFails)
        && (landing.Landed? ==>
              && (landing.call.Acknowledging? || landing.call.Replying?) && landing.call.scan == old(db).scans[KeyOf(r)]
              && (landing.call.Acknowledging? <==> LeftOpen(ledger, r, landing.call.scan))
              && (landing.call.Acknowledging? ==>
                    && Some(landing.call.pass) == landing.call.scan.pass && landing.call.pass in ledger
                    && landing.call.entry == ledger[landing.call.pass]))
    {
      hide Resume, Decide, Locked, Presented, Due, Answered, MayEnter, Unrecorded, LeftOpen, Finds;
      landing, found := Transaction(r, fault);
      PresentedIsFound(old(db), r, found);
      if EventId(r.wedding, r.event) in old(db).events {
        if KeyOf(r) in old(db).scans {
          LockedRepeats(old(db), old(ledger), r, found);
        } else {
          DecideMeans(old(db), old(ledger), r, found);
          LockedAnswers(old(db), old(ledger), r, found);
          LockedLeaves(old(db), old(ledger), r, found);
        }
      }
    }

    /** Its statements, one by one. */
    method Transaction(r: Request, fault: Fault) returns (landing: Landing, ghost found: Option<PassId>)
      modifies this
      ensures Finds(old(db), r, found)
      ensures fault == NoFault || fault == CommittedWriteFails ==> landing == Locked(old(db), old(ledger), r, found)
      ensures landing.Landed? ==> landing == Locked(old(db), old(ledger), r, found) && db == landing.db && ledger == landing.ledger
      ensures landing.Refused? ==> db == old(db)
      ensures landing.Refused? ==>
        ledger == (var d := Decide(old(db), old(ledger), r, found);
                   if d.Admit? && fault == CommitFails then old(ledger)[d.pass := d.entry] else old(ledger))
      ensures EventId(r.wedding, r.event) !in old(db).events ==> landing == Refused(NotFound)
      ensures landing == Refused(NotFound) ==> EventId(r.wedding, r.event) !in old(db).events
      ensures EventId(r.wedding, r.event) in old(db).events && KeyOf(r) in old(db).scans && landing.Refused? ==>
        if old(db).scans[KeyOf(r)].input != r.input then landing.refusal == KeyReused
        else landing.refusal == LedgerUnavailable && fault == LedgerReadFails
    {
      hide Resume, Opens, Closes;
      var at := Find(r);
      found := at;
      if EventId(r.wedding, r.event) !in db.events {
        return Refused(NotFound), found;
      }
      var event := db.events[EventId(r.wedding, r.event)];
      if KeyOf(r) in db.scans {
        var scan := db.scans[KeyOf(r)];
        if scan.input != r.input {
          return Refused(KeyReused), found;
        }
        if scan.outcome == Admitted && scan.pass.Some? && fault == LedgerReadFails {
          return Refused(LedgerUnavailable), found;
        }
        var call := Repeat(KeyOf(r), scan);
        return Landed(db, ledger, call), found;
      }
      var opens, closes := Window(event);
      var outcome, pass: Option<PassId> := Admitted, None;
      if at.Some? && db.passes[at.value].status == Used {
        outcome, pass := AlreadyUsed, at;
      } else if !event.enabled {
        outcome := Disabled;
      } else if opens.None? || closes.None? {
        outcome := WindowRequired;
      } else if r.now < opens.value || closes.value <= r.now {
        outcome := OutsideWindow;
      } else if at.None? || Person(r.wedding, db.passes[at.value].attendee) in db.removed {
        outcome := Invalid;
      } else {
        pass := at;
        var p, row := at.value, db.passes[at.value];
        if row.status != Active {
          outcome := PassRevoked;
        } else if SeatOf(p, row) !in db.confirmed {
          outcome := NotConfirmed;
        } else {
          if fault == LedgerReadFails {
            return Refused(LedgerUnavailable), found;
          }
          if p in ledger && (ledger[p].committed || ledger[p].key != r.key || ledger[p].actor != r.actor || ledger[p].passVersion != row.version) {
            return Refused(RecoveryHold), found;
          }
          var entry := Entry(false, row.attendee, row.event, if p in ledger then ledger[p].admission else r.newId,
                             r.actor, r.key, row.version);
          if fault == IntentWriteFails {
            return Refused(LedgerUnavailable), found;
          }
          ledger := ledger[p := entry];
          if fault == CommitFails {
            return Refused(StateConflict), found;
          }
          db := db.(passes := db.passes[p := row.(status := Used, version := row.version + 1)]);
          db := db.(admissions := db.admissions[p := Admission(entry.admission, row.attendee, row.event)]);
          StoreScan(KeyOf(r), Scan(r.input, Admitted, pass));
          return Landed(db, ledger, Acknowledging(p, entry, KeyOf(r), Scan(r.input, Admitted, pass))), found;
        }
      }
      StoreScan(KeyOf(r), Scan(r.input, outcome, pass));
      landing := Landed(db, ledger, Replying(KeyOf(r), Scan(r.input, outcome, pass)));
    }

    /** `redeem`, start to reply. An 'admitted' reply is given only once the ledger says committed. */
    method Redeem(r: Request, fault: Fault) returns (reply: Option<Outcome>, ghost found: Option<PassId>)
      modifies this
      ensures r.wedding !in old(db).live || OpenHold(old(db), r.wedding) ==>
        reply == None && db == old(db) && ledger == old(ledger)
      ensures reply.Some? ==>
        && Finds(old(db), r, found)
        && var landing := Locked(old(db), old(ledger), r, found);
           && landing.Landed?
           && db == landing.db && reply == Some(landing.call.scan.outcome)
           && ledger == if landing.call.Acknowledging?
                        then landing.ledger[landing.call.pass := landing.call.entry.(committed := true)]
                        else landing.ledger
      ensures fault == NoFault && r.wedding in old(db).live && !OpenHold(old(db), r.wedding) ==>
        Finds(old(db), r, found) && (reply.Some? <==> Locked(old(db), old(ledger), r, found).Landed?)
      ensures r.wedding !in old(db).live || (exists p | p in old(db).holds :: p.wedding == r.wedding && old(db).holds[p].open) ==>
        reply == None && db == old(db) && ledger == old(ledger)
      ensures reply.Some? ==> EventId(r.wedding, r.event) in old(db).events && Presented(old(db), r, found)
      ensures reply.Some? && ScanKey(r.wedding, r.actor, r.event, r.key) !in old(db).scans ==>
        && Due(old(db), old(ledger), r, found, reply.value)
        && Answered(old(db), old(ledger), r, found, reply.value, true, db, ledger)
      ensures reply.Some? && ScanKey(r.wedding, r.actor, r.event, r.key) in old(db).scans ==>
        var scan := old(db).scans[ScanKey(r.wedding, r.actor, r.event, r.key)];
        && scan.input == r.input && reply.value == scan.outcome && db == old(db)
        && ledger == if LeftOpen(old(ledger), r, scan)
                     then old(ledger)[scan.pass.value := old(ledger)[scan.pass.value].(committed := true)] else old(ledger)
      ensures fault == NoFault && r.wedding in old(db).live
              && !(exists p | p in old(db).holds :: p.wedding == r.wedding && old(db).holds[p].open) ==>
        && Presented(old(db), r, found)
        && (EventId(r.wedding, r.event) !in old(db).events ==> reply == None)
        && (EventId(r.wedding, r.event) in old(db).events ==>
              if ScanKey(r.wedding, r.actor, r.event, r.key) in old(db).scans then
                reply.Some? <==> old(db).scans[ScanKey(r.wedding, r.actor, r.event, r.key)].input == r.input
              else forall o :: reply == Some(o) <==> Due(old(db), old(ledger), r, found, o))
    {
      hide Presented, Due, Answered, LeftOpen, Locked, Finds, Resume;
      found := None;
      var blocked := set p | p in db.holds && p.wedding == r.wedding && db.holds[p].open;
      if r.wedding !in db.live || blocked != {} {
        if r.wedding in db.live {
          var p :| p in blocked;
          assert OpenHold(db, r.wedding);
        }
        return None, found;
      }
      assert forall p :: p in blocked <==> p in db.holds && p.wedding == r.wedding && db.holds[p].open;
      var landing, at := RedeemLocked(r, fault);
      if landing.Refused? {
        return None, at;
      }
      var call := landing.call;
      if KeyOf(r) !in old(db).scans {
        AnsweredCommitted(old(db), old(ledger), r, at, call.scan.outcome, db, ledger);
      }
      if call.Acknowledging? {
        if fault == CommittedWriteFails {
          return None, at;
        }
        ledger := ledger[call.pass := call.entry.(committed := true)];
      }
      return Some(call.scan.outcome), at;
    }

    /** `reissue`: never while the ledger knows anything about the pass, never for a used one. */
    method Reissue(p: PassId, version: nat, token: Id, manual: Id) returns (refusal: Option<Refusal>)
      modifies this`db
      ensures refusal.None? <==>
        && p in old(db).passes && EventId(p.wedding, old(db).passes[p].event) in old(db).events
        && p !in ledger && old(db).passes[p].status != Used && old(db).passes[p].version == version
        && old(db).events[EventId(p.wedding, old(db).passes[p].event)].enabled
        && SeatOf(p, old(db).passes[p]) in old(db).confirmed
        && Person(p.wedding, old(db).passes[p].attendee) !in old(db).removed
      ensures refusal.None? ==>
        db == old(db).(passes := old(db).passes[p := old(db).passes[p].(status := Active, version := version + 1, token := token, manual := manual)])
      ensures refusal.Some? ==> db == old(db)
    {
      if p !in db.passes || EventId(p.wedding, db.passes[p].event) !in db.events {
        return Some(NotFound);
      }
      var pass := db.passes[p];
      if p in ledger {
        return Some(RecoveryHold);
      }
      if pass.status == Used || pass.version != version {
        return Some(StateConflict);
      }
      if !db.events[EventId(p.wedding, pass.event)].enabled || SeatOf(p, pass) !in db.confirmed
         || Person(p.wedding, pass.attendee) in db.removed {
        return Some(NotAdmissible);
      }
      db := db.(passes := db.passes[p := pass.(status := Active, version := version + 1, token := token, manual := manual)]);
      refusal := None;
    }

    /** `admissionState`: one transaction for each record the ledger lists. */
    method AdmissionState(records: Listing)
      modifies this`db
      ensures db == ReconcileAll(old(db), records)
      ensures Recovered(old(db), db, records)
    {
      RecoveredAll(db, records);
      hide Recovered;
      var i := 0;
      while i < |records|
        invariant 0 <= i <= |records|
        invariant db == ReconcileAll(old(db), records[..i])
      {
        var (p, entry) := records[i];
        assert records[..i + 1][..i] == records[..i];
        if p.wedding in db.live {
          if p !in db.passes {
            PlaceHold(p, MissingLineage);
          } else {
            var pass := db.passes[p];
            if pass.attendee != entry.attendee || pass.event != entry.event {
              PlaceHold(p, LineageMismatch);
            } else if pass.status != Used {
              if !entry.committed {
                PlaceHold(p, UncertainAdmission);
              } else {
                db := db.(passes := db.passes[p := pass.(status := Used, version := Max(pass.version, entry.passVersion + 1))]);
                if p !in db.admissions {
                  db := db.(admissions := db.admissions[p := Admission(entry.admission, entry.attendee, entry.event)]);
                }
              }
            }
          }
        }
        i := i + 1;
      }
      assert records[..i] == records;
    }

    method PlaceHold(p: PassId, reason: Reason)
      modifies this`db
      ensures db == Held(old(db), p, reason)
    {
      if p !in db.holds {
        db := db.(holds := db.holds[p := Hold(reason, true)]);
      }
    }

    /** `resolveAdmissionHold`: the intent is discarded first, then the hold is resolved; a failing
        commit leaves the discard done and the hold open. */
    method ResolveHold(p: PassId, fault: Fault) returns (refusal: Option<Refusal>)
      modifies this
      ensures Discardable(old(db), old(ledger), p) <==>
        && p in old(db).holds && old(db).holds[p].reason == UncertainAdmission && old(db).holds[p].open
        && p in old(db).passes && old(db).passes[p].status != Used && p !in old(db).admissions
        && (p in old(ledger) ==> !old(ledger)[p].committed)
      ensures refusal.None? ==> Discardable(old(db), old(ledger), p)
      ensures !Discardable(old(db), old(ledger), p) ==> refusal.Some? && db == old(db) && ledger == old(ledger)
      ensures Discardable(old(db), old(ledger), p) && fault != LedgerReadFails ==> ledger == old(ledger) - {p}
      ensures refusal.None? ==>
        ledger == old(ledger) - {p} && db == old(db).(holds := old(db).holds[p := Hold(UncertainAdmission, false)])
      ensures refusal.Some? ==> db == old(db)
      ensures refusal.Some? && Discardable(old(db), old(ledger), p) ==> fault == LedgerReadFails || fault == CommitFails
    {
      if p !in db.holds || !db.holds[p].open {
        return Some(NotFound);
      }
      if db.holds[p].reason != UncertainAdmission {
        return Some(DataRequired);
      }
      if p !in db.passes {
        return Some(NotFound);
      }
      if db.passes[p].status == Used || p in db.admissions {
        return Some(AdmissionConfirmed);
      }
      if fault == LedgerReadFails {
        return Some(LedgerUnavailable);
      }
      if p in ledger && ledger[p].committed {
        return Some(AdmissionConfirmed);
      }
      ledger := ledger - {p};
      if fault == CommitFails {
        return Some(StateConflict);
      }
      db := db.(holds := db.holds[p := db.holds[p].(open := false)]);
      refusal := None;
    }
  }
}
