/** Storage and allowance accounting of one wedding (packages/persistence/src/media.ts, creative.ts,
    index.ts, operator.ts and recovery.ts): bytes are reserved, converted and released from many places. */
module Quota {
  import opened Options
  import opened Totals

  type Id = nat

  datatype Processing = Awaiting | Receiving | Uploaded | Processing | Ready | Rejected | Expired

  datatype Asset = Asset(processing: Processing, reserved: nat, actual: nat, deleted: bool)

  datatype RunState = Queued | Submitted | Completed | Failed | UnknownExternal | Cancelled

  /** A creative run; only a board reserves storage. */
  datatype Run = Run(board: bool, day: Id, state: RunState, reserved: nat, allowance: bool, cancelled: bool)

  datatype Day = Day(concepts: int, boards: int)

  /** `generated` holds the bytes of generated assets. */
  datatype Books = Books(
    stored: int, reserved: int, limit: int, open: bool,
    assets: map<Id, Asset>, runs: map<Id, Run>, generated: map<Id, nat>, days: map<Id, Day>)

  const MIB := 1048576
  const BOARD_BYTES: nat := 26214400

  // ---------- the balance ----------

  function AssetReserved(assets: map<Id, Asset>): map<Id, nat> { map a | a in assets :: assets[a].reserved }

  function AssetActual(assets: map<Id, Asset>): map<Id, nat> { map a | a in assets :: assets[a].actual }

  function RunReserved(runs: map<Id, Run>): map<Id, nat> { map r | r in runs :: runs[r].reserved }

  function Allowed(runs: map<Id, Run>, day: Id, board: bool): set<Id> {
    set r | r in runs && runs[r].day == day && runs[r].board == board && runs[r].allowance
  }

  /** The counters against the rows. `overwritten` is what commits wrote over in `actual_bytes`, `drift`
      what was released from the reserved counter beyond what rows held; both are zero when all is well. */
  ghost predicate Balanced(b: Books, overwritten: nat, drift: nat) {
    && b.reserved + drift == Total(AssetReserved(b.assets)) + Total(RunReserved(b.runs))
    && b.stored == Total(AssetActual(b.assets)) + Total(b.generated) + overwritten
    && 0 <= b.reserved && b.stored + b.reserved <= b.limit
  }

  /** Each day's counters are its runs that still hold their allowance. */
  ghost predicate AllowanceKept(b: Books) {
    && (forall d :: d in b.days ==>
          b.days[d].boards == |Allowed(b.runs, d, true)| && b.days[d].concepts == |Allowed(b.runs, d, false)|)
    && (forall r :: r in b.runs && b.runs[r].allowance ==> b.runs[r].day in b.days)
  }

  lemma AssetTotals(assets: map<Id, Asset>, id: Id, a: Asset)
    ensures Total(AssetReserved(assets[id := a])) == Total(AssetReserved(assets)) - (if id in assets then assets[id].reserved else 0) + a.reserved
    ensures Total(AssetActual(assets[id := a])) == Total(AssetActual(assets)) - (if id in assets then assets[id].actual else 0) + a.actual
    ensures id in assets ==> assets[id].reserved <= Total(AssetReserved(assets)) && assets[id].actual <= Total(AssetActual(assets))
  {
    TotalUpdate(AssetReserved(assets), id, a.reserved);
    TotalUpdate(AssetActual(assets), id, a.actual);
    assert AssetReserved(assets[id := a]) == AssetReserved(assets)[id := a.reserved];
    assert AssetActual(assets[id := a]) == AssetActual(assets)[id := a.actual];
    if id in assets {
      TotalAtLeast(AssetReserved(assets), id);
      TotalAtLeast(AssetActual(assets), id);
    }
  }

  lemma RunTotals(runs: map<Id, Run>, id: Id, r: Run)
    ensures Total(RunReserved(runs[id := r])) == Total(RunReserved(runs)) - (if id in runs then runs[id].reserved else 0) + r.reserved
    ensures id in runs ==> runs[id].reserved <= Total(RunReserved(runs))
  {
    TotalUpdate(RunReserved(runs), id, r.reserved);
    assert RunReserved(runs[id := r]) == RunReserved(runs)[id := r.reserved];
    if id in runs {
      TotalAtLeast(RunReserved(runs), id);
    }
  }

  // ---------- media ----------

  function Max(a: int, b: int): int { if a < b then b else a }

  /** The original, and as much again, or two MiB, for its derivatives. */
  function Need(bytes: nat): nat { bytes + Max(bytes, 2 * MIB) }

  function Intended(b: Books, id: Id, bytes: nat): Option<Books> {
    if b.open && b.stored + b.reserved + Need(bytes) <= b.limit
    then Some(b.(reserved := b.reserved + Need(bytes), assets := b.assets[id := Asset(Awaiting, Need(bytes), 0, false)]))
    else None
  }

  /** A status update that matches only one state: claiming, storing or giving up an upload. */
  function Moved(b: Books, id: Id, from: Processing, to: Processing): Option<Books> {
    if id in b.assets && b.assets[id].processing == from && (to == Awaiting || !b.assets[id].deleted)
    then Some(b.(assets := b.assets[id := b.assets[id].(processing := to)])) else None
  }

  /** A worker marks the asset as processing, whatever it is by now. */
  function Marked(b: Books, id: Id): Books
    requires id in b.assets
  {
    b.(assets := b.assets[id := b.assets[id].(processing := Processing)])
  }

  /** The worker's final transaction. */
  function Committed(b: Books, id: Id, total: nat): Option<Books> {
    if id in b.assets && !b.assets[id].deleted && b.assets[id].processing == Processing
       && b.stored + b.reserved - b.assets[id].reserved + total <= b.limit && b.assets[id].reserved <= b.reserved
    then Some(b.(stored := b.stored + total, reserved := b.reserved - b.assets[id].reserved,
                 assets := b.assets[id := b.assets[id].(processing := Ready, reserved := 0, actual := total)]))
    else None
  }

  /** Everything an asset holds is given back; the database refuses a counter below zero. */
  function Released(b: Books, id: Id, to: Processing): Option<Books> {
    if id !in b.assets then Some(b)
    else if b.reserved < b.assets[id].reserved || b.stored < b.assets[id].actual then None
    else Some(b.(stored := b.stored - b.assets[id].actual, reserved := b.reserved - b.assets[id].reserved,
                 assets := b.assets[id := b.assets[id].(processing := to, reserved := 0, actual := 0)]))
  }

  predicate Unfinished(a: Asset) {
    !a.deleted && (a.processing == Awaiting || a.processing == Receiving || a.processing == Uploaded || a.processing == Processing)
  }

  /** An unfinished upload gives up its reservation: expired, or its uploader removed. */
  function GivenUp(b: Books, id: Id): Option<Books>
    requires id in b.assets
  {
    if b.reserved < b.assets[id].reserved then None
    else Some(b.(reserved := b.reserved - b.assets[id].reserved,
                 assets := b.assets[id := b.assets[id].(processing := Expired, reserved := 0)]))
  }

  function Deleted(b: Books, id: Id): Books
    requires id in b.assets
  {
    b.(assets := b.assets[id := b.assets[id].(deleted := true)])
  }

  /** The replay of a media erasure after a restore, with its counters clamped at zero. */
  function Replayed(b: Books, id: Id): Books {
    if id !in b.assets then b
    else b.(stored := Max(0, b.stored - b.assets[id].actual), reserved := Max(0, b.reserved - b.assets[id].reserved),
            assets := b.assets[id := Asset(Expired, 0, 0, true)])
  }

  function Limited(b: Books, limit: int, open: bool): Option<Books> {
    if limit < b.stored + b.reserved then None else Some(b.(limit := limit, open := open))
  }

  // ---------- creative runs ----------

  function Counted(d: Day, board: bool, change: int): Day {
    if board then d.(boards := d.boards + change) else d.(concepts := d.concepts + change)
  }

  function Count(d: Day, board: bool): int { if board then d.boards else d.concepts }

  function DayOf(b: Books, day: Id): Day { if day in b.days then b.days[day] else Day(0, 0) }

  /** A new run takes its allowance, and a board its storage, or nothing happens at all. */
  function Generated(b: Books, id: Id, board: bool, day: Id, allowance: nat): Option<Books> {
    if allowance <= Count(DayOf(b, day), board) then None
    else if board && b.limit < b.stored + b.reserved + BOARD_BYTES then None
    else
      var bytes: nat := if board then BOARD_BYTES else 0;
      Some(b.(reserved := b.reserved + bytes, days := b.days[day := Counted(DayOf(b, day), board, 1)],
              runs := b.runs[id := Run(board, day, Queued, bytes, true, false)]))
  }

  function StorageReleased(b: Books, id: Id): Option<Books>
    requires id in b.runs
  {
    if b.runs[id].reserved == 0 then Some(b)
    else if b.reserved < b.runs[id].reserved then None
    else Some(b.(reserved := b.reserved - b.runs[id].reserved, runs := b.runs[id := b.runs[id].(reserved := 0)]))
  }

  function AllowanceReleased(b: Books, id: Id): Books
    requires id in b.runs
  {
    var r := b.runs[id];
    if !r.allowance || r.day !in b.days then b
    else b.(runs := b.runs[id := r.(allowance := false)], days := b.days[r.day := Counted(b.days[r.day], r.board, -1)])
  }

  function InState(b: Books, id: Id, state: RunState): Books
    requires id in b.runs
  {
    b.(runs := b.runs[id := b.runs[id].(state := state)])
  }

  function RunCancelled(b: Books, id: Id): Option<Books>
    requires id in b.runs
  {
    var r := b.runs[id];
    if r.state == Completed || r.state == Failed || r.state == Cancelled then Some(b)
    else
      var marked := b.(runs := b.runs[id := r.(cancelled := true, state := Cancelled)]);
      StorageReleased(if r.state == Submitted || r.state == UnknownExternal then marked else AllowanceReleased(marked, id), id)
  }

  /** The service closed before this run was submitted. */
  function RunClosed(b: Books, id: Id): Option<Books>
    requires id in b.runs
  {
    match StorageReleased(AllowanceReleased(b, id), id)
    case None => None
    case Some(v) => Some(InState(v, id, Failed))
  }

  function RunFailed(b: Books, id: Id, uncertain: bool): Option<Books>
    requires id in b.runs
  {
    var r := b.runs[id];
    var v := InState(b, id, if r.cancelled then Cancelled else if uncertain then UnknownExternal else Failed);
    StorageReleased(if !uncertain && !r.cancelled then AllowanceReleased(v, id) else v, id)
  }

  /** A finished board: its bytes are stored, and the reservation its worker read is released. */
  function BoardCommitted(b: Books, id: Id, asset: Id, bytes: nat, read: nat): Option<Books>
    requires id in b.runs
  {
    if b.runs[id].cancelled || b.runs[id].state != Submitted then None
    else if b.reserved < read || b.limit < b.stored + b.reserved - read + bytes then None
    else Some(b.(stored := b.stored + bytes, reserved := b.reserved - read, generated := b.generated[asset := bytes],
                 runs := b.runs[id := b.runs[id].(reserved := 0, state := Completed)]))
  }

  // ---------- every transaction keeps the balance ----------

  lemma IntendedKeeps(b: Books, o: nat, d: nat, id: Id, bytes: nat)
    requires Balanced(b, o, d) && id !in b.assets
    ensures Intended(b, id, bytes).Some? ==> Balanced(Intended(b, id, bytes).value, o, d)
  {
    AssetTotals(b.assets, id, Asset(Awaiting, Need(bytes), 0, false));
    hide AssetReserved, AssetActual, RunReserved;
  }

  /** Changing only an asset's status or deletion mark. */
  lemma StatusKeeps(b: Books, o: nat, d: nat, id: Id, a: Asset)
    requires Balanced(b, o, d) && id in b.assets && a.reserved == b.assets[id].reserved && a.actual == b.assets[id].actual
    ensures Balanced(b.(assets := b.assets[id := a]), o, d)
  {
    AssetTotals(b.assets, id, a);
    hide AssetReserved, AssetActual, RunReserved;
  }

  /** A commit writes over what the row held: nothing, unless the asset had been committed before. */
  lemma CommittedKeeps(b: Books, o: nat, d: nat, id: Id, total: nat)
    requires Balanced(b, o, d) && Committed(b, id, total).Some?
    ensures Balanced(Committed(b, id, total).value, o + b.assets[id].actual, d)
  {
    AssetTotals(b.assets, id, b.assets[id].(processing := Ready, reserved := 0, actual := total));
    hide AssetReserved, AssetActual, RunReserved;
  }

  /** So a commit conserves storage exactly when the row held no bytes. */
  lemma CommitConservesIff(b: Books, o: nat, d: nat, id: Id, total: nat)
    requires Balanced(b, o, d) && Committed(b, id, total).Some?
    ensures Balanced(Committed(b, id, total).value, o, d) <==> b.assets[id].actual == 0
  {
    CommittedKeeps(b, o, d, id, total);
  }

  lemma ReleasedKeeps(b: Books, o: nat, d: nat, id: Id, to: Processing)
    requires Balanced(b, o, d)
    ensures Released(b, id, to).Some? ==> Balanced(Released(b, id, to).value, o, d)
    ensures d == 0 ==> Released(b, id, to).Some?
  {
    if id in b.assets {
      AssetTotals(b.assets, id, b.assets[id].(processing := to, reserved := 0, actual := 0));
    }
    hide AssetReserved, AssetActual, RunReserved;
  }

  lemma GivenUpKeeps(b: Books, o: nat, d: nat, id: Id)
    requires Balanced(b, o, d) && id in b.assets
    ensures GivenUp(b, id).Some? ==> Balanced(GivenUp(b, id).value, o, d)
    ensures d == 0 ==> GivenUp(b, id).Some?
  {
    AssetTotals(b.assets, id, b.assets[id].(processing := Expired, reserved := 0));
    hide AssetReserved, AssetActual, RunReserved;
  }

  /** What is left of a drift after a clamp made up for some of it. */
  function DriftLeft(b: Books, d: nat, id: Id): nat {
    var short := if id in b.assets then b.assets[id].reserved - b.reserved else 0;
    if short <= 0 then d else if short <= d then d - short else 0
  }

  /** The stored clamp of a replay never fires, and the reserved one only in books that had drifted. */
  lemma ReplayedKeeps(b: Books, o: nat, d: nat, id: Id)
    requires Balanced(b, o, d)
    ensures Balanced(Replayed(b, id), o, DriftLeft(b, d, id))
    ensures id in b.assets ==> Replayed(b, id).stored == b.stored - b.assets[id].actual
    ensures id in b.assets && d == 0 ==> Replayed(b, id).reserved == b.reserved - b.assets[id].reserved
  {
    if id in b.assets {
      AssetTotals(b.assets, id, Asset(Expired, 0, 0, true));
    }
    hide AssetReserved, AssetActual, RunReserved;
  }

  lemma GeneratedKeeps(b: Books, o: nat, d: nat, id: Id, board: bool, day: Id, allowance: nat)
    requires Balanced(b, o, d) && id !in b.runs
    ensures Generated(b, id, board, day, allowance).Some? ==> Balanced(Generated(b, id, board, day, allowance).value, o, d)
  {
    RunTotals(b.runs, id, Run(board, day, Queued, if board then BOARD_BYTES else 0, true, false));
    hide AssetReserved, AssetActual, RunReserved;
  }

  lemma StorageReleasedKeeps(b: Books, o: nat, d: nat, id: Id)
    requires Balanced(b, o, d) && id in b.runs
    ensures StorageReleased(b, id).Some? ==> Balanced(StorageReleased(b, id).value, o, d) && StorageReleased(b, id).value.runs[id] == b.runs[id].(reserved := 0)
    ensures d == 0 ==> StorageReleased(b, id).Some?
  {
    RunTotals(b.runs, id, b.runs[id].(reserved := 0));
    assert b.runs[id].reserved == 0 ==> b.runs[id] == b.runs[id].(reserved := 0);
    hide AssetReserved, AssetActual, RunReserved;
  }

  lemma AllowanceReleasedKeeps(b: Books, o: nat, d: nat, id: Id)
    requires Balanced(b, o, d) && id in b.runs
    ensures Balanced(AllowanceReleased(b, id), o, d)
  {
    RunTotals(b.runs, id, b.runs[id].(allowance := false));
    hide AssetReserved, AssetActual, RunReserved;
  }

  lemma InStateKeeps(b: Books, o: nat, d: nat, id: Id, state: RunState, cancelled: bool)
    requires Balanced(b, o, d) && id in b.runs
    ensures Balanced(b.(runs := b.runs[id := b.runs[id].(state := state, cancelled := cancelled)]), o, d)
  {
    RunTotals(b.runs, id, b.runs[id].(state := state, cancelled := cancelled));
    hide AssetReserved, AssetActual, RunReserved;
  }

  lemma RunEndsKeep(b: Books, o: nat, d: nat, id: Id, uncertain: bool)
    requires Balanced(b, o, d) && id in b.runs
    ensures RunCancelled(b, id).Some? ==> Balanced(RunCancelled(b, id).value, o, d)
    ensures RunClosed(b, id).Some? ==> Balanced(RunClosed(b, id).value, o, d)
    ensures RunFailed(b, id, uncertain).Some? ==> Balanced(RunFailed(b, id, uncertain).value, o, d)
  {
    hide Balanced, StorageReleased, AllowanceReleased;
    var r := b.runs[id];
    CancelledKeeps(b, o, d, id);
    ClosedKeeps(b, o, d, id);
    FailedKeeps(b, o, d, id, uncertain);
  }

  lemma CancelledKeeps(b: Books, o: nat, d: nat, id: Id)
    requires Balanced(b, o, d) && id in b.runs
    ensures RunCancelled(b, id).Some? ==> Balanced(RunCancelled(b, id).value, o, d)
  {
    hide Balanced;
    var marked := b.(runs := b.runs[id := b.runs[id].(cancelled := true, state := Cancelled)]);
    InStateKeeps(b, o, d, id, Cancelled, true);
    AllowanceReleasedKeeps(marked, o, d, id);
    StorageReleasedKeeps(marked, o, d, id);
    StorageReleasedKeeps(AllowanceReleased(marked, id), o, d, id);
  }

  lemma ClosedKeeps(b: Books, o: nat, d: nat, id: Id)
    requires Balanced(b, o, d) && id in b.runs
    ensures RunClosed(b, id).Some? ==> Balanced(RunClosed(b, id).value, o, d)
  {
    hide Balanced;
    AllowanceReleasedKeeps(b, o, d, id);
    var v := AllowanceReleased(b, id);
    StorageReleasedKeeps(v, o, d, id);
    if StorageReleased(v, id).Some? {
      InStateKeeps(StorageReleased(v, id).value, o, d, id, Failed, StorageReleased(v, id).value.runs[id].cancelled);
    }
  }

  lemma FailedKeeps(b: Books, o: nat, d: nat, id: Id, uncertain: bool)
    requires Balanced(b, o, d) && id in b.runs
    ensures RunFailed(b, id, uncertain).Some? ==> Balanced(RunFailed(b, id, uncertain).value, o, d)
  {
    hide Balanced;
    var r := b.runs[id];
    var state := if r.cancelled then Cancelled else if uncertain then UnknownExternal else Failed;
    InStateKeeps(b, o, d, id, state, r.cancelled);
    var v := InState(b, id, state);
    AllowanceReleasedKeeps(v, o, d, id);
    StorageReleasedKeeps(v, o, d, id);
    StorageReleasedKeeps(AllowanceReleased(v, id), o, d, id);
  }

  /** A board's commit releases what its worker had read; anything beyond what the row still held is drift. */
  lemma BoardCommittedKeeps(b: Books, o: nat, d: nat, id: Id, asset: Id, bytes: nat, read: nat)
    requires Balanced(b, o, d) && id in b.runs && asset !in b.generated && b.runs[id].reserved <= read
    requires BoardCommitted(b, id, asset, bytes, read).Some?
    ensures Balanced(BoardCommitted(b, id, asset, bytes, read).value, o, d + read - b.runs[id].reserved)
  {
    RunTotals(b.runs, id, b.runs[id].(reserved := 0, state := Completed));
    TotalUpdate(b.generated, asset, bytes);
    hide AssetReserved, AssetActual, RunReserved;
  }

  /** So a board's commit conserves storage exactly when the reservation its worker read is still the row's. */
  lemma BoardConservesIff(b: Books, o: nat, d: nat, id: Id, asset: Id, bytes: nat, read: nat)
    requires Balanced(b, o, d) && id in b.runs && asset !in b.generated && b.runs[id].reserved <= read
    requires BoardCommitted(b, id, asset, bytes, read).Some?
    ensures Balanced(BoardCommitted(b, id, asset, bytes, read).value, o, d) <==> b.runs[id].reserved == read
  {
    BoardCommittedKeeps(b, o, d, id, asset, bytes, read);
  }

  // ---------- every transaction keeps the allowance ----------

  lemma AllowedUpdate(runs: map<Id, Run>, id: Id, r: Run, day: Id, board: bool)
    ensures var v := Allowed(runs[id := r], day, board);
            v == if r.day == day && r.board == board && r.allowance then Allowed(runs, day, board) + {id} else Allowed(runs, day, board) - {id}
  {
  }

  lemma AllowedCount(runs: map<Id, Run>, id: Id, r: Run, day: Id, board: bool)
    ensures |Allowed(runs[id := r], day, board)| ==
      |Allowed(runs, day, board)| - (if id in runs && id in Allowed(runs, day, board) then 1 else 0)
      + (if r.day == day && r.board == board && r.allowance then 1 else 0)
  {
    AllowedUpdate(runs, id, r, day, board);
    assert Allowed(runs, day, board) - {id} + {id} == Allowed(runs, day, board) + {id};
  }

  lemma GeneratedAllowance(b: Books, id: Id, board: bool, day: Id, allowance: nat)
    requires AllowanceKept(b) && id !in b.runs
    ensures Generated(b, id, board, day, allowance).Some? ==> AllowanceKept(Generated(b, id, board, day, allowance).value)
  {
    hide Allowed;
    var r := Run(board, day, Queued, if board then BOARD_BYTES else 0, true, false);
    forall d, k: bool ensures |Allowed(b.runs[id := r], d, k)| == |Allowed(b.runs, d, k)| + (if d == day && k == board then 1 else 0) {
      AllowedCount(b.runs, id, r, d, k);
    }
    NothingAllowed(b, day);
  }

  /** Fewer runs of this kind and day hold their allowance than are allowed, and a board's storage fits. */
  ghost predicate Affordable(b: Books, board: bool, day: Id, allowance: nat) {
    && |set r | r in b.runs && b.runs[r].day == day && b.runs[r].board == board && b.runs[r].allowance| < allowance
    && (board ==> b.stored + b.reserved + 26214400 <= b.limit)
  }

  /** What an accepted request changes: its run, the day's counter of its kind and, for a board, what is reserved. */
  ghost predicate Requested(b: Books, id: Id, board: bool, day: Id, v: Books) {
    && v == b.(runs := v.runs, reserved := v.reserved, days := v.days)
    && v.runs == b.runs[id := Run(board, day, Queued, if board then 26214400 else 0, true, false)]
    && v.reserved == b.reserved + (if board then 26214400 else 0)
    && v.days.Keys == b.days.Keys + {day} && (forall d :: d in b.days && d != day ==> v.days[d] == b.days[d])
    && (if board then v.days[day].boards else v.days[day].concepts)
       == |set r | r in b.runs && b.runs[r].day == day && b.runs[r].board == board && b.runs[r].allowance| + 1
    && (day in b.days ==> if board then v.days[day].concepts == b.days[day].concepts else v.days[day].boards == b.days[day].boards)
  }

  lemma HeldIsCounted(b: Books, board: bool, day: Id)
    requires AllowanceKept(b)
    ensures |set r | r in b.runs && b.runs[r].day == day && b.runs[r].board == board && b.runs[r].allowance| == Count(DayOf(b, day), board)
  {
    NothingAllowed(b, day);
    assert Allowed(b.runs, day, board) == set r | r in b.runs && b.runs[r].day == day && b.runs[r].board == board && b.runs[r].allowance;
    hide Allowed;
  }

  lemma GeneratedMeans(b: Books, id: Id, board: bool, day: Id, allowance: nat)
    requires AllowanceKept(b)
    ensures Generated(b, id, board, day, allowance).Some? <==> Affordable(b, board, day, allowance)
    ensures Generated(b, id, board, day, allowance).Some? ==> Requested(b, id, board, day, Generated(b, id, board, day, allowance).value)
  {
    HeldIsCounted(b, board, day);
    hide AllowanceKept;
  }

  /** A run that has ended in `state` holds no storage and, when its request is spared, no allowance; its row and,
      at most, two counters are all that change. */
  ghost predicate GivenBack(b: Books, id: Id, state: RunState, cancelled: bool, spared: bool, v: Books)
    requires id in b.runs
  {
    var r := b.runs[id];
    && v == b.(runs := v.runs, reserved := v.reserved, days := v.days)
    && v.runs == b.runs[id := Run(r.board, r.day, state, 0, r.allowance && !spared, cancelled)]
    && v.reserved == b.reserved - r.reserved && v.days.Keys == b.days.Keys
    && (forall d | d in b.days ::
          && v.days[d].boards == b.days[d].boards - (if spared && r.allowance && r.board && r.day == d then 1 else 0)
          && v.days[d].concepts == b.days[d].concepts - (if spared && r.allowance && !r.board && r.day == d then 1 else 0))
  }

  lemma StorageGone(b: Books, id: Id, row: Run)
    requires id in b.runs
    ensures var v := StorageReleased(b.(runs := b.runs[id := row]), id);
      v.Some? ==> v.value == b.(runs := b.runs[id := row.(reserved := 0)], reserved := b.reserved - row.reserved)
  {
    assert b.runs[id := row][id := row.(reserved := 0)] == b.runs[id := row.(reserved := 0)];
    if row.reserved == 0 {
      assert row == row.(reserved := 0);
    }
  }

  lemma AllowanceGone(b: Books, id: Id, row: Run)
    requires id in b.runs && (row.allowance ==> row.day in b.days)
    ensures AllowanceReleased(b.(runs := b.runs[id := row]), id) == b.(
      runs := b.runs[id := row.(allowance := false)],
      days := if row.allowance then b.days[row.day := Counted(b.days[row.day], row.board, -1)] else b.days)
  {
    assert b.runs[id := row][id := row.(allowance := false)] == b.runs[id := row.(allowance := false)];
    if !row.allowance {
      assert row == row.(allowance := false);
    }
  }

  lemma EndedMeans(b: Books, id: Id, row: Run, spared: bool)
    requires AllowanceKept(b) && id in b.runs
    requires row == b.runs[id].(state := row.state, cancelled := row.cancelled)
    ensures var marked := b.(runs := b.runs[id := row]);
      var v := StorageReleased(if spared then AllowanceReleased(marked, id) else marked, id);
      v.Some? ==> GivenBack(b, id, row.state, row.cancelled, spared, v.value)
  {
    var r := b.runs[id];
    assert r.allowance ==> r.day in b.days;
    hide AllowanceKept, AllowanceReleased, StorageReleased;
    if spared {
      AllowanceGone(b, id, row);
      var days := if r.allowance then b.days[r.day := Counted(b.days[r.day], r.board, -1)] else b.days;
      StorageGone(b.(days := days), id, row.(allowance := false));
    } else {
      StorageGone(b, id, row);
    }
  }

  /** Cancelling spares the request of a run that was not submitted yet. */
  lemma CancelledMeans(b: Books, id: Id)
    requires AllowanceKept(b) && id in b.runs
    ensures var state := b.runs[id].state;
      RunCancelled(b, id).Some? && !(state == Completed || state == Failed || state == Cancelled) ==>
      GivenBack(b, id, Cancelled, true, !(state == Submitted || state == UnknownExternal), RunCancelled(b, id).value)
  {
    var r := b.runs[id];
    EndedMeans(b, id, r.(cancelled := true, state := Cancelled), !(r.state == Submitted || r.state == UnknownExternal));
    hide AllowanceKept, AllowanceReleased, StorageReleased, GivenBack;
  }

  /** A failure spares it if it is definite and nobody cancelled the run. */
  lemma FailedMeans(b: Books, id: Id, uncertain: bool)
    requires AllowanceKept(b) && id in b.runs
    ensures var r := b.runs[id];
      RunFailed(b, id, uncertain).Some? ==>
      GivenBack(b, id, if r.cancelled then Cancelled else if uncertain then UnknownExternal else Failed, r.cancelled,
                !uncertain && !r.cancelled, RunFailed(b, id, uncertain).value)
  {
    var r := b.runs[id];
    EndedMeans(b, id, r.(state := if r.cancelled then Cancelled else if uncertain then UnknownExternal else Failed), !uncertain && !r.cancelled);
    hide AllowanceKept, AllowanceReleased, StorageReleased, GivenBack;
  }

  /** Closing the service always spares it. */
  lemma ClosedMeans(b: Books, id: Id)
    requires AllowanceKept(b) && id in b.runs && RunClosed(b, id).Some?
    ensures GivenBack(b, id, Failed, b.runs[id].cancelled, true, RunClosed(b, id).value)
  {
    var r := b.runs[id];
    assert b.runs[id := r] == b.runs;
    assert b.(runs := b.runs) == b;
    EndedMeans(b, id, r, true);
    hide AllowanceKept, AllowanceReleased, StorageReleased, GivenBack, InState;
    StateAgain(b, id, r.state, r.cancelled, true, StorageReleased(AllowanceReleased(b, id), id).value, Failed);
  }

  lemma StateAgain(b: Books, id: Id, state: RunState, cancelled: bool, spared: bool, v: Books, last: RunState)
    requires id in b.runs && id in v.runs && GivenBack(b, id, state, cancelled, spared, v)
    ensures GivenBack(b, id, last, cancelled, spared, InState(v, id, last))
  {
  }

  lemma NothingAllowed(b: Books, day: Id)
    requires AllowanceKept(b)
    ensures day !in b.days ==> |Allowed(b.runs, day, true)| == 0 && |Allowed(b.runs, day, false)| == 0
  {
    if day !in b.days {
      assert Allowed(b.runs, day, true) == {} && Allowed(b.runs, day, false) == {};
    }
  }

  /** A run that changes anything but its kind, day and allowance. */
  lemma RunRowAllowance(b: Books, id: Id, r: Run)
    requires AllowanceKept(b) && id in b.runs
    requires r.board == b.runs[id].board && r.day == b.runs[id].day && r.allowance == b.runs[id].allowance
    ensures AllowanceKept(b.(runs := b.runs[id := r]))
  {
    forall d, k: bool ensures Allowed(b.runs[id := r], d, k) == Allowed(b.runs, d, k) {
      AllowedUpdate(b.runs, id, r, d, k);
    }
  }

  lemma AllowedAfterRelease(b: Books, id: Id, day: Id, board: bool)
    requires id in b.runs
    ensures var row := b.runs[id];
      |Allowed(b.runs[id := row.(allowance := false)], day, board)|
      == |Allowed(b.runs, day, board)| - (if row.day == day && row.board == board && row.allowance then 1 else 0)
  {
    AllowedCount(b.runs, id, b.runs[id].(allowance := false), day, board);
  }

  lemma AllowanceReleasedKept(b: Books, id: Id)
    requires AllowanceKept(b) && id in b.runs && b.runs[id].allowance
    ensures AllowanceKept(AllowanceReleased(b, id))
  {
    hide Allowed;
    var row := b.runs[id];
    forall d, k: bool ensures |Allowed(b.runs[id := row.(allowance := false)], d, k)| ==
        |Allowed(b.runs, d, k)| - (if row.day == d && row.board == k && row.allowance then 1 else 0) {
      AllowedAfterRelease(b, id, d, k);
    }
  }

  /** An allowance is given back once: only while the run still holds it. */
  lemma AllowanceReleasedOnce(b: Books, id: Id)
    requires AllowanceKept(b) && id in b.runs
    ensures AllowanceKept(AllowanceReleased(b, id)) && !AllowanceReleased(b, id).runs[id].allowance
    ensures AllowanceReleased(AllowanceReleased(b, id), id) == AllowanceReleased(b, id)
  {
    if b.runs[id].allowance {
      AllowanceReleasedKept(b, id);
      assert b.runs[id].day in b.days;
    }
    hide AllowanceKept;
  }
}
