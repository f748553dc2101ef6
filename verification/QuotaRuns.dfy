/** Storage and allowance under stale workers: any number of workers lease, stall, lose their lease and
    carry on with what they had read, between uploads, cancellations, deletions and replays. */
module QuotaRuns {
  import opened Options
  import opened Seqs
  import opened Totals
  import opened Quota

  /** A media or generation job; leases are taken under an owner that no other call ever used. */
  datatype Lease = Lease(owner: Option<Id>, live: bool, closed: bool)

  /** One call of the generation worker and what it knows: the run as it once read it. */
  datatype Worker = Worker(run: Id, read: Option<Run>, submitted: bool, released: bool)

  datatype Stage = Started | Looked | Marking | Left

  /** One call of the media worker: whose asset it has, and how far it got. */
  datatype Processor = Processor(asset: Id, stage: Stage)

  /** Each uploaded asset has its media job in `uploads`. History: `overwritten` and `drift` as in
      Quota.Balanced; `remarked` are the ready assets a worker marked as processing while their job was still
      to be done (`Remarks`); `stray` are the submitted runs whose storage was released while their worker
      could still commit them (`Doubles`). */
  datatype World = World(
    books: Books, uploads: map<Id, Lease>, processors: map<Id, Processor>, jobs: map<Id, Lease>, workers: map<Id, Worker>,
    overwritten: nat, drift: nat, remarked: set<Id>, stray: set<Id>)

  datatype Op =
    | Intend(asset: Id, bytes: nat)
    | Move(asset: Id, from: Processing, to: Processing)
    | TakeUpload(asset: Id, owner: Id)
    | ExpireUpload(asset: Id)
    | RenewUpload(asset: Id)
    | CloseUpload(asset: Id)
    | Look(owner: Id)
    | Mark(owner: Id)
    | Commit(owner: Id, total: nat)
    | Release(asset: Id, to: Processing)
    | GiveUp(asset: Id)
    | Delete(asset: Id)
    | Replay(asset: Id)
    | Limit(limit: int, open: bool)
    | Generate(run: Id, board: bool, day: Id, allowance: nat)
    | Cancel(run: Id)
    | TakeLease(run: Id, owner: Id)
    | Expire(run: Id)
    | Renew(run: Id)
    | Close(run: Id)
    | Reopen(run: Id)
    | Read(owner: Id)
    | CloseService(owner: Id)
    | ReleaseUncertain(owner: Id)
    | MarkUnknown(owner: Id)
    | Submit(owner: Id)
    | CommitBoard(owner: Id, generated: Id, bytes: nat)
    | Complete(owner: Id)
    | Fail(owner: Id, uncertain: bool)

  predicate Holds(w: World, owner: Id)
    requires owner in w.workers
  {
    var run := w.workers[owner].run;
    run in w.jobs && w.jobs[run] == Lease(Some(owner), true, false)
  }

  predicate HoldsUpload(w: World, owner: Id)
    requires owner in w.processors
  {
    var asset := w.processors[owner].asset;
    asset in w.uploads && w.uploads[asset] == Lease(Some(owner), true, false)
  }

  /** No worker will ever hold the asset's job. */
  predicate Finished(w: World, asset: Id) {
    asset in w.uploads ==> w.uploads[asset].closed
  }

  predicate AtStage(w: World, owner: Id, stage: Stage) {
    owner in w.processors && w.processors[owner].stage == stage && w.processors[owner].asset in w.books.assets
  }

  /** The status updates of an upload: claimed, stored, or given back. */
  predicate Arriving(from: Processing, to: Processing) {
    (from == Awaiting && to == Receiving) || (from == Receiving && (to == Uploaded || to == Awaiting))
  }

  predicate Known(w: World, owner: Id) {
    owner in w.workers && w.workers[owner].run in w.books.runs && w.workers[owner].read.Some?
  }

  predicate Ended(state: RunState) { state == Completed || state == Cancelled }

  predicate Uncertain(state: RunState) { state == Submitted || state == UnknownExternal }

  /** The worker is past its opening checks. */
  predicate Working(w: World, owner: Id) {
    Known(w, owner) && var seen := w.workers[owner].read.value.state; !Ended(seen) && !Uncertain(seen)
  }

  /** Marking an asset that already holds its bytes while its job is still to be done. */
  predicate Remarks(w: World, owner: Id)
    requires AtStage(w, owner, Looked)
  {
    var id := w.processors[owner].asset;
    var a := w.books.assets[id];
    a.processing == Ready && a.actual > 0 && !a.deleted && !Finished(w, id)
  }

  /** The job's owner has submitted the run and may still commit it. */
  predicate Committing(w: World, run: Id)
    requires run in w.books.runs
  {
    && w.books.runs[run].state == Submitted && !w.books.runs[run].cancelled
    && run in w.jobs && !w.jobs[run].closed && w.jobs[run].owner.Some?
    && w.jobs[run].owner.value in w.workers && w.workers[w.jobs[run].owner.value].run == run && w.workers[w.jobs[run].owner.value].submitted
  }

  /** Releasing the storage that such an owner is going to release once more. */
  predicate Doubles(w: World, owner: Id)
    requires Known(w, owner)
  {
    var run := w.workers[owner].run;
    Committing(w, run) && w.books.runs[run].reserved > 0
  }

  /** The books after an operation; None when it is not possible, or rolled back. */
  function Books(w: World, op: Op): Option<Books> {
    var b := w.books;
    match op
    case Intend(a, bytes) => if a in b.assets then None else Intended(b, a, bytes)
    case Move(a, from, to) => if Arriving(from, to) then Moved(b, a, from, to) else None
    case TakeUpload(a, o) =>
      if a in b.assets && a in w.uploads && o !in w.processors && !w.uploads[a].closed && !w.uploads[a].live then Some(b) else None
    case ExpireUpload(a) => if a in w.uploads then Some(b) else None
    case RenewUpload(a) => if a in w.uploads && w.uploads[a].owner.Some? && !w.uploads[a].closed then Some(b) else None
    case CloseUpload(a) => if a in w.uploads then Some(b) else None
    case Look(o) => if AtStage(w, o, Started) then Some(b) else None
    case Mark(o) => if AtStage(w, o, Looked) then Some(Marked(b, w.processors[o].asset)) else None
    case Commit(o, total) => if AtStage(w, o, Marking) && HoldsUpload(w, o) then Committed(b, w.processors[o].asset, total) else None
    case Release(a, to) => if to == Rejected || to == Expired then Released(b, a, to) else None
    case GiveUp(a) => if a in b.assets && Unfinished(b.assets[a].(deleted := false)) then GivenUp(b, a) else None
    case Delete(a) => if a in b.assets then Some(Deleted(b, a)) else None
    case Replay(a) => Some(Replayed(b, a))
    case Limit(limit, open) => Limited(b, limit, open)
    case Generate(r, board, day, allowance) => if r in b.runs then None else Generated(b, r, board, day, allowance)
    case Cancel(r) => if r in b.runs then RunCancelled(b, r) else None
    case TakeLease(r, o) =>
      if r in b.runs && r in w.jobs && o !in w.workers && !w.jobs[r].closed && !w.jobs[r].live then Some(b) else None
    case Expire(r) => if r in w.jobs then Some(b) else None
    case Renew(r) => if r in w.jobs && w.jobs[r].owner.Some? && !w.jobs[r].closed then Some(b) else None
    case Close(r) => if r in w.jobs then Some(b) else None
    case Reopen(r) => if r in w.jobs && !w.jobs[r].closed then Some(b) else None
    case Read(o) => if o in w.workers && w.workers[o].run in b.runs && w.workers[o].read.None? then Some(b) else None
    case CloseService(o) => if Working(w, o) then RunClosed(b, w.workers[o].run) else None
    case ReleaseUncertain(o) =>
      if Known(w, o) && Uncertain(w.workers[o].read.value.state) then StorageReleased(b, w.workers[o].run) else None
    case MarkUnknown(o) => if Known(w, o) && w.workers[o].released then Some(InState(b, w.workers[o].run, UnknownExternal)) else None
    case Submit(o) =>
      if Working(w, o) && Holds(w, o) && b.runs[w.workers[o].run].state == Queued && !b.runs[w.workers[o].run].cancelled
      then Some(InState(b, w.workers[o].run, Submitted)) else None
    case CommitBoard(o, g, bytes) =>
      if Known(w, o) && w.workers[o].submitted && Holds(w, o) && g !in b.generated
      then BoardCommitted(b, w.workers[o].run, g, bytes, w.workers[o].read.value.reserved) else None
    case Complete(o) =>
      if Known(w, o) && w.workers[o].submitted && Holds(w, o) && !b.runs[w.workers[o].run].board
         && b.runs[w.workers[o].run].state == Submitted && !b.runs[w.workers[o].run].cancelled
      then Some(InState(b, w.workers[o].run, Completed)) else None
    case Fail(o, uncertain) => if Working(w, o) && Holds(w, o) then RunFailed(b, w.workers[o].run, uncertain) else None
  }

  function InStage(w: World, o: Id, stage: Stage): World
    requires o in w.processors
  {
    w.(processors := w.processors[o := w.processors[o].(stage := stage)])
  }

  /** The world after a possible operation. */
  function After(w: World, op: Op): World
    requires Books(w, op).Some?
  {
    var v := w.(books := Books(w, op).value);
    match op
    case Move(a, _, to) => if to == Uploaded then v.(uploads := w.uploads[a := Lease(None, false, false)]) else v
    case TakeUpload(a, o) => v.(uploads := w.uploads[a := Lease(Some(o), true, false)], processors := w.processors[o := Processor(a, Started)])
    case ExpireUpload(a) => v.(uploads := w.uploads[a := w.uploads[a].(live := false)])
    case RenewUpload(a) => v.(uploads := w.uploads[a := w.uploads[a].(live := true)])
    case CloseUpload(a) => v.(uploads := w.uploads[a := w.uploads[a].(closed := true)])
    case Look(o) =>
      var a := w.books.assets[w.processors[o].asset];
      InStage(v, o, if a.processing == Ready || a.deleted then Left else Looked)
    case Mark(o) =>
      var a := w.processors[o].asset;
      InStage(v, o, Marking).(remarked := if Remarks(w, o) then w.remarked + {a} else w.remarked)
    case Commit(o, _) => InStage(v, o, Left).(overwritten := w.overwritten + w.books.assets[w.processors[o].asset].actual)
    case Replay(a) => v.(drift := DriftLeft(w.books, w.drift, a))
    case Generate(r, _, _, _) => v.(jobs := w.jobs[r := Lease(None, false, false)])
    case TakeLease(r, o) => v.(jobs := w.jobs[r := Lease(Some(o), true, false)], workers := w.workers[o := Worker(r, None, false, false)])
    case Expire(r) => v.(jobs := w.jobs[r := w.jobs[r].(live := false)])
    case Renew(r) => v.(jobs := w.jobs[r := w.jobs[r].(live := true)])
    case Close(r) => v.(jobs := w.jobs[r := w.jobs[r].(closed := true)])
    case Reopen(r) => v.(jobs := w.jobs[r := Lease(None, false, false)])
    case Read(o) => v.(workers := w.workers[o := w.workers[o].(read := Some(w.books.runs[w.workers[o].run]))])
    case ReleaseUncertain(o) =>
      var r := w.workers[o].run;
      v.(workers := w.workers[o := w.workers[o].(released := true)],
         stray := if Doubles(w, o) then w.stray + {r} else w.stray)
    case Submit(o) => v.(workers := w.workers[o := w.workers[o].(submitted := true)])
    case CommitBoard(o, _, _) =>
      var row, read := w.books.runs[w.workers[o].run].reserved, w.workers[o].read.value.reserved;
      v.(drift := if row <= read then w.drift + read - row else w.drift)
    case _ => v
  }

  ghost predicate Runs(w: World, ops: seq<Op>, end: World)
    decreases |ops|
  {
    if ops == [] then end == w else Books(w, ops[0]).Some? && Runs(After(w, ops[0]), ops[1..], end)
  }

  predicate Fresh(w: World) {
    && w.books.stored == 0 && w.books.reserved == 0 && 0 <= w.books.limit && w.books.assets == map[] && w.books.runs == map[]
    && w.books.generated == map[] && w.books.days == map[] && w.jobs == map[] && w.workers == map[] && w.uploads == map[] && w.processors == map[]
    && w.overwritten == 0 && w.drift == 0 && w.remarked == {} && w.stray == {}
  }

  // ---------- what every step keeps ----------

  function Initial(r: Run): nat { if r.board then BOARD_BYTES else 0 }

  /** Bytes are recorded for ready assets and for those no worker will commit again, or that were remarked. */
  predicate AssetFits(a: Asset, finished: bool, remarked: bool) {
    && (a.processing == Awaiting || a.processing == Receiving ==> a.actual == 0)
    && (a.processing == Ready ==> a.reserved == 0)
    && (a.actual > 0 && !remarked ==> a.processing == Ready || a.deleted || finished)
  }

  ghost predicate AssetsFit(w: World) {
    && (forall a :: a in w.books.assets ==> AssetFits(w.books.assets[a], Finished(w, a), a in w.remarked))
    && (w.remarked == {} ==> w.overwritten == 0)
  }

  /** A queued run still has its whole reservation; none ever has more. */
  predicate RunFits(r: Run) {
    r.reserved <= Initial(r) && (r.state == Queued ==> r.reserved == Initial(r))
  }

  /** What a worker read, against the run as it is now. */
  predicate WorkerFits(w: World, o: Id)
    requires o in w.workers
  {
    var k := w.workers[o];
    && k.run in w.books.runs && k.run in w.jobs
    && (k.submitted ==> k.read.Some? && k.read.value.state == Queued)
    && (k.read.Some? ==> k.read.value.board == w.books.runs[k.run].board && RunFits(k.read.value))
    && (k.read.Some? && w.books.runs[k.run].state == Queued ==> k.read.value.state == Queued)
    && (k.submitted && w.jobs[k.run].owner == Some(o) && Committing(w, k.run) && k.run !in w.stray
        ==> w.books.runs[k.run].reserved == Initial(w.books.runs[k.run]))
  }

  ghost predicate WorkersFit(w: World) {
    && (forall o :: o in w.workers ==> WorkerFits(w, o))
    && (forall r :: r in w.books.runs ==> RunFits(w.books.runs[r]))
    && (forall r :: r in w.jobs && w.jobs[r].owner.Some? ==> w.jobs[r].owner.value in w.workers)
    && (w.stray == {} ==> w.drift == 0)
  }

  ghost predicate Sound(w: World) {
    Balanced(w.books, w.overwritten, w.drift) && AllowanceKept(w.books) && AssetsFit(w) && WorkersFit(w)
  }

  predicate Leasing(op: Op) {
    op.TakeUpload? || op.ExpireUpload? || op.RenewUpload? || op.CloseUpload? || op.Look?
  }

  predicate MediaOp(op: Op) {
    || op.Intend? || op.Move? || op.Mark? || op.Commit? || op.Release? || op.GiveUp? || op.Delete? || op.Replay? || op.Limit?
    || Leasing(op)
  }

  lemma UploadBalanced(w: World, op: Op)
    requires Balanced(w.books, w.overwritten, w.drift) && Books(w, op).Some?
    requires op.Intend? || op.Move? || op.Mark? || op.Commit?
    ensures Balanced(After(w, op).books, After(w, op).overwritten, After(w, op).drift)
  {
    hide Balanced;
    var b, o, d := w.books, w.overwritten, w.drift;
    match op
    case Intend(a, bytes) => IntendedKeeps(b, o, d, a, bytes);
    case Move(a, from, to) => StatusKeeps(b, o, d, a, b.assets[a].(processing := to));
    case Mark(k) => StatusKeeps(b, o, d, w.processors[k].asset, b.assets[w.processors[k].asset].(processing := Processing));
    case Commit(k, total) => CommittedKeeps(b, o, d, w.processors[k].asset, total);
  }

  lemma EndBalanced(w: World, op: Op)
    requires Balanced(w.books, w.overwritten, w.drift) && Books(w, op).Some?
    requires op.Release? || op.GiveUp? || op.Delete? || op.Replay? || op.Limit?
    ensures Balanced(After(w, op).books, After(w, op).overwritten, After(w, op).drift)
  {
    hide Balanced;
    var b, o, d := w.books, w.overwritten, w.drift;
    match op
    case Release(a, to) => ReleasedKeeps(b, o, d, a, to);
    case GiveUp(a) => GivenUpKeeps(b, o, d, a);
    case Delete(a) => StatusKeeps(b, o, d, a, b.assets[a].(deleted := true));
    case Replay(a) => ReplayedKeeps(b, o, d, a);
    case Limit(limit, open) => LimitedKeeps(b, o, d, limit, open);
  }

  lemma LeasingFrame(w: World, op: Op)
    requires Books(w, op).Some? && Leasing(op)
    ensures After(w, op) == w.(uploads := After(w, op).uploads, processors := After(w, op).processors)
  {
  }

  lemma MediaBalanced(w: World, op: Op)
    requires Balanced(w.books, w.overwritten, w.drift) && Books(w, op).Some? && MediaOp(op)
    ensures Balanced(After(w, op).books, After(w, op).overwritten, After(w, op).drift)
  {
    hide Balanced, Books, After;
    if Leasing(op) {
      LeasingFrame(w, op);
    } else if op.Intend? || op.Move? || op.Mark? || op.Commit? {
      UploadBalanced(w, op);
    } else {
      EndBalanced(w, op);
    }
  }

  lemma LimitedKeeps(b: Books, o: nat, d: nat, limit: int, open: bool)
    requires Balanced(b, o, d)
    ensures Limited(b, limit, open).Some? ==> Balanced(Limited(b, limit, open).value, o, d)
  {
    hide AssetReserved, AssetActual, RunReserved;
  }

  predicate SameCreative(w: World, v: World) {
    && v.books.runs == w.books.runs && v.books.days == w.books.days && v.books.generated == w.books.generated
    && v.workers == w.workers && v.jobs == w.jobs && v.stray == w.stray && (w.drift == 0 ==> v.drift == 0)
  }

  lemma UploadFrame(w: World, op: Op)
    requires Books(w, op).Some? && (op.Intend? || op.Move? || op.Mark? || op.Commit?)
    ensures SameCreative(w, After(w, op))
  {
  }

  lemma EndFrame(w: World, op: Op)
    requires Books(w, op).Some? && (op.GiveUp? || op.Delete? || op.Limit?)
    ensures SameCreative(w, After(w, op))
  {
  }

  lemma GoneFrame(w: World, op: Op)
    requires Books(w, op).Some? && (op.Release? || op.Replay?)
    ensures SameCreative(w, After(w, op))
  {
  }

  lemma MediaFrame(w: World, op: Op)
    requires Books(w, op).Some? && MediaOp(op)
    ensures SameCreative(w, After(w, op))
  {
    hide Books, After;
    if Leasing(op) {
      LeasingFrame(w, op);
    } else if op.Intend? || op.Move? || op.Mark? || op.Commit? {
      UploadFrame(w, op);
    } else if op.Release? || op.Replay? {
      GoneFrame(w, op);
    } else {
      EndFrame(w, op);
    }
  }

  /** Only one asset's row, job or remark changes. */
  lemma OneAssetFits(w: World, v: World, a: Id)
    requires AssetsFit(w) && a in v.books.assets && AssetFits(v.books.assets[a], Finished(v, a), a in v.remarked)
    requires forall b :: b != a ==>
      && (b in v.books.assets <==> b in w.books.assets) && (b in w.books.assets ==> v.books.assets[b] == w.books.assets[b])
      && Finished(v, b) == Finished(w, b) && (b in v.remarked <==> b in w.remarked)
    requires v.remarked == {} ==> v.overwritten == 0
    ensures AssetsFit(v)
  {
  }

  lemma IntendAssets(w: World, op: Op)
    requires AssetsFit(w) && Books(w, op).Some? && op.Intend?
    ensures AssetsFit(After(w, op))
  {
    OneAssetFits(w, After(w, op), op.asset);
  }

  lemma MoveAssets(w: World, op: Op)
    requires AssetsFit(w) && Books(w, op).Some? && op.Move?
    ensures AssetsFit(After(w, op))
  {
    assert AssetFits(w.books.assets[op.asset], Finished(w, op.asset), op.asset in w.remarked);
    OneAssetFits(w, After(w, op), op.asset);
  }

  lemma MarkAssets(w: World, op: Op)
    requires AssetsFit(w) && Books(w, op).Some? && op.Mark?
    ensures AssetsFit(After(w, op))
  {
    var a := w.processors[op.owner].asset;
    assert AssetFits(w.books.assets[a], Finished(w, a), a in w.remarked);
    OneAssetFits(w, After(w, op), a);
  }

  lemma CommitAssets(w: World, op: Op)
    requires AssetsFit(w) && Books(w, op).Some? && op.Commit?
    ensures AssetsFit(After(w, op))
  {
    var a := w.processors[op.owner].asset;
    assert AssetFits(w.books.assets[a], Finished(w, a), a in w.remarked);
    OneAssetFits(w, After(w, op), a);
  }

  lemma ReleaseAssets(w: World, op: Op)
    requires AssetsFit(w) && Books(w, op).Some? && (op.Release? || op.Replay?)
    ensures AssetsFit(After(w, op))
  {
    if op.asset in w.books.assets {
      OneAssetFits(w, After(w, op), op.asset);
    }
  }

  lemma GiveUpAssets(w: World, op: Op)
    requires AssetsFit(w) && Books(w, op).Some? && (op.GiveUp? || op.Delete?)
    ensures AssetsFit(After(w, op))
  {
    assert AssetFits(w.books.assets[op.asset], Finished(w, op.asset), op.asset in w.remarked);
    OneAssetFits(w, After(w, op), op.asset);
  }

  lemma LimitAssets(w: World, op: Op)
    requires AssetsFit(w) && Books(w, op).Some? && op.Limit?
    ensures AssetsFit(After(w, op))
  {
  }

  lemma LeasingAssets(w: World, op: Op)
    requires AssetsFit(w) && Books(w, op).Some? && Leasing(op)
    ensures AssetsFit(After(w, op))
  {
    LeasingFrame(w, op);
    assert forall a :: Finished(w, a) ==> Finished(After(w, op), a);
    hide Books, After;
  }

  lemma MediaAssets(w: World, op: Op)
    requires AssetsFit(w) && Books(w, op).Some? && MediaOp(op)
    ensures AssetsFit(After(w, op))
  {
    hide Books, After, AssetsFit;
    match op
    case Intend(_, _) => IntendAssets(w, op);
    case Move(_, _, _) => MoveAssets(w, op);
    case Mark(_) => MarkAssets(w, op);
    case Commit(_, _) => CommitAssets(w, op);
    case Release(_, _) => ReleaseAssets(w, op);
    case Replay(_) => ReleaseAssets(w, op);
    case GiveUp(_) => GiveUpAssets(w, op);
    case Delete(_) => GiveUpAssets(w, op);
    case Limit(_, _) => LimitAssets(w, op);
    case _ => LeasingAssets(w, op);
  }

  lemma WorkersStay(w: World, v: World)
    requires WorkersFit(w) && v.books.runs == w.books.runs && v.workers == w.workers && v.jobs == w.jobs && v.stray == w.stray
    requires w.drift == 0 ==> v.drift == 0
    ensures WorkersFit(v)
  {
    forall o | o in v.workers ensures WorkerFits(v, o) {
      assert WorkerFits(w, o);
    }
  }

  lemma MediaSound(w: World, op: Op)
    requires Sound(w) && Books(w, op).Some? && MediaOp(op)
    ensures Sound(After(w, op))
  {
    hide Balanced, AllowanceKept, WorkersFit, AssetsFit, Books, After;
    MediaBalanced(w, op);
    MediaFrame(w, op);
    MediaAssets(w, op);
    WorkersStay(w, After(w, op));
    SameAllowance(w.books, After(w, op).books);
  }

  lemma SameAllowance(b: Books, v: Books)
    requires AllowanceKept(b) && v.runs == b.runs && v.days == b.days
    ensures AllowanceKept(v)
  {
  }

  // ---------- creative steps ----------

  lemma CreativeBalanced(w: World, op: Op)
    requires Sound(w) && Books(w, op).Some? && !MediaOp(op) && !op.CommitBoard?
    ensures Balanced(After(w, op).books, w.overwritten, w.drift) && After(w, op).drift == w.drift && After(w, op).overwritten == w.overwritten
  {
    hide Balanced, AllowanceKept, WorkersFit, AssetsFit, RunCancelled, RunClosed, RunFailed, StorageReleased, Generated;
    var b, o, d := w.books, w.overwritten, w.drift;
    match op
    case Generate(r, board, day, allowance) => GeneratedKeeps(b, o, d, r, board, day, allowance);
    case Cancel(r) => RunEndsKeep(b, o, d, r, false);
    case CloseService(k) => RunEndsKeep(b, o, d, w.workers[k].run, false);
    case ReleaseUncertain(k) => StorageReleasedKeeps(b, o, d, w.workers[k].run);
    case MarkUnknown(k) => InStateKeeps(b, o, d, w.workers[k].run, UnknownExternal, b.runs[w.workers[k].run].cancelled);
    case Submit(k) => InStateKeeps(b, o, d, w.workers[k].run, Submitted, b.runs[w.workers[k].run].cancelled);
    case Complete(k) => InStateKeeps(b, o, d, w.workers[k].run, Completed, b.runs[w.workers[k].run].cancelled);
    case Fail(k, uncertain) => RunEndsKeep(b, o, d, w.workers[k].run, uncertain);
    case _ =>
  }

  /** While its worker holds the lease and nobody strayed, the reservation read at the start is still
      the row's when the board commits. */
  lemma ReadReservationHolds(w: World, op: Op)
    requires WorkersFit(w) && Books(w, op).Some? && op.CommitBoard?
    ensures var k := w.workers[op.owner];
            && w.books.runs[k.run].reserved <= k.read.value.reserved
            && (k.run !in w.stray ==> w.books.runs[k.run].reserved == k.read.value.reserved)
  {
    assert WorkerFits(w, op.owner);
    assert RunFits(w.books.runs[w.workers[op.owner].run]);
  }

  lemma BoardFrame(w: World, op: Op)
    requires Books(w, op).Some? && op.CommitBoard?
    ensures Known(w, op.owner)
    ensures var k, v := w.workers[op.owner], After(w, op);
      && Some(v.books) == BoardCommitted(w.books, k.run, op.generated, op.bytes, k.read.value.reserved)
      && v.overwritten == w.overwritten && op.generated !in w.books.generated
      && v.drift == if w.books.runs[k.run].reserved <= k.read.value.reserved then w.drift + k.read.value.reserved - w.books.runs[k.run].reserved else w.drift
  {
    hide BoardCommitted, Holds;
  }

  lemma BoardBalanced(w: World, op: Op)
    requires Sound(w) && Books(w, op).Some? && op.CommitBoard?
    ensures Balanced(After(w, op).books, After(w, op).overwritten, After(w, op).drift)
    ensures w.stray == {} ==> After(w, op).drift == w.drift
  {
    ReadReservationHolds(w, op);
    BoardFrame(w, op);
    var k := w.workers[op.owner];
    hide AllowanceKept, WorkersFit, AssetsFit, Balanced, Books, After;
    BoardCommittedKeeps(w.books, w.overwritten, w.drift, k.run, op.generated, op.bytes, k.read.value.reserved);
  }

  lemma CreativeAllowance(w: World, op: Op)
    requires AllowanceKept(w.books) && Books(w, op).Some? && !MediaOp(op)
    ensures AllowanceKept(After(w, op).books)
  {
    hide AllowanceKept, Generated, RunFailed, RunClosed, RunCancelled, BoardCommitted, StorageReleased;
    var b := w.books;
    match op
    case Generate(r, board, day, allowance) => GeneratedAllowance(b, r, board, day, allowance);
    case Cancel(r) => CancelledAllowance(b, r);
    case CloseService(k) => ClosedAllowance(b, w.workers[k].run);
    case ReleaseUncertain(k) => StorageAllowance(b, w.workers[k].run);
    case MarkUnknown(k) => RunRowAllowance(b, w.workers[k].run, b.runs[w.workers[k].run].(state := UnknownExternal));
    case Submit(k) => RunRowAllowance(b, w.workers[k].run, b.runs[w.workers[k].run].(state := Submitted));
    case Complete(k) => RunRowAllowance(b, w.workers[k].run, b.runs[w.workers[k].run].(state := Completed));
    case CommitBoard(k, g, bytes) => BoardAllowance(b, w.workers[k].run, g, bytes, w.workers[k].read.value.reserved);
    case Fail(k, uncertain) => FailedAllowance(b, w.workers[k].run, uncertain);
    case _ =>
  }

  lemma StorageAllowance(b: Books, id: Id)
    requires AllowanceKept(b) && id in b.runs
    ensures StorageReleased(b, id).Some? ==> AllowanceKept(StorageReleased(b, id).value)
  {
    RunRowAllowance(b, id, b.runs[id].(reserved := 0));
    SameAllowance(b.(runs := b.runs[id := b.runs[id].(reserved := 0)]), b.(reserved := b.reserved - b.runs[id].reserved, runs := b.runs[id := b.runs[id].(reserved := 0)]));
    hide AllowanceKept;
  }

  lemma BoardAllowance(b: Books, id: Id, g: Id, bytes: nat, read: nat)
    requires AllowanceKept(b) && id in b.runs
    ensures BoardCommitted(b, id, g, bytes, read).Some? ==> AllowanceKept(BoardCommitted(b, id, g, bytes, read).value)
  {
    RunRowAllowance(b, id, b.runs[id].(reserved := 0, state := Completed));
    if BoardCommitted(b, id, g, bytes, read).Some? {
      SameAllowance(b.(runs := b.runs[id := b.runs[id].(reserved := 0, state := Completed)]), BoardCommitted(b, id, g, bytes, read).value);
    }
    hide AllowanceKept;
  }

  lemma CancelledAllowance(b: Books, id: Id)
    requires AllowanceKept(b) && id in b.runs
    ensures RunCancelled(b, id).Some? ==> AllowanceKept(RunCancelled(b, id).value)
  {
    hide AllowanceKept;
    var marked := b.(runs := b.runs[id := b.runs[id].(cancelled := true, state := Cancelled)]);
    RunRowAllowance(b, id, b.runs[id].(cancelled := true, state := Cancelled));
    AllowanceReleasedOnce(marked, id);
    StorageAllowance(marked, id);
    StorageAllowance(AllowanceReleased(marked, id), id);
  }

  lemma ClosedAllowance(b: Books, id: Id)
    requires AllowanceKept(b) && id in b.runs
    ensures RunClosed(b, id).Some? ==> AllowanceKept(RunClosed(b, id).value)
  {
    hide AllowanceKept;
    AllowanceReleasedOnce(b, id);
    var v := AllowanceReleased(b, id);
    StorageAllowance(v, id);
    if StorageReleased(v, id).Some? {
      var s := StorageReleased(v, id).value;
      RunRowAllowance(s, id, s.runs[id].(state := Failed));
    }
  }

  lemma FailedAllowance(b: Books, id: Id, uncertain: bool)
    requires AllowanceKept(b) && id in b.runs
    ensures RunFailed(b, id, uncertain).Some? ==> AllowanceKept(RunFailed(b, id, uncertain).value)
  {
    hide AllowanceKept;
    var r := b.runs[id];
    var state := if r.cancelled then Cancelled else if uncertain then UnknownExternal else Failed;
    var v := InState(b, id, state);
    RunRowAllowance(b, id, r.(state := state));
    AllowanceReleasedOnce(v, id);
    StorageAllowance(v, id);
    StorageAllowance(AllowanceReleased(v, id), id);
  }

  // ---------- what workers know stays true ----------

  /** One run's row changes, without regaining a reservation, becoming queued or submitted again, or being
      taken back from its cancellation. */
  predicate RunMoves(before: Run, after: Run) {
    && after.board == before.board && after.reserved <= before.reserved && (before.cancelled ==> after.cancelled)
    && (after.state == before.state || (after.state != Queued && after.state != Submitted))
    && (after.state == Submitted || after.state == Queued ==> after.reserved == before.reserved)
  }

  lemma RunMovesKeeps(w: World, v: World, id: Id)
    requires WorkersFit(w) && id in w.books.runs && id in v.books.runs && v.books.runs == w.books.runs[id := v.books.runs[id]]
    requires RunMoves(w.books.runs[id], v.books.runs[id])
    requires v.workers == w.workers && v.jobs == w.jobs && v.stray == w.stray && (w.stray == {} ==> v.drift == w.drift)
    ensures WorkersFit(v)
  {
    forall o | o in v.workers ensures WorkerFits(v, o) {
      assert WorkerFits(w, o);
    }
    forall r | r in v.books.runs ensures RunFits(v.books.runs[r]) {
      assert RunFits(w.books.runs[r]);
    }
  }

  predicate RowMoves(b: Books, id: Id, v: Books) {
    && id in b.runs && id in v.runs && v.runs == b.runs[id := v.runs[id]] && RunMoves(b.runs[id], v.runs[id]) && v.assets == b.assets
  }

  lemma ReleasesMove(b: Books, id: Id)
    requires id in b.runs
    ensures StorageReleased(b, id).Some? ==> var v := StorageReleased(b, id).value;
      v.runs == b.runs[id := b.runs[id].(reserved := 0)] && v.assets == b.assets
    ensures var v := AllowanceReleased(b, id);
      id in v.runs && v.runs == b.runs[id := b.runs[id].(allowance := v.runs[id].allowance)] && v.assets == b.assets
  {
    assert b.runs[id].reserved == 0 ==> b.runs[id].(reserved := 0) == b.runs[id];
    assert b.runs[id := b.runs[id]] == b.runs;
  }

  lemma CancelMoves(b: Books, id: Id)
    requires id in b.runs
    ensures RunCancelled(b, id).Some? ==> RowMoves(b, id, RunCancelled(b, id).value)
  {
    hide StorageReleased, AllowanceReleased;
    assert b.runs[id := b.runs[id]] == b.runs;
    var marked := b.(runs := b.runs[id := b.runs[id].(cancelled := true, state := Cancelled)]);
    ReleasesMove(marked, id);
    ReleasesMove(AllowanceReleased(marked, id), id);
  }

  lemma CloseMoves(b: Books, id: Id)
    requires id in b.runs
    ensures RunClosed(b, id).Some? ==> RowMoves(b, id, RunClosed(b, id).value)
  {
    hide StorageReleased, AllowanceReleased;
    ReleasesMove(b, id);
    ReleasesMove(AllowanceReleased(b, id), id);
  }

  lemma FailMoves(b: Books, id: Id, uncertain: bool)
    requires id in b.runs
    ensures RunFailed(b, id, uncertain).Some? ==> RowMoves(b, id, RunFailed(b, id, uncertain).value)
  {
    hide StorageReleased, AllowanceReleased;
    var state := if b.runs[id].cancelled then Cancelled else if uncertain then UnknownExternal else Failed;
    var ended := InState(b, id, state);
    assert ended.runs == b.runs[id := b.runs[id].(state := state)];
    ReleasesMove(ended, id);
    ReleasesMove(AllowanceReleased(ended, id), id);
    hide InState;
  }

  predicate Ending(op: Op) {
    op.Cancel? || op.CloseService? || op.Fail? || op.MarkUnknown? || op.Complete? || op.CommitBoard?
  }

  function Target(w: World, op: Op): Id
    requires Ending(op)
  {
    if op.Cancel? then op.run else if op.owner in w.workers then w.workers[op.owner].run else 0
  }

  lemma WorkerMoves(w: World, op: Op)
    requires Books(w, op).Some? && (op.MarkUnknown? || op.Complete?)
    ensures RowMoves(w.books, Target(w, op), After(w, op).books)
  {
    hide Holds;
  }

  lemma BoardMoves(w: World, op: Op)
    requires Books(w, op).Some? && op.CommitBoard?
    ensures RowMoves(w.books, Target(w, op), After(w, op).books)
  {
    hide Holds;
  }

  lemma EndingBooks(w: World, op: Op)
    requires Books(w, op).Some? && Ending(op)
    ensures After(w, op).books == Books(w, op).value && Target(w, op) in w.books.runs
    ensures op.Cancel? ==> Books(w, op) == RunCancelled(w.books, op.run)
    ensures op.CloseService? ==> Books(w, op) == RunClosed(w.books, Target(w, op))
    ensures op.Fail? ==> Books(w, op) == RunFailed(w.books, Target(w, op), op.uncertain)
  {
    hide RunCancelled, RunClosed, RunFailed, Holds;
  }

  lemma EndingMoves(w: World, op: Op)
    requires Books(w, op).Some? && Ending(op)
    ensures RowMoves(w.books, Target(w, op), After(w, op).books)
  {
    hide Books, After, RowMoves, RunCancelled, RunClosed, RunFailed;
    EndingBooks(w, op);
    if op.Cancel? {
      CancelMoves(w.books, op.run);
    } else if op.CloseService? {
      CloseMoves(w.books, Target(w, op));
    } else if op.Fail? {
      FailMoves(w.books, Target(w, op), op.uncertain);
    } else if op.CommitBoard? {
      BoardMoves(w, op);
    } else {
      WorkerMoves(w, op);
    }
  }

  lemma EndingFrame(w: World, op: Op)
    requires Books(w, op).Some? && Ending(op)
    ensures var v := After(w, op);
            v.workers == w.workers && v.jobs == w.jobs && v.stray == w.stray && v.remarked == w.remarked && v.overwritten == w.overwritten && v.uploads == w.uploads
  {
    hide RunCancelled, RunClosed, RunFailed;
  }

  lemma EndingWorkers(w: World, op: Op)
    requires Sound(w) && Books(w, op).Some? && Ending(op)
    ensures WorkersFit(After(w, op)) && AssetsFit(After(w, op))
  {
    hide Balanced, AllowanceKept, WorkersFit, After, Books;
    EndingMoves(w, op);
    EndingFrame(w, op);
    if op.CommitBoard? {
      BoardBalanced(w, op);
    } else {
      CreativeBalanced(w, op);
    }
    RunMovesKeeps(w, After(w, op), Target(w, op));
  }

  lemma GenerateWorkers(w: World, op: Op)
    requires WorkersFit(w) && Books(w, op).Some? && op.Generate?
    ensures WorkersFit(After(w, op))
  {
    var v := After(w, op);
    forall o | o in v.workers ensures WorkerFits(v, o) {
      assert WorkerFits(w, o);
    }
  }

  /** A lease is taken, lost, renewed or closed; no job is opened again. */
  lemma LeaseChanges(w: World, v: World, r: Id)
    requires WorkersFit(w) && r in w.jobs && r in v.jobs && v == w.(jobs := w.jobs[r := v.jobs[r]])
    requires v.jobs[r].owner.Some? ==> v.jobs[r].owner == w.jobs[r].owner && (w.jobs[r].closed ==> v.jobs[r].closed)
    ensures WorkersFit(v)
  {
    forall o | o in v.workers ensures WorkerFits(v, o) {
      hide RunFits;
      assert WorkerFits(w, o);
    }
  }

  lemma LeaseFrame(w: World, op: Op)
    requires Books(w, op).Some? && (op.Expire? || op.Renew? || op.Close? || op.Reopen?)
    ensures var v, r := After(w, op), op.run;
      && r in w.jobs && r in v.jobs && v == w.(jobs := w.jobs[r := v.jobs[r]])
      && (v.jobs[r].owner.Some? ==> v.jobs[r].owner == w.jobs[r].owner && (w.jobs[r].closed ==> v.jobs[r].closed))
  {
  }

  lemma LeaseWorkers(w: World, op: Op)
    requires WorkersFit(w) && Books(w, op).Some? && (op.Expire? || op.Renew? || op.Close? || op.Reopen?)
    ensures WorkersFit(After(w, op))
  {
    hide Books, After, WorkersFit;
    LeaseFrame(w, op);
    LeaseChanges(w, After(w, op), op.run);
  }

  lemma TakeLeaseWorkers(w: World, op: Op)
    requires WorkersFit(w) && Books(w, op).Some? && op.TakeLease?
    ensures WorkersFit(After(w, op))
  {
    var v := After(w, op);
    assert v == w.(jobs := w.jobs[op.run := Lease(Some(op.owner), true, false)], workers := w.workers[op.owner := Worker(op.run, None, false, false)]);
    hide Books, After, RunFits;
    forall o | o in v.workers ensures WorkerFits(v, o) {
      assert o != op.owner ==> WorkerFits(w, o);
    }
  }

  lemma ReadWorkers(w: World, op: Op)
    requires WorkersFit(w) && Books(w, op).Some? && op.Read?
    ensures WorkersFit(After(w, op))
  {
    var v := After(w, op);
    forall o | o in v.workers ensures WorkerFits(v, o) {
      assert WorkerFits(w, o);
    }
  }

  lemma SubmitFrame(w: World, op: Op)
    requires Books(w, op).Some? && op.Submit?
    ensures Working(w, op.owner) && Holds(w, op.owner)
    ensures var id := w.workers[op.owner].run;
      && w.books.runs[id].state == Queued && !w.books.runs[id].cancelled
      && After(w, op) == w.(books := InState(w.books, id, Submitted), workers := w.workers[op.owner := w.workers[op.owner].(submitted := true)])
  {
  }

  lemma SubmitWorkers(w: World, op: Op)
    requires WorkersFit(w) && Books(w, op).Some? && op.Submit?
    ensures WorkersFit(After(w, op))
  {
    hide Books, After;
    SubmitFrame(w, op);
    var v := After(w, op);
    assert WorkerFits(w, op.owner) && RunFits(w.books.runs[w.workers[op.owner].run]);
    forall o | o in v.workers ensures WorkerFits(v, o) {
      assert WorkerFits(w, o);
    }
  }

  lemma ReleaseFrame(w: World, op: Op)
    requires Books(w, op).Some? && op.ReleaseUncertain?
    ensures var v, r := After(w, op), w.workers[op.owner].run;
      && v.books.runs == w.books.runs[r := w.books.runs[r].(reserved := 0)] && v.jobs == w.jobs && v.drift == w.drift
      && v.workers == w.workers[op.owner := w.workers[op.owner].(released := true)]
      && v.stray == if Doubles(w, op.owner) then w.stray + {r} else w.stray
  {
    ReleasesMove(w.books, w.workers[op.owner].run);
  }

  lemma ReleaseWorkers(w: World, op: Op)
    requires WorkersFit(w) && Books(w, op).Some? && op.ReleaseUncertain?
    ensures WorkersFit(After(w, op))
  {
    var id := w.workers[op.owner].run;
    ReleaseFrame(w, op);
    assert w.books.runs[id].state != Queued && !w.workers[op.owner].submitted by {
      assert WorkerFits(w, op.owner) && Uncertain(w.workers[op.owner].read.value.state);
    }
    hide Books, After;
    StorageGone(w, After(w, op), op.owner);
  }

  /** The storage of a worker's run is released; the run is stray if its owner may still commit it. */
  predicate Releases(w: World, v: World, o: Id) {
    && o in w.workers && w.workers[o].run in w.books.runs && w.books.runs[w.workers[o].run].state != Queued && !w.workers[o].submitted
    && var r := w.workers[o].run;
       && v.books.runs == w.books.runs[r := w.books.runs[r].(reserved := 0)] && v.jobs == w.jobs && v.drift == w.drift
       && v.workers == w.workers[o := w.workers[o].(released := true)]
       && v.stray == if Committing(w, r) && w.books.runs[r].reserved > 0 then w.stray + {r} else w.stray
  }

  lemma StorageGoneFor(w: World, v: World, o: Id, p: Id)
    requires Releases(w, v, o) && p in w.workers && WorkerFits(w, p)
    ensures WorkerFits(v, p)
  {
    hide RunFits;
  }

  lemma StorageGone(w: World, v: World, o: Id)
    requires WorkersFit(w) && Releases(w, v, o)
    ensures WorkersFit(v)
  {
    forall p | p in v.workers ensures WorkerFits(v, p) {
      assert WorkerFits(w, p);
      StorageGoneFor(w, v, o, p);
    }
    hide WorkerFits;
    assert RunFits(w.books.runs[w.workers[o].run]);
  }

  lemma CreativeAssets(w: World, op: Op)
    requires Books(w, op).Some? && !MediaOp(op) && !Ending(op)
    ensures var v := After(w, op);
            v.books.assets == w.books.assets && v.remarked == w.remarked && v.overwritten == w.overwritten && v.uploads == w.uploads
  {
  }

  lemma CreativeWorkers(w: World, op: Op)
    requires Sound(w) && Books(w, op).Some? && !MediaOp(op)
    ensures WorkersFit(After(w, op)) && AssetsFit(After(w, op))
  {
    hide Books, After, Balanced, AllowanceKept, WorkersFit;
    if Ending(op) {
      EndingWorkers(w, op);
    } else {
      CreativeAssets(w, op);
      if op.Generate? {
        GenerateWorkers(w, op);
      } else if op.Read? {
        ReadWorkers(w, op);
      } else if op.Submit? {
        SubmitWorkers(w, op);
      } else if op.ReleaseUncertain? {
        ReleaseWorkers(w, op);
      } else if op.TakeLease? {
        TakeLeaseWorkers(w, op);
      } else {
        LeaseWorkers(w, op);
      }
    }
  }

  lemma StepSound(w: World, op: Op)
    requires Sound(w) && Books(w, op).Some?
    ensures Sound(After(w, op))
  {
    if MediaOp(op) {
      MediaSound(w, op);
    } else {
      CreativeWorkers(w, op);
      CreativeAllowance(w, op);
      hide Books, After, AllowanceKept, WorkersFit, AssetsFit, Balanced;
      if op.CommitBoard? {
        BoardBalanced(w, op);
      } else {
        CreativeBalanced(w, op);
      }
    }
  }

  lemma {:induction false} RunSound(w: World, ops: seq<Op>, end: World)
    requires Sound(w) && Runs(w, ops, end)
    ensures Sound(end)
    decreases |ops|
  {
    hide Sound, Books, After;
    if ops != [] {
      StepSound(w, ops[0]);
      RunSound(After(w, ops[0]), ops[1..], end);
    }
  }

  // ---------- conservation ----------

  /** In every run stored and reserved bytes are those of the rows, plus what commits wrote over, less
      what was released twice; they never pass the limit. Nothing was written over unless a ready asset
      was marked as processing with its job still to be done, nothing released twice unless a run's storage
      was released under an owner that may still commit it. */
  lemma Conservation(w: World, ops: seq<Op>, end: World)
    requires Fresh(w) && Runs(w, ops, end)
    ensures end.books.stored == Total(AssetActual(end.books.assets)) + Total(end.books.generated) + end.overwritten
    ensures end.books.reserved == Total(AssetReserved(end.books.assets)) + Total(RunReserved(end.books.runs)) - end.drift
    ensures 0 <= end.books.reserved && end.books.stored + end.books.reserved <= end.books.limit
    ensures end.remarked == {} ==> end.overwritten == 0
    ensures end.stray == {} ==> end.drift == 0
  {
    FreshSound(w);
    RunSound(w, ops, end);
  }

  lemma FreshSound(w: World)
    requires Fresh(w)
    ensures Sound(w)
  {
    assert AssetReserved(map[]) == map[] && AssetActual(map[]) == map[] && RunReserved(map[]) == map[];
    assert Total<Id>(map[]) == 0;
  }

  /** In every run each day's counters are exactly that day's runs still holding their allowance. */
  lemma AllowanceConserved(w: World, ops: seq<Op>, end: World, day: Id)
    requires Fresh(w) && Runs(w, ops, end)
    ensures day in end.books.days ==>
      && end.books.days[day].boards == |Allowed(end.books.runs, day, true)|
      && end.books.days[day].concepts == |Allowed(end.books.runs, day, false)|
    ensures day !in end.books.days ==> Allowed(end.books.runs, day, true) == {} && Allowed(end.books.runs, day, false) == {}
  {
    FreshSound(w);
    RunSound(w, ops, end);
  }

  lemma {:induction false} RunsSnoc(w: World, ops: seq<Op>, mid: World, op: Op)
    requires Runs(w, ops, mid) && Books(mid, op).Some?
    ensures Runs(w, ops + [op], After(mid, op))
    decreases |ops|
  {
    hide Books, After;
    if ops == [] {
      assert Runs(After(w, op), [], After(w, op));
      assert [op][1..] == [] && ops + [op] == [op];
    } else {
      RunsSnoc(After(w, ops[0]), ops[1..], mid, op);
      assert (ops + [op])[1..] == ops[1..] + [op];
    }
  }

  lemma StepsTo(w: World, ops: seq<Op>, mid: World, op: Op, next: World)
    requires Runs(w, ops, mid) && Books(mid, op).Some? && After(mid, op) == next
    ensures Runs(w, ops + [op], next)
  {
    RunsSnoc(w, ops, mid, op);
  }

  // ---------- the allowance is never exceeded ----------

  function CountOn(b: Quota.Books, day: Id, board: bool): int {
    if day !in b.days then 0 else if board then b.days[day].boards else b.days[day].concepts
  }

  lemma CountIsHolding(w: World, day: Id, board: bool)
    requires Sound(w)
    ensures CountOn(w.books, day, board) == |Allowed(w.books.runs, day, board)|
  {
    NothingAllowed(w.books, day);
  }

  /** Only a request raises a counter, and not above the allowance it was made under. */
  lemma CountStep(w: World, op: Op, day: Id, board: bool, most: nat)
    requires Sound(w) && Books(w, op).Some? && CountOn(w.books, day, board) <= most
    requires op.Generate? && op.day == day && op.board == board ==> op.allowance <= most
    ensures CountOn(After(w, op).books, day, board) <= most
  {
    if op.Generate? {
      hide Sound;
      assert Some(After(w, op).books) == Generated(w.books, op.run, op.board, op.day, op.allowance);
    } else {
      StepSound(w, op);
      CountIsHolding(w, day, board);
      CountIsHolding(After(w, op), day, board);
      AllowedShrinks(w, op, day, board);
    }
  }

  lemma AllowedShrinks(w: World, op: Op, day: Id, board: bool)
    requires Sound(w) && Books(w, op).Some? && !op.Generate?
    ensures |Allowed(After(w, op).books.runs, day, board)| <= |Allowed(w.books.runs, day, board)|
  {
    AllowancesStay(w, op);
    hide Books, After, Sound;
    assert Allowed(After(w, op).books.runs, day, board) <= Allowed(w.books.runs, day, board);
    SubsetCardinality(Allowed(After(w, op).books.runs, day, board), Allowed(w.books.runs, day, board));
  }

  /** No run's kind or day changes, and none gets its allowance back. */
  predicate Spent(before: map<Id, Run>, after: map<Id, Run>) {
    forall r :: r in after ==> r in before && after[r].board == before[r].board && after[r].day == before[r].day && (after[r].allowance ==> before[r].allowance)
  }

  lemma ReleasesSpend(b: Quota.Books, id: Id)
    requires id in b.runs
    ensures Spent(b.runs, AllowanceReleased(b, id).runs) && id in AllowanceReleased(b, id).runs
    ensures StorageReleased(b, id).Some? ==> Spent(b.runs, StorageReleased(b, id).value.runs)
  {
  }

  lemma SpentTwice(a: map<Id, Run>, b: map<Id, Run>, c: map<Id, Run>)
    requires Spent(a, b) && Spent(b, c)
    ensures Spent(a, c)
  {
  }

  /** A row that keeps its kind, day and allowance, and then perhaps gives up its allowance and its storage. */
  lemma EndedSpends(b: Quota.Books, id: Id, row: Run, release: bool)
    requires id in b.runs && row.board == b.runs[id].board && row.day == b.runs[id].day && row.allowance == b.runs[id].allowance
    ensures var marked := b.(runs := b.runs[id := row]);
      var given := if release then AllowanceReleased(marked, id) else marked;
      id in given.runs && (StorageReleased(given, id).Some? ==> Spent(b.runs, StorageReleased(given, id).value.runs))
  {
    var marked := b.(runs := b.runs[id := row]);
    var given := if release then AllowanceReleased(marked, id) else marked;
    ReleasesSpend(marked, id);
    ReleasesSpend(given, id);
    hide AllowanceReleased, StorageReleased;
    if StorageReleased(given, id).Some? {
      SpentTwice(b.runs, marked.runs, given.runs);
      SpentTwice(b.runs, given.runs, StorageReleased(given, id).value.runs);
    }
  }

  lemma CancellingSpends(b: Quota.Books, id: Id)
    requires id in b.runs
    ensures RunCancelled(b, id).Some? ==> Spent(b.runs, RunCancelled(b, id).value.runs)
  {
    hide AllowanceReleased, StorageReleased;
    var r := b.runs[id];
    EndedSpends(b, id, r.(cancelled := true, state := Cancelled), !(r.state == Submitted || r.state == UnknownExternal));
  }

  lemma FailingSpends(b: Quota.Books, id: Id, uncertain: bool)
    requires id in b.runs
    ensures RunFailed(b, id, uncertain).Some? ==> Spent(b.runs, RunFailed(b, id, uncertain).value.runs)
  {
    hide AllowanceReleased, StorageReleased;
    var r := b.runs[id];
    EndedSpends(b, id, r.(state := if r.cancelled then Cancelled else if uncertain then UnknownExternal else Failed), !uncertain && !r.cancelled);
  }

  lemma ClosingSpends(b: Quota.Books, id: Id)
    requires id in b.runs
    ensures RunClosed(b, id).Some? ==> Spent(b.runs, RunClosed(b, id).value.runs)
  {
    var given := AllowanceReleased(b, id);
    ReleasesSpend(b, id);
    ReleasesSpend(given, id);
    hide AllowanceReleased, StorageReleased, InState, Spent;
    if StorageReleased(given, id).Some? {
      var v := StorageReleased(given, id).value;
      StaysARun(given, id);
      StateSpends(v, id, Failed);
      SpentTwice(b.runs, given.runs, v.runs);
      SpentTwice(b.runs, v.runs, InState(v, id, Failed).runs);
    }
  }

  lemma StaysARun(b: Quota.Books, id: Id)
    requires id in b.runs
    ensures StorageReleased(b, id).Some? ==> id in StorageReleased(b, id).value.runs
  {
  }

  lemma StateSpends(b: Quota.Books, id: Id, state: RunState)
    requires id in b.runs
    ensures Spent(b.runs, InState(b, id, state).runs)
  {
  }

  lemma AllowancesStay(w: World, op: Op)
    requires Books(w, op).Some? && !op.Generate?
    ensures Spent(w.books.runs, After(w, op).books.runs)
  {
    if MediaOp(op) {
      MediaFrame(w, op);
      hide Books, After;
    } else if op.Cancel? || op.CloseService? || op.Fail? {
      EndingBooks(w, op);
      hide Books, After, RunCancelled, RunClosed, RunFailed;
      CancellingSpends(w.books, Target(w, op));
      FailingSpends(w.books, Target(w, op), op.Fail? && op.uncertain);
      ClosingSpends(w.books, Target(w, op));
    } else {
      hide RunCancelled, RunClosed, RunFailed, Holds, Committing;
    }
  }

  /** In every run a day's counter of a kind stays within the largest allowance under which a request of
      that kind was accepted on that day. */
  lemma {:induction false} WithinAllowance(w: World, ops: seq<Op>, end: World, day: Id, board: bool, most: nat)
    requires Sound(w) && Runs(w, ops, end) && CountOn(w.books, day, board) <= most
    requires forall op :: op in ops && op.Generate? && op.day == day && op.board == board ==> op.allowance <= most
    ensures CountOn(end.books, day, board) <= most
    decreases |ops|
  {
    hide Sound, Books, After;
    if ops != [] {
      StepSound(w, ops[0]);
      CountStep(w, ops[0], day, board, most);
      WithinAllowance(After(w, ops[0]), ops[1..], end, day, board, most);
    }
  }

  /** So from the start, whatever else happens. */
  lemma AllowanceNeverExceeded(w: World, ops: seq<Op>, end: World, day: Id, board: bool, most: nat)
    requires Fresh(w) && Runs(w, ops, end)
    requires forall op :: op in ops && op.Generate? && op.day == day && op.board == board ==> op.allowance <= most
    ensures day in end.books.days ==> (if board then end.books.days[day].boards else end.books.days[day].concepts) <= most
    ensures |set r | r in end.books.runs && end.books.runs[r].day == day && end.books.runs[r].board == board && end.books.runs[r].allowance| <= most
  {
    FreshSound(w);
    WithinAllowance(w, ops, end, day, board, most);
    RunSound(w, ops, end);
    CountIsHolding(end, day, board);
    assert Allowed(end.books.runs, day, board) == set r | r in end.books.runs && end.books.runs[r].day == day && end.books.runs[r].board == board && end.books.runs[r].allowance;
  }

  // ---------- exactly which steps count or release twice ----------

  /** Whether bytes can still be counted twice with no asset remarked from here on. */
  ghost predicate CountsTwice(w: World) {
    exists ops, end :: Runs(w.(remarked := {}), ops, end) && end.remarked == {} && end.overwritten > 0
  }

  /** Whether a reservation can still be released twice with no run strayed from here on. */
  ghost predicate ReleasesTwice(w: World) {
    exists ops, end :: Runs(w.(stray := {}), ops, end) && end.stray == {} && end.drift > 0
  }

  /** A step leads to bytes that some continuation counts twice if and only if it marks, as processing, a
      ready asset that holds bytes, is not deleted and whose job is still to be done. */
  lemma CountedTwiceIff(w: World, op: Op)
    requires Sound(w) && w.remarked == {} && Books(w, op).Some?
    ensures CountsTwice(After(w, op)) <==> op.Mark? && Remarks(w, op.owner)
  {
    var v := After(w, op);
    StepSound(w, op);
    RemarkedExactly(w, op);
    hide Books, After, Sound;
    if op.Mark? && Remarks(w, op.owner) {
      RemarkedAsset(w, op);
      var ops, end := Recommits(v.(remarked := {}), w.processors[op.owner].asset);
    } else {
      CountsOnce(v);
    }
  }

  lemma CountsOnce(v: World)
    requires Sound(v) && v.remarked == {}
    ensures !CountsTwice(v)
  {
    hide Sound;
    assert v.(remarked := {}) == v;
    forall ops, end | Runs(v, ops, end) && end.remarked == {} ensures end.overwritten == 0 {
      RunSound(v, ops, end);
      NothingOver(end);
    }
  }

  lemma NothingOver(w: World)
    requires Sound(w)
    ensures w.remarked == {} ==> w.overwritten == 0
    ensures w.stray == {} ==> w.drift == 0
  {
  }

  lemma RemarkedExactly(w: World, op: Op)
    requires Books(w, op).Some?
    ensures After(w, op).remarked == if op.Mark? && Remarks(w, op.owner) then w.remarked + {w.processors[op.owner].asset} else w.remarked
  {
  }

  /** What is left to be done twice. */
  ghost predicate Recommittable(v: World, a: Id) {
    && a in v.books.assets && v.books.assets[a].processing == Processing && v.books.assets[a].actual > 0
    && v.books.assets[a].reserved == 0 && !v.books.assets[a].deleted && a in v.uploads && !v.uploads[a].closed
    && 0 <= v.books.reserved && v.books.stored + v.books.reserved <= v.books.limit
  }

  lemma RemarkedAsset(w: World, op: Op)
    requires Sound(w) && Books(w, op).Some? && op.Mark? && Remarks(w, op.owner)
    ensures Recommittable(After(w, op).(remarked := {}), w.processors[op.owner].asset)
  {
    var a := w.processors[op.owner].asset;
    assert AssetFits(w.books.assets[a], Finished(w, a), a in w.remarked);
  }

  lemma MakesRoom(v: World, bytes: nat) returns (ops: seq<Op>, w: World)
    requires v.books.stored + v.books.reserved <= v.books.limit
    ensures Runs(v, ops, w) && w == v.(books := v.books.(limit := v.books.limit + bytes))
  {
    assert Runs(v, [], v);
    hide Runs;
    w := v.(books := v.books.(limit := v.books.limit + bytes));
    StepsTo(v, [], v, Limit(v.books.limit + bytes, v.books.open), w);
    ops := [] + [Limit(v.books.limit + bytes, v.books.open)];
  }

  /** Room is made, the lease runs out, and a worker takes the job and does it once more. */
  lemma Recommits(v: World, a: Id) returns (ops: seq<Op>, end: World)
    requires Recommittable(v, a) && v.remarked == {}
    ensures Runs(v, ops, end) && end.remarked == {} && end.overwritten > 0
  {
    hide Runs;
    var o := Unused(v.processors.Keys);
    var w1;
    ops, w1 := MakesRoom(v, v.books.assets[a].actual);
    var w2 := w1.(uploads := v.uploads[a := v.uploads[a].(live := false)]);
    StepsTo(v, ops, w1, ExpireUpload(a), w2);
    ops := ops + [ExpireUpload(a)];
    var w3 := w2.(uploads := w2.uploads[a := Lease(Some(o), true, false)], processors := v.processors[o := Processor(a, Started)]);
    StepsTo(v, ops, w2, TakeUpload(a, o), w3);
    ops, end := AttemptsAgain(v, ops + [TakeUpload(a, o)], w3, a, o);
  }

  lemma AttemptsAgain(v: World, ops: seq<Op>, w: World, a: Id, o: Id) returns (more: seq<Op>, end: World)
    requires Runs(v, ops, w) && o in w.processors && w.processors[o] == Processor(a, Started) && w.remarked == {}
    requires a in w.books.assets && w.books.assets[a].processing == Processing && w.books.assets[a].actual > 0
    requires w.books.assets[a].reserved == 0 && !w.books.assets[a].deleted && a in w.uploads && w.uploads[a] == Lease(Some(o), true, false)
    requires 0 <= w.books.reserved && w.books.stored + w.books.reserved + w.books.assets[a].actual <= w.books.limit
    ensures Runs(v, more, end) && end.remarked == {} && end.overwritten > 0
  {
    hide Runs;
    var row := w.books.assets[a];
    var w1 := InStage(w, o, Looked);
    StepsTo(v, ops, w, Look(o), w1);
    var w2 := InStage(w1, o, Marking);
    assert w.books.assets[a := row.(processing := Processing)] == w.books.assets;
    StepsTo(v, ops + [Look(o)], w1, Mark(o), w2);
    more := ops + [Look(o)] + [Mark(o)];
    end := InStage(w2, o, Left).(overwritten := w.overwritten + row.actual,
             books := w.books.(stored := w.books.stored + row.actual, assets := w.books.assets[a := row.(processing := Ready)]));
    StepsTo(v, more, w2, Commit(o, row.actual), end);
    more := more + [Commit(o, row.actual)];
  }

  /** A step leads to a reservation that some continuation releases twice if and only if it releases the
      storage of a submitted run that its job's owner may still commit. */
  lemma ReleasedTwiceIff(w: World, op: Op)
    requires Sound(w) && w.stray == {} && Books(w, op).Some?
    ensures ReleasesTwice(After(w, op)) <==> op.ReleaseUncertain? && Doubles(w, op.owner)
  {
    var v := After(w, op);
    StepSound(w, op);
    StrayExactly(w, op);
    hide Books, After, Sound;
    if op.ReleaseUncertain? && Doubles(w, op.owner) {
      var k := DoublingOwner(w, op);
      StrayedRun(w, op, k);
      StrayAside(v, k);
      var ops, end := CommitsReleased(v.(stray := {}), k);
    } else {
      ReleasesOnce(v);
    }
  }

  lemma ReleasesOnce(v: World)
    requires Sound(v) && v.stray == {}
    ensures !ReleasesTwice(v)
  {
    hide Sound;
    assert v.(stray := {}) == v;
    forall ops, end | Runs(v, ops, end) && end.stray == {} ensures end.drift == 0 {
      RunSound(v, ops, end);
      NothingOver(end);
    }
  }

  lemma StrayExactly(w: World, op: Op)
    requires Books(w, op).Some?
    ensures After(w, op).stray == if op.ReleaseUncertain? && Doubles(w, op.owner) then w.stray + {w.workers[op.owner].run} else w.stray
  {
  }

  /** The owner `k` of a submitted run whose row holds nothing any more still believes in a reservation. */
  ghost predicate Recommitting(v: World, k: Id) {
    && Known(v, k) && v.workers[k].submitted && v.workers[k].read.value.reserved == BOARD_BYTES
    && var r := v.workers[k].run;
       && Committing(v, r) && v.jobs[r].owner == Some(k) && v.books.runs[r].reserved == 0
       && 0 <= v.books.reserved && v.books.stored + v.books.reserved <= v.books.limit
  }

  lemma OwnerRead(w: World, r: Id)
    requires WorkersFit(w) && r in w.books.runs && Committing(w, r) && w.books.runs[r].reserved > 0
    ensures var k := w.workers[w.jobs[r].owner.value]; k.read.Some? && k.read.value.reserved == BOARD_BYTES
  {
    assert WorkerFits(w, w.jobs[r].owner.value) && RunFits(w.books.runs[r]);
  }

  lemma ReleasedCommitting(w: World, op: Op)
    requires Books(w, op).Some? && op.ReleaseUncertain? && Doubles(w, op.owner)
    ensures var v, r := After(w, op), w.workers[op.owner].run;
      && Committing(v, r) && v.jobs == w.jobs && v.books.runs[r].reserved == 0
      && forall k :: k in w.workers ==> k in v.workers && v.workers[k].(released := w.workers[k].released) == w.workers[k]
  {
    ReleaseFrame(w, op);
    hide Books, After;
  }

  lemma OwnerRemembers(w: World, op: Op, k: Id)
    requires WorkersFit(w) && Books(w, op).Some? && op.ReleaseUncertain? && Doubles(w, op.owner)
    requires w.jobs[w.workers[op.owner].run].owner == Some(k)
    ensures var v := After(w, op);
      && Known(v, k) && v.workers[k].submitted && v.workers[k].run == w.workers[op.owner].run && v.workers[k].read.value.reserved == BOARD_BYTES
  {
    ReleasedCommitting(w, op);
    OwnerRead(w, w.workers[op.owner].run);
    hide Books, After, WorkersFit;
  }

  lemma DoublingOwner(w: World, op: Op) returns (k: Id)
    requires Books(w, op).Some? && op.ReleaseUncertain? && Doubles(w, op.owner)
    ensures w.workers[op.owner].run in w.jobs && w.jobs[w.workers[op.owner].run].owner == Some(k)
  {
    k := w.jobs[w.workers[op.owner].run].owner.value;
  }

  lemma StrayedRun(w: World, op: Op, k: Id)
    requires Sound(w) && Books(w, op).Some? && op.ReleaseUncertain? && Doubles(w, op.owner) && Sound(After(w, op))
    requires w.workers[op.owner].run in w.jobs && w.jobs[w.workers[op.owner].run].owner == Some(k)
    ensures Recommitting(After(w, op), k)
  {
    hide Books, After, Doubles, Committing, Known, WorkersFit;
    ReleasedCommitting(w, op);
    OwnerRemembers(w, op, k);
    hide Sound;
    SoundLimits(After(w, op));
  }

  lemma StrayAside(v: World, k: Id)
    requires Recommitting(v, k)
    ensures Recommitting(v.(stray := {}), k)
  {
  }

  lemma SoundLimits(w: World)
    requires Sound(w)
    ensures 0 <= w.books.reserved && w.books.stored + w.books.reserved <= w.books.limit
  {
  }

  lemma QueuesBoard(v: World, ops: seq<Op>, w: World) returns (more: seq<Op>, next: World, r: Id)
    requires Runs(v, ops, w) && w.books.stored + w.books.reserved + BOARD_BYTES <= w.books.limit
    ensures Runs(v, more, next) && r !in w.books.runs && r in next.books.runs && next.books.runs == w.books.runs[r := next.books.runs[r]]
    ensures next == w.(jobs := w.jobs[r := Lease(None, false, false)],
                       books := w.books.(reserved := w.books.reserved + BOARD_BYTES, days := next.books.days, runs := next.books.runs))
  {
    hide Runs;
    r := Unused(w.books.runs.Keys);
    var day := Unused(w.books.days.Keys);
    RunsSnoc(v, ops, w, Generate(r, true, day, 1));
    more, next := ops + [Generate(r, true, day, 1)], After(w, Generate(r, true, day, 1));
  }

  lemma OwnerRenews(v: World, ops: seq<Op>, w: World, k: Id) returns (more: seq<Op>, next: World)
    requires Runs(v, ops, w) && Known(w, k) && w.workers[k].run in w.jobs
    requires w.jobs[w.workers[k].run].owner == Some(k) && !w.jobs[w.workers[k].run].closed
    ensures Runs(v, more, next) && next == w.(jobs := next.jobs) && Holds(next, k)
  {
    hide Runs;
    var r := w.workers[k].run;
    next := w.(jobs := w.jobs[r := w.jobs[r].(live := true)]);
    StepsTo(v, ops, w, Renew(r), next);
    more := ops + [Renew(r)];
  }

  /** Room is made, another board is queued, and the owner renews its lease and commits. */
  lemma CommitsReleased(v: World, k: Id) returns (ops: seq<Op>, end: World)
    requires Recommitting(v, k) && v.stray == {}
    ensures Runs(v, ops, end) && end.stray == {} && end.drift > 0
  {
    hide Runs;
    var w;
    ops, w := MakesRoom(v, BOARD_BYTES + 1);
    var other;
    ops, w, other := QueuesBoard(v, ops, w);
    assert v.workers[k].run != other;
    ops, w := OwnerRenews(v, ops, w, k);
    ops, end := OwnerCommits(v, ops, w, k);
  }

  lemma OwnerCommits(v: World, ops: seq<Op>, w: World, k: Id) returns (more: seq<Op>, end: World)
    requires Runs(v, ops, w) && Known(w, k) && w.workers[k].submitted && w.workers[k].read.value.reserved == BOARD_BYTES && w.stray == {}
    requires Holds(w, k) && w.books.runs[w.workers[k].run].reserved == 0
    requires w.books.runs[w.workers[k].run].state == Submitted && !w.books.runs[w.workers[k].run].cancelled
    requires BOARD_BYTES <= w.books.reserved && w.books.stored + w.books.reserved - BOARD_BYTES + 1 <= w.books.limit
    ensures Runs(v, more, end) && end.stray == {} && end.drift > 0
  {
    hide Runs;
    var g := Unused(w.books.generated.Keys);
    RunsSnoc(v, ops, w, CommitBoard(k, g, 1));
    more, end := ops + [CommitBoard(k, g, 1)], After(w, CommitBoard(k, g, 1));
  }

  // ---------- the two exceptions are real ----------

  function Opening(): World {
    World(Quota.Books(0, 0, 1000 * MIB, true, map[], map[], map[], map[]), map[], map[], map[], map[], 0, 0, {}, {})
  }

  // An upload (asset 1) is looked at by worker 1, which then loses its lease; worker 2 finishes it and
  // crashes before it acknowledges the job; worker 1 marks the asset; worker 3 takes the job and finishes it.

  function OneAsset(stored: int, a: Asset, lease: Lease, processors: map<Id, Stage>, overwritten: nat, remarked: set<Id>): World {
    World(Quota.Books(stored, a.reserved, 1000 * MIB, true, map[1 := a], map[], map[], map[]), map[1 := lease],
          map o | o in processors :: Processor(1, processors[o]), map[], map[], overwritten, 0, remarked, {})
  }

  const ARRIVED := Asset(Uploaded, Need(100), 0, false)
  const DONE := Asset(Ready, 0, 150, false)

  lemma Uploading() returns (ops: seq<Op>)
    ensures Runs(Opening(), ops, OneAsset(0, ARRIVED, Lease(None, false, false), map[], 0, {}))
  {
    var w, n := Opening(), Need(100);
    var w1 := w.(books := w.books.(reserved := n, assets := map[1 := Asset(Awaiting, n, 0, false)]));
    var w2 := w.(books := w.books.(reserved := n, assets := map[1 := Asset(Receiving, n, 0, false)]));
    assert Runs(w, [], w);
    assert map[][1 := Asset(Awaiting, n, 0, false)] == map[1 := Asset(Awaiting, n, 0, false)];
    StepsTo(w, [], w, Intend(1, 100), w1);
    StepsTo(w, [] + [Intend(1, 100)], w1, Move(1, Awaiting, Receiving), w2);
    ops := [] + [Intend(1, 100)] + [Move(1, Awaiting, Receiving)];
    StepsTo(w, ops, w2, Move(1, Receiving, Uploaded), OneAsset(0, ARRIVED, Lease(None, false, false), map[], 0, {}));
    ops := ops + [Move(1, Receiving, Uploaded)];
  }

  /** A worker takes the job of an unfinished asset and looks at it. */
  lemma TakesAndLooks(ops: seq<Op>, stored: int, a: Asset, lease: Lease, ps: map<Id, Stage>, overwritten: nat, remarked: set<Id>, o: Id)
    returns (more: seq<Op>)
    requires Runs(Opening(), ops, OneAsset(stored, a, lease, ps, overwritten, remarked))
    requires !lease.live && !lease.closed && o !in ps && a.processing != Ready && !a.deleted
    ensures Runs(Opening(), more, OneAsset(stored, a, Lease(Some(o), true, false), ps[o := Looked], overwritten, remarked))
  {
    hide Runs;
    var w := OneAsset(stored, a, lease, ps, overwritten, remarked);
    var w1 := OneAsset(stored, a, Lease(Some(o), true, false), ps[o := Started], overwritten, remarked);
    StepsTo(Opening(), ops, w, TakeUpload(1, o), w1);
    StepsTo(Opening(), ops + [TakeUpload(1, o)], w1, Look(o), OneAsset(stored, a, Lease(Some(o), true, false), ps[o := Looked], overwritten, remarked));
    more := ops + [TakeUpload(1, o)] + [Look(o)];
  }

  lemma RunsOut(ops: seq<Op>, stored: int, a: Asset, lease: Lease, ps: map<Id, Stage>, overwritten: nat, remarked: set<Id>) returns (more: seq<Op>)
    requires Runs(Opening(), ops, OneAsset(stored, a, lease, ps, overwritten, remarked))
    ensures Runs(Opening(), more, OneAsset(stored, a, lease.(live := false), ps, overwritten, remarked))
  {
    hide Runs;
    StepsTo(Opening(), ops, OneAsset(stored, a, lease, ps, overwritten, remarked), ExpireUpload(1), OneAsset(stored, a, lease.(live := false), ps, overwritten, remarked));
    more := ops + [ExpireUpload(1)];
  }

  /** A worker that has looked marks the asset, whatever became of it and of the lease. */
  lemma Marks(ops: seq<Op>, stored: int, a: Asset, lease: Lease, ps: map<Id, Stage>, overwritten: nat, remarked: set<Id>, o: Id) returns (more: seq<Op>)
    requires Runs(Opening(), ops, OneAsset(stored, a, lease, ps, overwritten, remarked)) && o in ps && ps[o] == Looked
    ensures Runs(Opening(), more, OneAsset(stored, a.(processing := Processing), lease, ps[o := Marking], overwritten,
                                           if a.processing == Ready && a.actual > 0 && !a.deleted && !lease.closed then remarked + {1} else remarked))
  {
    hide Runs;
    StepsTo(Opening(), ops, OneAsset(stored, a, lease, ps, overwritten, remarked), Mark(o),
            OneAsset(stored, a.(processing := Processing), lease, ps[o := Marking], overwritten, if a.processing == Ready && a.actual > 0 && !a.deleted && !lease.closed then remarked + {1} else remarked));
    more := ops + [Mark(o)];
  }

  /** The lease holder, having marked the asset, commits it. */
  lemma CommitsAsset(ops: seq<Op>, stored: nat, a: Asset, ps: map<Id, Stage>, overwritten: nat, remarked: set<Id>, o: Id) returns (more: seq<Op>)
    requires Runs(Opening(), ops, OneAsset(stored, a, Lease(Some(o), true, false), ps, overwritten, remarked)) && o in ps && ps[o] == Marking
    requires a.processing == Processing && !a.deleted && stored + 150 <= 1000 * MIB
    ensures Runs(Opening(), more, OneAsset(stored + 150, DONE, Lease(Some(o), true, false), ps[o := Left], overwritten + a.actual, remarked))
  {
    hide Runs;
    StepsTo(Opening(), ops, OneAsset(stored, a, Lease(Some(o), true, false), ps, overwritten, remarked), Commit(o, 150),
            OneAsset(stored + 150, DONE, Lease(Some(o), true, false), ps[o := Left], overwritten + a.actual, remarked));
    more := ops + [Commit(o, 150)];
  }

  /** A whole attempt by the lease holder. */
  lemma Attempts(ops: seq<Op>, stored: nat, a: Asset, lease: Lease, ps: map<Id, Stage>, overwritten: nat, remarked: set<Id>, o: Id)
    returns (more: seq<Op>)
    requires Runs(Opening(), ops, OneAsset(stored, a, lease, ps, overwritten, remarked)) && stored + 150 <= 1000 * MIB
    requires !lease.live && !lease.closed && o !in ps && a.processing != Ready && !a.deleted
    ensures Runs(Opening(), more, OneAsset(stored + 150, DONE, Lease(Some(o), true, false), ps[o := Left], overwritten + a.actual, remarked))
  {
    hide Runs;
    more := TakesAndLooks(ops, stored, a, lease, ps, overwritten, remarked, o);
    more := Marks(more, stored, a, Lease(Some(o), true, false), ps[o := Looked], overwritten, remarked, o);
    assert ps[o := Looked][o := Marking] == ps[o := Marking] && ps[o := Marking][o := Left] == ps[o := Left];
    more := CommitsAsset(more, stored, a.(processing := Processing), ps[o := Marking], overwritten, remarked, o);
  }

  /** A worker that had looked at an asset before it was ready marks it as processing again; the job, whose
      finisher never acknowledged it, is taken once more and commits a second time. */
  lemma StoredTwice() returns (ops: seq<Op>, end: World)
    ensures Fresh(Opening()) && Runs(Opening(), ops, end)
    ensures end.books.assets == map[1 := DONE] && end.books.stored == 300
  {
    hide Runs;
    ops := Uploading();
    ops := TakesAndLooks(ops, 0, ARRIVED, Lease(None, false, false), map[], 0, {}, 1);
    var first := map[][1 := Looked];
    ops := RunsOut(ops, 0, ARRIVED, Lease(Some(1), true, false), first, 0, {});
    ops := Attempts(ops, 0, ARRIVED, Lease(Some(1), false, false), first, 0, {}, 2);
    var both := first[2 := Left];
    ops := RunsOut(ops, 150, DONE, Lease(Some(2), true, false), both, 0, {});
    ops := Marks(ops, 150, DONE, Lease(Some(2), false, false), both, 0, {}, 1);
    ops := Attempts(ops, 150, DONE.(processing := Processing), Lease(Some(2), false, false), both[1 := Marking], 0, {} + {1}, 3);
    end := OneAsset(300, DONE, Lease(Some(3), true, false), both[1 := Marking][3 := Left], 150, {} + {1});
  }

  // Two boards are queued; a worker (1) stalls before reading its run, another (2) submits it; the first
  // then reads it as submitted and releases its storage without holding the lease, and the second commits.

  const QUEUED := Run(true, 0, Queued, BOARD_BYTES, true, false)

  function TwoBoards(stored: int, reserved: int, first: Run, generated: map<Id, nat>): Quota.Books {
    Quota.Books(stored, reserved, 1000 * MIB, true, map[], map[1 := first, 2 := QUEUED], generated, map[0 := Day(0, 2)])
  }

  function TwoBoardsWorld(b: Quota.Books, stalled: Option<Run>, submitter: Option<Run>, submitted: bool, released: bool, drift: nat): World {
    World(b, map[], map[], map[1 := Lease(Some(2), true, false), 2 := Lease(None, false, false)],
          map[1 := Worker(1, stalled, false, released), 2 := Worker(1, submitter, submitted, false)],
          0, drift, {}, if released then {1} else {})
  }

  lemma TwoLeases() returns (ops: seq<Op>)
    ensures Runs(Opening(), ops, TwoBoardsWorld(TwoBoards(0, 2 * BOARD_BYTES, QUEUED, map[]), None, None, false, false, 0))
  {
    var w := Opening();
    assert Runs(w, [], w);
    var b1 := Quota.Books(0, BOARD_BYTES, 1000 * MIB, true, map[], map[1 := QUEUED], map[], map[0 := Day(0, 1)]);
    var w1 := World(b1, map[], map[], map[1 := Lease(None, false, false)], map[], 0, 0, {}, {});
    StepsTo(w, [], w, Generate(1, true, 0, 9), w1);
    var b2 := TwoBoards(0, 2 * BOARD_BYTES, QUEUED, map[]);
    var w2 := World(b2, map[], map[], map[1 := Lease(None, false, false), 2 := Lease(None, false, false)], map[], 0, 0, {}, {});
    StepsTo(w, [] + [Generate(1, true, 0, 9)], w1, Generate(2, true, 0, 9), w2);
    ops := TakenTwice([] + [Generate(1, true, 0, 9)] + [Generate(2, true, 0, 9)], w2);
  }

  lemma TakenTwice(ops: seq<Op>, w2: World) returns (more: seq<Op>)
    requires Runs(Opening(), ops, w2)
    requires w2 == World(TwoBoards(0, 2 * BOARD_BYTES, QUEUED, map[]), map[], map[], map[1 := Lease(None, false, false), 2 := Lease(None, false, false)], map[], 0, 0, {}, {})
    ensures Runs(Opening(), more, TwoBoardsWorld(w2.books, None, None, false, false, 0))
  {
    hide Runs;
    var w := Opening();
    var w3 := w2.(jobs := w2.jobs[1 := Lease(Some(1), true, false)], workers := map[1 := Worker(1, None, false, false)]);
    StepsTo(w, ops, w2, TakeLease(1, 1), w3);
    var w4 := w3.(jobs := w2.jobs[1 := Lease(Some(1), false, false)]);
    StepsTo(w, ops + [TakeLease(1, 1)], w3, Expire(1), w4);
    StepsTo(w, ops + [TakeLease(1, 1)] + [Expire(1)], w4, TakeLease(1, 2), TwoBoardsWorld(w2.books, None, None, false, false, 0));
    more := ops + [TakeLease(1, 1)] + [Expire(1)] + [TakeLease(1, 2)];
  }

  const SENT := Run(true, 0, Submitted, BOARD_BYTES, true, false)

  lemma ReadsQueued(ops: seq<Op>) returns (more: seq<Op>)
    requires Runs(Opening(), ops, TwoBoardsWorld(TwoBoards(0, 2 * BOARD_BYTES, QUEUED, map[]), None, None, false, false, 0))
    ensures Runs(Opening(), more, TwoBoardsWorld(TwoBoards(0, 2 * BOARD_BYTES, QUEUED, map[]), None, Some(QUEUED), false, false, 0))
  {
    hide Runs;
    var b := TwoBoards(0, 2 * BOARD_BYTES, QUEUED, map[]);
    StepsTo(Opening(), ops, TwoBoardsWorld(b, None, None, false, false, 0), Read(2), TwoBoardsWorld(b, None, Some(QUEUED), false, false, 0));
    more := ops + [Read(2)];
  }

  lemma Submits(ops: seq<Op>) returns (more: seq<Op>)
    requires Runs(Opening(), ops, TwoBoardsWorld(TwoBoards(0, 2 * BOARD_BYTES, QUEUED, map[]), None, Some(QUEUED), false, false, 0))
    ensures Runs(Opening(), more, TwoBoardsWorld(TwoBoards(0, 2 * BOARD_BYTES, SENT, map[]), None, Some(QUEUED), true, false, 0))
  {
    hide Runs;
    StepsTo(Opening(), ops, TwoBoardsWorld(TwoBoards(0, 2 * BOARD_BYTES, QUEUED, map[]), None, Some(QUEUED), false, false, 0), Submit(2),
            TwoBoardsWorld(TwoBoards(0, 2 * BOARD_BYTES, SENT, map[]), None, Some(QUEUED), true, false, 0));
    more := ops + [Submit(2)];
  }

  lemma ReadsSent(ops: seq<Op>) returns (more: seq<Op>)
    requires Runs(Opening(), ops, TwoBoardsWorld(TwoBoards(0, 2 * BOARD_BYTES, SENT, map[]), None, Some(QUEUED), true, false, 0))
    ensures Runs(Opening(), more, TwoBoardsWorld(TwoBoards(0, 2 * BOARD_BYTES, SENT, map[]), Some(SENT), Some(QUEUED), true, false, 0))
  {
    hide Runs;
    var b := TwoBoards(0, 2 * BOARD_BYTES, SENT, map[]);
    StepsTo(Opening(), ops, TwoBoardsWorld(b, None, Some(QUEUED), true, false, 0), Read(1), TwoBoardsWorld(b, Some(SENT), Some(QUEUED), true, false, 0));
    more := ops + [Read(1)];
  }

  lemma Strays(ops: seq<Op>) returns (more: seq<Op>)
    requires Runs(Opening(), ops, TwoBoardsWorld(TwoBoards(0, 2 * BOARD_BYTES, SENT, map[]), Some(SENT), Some(QUEUED), true, false, 0))
    ensures Runs(Opening(), more, TwoBoardsWorld(TwoBoards(0, BOARD_BYTES, SENT.(reserved := 0), map[]), Some(SENT), Some(QUEUED), true, true, 0))
  {
    hide Runs;
    assert {} + {1} == {1};
    StepsTo(Opening(), ops, TwoBoardsWorld(TwoBoards(0, 2 * BOARD_BYTES, SENT, map[]), Some(SENT), Some(QUEUED), true, false, 0), ReleaseUncertain(1),
            TwoBoardsWorld(TwoBoards(0, BOARD_BYTES, SENT.(reserved := 0), map[]), Some(SENT), Some(QUEUED), true, true, 0));
    more := ops + [ReleaseUncertain(1)];
  }

  lemma CommitsStale(ops: seq<Op>) returns (more: seq<Op>)
    requires Runs(Opening(), ops, TwoBoardsWorld(TwoBoards(0, BOARD_BYTES, SENT.(reserved := 0), map[]), Some(SENT), Some(QUEUED), true, true, 0))
    ensures var done := Run(true, 0, Completed, 0, true, false);
      Runs(Opening(), more, TwoBoardsWorld(TwoBoards(10, 0, done, map[7 := 10]), Some(SENT), Some(QUEUED), true, true, BOARD_BYTES))
  {
    hide Runs;
    var done := Run(true, 0, Completed, 0, true, false);
    StepsTo(Opening(), ops, TwoBoardsWorld(TwoBoards(0, BOARD_BYTES, SENT.(reserved := 0), map[]), Some(SENT), Some(QUEUED), true, true, 0),
            CommitBoard(2, 7, 10), TwoBoardsWorld(TwoBoards(10, 0, done, map[7 := 10]), Some(SENT), Some(QUEUED), true, true, BOARD_BYTES));
    more := ops + [CommitBoard(2, 7, 10)];
  }

  /** The reservation of one board is released twice, once out of another board's. */
  lemma ReleasedTwice() returns (ops: seq<Op>, end: World)
    ensures Fresh(Opening()) && Runs(Opening(), ops, end)
    ensures end.books.reserved == 0 && Total(RunReserved(end.books.runs)) >= BOARD_BYTES
  {
    ops := TwoLeases();
    ops := ReadsQueued(ops);
    ops := Submits(ops);
    ops := ReadsSent(ops);
    ops := Strays(ops);
    ops := CommitsStale(ops);
    hide Runs;
    end := TwoBoardsWorld(TwoBoards(10, 0, Run(true, 0, Completed, 0, true, false), map[7 := 10]), Some(SENT), Some(QUEUED), true, true, BOARD_BYTES);
    assert RunReserved(end.books.runs)[2] == BOARD_BYTES;
    TotalAtLeast(RunReserved(end.books.runs), 2);
  }
}
