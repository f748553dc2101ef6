/** One uploaded asset, its objects in storage and the workers that process or delete them
    (packages/persistence/src/media.ts and jobs.ts): leases expire, attempts fail half way, uploads are
    given up, and storage is written and deleted outside any transaction. */
module MediaObjects {
  import opened Options
  import opened Seqs

  type Id = nat

  datatype Processing = Awaiting | Receiving | Uploaded | Processing | Ready | Rejected | Expired

  /** The asset's row: the checksum of the stored original, and the owner under whose key the derivative is. */
  datatype Row = Row(processing: Processing, checksum: Option<Id>, derivative: Option<Id>, deleted: bool)

  /** The media job. Every lease is taken under an owner that was never used before. */
  datatype Job = Job(owner: Option<Id>, live: bool, closed: bool)

  /** Where an upload request stands. */
  datatype Receiver = Idle | Claimed | Stored(content: Id) | GivingUp

  /** Where a worker's call stands, and what it has read. */
  datatype Step =
    | Started | Done
    | Seen(checksum: Option<Id>) | Marked(checksum: Option<Id>) | Verified | Written
    | Failing | Cleaned | Peeked(ready: bool) | Condemning | Releasing
    | Erasing(derivative: Option<Id>)

  /** History: `stray` says that a failing worker deleted the original from under a ready asset or one that
      another worker was about to make ready, `revived` that a worker marked as processing an asset that was
      to be deleted, while one was able to make it ready (`Spoils`). */
  datatype World = World(
    row: Row, original: Option<Id>, derivatives: set<Id>, job: Option<Job>, deletion: bool,
    receiver: Receiver, workers: map<Id, Step>, owners: set<Id>, stray: bool, revived: bool)

  /** `DropUploader` says whether the removed uploader had also requested the job, which is then cancelled. */
  datatype Op =
    | Claim | Store(content: Id) | Receive | GiveUp | Reopen
    | Sweep | Remove | DropUploader(requester: bool)
    | Lease(owner: Id) | Expire | Renew | Close
    | Look(owner: Id, revoked: bool) | Mark(owner: Id) | Verify(owner: Id) | Write(owner: Id) | Commit(owner: Id)
    | Fail(owner: Id) | Clean(owner: Id) | Peek(owner: Id) | Check(owner: Id) | Condemn(owner: Id) | Release(owner: Id)
    | LeaseDeletion(owner: Id) | EraseOriginal(owner: Id) | EraseDerivative(owner: Id) | FinishDeletion(owner: Id)
    | Crash(owner: Id)

  predicate Owns(w: World, o: Id) {
    w.job.Some? && w.job.value.owner == Some(o) && !w.job.value.closed
  }

  predicate Holds(w: World, o: Id) {
    Owns(w, o) && w.job.value.live
  }

  predicate Is(w: World, o: Id, step: Step) {
    o in w.workers && w.workers[o] == step
  }

  predicate Enabled(w: World, op: Op) {
    match op
    case Claim => w.receiver == Idle && w.row.processing == Awaiting && !w.row.deleted
    case Store(_) => w.receiver == Claimed
    case Receive => w.receiver.Stored? && w.row.processing == Receiving && !w.row.deleted
    case GiveUp => w.receiver == Claimed || w.receiver.Stored?
    case Reopen => w.receiver == GivingUp
    case Sweep => w.row.processing == Awaiting || w.row.processing == Receiving
    case Remove => true
    case DropUploader(_) => !w.row.deleted && w.row.processing in {Awaiting, Receiving, Uploaded, Processing}
    case Lease(o) => o !in w.owners && w.job.Some? && !w.job.value.closed && !w.job.value.live
    case Expire => w.job.Some?
    case Renew => w.job.Some? && w.job.value.owner.Some? && !w.job.value.closed
    case Close => w.job.Some?
    case Look(o, _) => Is(w, o, Started)
    case Mark(o) => o in w.workers && w.workers[o].Seen?
    case Verify(o) => o in w.workers && w.workers[o].Marked?
    case Write(o) => Is(w, o, Verified)
    case Commit(o) => Is(w, o, Written) && Holds(w, o) && !w.row.deleted && w.row.processing == Processing
    case Fail(o) => o in w.workers && (w.workers[o].Seen? || w.workers[o].Marked? || w.workers[o].Verified? || w.workers[o].Written?)
    case Clean(o) => Is(w, o, Failing)
    case Peek(o) => Is(w, o, Cleaned)
    case Check(o) => o in w.workers && w.workers[o].Peeked?
    case Condemn(o) => Is(w, o, Condemning)
    case Release(o) => Is(w, o, Releasing)
    case LeaseDeletion(o) => o !in w.owners && w.deletion
    case EraseOriginal(o) => o in w.workers && w.workers[o].Erasing?
    case EraseDerivative(o) => o in w.workers && w.workers[o].Erasing?
    case FinishDeletion(o) => o in w.workers && w.workers[o].Erasing?
    case Crash(o) => o in w.workers
  }

  function To(w: World, o: Id, step: Step): World { w.(workers := w.workers[o := step]) }

  function In(w: World, p: Processing): World { w.(row := w.row.(processing := p)) }

  /** The job's owner has found the original good and may finish without looking at it again. */
  predicate Committing(w: World) {
    && w.job.Some? && !w.job.value.closed && w.job.value.owner.Some? && w.job.value.owner.value in w.workers
    && (w.workers[w.job.value.owner.value].Verified? || w.workers[w.job.value.owner.value].Written?)
  }

  /** The job's owner is committing, or about to find the original good. */
  predicate Promising(w: World) {
    || Committing(w)
    || (&& w.job.Some? && !w.job.value.closed && w.job.value.owner.Some? && w.job.value.owner.value in w.workers
        && w.workers[w.job.value.owner.value].Marked? && w.original.Some? && w.workers[w.job.value.owner.value].checksum == w.original)
  }

  /** Someone may still mark the asset as processing without taking a lease first. */
  predicate Marking(w: World) {
    exists o :: o in w.workers && (w.workers[o].Started? || w.workers[o].Seen?)
  }

  function MarkedBy(w: World, o: Id): World
    requires o in w.workers && w.workers[o].Seen?
  {
    To(In(w, Processing), o, Marked(w.workers[o].checksum))
  }

  /** The two steps that go wrong. */
  predicate Spoils(w: World, op: Op)
    requires Enabled(w, op)
  {
    match op
    case Condemn(_) => !w.deletion && (w.row.processing == Ready || (Committing(w) && (w.row.processing == Processing || Marking(w))))
    case Mark(o) => w.deletion && !w.row.deleted && Promising(MarkedBy(w, o))
    case _ => false
  }

  function After(w: World, op: Op): World
    requires Enabled(w, op)
  {
    match op
    case Claim => In(w, Receiving).(receiver := Claimed)
    case Store(content) => w.(original := Some(content), receiver := Stored(content))
    case Receive =>
      w.(row := w.row.(processing := Uploaded, checksum := Some(w.receiver.content)), receiver := Idle, job := Some(Job(None, false, false)))
    case GiveUp => w.(original := None, receiver := GivingUp)
    case Reopen => (if w.row.processing == Receiving then In(w, Awaiting) else w).(receiver := Idle)
    case Sweep => In(w, Expired).(deletion := true)
    case Remove => w.(row := w.row.(deleted := true), deletion := true)
    case DropUploader(requester) =>
      In(w, Expired).(deletion := true, job := if w.job.Some? && requester then Some(w.job.value.(closed := true)) else w.job)
    case Lease(o) => To(w, o, Started).(job := Some(Job(Some(o), true, false)), owners := w.owners + {o})
    case Expire => w.(job := Some(w.job.value.(live := false)))
    case Renew => w.(job := Some(w.job.value.(live := true)))
    case Close => w.(job := Some(w.job.value.(closed := true)))
    case Look(o, revoked) =>
      To(w, o, if w.row.processing == Ready || w.row.deleted then Done else if revoked then Condemning else Seen(w.row.checksum))
    case Mark(o) => MarkedBy(w, o).(revived := w.revived || Spoils(w, op))
    case Verify(o) => To(w, o, if w.original.Some? && w.original == w.workers[o].checksum then Verified else Failing)
    case Write(o) => To(w, o, Written).(derivatives := w.derivatives + {o})
    case Commit(o) => To(w, o, Done).(row := w.row.(processing := Ready, derivative := Some(o)))
    case Fail(o) => To(w, o, Failing)
    case Clean(o) => To(w, o, Cleaned).(derivatives := w.derivatives - {o})
    case Peek(o) => To(w, o, Peeked(w.row.processing == Ready))
    case Check(o) => To(w, o, if Holds(w, o) && !w.workers[o].ready then Condemning else Done)
    case Condemn(o) => To(w, o, Releasing).(original := None, stray := w.stray || Spoils(w, op))
    case Release(o) => To(In(w, Rejected), o, Done)
    case LeaseDeletion(o) => To(w, o, Erasing(w.row.derivative)).(owners := w.owners + {o})
    case EraseOriginal(_) => w.(original := None)
    case EraseDerivative(o) =>
      if w.workers[o].derivative.Some? then w.(derivatives := w.derivatives - {w.workers[o].derivative.value}) else w
    case FinishDeletion(o) => To(In(w, Expired), o, Done)
    case Crash(o) => w.(workers := w.workers - {o})
  }

  ghost predicate Run(w: World, ops: seq<Op>, end: World)
    decreases |ops|
  {
    if ops == [] then end == w else Enabled(w, ops[0]) && Run(After(w, ops[0]), ops[1..], end)
  }

  const FRESH := World(Row(Awaiting, None, None, false), None, {}, None, false, Idle, map[], {}, false, false)

  // ---------- what every step keeps ----------

  /** The original is there with the recorded checksum, and so is the derivative the row names. */
  predicate Backed(w: World) {
    && w.original.Some? && w.original == w.row.checksum
    && w.row.derivative.Some? && w.row.derivative.value in w.derivatives
  }

  predicate GivenUp(w: World) {
    w.row.deleted || w.row.processing == Expired || w.row.processing == Rejected
  }

  /** What a worker that owns the job may rely on, as long as nobody else stands in the way. */
  ghost predicate OwnerFits(w: World, o: Id)
    requires o in w.workers
  {
    var s := w.workers[o];
    && (s.Seen? || s.Marked? ==> s.checksum == w.row.checksum)
    && (!s.Started? && !s.Done? && !s.Erasing? ==> w.row.processing != Ready)
    && ((s.Verified? || s.Written?) && !w.deletion ==>
          (w.original.Some? && w.original == w.row.checksum) || (w.row.processing != Processing && !Marking(w)))
    && (s.Written? && !w.deletion ==> o in w.derivatives)
  }

  /** What rows, job and workers always agree on. */
  ghost predicate Tied(w: World) {
    && (w.receiver != Idle ==> w.job.None?)
    && (w.job.None? ==> w.row.processing != Ready && forall o :: o in w.workers ==> w.workers[o].Done? || w.workers[o].Erasing?)
    && (w.job.Some? ==> w.row.processing != Awaiting && w.row.processing != Receiving)
    && (w.row.deleted || w.revived ==> w.deletion)
    && (forall o :: o in w.workers && w.workers[o].Erasing? ==> w.deletion)
    && (forall o :: o in w.workers ==> o in w.owners)
    && (w.job.Some? && w.job.value.owner.Some? ==> w.job.value.owner.value in w.owners)
    && (w.job.Some? && w.job.value.live ==> w.job.value.owner.Some?)
    && (w.row.derivative.Some? ==> w.row.derivative.value in w.owners && (w.row.derivative.value in w.workers ==> w.workers[w.row.derivative.value].Done?))
  }

  /** An asset to be deleted is deleted, given up, or at least not about to become ready. */
  predicate Ending(w: World) {
    w.deletion && !w.revived ==> GivenUp(w) || (w.row.processing != Ready && !Promising(w))
  }

  ghost predicate Kept(w: World) {
    && (w.row.processing == Ready && !w.row.deleted && !w.stray && !w.revived ==> Backed(w))
    && Tied(w) && Ending(w)
    && (forall o :: o in w.workers && Owns(w, o) && !w.stray ==> OwnerFits(w, o))
  }

  lemma ArrivalKept(w: World, op: Op)
    requires Kept(w) && Enabled(w, op) && (op.Claim? || op.Store? || op.Receive?)
    ensures Kept(After(w, op))
  {
  }

  lemma AbandonKept(w: World, op: Op)
    requires Kept(w) && Enabled(w, op) && (op.GiveUp? || op.Reopen?)
    ensures Kept(After(w, op))
  {
  }

  lemma SweepKept(w: World, op: Op)
    requires Kept(w) && Enabled(w, op) && op.Sweep?
    ensures Kept(After(w, op))
  {
  }

  lemma RemoveKept(w: World, op: Op)
    requires Kept(w) && Enabled(w, op) && op.Remove?
    ensures Kept(After(w, op))
  {
  }

  lemma DropKept(w: World, op: Op)
    requires Kept(w) && Enabled(w, op) && op.DropUploader?
    ensures Kept(After(w, op))
  {
  }

  lemma LeaseKept(w: World, op: Op)
    requires Kept(w) && Enabled(w, op) && op.Lease?
    ensures Kept(After(w, op))
  {
  }

  lemma TimeKept(w: World, op: Op)
    requires Kept(w) && Enabled(w, op) && (op.Expire? || op.Renew? || op.Close?)
    ensures Kept(After(w, op))
  {
  }

  lemma LookKept(w: World, op: Op)
    requires Kept(w) && Enabled(w, op) && op.Look?
    ensures Kept(After(w, op))
  {
  }

  lemma MarkKept(w: World, op: Op)
    requires Kept(w) && Enabled(w, op) && op.Mark?
    ensures Kept(After(w, op))
  {
  }

  lemma VerifyKept(w: World, op: Op)
    requires Kept(w) && Enabled(w, op) && op.Verify?
    ensures Kept(After(w, op))
  {
  }

  lemma WriteKept(w: World, op: Op)
    requires Kept(w) && Enabled(w, op) && op.Write?
    ensures Kept(After(w, op))
  {
  }

  lemma CommitKept(w: World, op: Op)
    requires Kept(w) && Enabled(w, op) && op.Commit?
    ensures Kept(After(w, op))
  {
  }

  lemma FailKept(w: World, op: Op)
    requires Kept(w) && Enabled(w, op) && op.Fail?
    ensures Kept(After(w, op))
  {
  }

  lemma CleanKept(w: World, op: Op)
    requires Kept(w) && Enabled(w, op) && op.Clean?
    ensures Kept(After(w, op))
  {
  }

  lemma PeekKept(w: World, op: Op)
    requires Kept(w) && Enabled(w, op) && op.Peek?
    ensures Kept(After(w, op))
  {
  }

  lemma CheckKept(w: World, op: Op)
    requires Kept(w) && Enabled(w, op) && op.Check?
    ensures Kept(After(w, op))
  {
  }

  lemma CondemnKept(w: World, op: Op)
    requires Kept(w) && Enabled(w, op) && op.Condemn?
    ensures Kept(After(w, op))
  {
  }

  lemma ReleaseKept(w: World, op: Op)
    requires Kept(w) && Enabled(w, op) && op.Release?
    ensures Kept(After(w, op))
  {
  }

  lemma DeleterKept(w: World, op: Op)
    requires Kept(w) && Enabled(w, op) && op.LeaseDeletion?
    ensures Kept(After(w, op))
  {
  }

  lemma EraseOriginalKept(w: World, op: Op)
    requires Kept(w) && Enabled(w, op) && op.EraseOriginal?
    ensures Kept(After(w, op))
  {
  }

  lemma EraseDerivativeKept(w: World, op: Op)
    requires Kept(w) && Enabled(w, op) && op.EraseDerivative?
    ensures Kept(After(w, op))
  {
  }

  lemma FinishDeletionKept(w: World, op: Op)
    requires Kept(w) && Enabled(w, op) && op.FinishDeletion?
    ensures Kept(After(w, op))
  {
  }

  lemma CrashKept(w: World, op: Op)
    requires Kept(w) && Enabled(w, op) && op.Crash?
    ensures Kept(After(w, op))
  {
  }

  lemma StepKept(w: World, op: Op)
    requires Kept(w) && Enabled(w, op)
    ensures Kept(After(w, op))
  {
    hide Kept, After, Enabled;
    match op
    case Claim => ArrivalKept(w, op);
    case Store(_) => ArrivalKept(w, op);
    case Receive => ArrivalKept(w, op);
    case GiveUp => AbandonKept(w, op);
    case Reopen => AbandonKept(w, op);
    case Sweep => SweepKept(w, op);
    case Remove => RemoveKept(w, op);
    case DropUploader(_) => DropKept(w, op);
    case Lease(_) => LeaseKept(w, op);
    case Expire => TimeKept(w, op);
    case Renew => TimeKept(w, op);
    case Close => TimeKept(w, op);
    case Look(_, _) => LookKept(w, op);
    case Mark(_) => MarkKept(w, op);
    case Verify(_) => VerifyKept(w, op);
    case Write(_) => WriteKept(w, op);
    case Commit(_) => CommitKept(w, op);
    case Fail(_) => FailKept(w, op);
    case Clean(_) => CleanKept(w, op);
    case Peek(_) => PeekKept(w, op);
    case Check(_) => CheckKept(w, op);
    case Condemn(_) => CondemnKept(w, op);
    case Release(_) => ReleaseKept(w, op);
    case LeaseDeletion(_) => DeleterKept(w, op);
    case EraseOriginal(_) => EraseOriginalKept(w, op);
    case EraseDerivative(_) => EraseDerivativeKept(w, op);
    case FinishDeletion(_) => FinishDeletionKept(w, op);
    case Crash(_) => CrashKept(w, op);
  }

  lemma {:induction false} RunKept(w: World, ops: seq<Op>, end: World)
    requires Kept(w) && Run(w, ops, end)
    ensures Kept(end)
    decreases |ops|
  {
    hide Kept, After, Enabled;
    if ops != [] {
      StepKept(w, ops[0]);
      RunKept(After(w, ops[0]), ops[1..], end);
    }
  }

  /** With any number of workers, expiries and failing attempts, an asset that is ready and not deleted has
      its original, with the recorded checksum, and its derivative in storage, unless one of the two steps
      that spoil it was taken. */
  lemma ReadyIsBacked(ops: seq<Op>, end: World)
    requires Run(FRESH, ops, end) && !end.stray && !end.revived && end.row.processing == Ready && !end.row.deleted
    ensures Backed(end)
  {
    RunKept(FRESH, ops, end);
  }

  lemma {:induction false} RunSnoc(w: World, ops: seq<Op>, mid: World, op: Op, next: World)
    requires Run(w, ops, mid) && Enabled(mid, op) && After(mid, op) == next
    ensures Run(w, ops + [op], next)
    decreases |ops|
  {
    hide After, Enabled;
    if ops == [] {
      assert Run(After(w, op), [], After(w, op));
      assert [op][1..] == [] && ops + [op] == [op];
    } else {
      RunSnoc(After(w, ops[0]), ops[1..], mid, op, next);
      assert (ops + [op])[1..] == ops[1..] + [op];
    }
  }

  // ---------- exactly which steps spoil it ----------

  predicate Unbacked(w: World) {
    w.row.processing == Ready && !w.row.deleted && !Backed(w)
  }

  /** Whether the asset can still end ready without its objects with nothing spoilt from here on. */
  ghost predicate CanUnback(w: World) {
    exists ops, end :: Run(w.(stray := false, revived := false), ops, end) && !end.stray && !end.revived && Unbacked(end)
  }

  /** A step leads to an asset that some continuation makes ready without its objects if and only if it is a
      failing worker's deletion of the original of an asset that is ready, or that the job's owner may make
      ready without looking again; or it marks an asset to be deleted while the owner may make it ready. */
  lemma SpoiltIff(w: World, op: Op)
    requires Kept(w) && !w.stray && !w.revived && Enabled(w, op)
    ensures CanUnback(After(w, op)) <==> Spoils(w, op)
  {
    SpoilsExactly(w, op);
    if !Spoils(w, op) {
      StepKept(w, op);
      hide Kept, Enabled, After, Spoils;
      StaysBacked(After(w, op));
    } else if op.Condemn? {
      hide Kept;
      var ops, end := CondemnedUnbacks(w, op.owner);
    } else {
      hide Kept;
      var ops, end := MarkedUnbacks(w, op.owner);
    }
  }

  lemma SpoilsExactly(w: World, op: Op)
    requires Enabled(w, op) && !w.stray && !w.revived
    ensures After(w, op).stray || After(w, op).revived <==> Spoils(w, op)
    ensures Spoils(w, op) ==> op.Condemn? || op.Mark?
  {
  }

  lemma StaysBacked(v: World)
    requires Kept(v) && !v.stray && !v.revived
    ensures !CanUnback(v)
  {
    assert v.(stray := false, revived := false) == v;
    forall ops, end | Run(v, ops, end) && !end.stray && !end.revived ensures !Unbacked(end) {
      RunKept(v, ops, end);
    }
  }

  /** The owner finishes what it has verified. */
  lemma Commits(v: World, ops: seq<Op>, w: World) returns (more: seq<Op>, end: World)
    requires Run(v, ops, w) && Committing(w) && !w.row.deleted && w.row.processing == Processing
    ensures Run(v, more, end) && end.row.processing == Ready && !end.row.deleted
    ensures end.original == w.original && end.stray == w.stray && end.revived == w.revived && end.deletion == w.deletion
  {
    hide Run;
    var o := w.job.value.owner.value;
    var w1 := After(w, Renew);
    RunSnoc(v, ops, w, Renew, w1);
    more := ops + [Renew];
    if w1.workers[o].Verified? {
      var w2 := After(w1, Write(o));
      RunSnoc(v, more, w1, Write(o), w2);
      more, w1 := more + [Write(o)], w2;
    }
    end := After(w1, Commit(o));
    RunSnoc(v, more, w1, Commit(o), end);
    more := more + [Commit(o)];
  }

  /** The queued deletion runs. */
  lemma Erases(v: World, ops: seq<Op>, w: World) returns (more: seq<Op>, end: World)
    requires Run(v, ops, w) && w.deletion && w.row.processing == Ready && !w.row.deleted
    ensures Run(v, more, end) && Unbacked(end) && end.stray == w.stray && end.revived == w.revived
  {
    hide Run;
    var d := Unused(w.owners);
    var w1 := After(w, LeaseDeletion(d));
    RunSnoc(v, ops, w, LeaseDeletion(d), w1);
    end := After(w1, EraseOriginal(d));
    RunSnoc(v, ops + [LeaseDeletion(d)], w1, EraseOriginal(d), end);
    more := ops + [LeaseDeletion(d)] + [EraseOriginal(d)];
  }

  /** Someone who was about to does mark the asset as processing. */
  lemma Remarks(v: World) returns (ops: seq<Op>, w: World)
    requires Committing(v) && Marking(v) && !v.deletion && !v.row.deleted && v.row.processing != Ready
    ensures Run(v, ops, w) && Committing(w) && !w.row.deleted && w.row.processing == Processing
    ensures w.original == v.original && w.stray == v.stray && w.revived == v.revived
  {
    assert Run(v, [], v);
    hide Run;
    ops, w := [], v;
    var x :| x in v.workers && (v.workers[x].Started? || v.workers[x].Seen?);
    if v.workers[x].Started? {
      w := After(v, Look(x, false));
      RunSnoc(v, [], v, Look(x, false), w);
      ops := [] + [Look(x, false)];
    }
    var seen := w;
    w := After(seen, Mark(x));
    RunSnoc(v, ops, seen, Mark(x), w);
    ops := ops + [Mark(x)];
  }

  lemma CondemnedUnbacks(w: World, o: Id) returns (ops: seq<Op>, end: World)
    requires Kept(w) && Enabled(w, Condemn(o)) && Spoils(w, Condemn(o))
    ensures Run(After(w, Condemn(o)).(stray := false, revived := false), ops, end) && !end.stray && !end.revived && Unbacked(end)
  {
    var v := After(w, Condemn(o)).(stray := false, revived := false);
    assert Run(v, [], v);
    ops, end := [], v;
    if w.row.processing != Ready {
      StillCommitting(w, o);
      hide Kept, Enabled, After, Spoils, Run, Committing, Marking;
      if v.row.processing != Processing {
        ops, end := Remarks(v);
      }
      ops, end := Commits(v, ops, end);
    }
  }

  lemma StillCommitting(w: World, o: Id)
    requires Kept(w) && Enabled(w, Condemn(o)) && Committing(w) && !w.deletion
    ensures var v := After(w, Condemn(o)).(stray := false, revived := false);
      && Committing(v) && !v.row.deleted && !v.deletion && v.original == None && v.row == w.row && (Marking(w) ==> Marking(v))
  {
    if Marking(w) {
      var x :| x in w.workers && (w.workers[x].Started? || w.workers[x].Seen?);
      assert x in After(w, Condemn(o)).workers;
    }
  }

  lemma MarkedUnbacks(w: World, o: Id) returns (ops: seq<Op>, end: World)
    requires Enabled(w, Mark(o)) && Spoils(w, Mark(o))
    ensures Run(After(w, Mark(o)).(stray := false, revived := false), ops, end) && !end.stray && !end.revived && Unbacked(end)
  {
    var v := After(w, Mark(o)).(stray := false, revived := false);
    assert Run(v, [], v);
    assert Promising(v);
    ops, end := [], v;
    hide Run;
    if !Committing(v) {
      var k := v.job.value.owner.value;
      end := After(v, Verify(k));
      RunSnoc(v, [], v, Verify(k), end);
      ops := [] + [Verify(k)];
    }
    hide Enabled, After, Spoils, Committing;
    ops, end := Commits(v, ops, end);
    ops, end := Erases(v, ops, end);
  }

  /** A commit leaves the asset backed for good, unless a step spoils it later, if and only if its deletion
      is not queued: a queued one takes the objects of the asset just made ready. */
  lemma CommitBackedIff(w: World, op: Op)
    requires Kept(w) && !w.stray && Enabled(w, op) && op.Commit?
    ensures CanUnback(After(w, op)) <==> w.deletion
    ensures !w.deletion ==> Backed(After(w, op))
  {
    var v := After(w, op).(stray := false, revived := false);
    if w.deletion {
      assert Run(v, [], v);
      hide Kept;
      var ops, end := Erases(v, [], v);
    } else {
      StepKept(w, op);
      StaysBacked(After(w, op));
    }
  }

  /** The property itself, as one deletion sees it. */
  predicate BackedIfReady(w: World) {
    w.row.processing == Ready && !w.row.deleted ==> Backed(w)
  }

  /** Deleting an object keeps it exactly when the asset is not a ready one at that moment, or the derivative
      deleted is not the one its row names; the deleting worker looks at an earlier one. */
  lemma DeletionKeepsIff(w: World, op: Op)
    requires Enabled(w, op) && BackedIfReady(w) && (op.Condemn? || op.EraseOriginal? || op.EraseDerivative?)
    ensures BackedIfReady(After(w, op)) <==>
      || w.row.processing != Ready || w.row.deleted
      || (op.EraseDerivative? && w.workers[op.owner].derivative != w.row.derivative)
  {
  }

  // ---------- one call, undisturbed ----------

  class Asset {
    var row: Row
    var original: Option<Id>
    var derivatives: set<Id>

    constructor ()
      ensures row == Row(Awaiting, None, None, false) && original == None && derivatives == {}
    {
      row, original, derivatives := Row(Awaiting, None, None, false), None, {};
    }

    /** `receive`: the upload is claimed, stored and recorded, or given up without a trace. */
    method Receive(content: Id, stored: bool, recorded: bool) returns (ok: bool)
      modifies this
      ensures ok <==> old(row).processing == Awaiting && !old(row).deleted && stored && recorded
      ensures ok ==> row == old(row).(processing := Uploaded, checksum := Some(content)) && original == Some(content)
      ensures !ok ==> row == old(row)
      ensures !ok && old(row).processing == Awaiting && !old(row).deleted ==> original == None
      ensures derivatives == old(derivatives)
    {
      if row.processing != Awaiting || row.deleted {
        return false;
      }
      row := row.(processing := Receiving);
      if stored {
        original := Some(content);
        if recorded {
          row := row.(processing := Uploaded, checksum := Some(content));
          return true;
        }
      }
      original := None;
      row := row.(processing := Awaiting);
      ok := false;
    }

    /** `process`: a finished attempt leaves the asset ready and backed; a failed one leaves nothing under
        its own key, and takes the original only with its lease. */
    method Process(owner: Id, works: bool, leaseAtCommit: bool, leaseAtCheck: bool) returns (ok: bool)
      modifies this
      ensures old(row).processing == Ready ==> ok && row == old(row) && original == old(original) && derivatives == old(derivatives)
      ensures old(row).processing != Ready && old(row).deleted ==> !ok && row == old(row) && original == old(original) && derivatives == old(derivatives)
      ensures old(row).processing != Ready && !old(row).deleted ==>
        && (ok <==> old(original).Some? && old(original) == old(row).checksum && works && leaseAtCommit)
        && (ok ==> row == old(row).(processing := Ready, derivative := Some(owner)) && original == row.checksum && derivatives == old(derivatives) + {owner})
        && (!ok ==> derivatives == old(derivatives) - {owner} && row == old(row).(processing := if leaseAtCheck then Rejected else Processing))
        && (!ok ==> original == if leaseAtCheck then None else old(original))
    {
      if row.processing == Ready {
        return true;
      }
      if row.deleted {
        return false;
      }
      row := row.(processing := Processing);
      if original.Some? && original == row.checksum && works {
        derivatives := derivatives + {owner};
        if leaseAtCommit {
          row := row.(processing := Ready, derivative := Some(owner));
          return true;
        }
      }
      derivatives := derivatives - {owner};
      if leaseAtCheck && row.processing != Ready {
        original := None;
        row := row.(processing := Rejected);
      }
      ok := false;
    }
  }

  // ---------- the exception is real ----------

  function Scene(p: Processing, derivative: Option<Id>, original: Option<Id>, derivatives: set<Id>, job: Job, workers: map<Id, Step>, owners: set<Id>, stray: bool): World {
    World(Row(p, Some(5), derivative, false), original, derivatives, Some(job), false, Idle, workers, owners, stray, false)
  }

  lemma Arrives() returns (ops: seq<Op>)
    ensures Run(FRESH, ops, Scene(Uploaded, None, Some(5), {}, Job(None, false, false), map[], {}, false))
  {
    assert Run(FRESH, [], FRESH);
    var w1 := In(FRESH, Receiving).(receiver := Claimed);
    RunSnoc(FRESH, [], FRESH, Claim, w1);
    var w2 := w1.(original := Some(5), receiver := Stored(5));
    RunSnoc(FRESH, [] + [Claim], w1, Store(5), w2);
    RunSnoc(FRESH, [] + [Claim] + [Store(5)], w2, Receive, Scene(Uploaded, None, Some(5), {}, Job(None, false, false), map[], {}, false));
    ops := [] + [Claim] + [Store(5)] + [Receive];
  }

  lemma Fails(ops: seq<Op>) returns (more: seq<Op>)
    requires Run(FRESH, ops, Scene(Processing, None, Some(5), {}, Job(Some(1), true, false), map[1 := Marked(Some(5))], {1}, false))
    ensures Run(FRESH, more, Scene(Processing, None, Some(5), {}, Job(Some(1), true, false), map[1 := Cleaned], {1}, false))
  {
    hide Run;
    var w1 := Scene(Processing, None, Some(5), {}, Job(Some(1), true, false), map[1 := Marked(Some(5))], {1}, false);
    RunSnoc(FRESH, ops, w1, Fail(1), w1.(workers := map[1 := Failing]));
    RunSnoc(FRESH, ops + [Fail(1)], w1.(workers := map[1 := Failing]), Clean(1), w1.(workers := map[1 := Cleaned]));
    more := ops + [Fail(1)] + [Clean(1)];
  }

  lemma Checks(ops: seq<Op>) returns (more: seq<Op>)
    requires Run(FRESH, ops, Scene(Processing, None, Some(5), {}, Job(Some(1), true, false), map[1 := Cleaned], {1}, false))
    ensures Run(FRESH, more, Scene(Processing, None, Some(5), {}, Job(Some(1), false, false), map[1 := Condemning], {1}, false))
  {
    hide Run;
    var w3 := Scene(Processing, None, Some(5), {}, Job(Some(1), true, false), map[1 := Cleaned], {1}, false);
    var w4 := w3.(workers := map[1 := Peeked(false)]);
    RunSnoc(FRESH, ops, w3, Peek(1), w4);
    var w5 := w3.(workers := map[1 := Condemning]);
    RunSnoc(FRESH, ops + [Peek(1)], w4, Check(1), w5);
    more := ops + [Peek(1)] + [Check(1)];
    RunSnoc(FRESH, more, w5, Expire, w5.(job := Some(Job(Some(1), false, false))));
    more := more + [Expire];
  }

  /** Worker 1 fails, passes its checks and then loses its lease. */
  lemma Condemns(ops: seq<Op>) returns (more: seq<Op>)
    requires Run(FRESH, ops, Scene(Uploaded, None, Some(5), {}, Job(None, false, false), map[], {}, false))
    ensures Run(FRESH, more, Scene(Processing, None, Some(5), {}, Job(Some(1), false, false), map[1 := Condemning], {1}, false))
  {
    hide Run, After, Enabled;
    more := Marks(ops, Uploaded, Job(None, false, false), map[], {}, 1);
    assert map[][1 := Marked(Some(5))] == map[1 := Marked(Some(5))] && {} + {1} == {1};
    more := Fails(more);
    more := Checks(more);
  }

  lemma Marks(ops: seq<Op>, p: Processing, job: Job, workers: map<Id, Step>, owners: set<Id>, o: Id) returns (more: seq<Op>)
    requires Run(FRESH, ops, Scene(p, None, Some(5), {}, job, workers, owners, false))
    requires p != Ready && o !in owners && !job.live && !job.closed
    ensures Run(FRESH, more, Scene(Processing, None, Some(5), {}, Job(Some(o), true, false), workers[o := Marked(Some(5))], owners + {o}, false))
  {
    hide Run;
    var w := Scene(p, None, Some(5), {}, job, workers, owners, false);
    var w1 := Scene(p, None, Some(5), {}, Job(Some(o), true, false), workers[o := Started], owners + {o}, false);
    RunSnoc(FRESH, ops, w, Lease(o), w1);
    var w2 := w1.(workers := workers[o := Seen(Some(5))]);
    RunSnoc(FRESH, ops + [Lease(o)], w1, Look(o, false), w2);
    var w3 := Scene(Processing, None, Some(5), {}, Job(Some(o), true, false), workers[o := Marked(Some(5))], owners + {o}, false);
    RunSnoc(FRESH, ops + [Lease(o)] + [Look(o, false)], w2, Mark(o), w3);
    more := ops + [Lease(o)] + [Look(o, false)] + [Mark(o)];
  }

  lemma Finishes(ops: seq<Op>) returns (more: seq<Op>)
    requires Run(FRESH, ops, Scene(Processing, None, Some(5), {}, Job(Some(2), true, false), map[1 := Condemning, 2 := Marked(Some(5))], {1, 2}, false))
    ensures Run(FRESH, more, Scene(Ready, Some(2), Some(5), {2}, Job(Some(2), true, false), map[1 := Condemning, 2 := Done], {1, 2}, false))
  {
    hide Run;
    var job := Job(Some(2), true, false);
    var w := Scene(Processing, None, Some(5), {}, job, map[1 := Condemning, 2 := Marked(Some(5))], {1, 2}, false);
    var w1 := w.(workers := map[1 := Condemning, 2 := Verified]);
    RunSnoc(FRESH, ops, w, Verify(2), w1);
    var w2 := w.(workers := map[1 := Condemning, 2 := Written], derivatives := {2});
    assert {} + {2} == {2};
    RunSnoc(FRESH, ops + [Verify(2)], w1, Write(2), w2);
    RunSnoc(FRESH, ops + [Verify(2)] + [Write(2)], w2, Commit(2), Scene(Ready, Some(2), Some(5), {2}, job, map[1 := Condemning, 2 := Done], {1, 2}, false));
    more := ops + [Verify(2)] + [Write(2)] + [Commit(2)];
  }

  lemma Deletes(ops: seq<Op>) returns (more: seq<Op>)
    requires Run(FRESH, ops, Scene(Ready, Some(2), Some(5), {2}, Job(Some(2), true, false), map[1 := Condemning, 2 := Done], {1, 2}, false))
    ensures Run(FRESH, more, Scene(Ready, Some(2), None, {2}, Job(Some(2), true, false), map[1 := Releasing, 2 := Done], {1, 2}, true))
  {
    hide Run;
    RunSnoc(FRESH, ops, Scene(Ready, Some(2), Some(5), {2}, Job(Some(2), true, false), map[1 := Condemning, 2 := Done], {1, 2}, false),
            Condemn(1), Scene(Ready, Some(2), None, {2}, Job(Some(2), true, false), map[1 := Releasing, 2 := Done], {1, 2}, true));
    more := ops + [Condemn(1)];
  }

  /** A worker that failed, checked its lease and then lost it deletes the original another one has
      meanwhile made ready. */
  lemma ReadyUnbacked() returns (ops: seq<Op>, end: World)
    ensures Run(FRESH, ops, end) && end.row.processing == Ready && !end.row.deleted && end.original.None?
  {
    hide Run, After, Enabled;
    ops := Arrives();
    ops := Condemns(ops);
    ops := Marks(ops, Processing, Job(Some(1), false, false), map[1 := Condemning], {1}, 2);
    assert map[1 := Condemning][2 := Marked(Some(5))] == map[1 := Condemning, 2 := Marked(Some(5))] && {1} + {2} == {1, 2};
    ops := Finishes(ops);
    ops := Deletes(ops);
    end := Scene(Ready, Some(2), None, {2}, Job(Some(2), true, false), map[1 := Releasing, 2 := Done], {1, 2}, true);
  }

  function Doomed(p: Processing, original: Option<Id>, derivative: Option<Id>, derivatives: set<Id>, workers: map<Id, Step>, owners: set<Id>, revived: bool): World {
    World(Row(p, Some(5), derivative, false), original, derivatives, Some(Job(Some(1), true, false)), true, Idle, workers, owners, false, revived)
  }

  lemma Leases(ops: seq<Op>) returns (more: seq<Op>)
    requires Run(FRESH, ops, Scene(Uploaded, None, Some(5), {}, Job(None, false, false), map[], {}, false))
    ensures Run(FRESH, more, Scene(Uploaded, None, Some(5), {}, Job(Some(1), true, false), map[1 := Started], {1}, false))
  {
    hide Run;
    var w := Scene(Uploaded, None, Some(5), {}, Job(None, false, false), map[], {}, false);
    assert map[][1 := Started] == map[1 := Started] && {} + {1} == {1};
    RunSnoc(FRESH, ops, w, Op.Lease(1), Scene(Uploaded, None, Some(5), {}, Job(Some(1), true, false), map[1 := Started], {1}, false));
    more := ops + [Op.Lease(1)];
  }

  /** The uploader is removed, but the job was requested by someone else and goes on. */
  lemma Dooms() returns (ops: seq<Op>)
    ensures Run(FRESH, ops, Doomed(Expired, Some(5), None, {}, map[1 := Seen(Some(5))], {1}, false))
  {
    hide Run;
    ops := Arrives();
    ops := Leases(ops);
    var w1 := Scene(Uploaded, None, Some(5), {}, Job(Some(1), true, false), map[1 := Started], {1}, false);
    var w2 := w1.(workers := map[1 := Seen(Some(5))]);
    RunSnoc(FRESH, ops, w1, Look(1, false), w2);
    ops := ops + [Look(1, false)];
    RunSnoc(FRESH, ops, w2, DropUploader(false), Doomed(Expired, Some(5), None, {}, map[1 := Seen(Some(5))], {1}, false));
    ops := ops + [DropUploader(false)];
  }

  lemma Revives(ops: seq<Op>) returns (more: seq<Op>)
    requires Run(FRESH, ops, Doomed(Expired, Some(5), None, {}, map[1 := Seen(Some(5))], {1}, false))
    ensures Run(FRESH, more, Doomed(Ready, Some(5), Some(1), {1}, map[1 := Done], {1}, true))
  {
    hide Run;
    var w1 := Doomed(Processing, Some(5), None, {}, map[1 := Marked(Some(5))], {1}, true);
    RunSnoc(FRESH, ops, Doomed(Expired, Some(5), None, {}, map[1 := Seen(Some(5))], {1}, false), Mark(1), w1);
    var w2 := w1.(workers := map[1 := Verified]);
    RunSnoc(FRESH, ops + [Mark(1)], w1, Verify(1), w2);
    more := ops + [Mark(1)] + [Verify(1)];
    var w3 := w1.(workers := map[1 := Written], derivatives := {1});
    assert {} + {1} == {1};
    RunSnoc(FRESH, more, w2, Write(1), w3);
    RunSnoc(FRESH, more + [Write(1)], w3, Commit(1), Doomed(Ready, Some(5), Some(1), {1}, map[1 := Done], {1}, true));
    more := more + [Write(1)] + [Commit(1)];
  }

  /** A worker that had read the asset before it was given up marks it as processing again and makes it
      ready; then the queued deletion takes its objects. */
  lemma RevivedUnbacked() returns (ops: seq<Op>, end: World)
    ensures Run(FRESH, ops, end) && end.row.processing == Ready && !end.row.deleted && end.original.None?
  {
    hide Run;
    ops := Dooms();
    ops := Revives(ops);
    var w := Doomed(Ready, Some(5), Some(1), {1}, map[1 := Done], {1}, true);
    var w1 := Doomed(Ready, Some(5), Some(1), {1}, map[1 := Done, 2 := Erasing(Some(1))], {1, 2}, true);
    assert map[1 := Done][2 := Erasing(Some(1))] == map[1 := Done, 2 := Erasing(Some(1))] && {1} + {2} == {1, 2};
    RunSnoc(FRESH, ops, w, LeaseDeletion(2), w1);
    end := w1.(original := None);
    RunSnoc(FRESH, ops + [LeaseDeletion(2)], w1, EraseOriginal(2), end);
    ops := ops + [LeaseDeletion(2)] + [EraseOriginal(2)];
  }
}
