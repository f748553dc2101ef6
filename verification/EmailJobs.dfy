/** Leased email jobs with a write-ahead 'unknown' (packages/persistence/src/jobs.ts), for an adapter that
    is not idempotent: an attempt is recorded before the provider is called, so that a job taken over
    from a lost worker does not send again what may have been sent. */
module EmailJobs {
  import opened Options
  import opened Seqs

  type Id = nat

  datatype JobState = Pending | Leased | Succeeded | Failed | UnknownExternal | Cancelled

  /** A message's one job. Leases are taken under owners that no other call ever used. */
  datatype Job = Job(state: JobState, owner: Option<Id>, expired: bool, attempts: nat)

  /** `Linked` stands for provider_queued, accepted and delayed, `Settled` for delivered, bounced and complained. */
  datatype MessageState = Queued | Unknown | Linked | Settled | Rejected

  datatype Error = UncertainSend | Retryable | Definite

  /** What a call of the provider comes to. An adapter reports an outcome that it cannot know either as
      uncertain, which ends the attempts, or as an error that may be retried. */
  datatype Outcome = Accepted | Refused | Doubtful | Unclear

  /** Where a worker's call stands: after an error the job is updated while `Erring`, the message while `Writing`. */
  datatype Step = Start | Sending | Submitting | Acking | Erring(error: Error) | Writing(error: Error)

  datatype Worker = Worker(message: Id, step: Step)

  predicate Terminal(s: JobState) { s == Succeeded || s == Failed || s == UnknownExternal || s == Cancelled }

  predicate Leasable(j: Job) { j.state == Pending || (j.state == Leased && j.expired) }

  predicate Owns(j: Job, owner: Id) { j.state == Leased && j.owner == Some(owner) }

  function Taken(j: Job, owner: Id): Job { Job(Leased, Some(owner), false, j.attempts + 1) }

  function Acknowledged(j: Job, owner: Id): Job { if Owns(j, owner) then j.(state := Succeeded) else j }

  /** What becomes of a job whose attempt ended in an error, if its worker still owns it. */
  function FailedWith(j: Job, owner: Id, e: Error): Job {
    if !Owns(j, owner) then j
    else j.(state := if e == UncertainSend then UnknownExternal else if e == Retryable && j.attempts < 5 then Pending else Failed)
  }

  /** What the worker writes about the message, whether it still owns the job or not. */
  function Written(m: MessageState, e: Error): MessageState {
    if m == Settled then m else if e == Definite then Rejected else Unknown
  }

  /** What the intent transaction decides. */
  function Intent(j: Job, owner: Id, m: MessageState, closed: bool, valid: bool): Step {
    if !Owns(j, owner) then Acking
    else if m == Linked || m == Settled then Acking
    else if m == Unknown then Erring(UncertainSend)
    else if closed then Acking
    else if !valid then Erring(Definite)
    else Sending
  }

  function Sent(o: Outcome): Step {
    match o
    case Accepted => Submitting
    case Refused => Erring(Definite)
    case Doubtful => Erring(UncertainSend)
    case Unclear => Erring(Retryable)
  }

  /** The error an attempt ends in, if any, from what its intent decided. */
  function Raised(intent: Step, outcome: Outcome, submits: bool, acks: bool): Option<Error> {
    if intent.Erring? then Some(intent.error)
    else if intent == Sending && outcome == Refused then Some(Definite)
    else if intent == Sending && outcome == Doubtful then Some(UncertainSend)
    else if intent == Sending && outcome == Unclear then Some(Retryable)
    else if (intent == Sending && !submits) || !acks then Some(Definite)
    else None
  }

  // ---------- what one attempt comes to, in rows ----------

  /** The job, leased once more, after an attempt that nobody disturbed. */
  ghost predicate JobEnds(before: Job, m: MessageState, owner: Id, closed: bool, valid: bool, outcome: Outcome, submits: bool, acks: bool, after: Job) {
    && after.owner == Some(owner) && !after.expired && after.attempts == before.attempts + 1
    && after.state ==
       if m == Unknown then UnknownExternal
       else if m == Linked || m == Settled || closed then (if acks then Succeeded else Failed)
       else if !valid then Failed
       else match outcome
            case Accepted => if submits && acks then Succeeded else Failed
            case Refused => Failed
            case Doubtful => UnknownExternal
            case Unclear => if before.attempts + 1 < 5 then Pending else Failed
  }

  /** The message after it. */
  ghost predicate MessageEnds(m: MessageState, closed: bool, valid: bool, outcome: Outcome, submits: bool, acks: bool, after: MessageState) {
    after ==
      if m == Unknown || m == Settled then m
      else if m == Linked || closed then (if acks then m else Rejected)
      else if !valid then Rejected
      else match outcome
           case Accepted => if submits && acks then Linked else Rejected
           case Refused => Rejected
           case Doubtful => Unknown
           case Unclear => Unknown
  }

  lemma AttemptEnds(before: Job, m: MessageState, owner: Id, closed: bool, valid: bool, outcome: Outcome, submits: bool, acks: bool)
    ensures var job := Taken(before, owner);
      var step := Intent(job, owner, m, closed, valid);
      var raised := Raised(step, outcome, submits, acks);
      var left := if step != Sending then m else if outcome == Accepted && submits then Linked else Unknown;
      && (step == Sending <==> (m == Queued || m == Rejected) && !closed && valid)
      && JobEnds(before, m, owner, closed, valid, outcome, submits, acks,
                 if raised.None? then Acknowledged(job, owner) else FailedWith(job, owner, raised.value))
      && MessageEnds(m, closed, valid, outcome, submits, acks, if raised.None? then left else Written(left, raised.value))
  {
  }

  // ---------- the queue as one worker sees it ----------

  class Queue {
    var jobs: map<Id, Job>
    var messages: map<Id, MessageState>

    constructor ()
      ensures jobs == map[] && messages == map[]
    {
      jobs, messages := map[], map[];
    }

    method Lease(owner: Id) returns (message: Option<Id>)
      modifies this`jobs
      ensures message.None? ==>
        jobs == old(jobs) && forall m :: m in jobs ==> jobs[m].state != Pending && !(jobs[m].state == Leased && jobs[m].expired)
      ensures message.Some? ==>
        && message.value in old(jobs)
        && (old(jobs)[message.value].state == Pending || (old(jobs)[message.value].state == Leased && old(jobs)[message.value].expired))
        && jobs == old(jobs)[message.value := Job(Leased, Some(owner), false, old(jobs)[message.value].attempts + 1)]
      ensures message.Some? ==> Leasable(old(jobs)[message.value]) && jobs == old(jobs)[message.value := Taken(old(jobs)[message.value], owner)]
    {
      var ready := set m | m in jobs && Leasable(jobs[m]);
      if ready == {} {
        assert forall m :: m in ready <==> m in jobs && Leasable(jobs[m]);
        return None;
      }
      var m :| m in ready;
      jobs := jobs[m := jobs[m].(state := Leased, owner := Some(owner), expired := false, attempts := jobs[m].attempts + 1)];
      message := Some(m);
    }

    method Ack(message: Id, owner: Id)
      requires message in jobs
      modifies this`jobs
      ensures jobs == old(jobs)[message := Acknowledged(old(jobs)[message], owner)]
    {
      if jobs[message].owner == Some(owner) && jobs[message].state == Leased {
        jobs := jobs[message := jobs[message].(state := Succeeded)];
      }
    }

    method Fail(message: Id, owner: Id, e: Error)
      requires message in jobs
      modifies this`jobs
      ensures jobs == old(jobs)[message := FailedWith(old(jobs)[message], owner, e)]
    {
      if jobs[message].owner == Some(owner) && jobs[message].state == Leased {
        var next := if e == UncertainSend then UnknownExternal else if e == Retryable && jobs[message].attempts < 5 then Pending else Failed;
        jobs := jobs[message := jobs[message].(state := next)];
      }
    }

    /** The send intent, persisted before the provider is called. */
    method Intend(message: Id, owner: Id, closed: bool, valid: bool) returns (step: Step)
      requires message in jobs && message in messages
      modifies this`messages
      ensures step == Intent(jobs[message], owner, old(messages)[message], closed, valid)
      ensures messages == if step == Sending then old(messages)[message := Unknown] else old(messages)
      ensures step == Sending <==>
        && jobs[message].state == Leased && jobs[message].owner == Some(owner)
        && (old(messages)[message] == Queued || old(messages)[message] == Rejected) && !closed && valid
      ensures step == Erring(UncertainSend) <==>
        jobs[message].state == Leased && jobs[message].owner == Some(owner) && old(messages)[message] == Unknown
      ensures step == Erring(Definite) <==>
        && jobs[message].state == Leased && jobs[message].owner == Some(owner)
        && (old(messages)[message] == Queued || old(messages)[message] == Rejected) && !closed && !valid
      ensures step == Sending || step == Acking || step == Erring(UncertainSend) || step == Erring(Definite)
    {
      if jobs[message].owner != Some(owner) || jobs[message].state != Leased {
        return Acking;
      }
      var state := messages[message];
      if state == Linked || state == Settled {
        return Acking;
      }
      if state == Unknown {
        return Erring(UncertainSend);
      }
      if closed {
        return Acking;
      }
      if !valid {
        return Erring(Definite);
      }
      messages := messages[message := Unknown];
      step := Sending;
    }

    /** `processOne` by one worker that nobody disturbs. Recording the submission may throw (`!submits`), and
        so may the acknowledgement (`!acks`), even after the provider accepted the message. */
    method ProcessOne(owner: Id, closed: bool, valid: bool, outcome: Outcome, submits: bool, acks: bool)
      returns (message: Option<Id>, called: bool)
      requires messages.Keys == jobs.Keys
      modifies this
      ensures messages.Keys == jobs.Keys == old(jobs).Keys
      ensures message.None? ==> !called && jobs == old(jobs) && messages == old(messages)
      ensures message.None? ==> forall m :: m in jobs ==> jobs[m].state != Pending && !(jobs[m].state == Leased && jobs[m].expired)
      ensures message.Some? ==>
        var m := message.value;
        && m in old(jobs) && (old(jobs)[m].state == Pending || (old(jobs)[m].state == Leased && old(jobs)[m].expired))
        && (called <==> (old(messages)[m] == Queued || old(messages)[m] == Rejected) && !closed && valid)
        && jobs == old(jobs)[m := jobs[m]] && messages == old(messages)[m := messages[m]]
        && JobEnds(old(jobs)[m], old(messages)[m], owner, closed, valid, outcome, submits, acks, jobs[m])
        && MessageEnds(old(messages)[m], closed, valid, outcome, submits, acks, messages[m])
    {
      hide JobEnds, MessageEnds, Intent, Raised, FailedWith, Acknowledged, Written;
      called := false;
      message := Lease(owner);
      if message.Some? {
        AttemptEnds(old(jobs)[message.value], old(messages)[message.value], owner, closed, valid, outcome, submits, acks);
        var raised;
        called, raised := Attempt(message.value, owner, closed, valid, outcome, submits, acks);
        if raised.Some? {
          GiveUp(message.value, owner, raised.value);
        }
      }
    }

    /** What is tried of a leased job: the intent, the call, the record of its submission, the acknowledgement. */
    method Attempt(message: Id, owner: Id, closed: bool, valid: bool, outcome: Outcome, submits: bool, acks: bool)
      returns (called: bool, raised: Option<Error>)
      requires message in jobs && message in messages
      modifies this
      ensures var step := Intent(old(jobs)[message], owner, old(messages)[message], closed, valid);
        && (called <==> step == Sending)
        && raised == Raised(step, outcome, submits, acks)
      ensures jobs == if raised.None? then old(jobs)[message := Acknowledged(old(jobs)[message], owner)] else old(jobs)
      ensures messages == if !called then old(messages) else old(messages)[message := if outcome == Accepted && submits then Linked else Unknown]
    {
      var step := Intend(message, owner, closed, valid);
      called := step == Sending;
      if called {
        step := Sent(outcome);
        if step == Submitting {
          if submits {
            Submitted(message);
          }
          step := if submits then Acking else Erring(Definite);
        }
      }
      if step.Erring? {
        return called, Some(step.error);
      }
      if !acks {
        return called, Some(Definite);
      }
      Ack(message, owner);
      raised := None;
    }

    method Submitted(message: Id)
      requires message in messages
      modifies this`messages
      ensures messages == if old(messages)[message] == Settled then old(messages) else old(messages)[message := Linked]
    {
      if messages[message] != Settled {
        messages := messages[message := Linked];
      }
    }

    /** After an error: the job first, if it is still owned, then the message in any case. */
    method GiveUp(message: Id, owner: Id, e: Error)
      requires message in jobs && message in messages
      modifies this
      ensures jobs == old(jobs)[message := FailedWith(old(jobs)[message], owner, e)]
      ensures messages == old(messages)[message := Written(old(messages)[message], e)]
    {
      Fail(message, owner, e);
      if messages[message] != Settled {
        messages := messages[message := if e == Definite then Rejected else Unknown];
      }
    }
  }

  // ---------- any number of workers ----------

  /** `standing` counts each message's calls of the provider that were not definitely rejected; `late` are
      the messages that were written off while their job could still be leased and a call of the provider
      stood or was about to be made (`Exposing`). */
  datatype World = World(jobs: map<Id, Job>, messages: map<Id, MessageState>, workers: map<Id, Worker>, standing: map<Id, nat>, late: set<Id>)

  /** An acknowledged submission does not update a message that a provider event has `reached`. `Raise` is an
      error while recording the submission or acknowledging the job, whatever the provider answered. */
  datatype Op =
    | Queue(message: Id)
    | Lease(message: Id, owner: Id)
    | Expire(message: Id)
    | Cancel(message: Id)
    | Intend(owner: Id, closed: bool, valid: bool)
    | Send(owner: Id, outcome: Outcome)
    | Submitted(owner: Id, reached: bool)
    | Ack(owner: Id)
    | Raise(owner: Id)
    | FailJob(owner: Id)
    | WriteMessage(owner: Id)
    | Crash(owner: Id)
    | Settle(message: Id)
    | Bounce(message: Id)

  predicate Enabled(w: World, op: Op) {
    match op
    case Queue(m) => m !in w.jobs
    case Lease(m, o) => m in w.jobs && Leasable(w.jobs[m]) && o !in w.workers && forall k :: k in w.jobs ==> w.jobs[k].owner != Some(o)
    case Expire(m) => m in w.jobs
    case Cancel(m) => m in w.jobs && !Terminal(w.jobs[m].state)
    case Intend(o, _, _) => o in w.workers && w.workers[o].step == Start
    case Send(o, _) => o in w.workers && w.workers[o].step == Sending
    case Submitted(o, _) => o in w.workers && w.workers[o].step == Submitting
    case Ack(o) => o in w.workers && w.workers[o].step == Acking
    case Raise(o) => o in w.workers && (w.workers[o].step == Submitting || w.workers[o].step == Acking)
    case FailJob(o) => o in w.workers && w.workers[o].step.Erring?
    case WriteMessage(o) => o in w.workers && w.workers[o].step.Writing?
    case Crash(o) => o in w.workers
    case Settle(m) => m in w.messages && w.messages[m] == Linked
    case Bounce(m) => m in w.messages && m in w.standing && w.messages[m] == Linked && w.standing[m] > 0
  }

  predicate Formed(w: World) {
    && w.messages.Keys == w.jobs.Keys && w.standing.Keys == w.jobs.Keys
    && forall o :: o in w.workers ==> w.workers[o].message in w.jobs
  }

  predicate UnderWay(w: World, m: Id) {
    exists o :: o in w.workers && w.workers[o] == Worker(m, Sending)
  }

  /** Writing the message off now, as definitely failed, invites another worker to send it again. */
  predicate Exposing(w: World, m: Id)
    requires m in w.jobs && m in w.messages && m in w.standing
  {
    w.messages[m] != Settled && !Terminal(w.jobs[m].state) && (w.standing[m] > 0 || UnderWay(w, m))
  }

  function At(w: World, o: Id, step: Step): World
    requires o in w.workers
  {
    w.(workers := w.workers[o := w.workers[o].(step := step)])
  }

  function After(w: World, op: Op): World
    requires Formed(w) && Enabled(w, op)
  {
    match op
    case Queue(m) =>
      w.(jobs := w.jobs[m := Job(Pending, None, false, 0)], messages := w.messages[m := MessageState.Queued], standing := w.standing[m := 0])
    case Lease(m, o) => w.(jobs := w.jobs[m := Taken(w.jobs[m], o)], workers := w.workers[o := Worker(m, Start)])
    case Expire(m) => w.(jobs := w.jobs[m := w.jobs[m].(expired := true)])
    case Cancel(m) => w.(jobs := w.jobs[m := w.jobs[m].(state := Cancelled)])
    case Intend(o, closed, valid) =>
      var m := w.workers[o].message;
      var step := Intent(w.jobs[m], o, w.messages[m], closed, valid);
      At(w, o, step).(messages := if step == Sending then w.messages[m := Unknown] else w.messages)
    case Send(o, outcome) =>
      var m := w.workers[o].message;
      At(w, o, Sent(outcome)).(standing := if outcome == Refused then w.standing else w.standing[m := w.standing[m] + 1])
    case Submitted(o, reached) =>
      var m := w.workers[o].message;
      At(w, o, Acking).(messages := if reached || w.messages[m] == Settled then w.messages else w.messages[m := Linked])
    case Ack(o) =>
      var m := w.workers[o].message;
      w.(jobs := w.jobs[m := Acknowledged(w.jobs[m], o)], workers := w.workers - {o})
    case Raise(o) => At(w, o, Erring(Definite))
    case FailJob(o) =>
      var m, e := w.workers[o].message, w.workers[o].step.error;
      At(w, o, Writing(e)).(jobs := w.jobs[m := FailedWith(w.jobs[m], o, e)])
    case WriteMessage(o) =>
      var m, e := w.workers[o].message, w.workers[o].step.error;
      w.(messages := w.messages[m := Written(w.messages[m], e)], workers := w.workers - {o},
         late := if e == Definite && Exposing(w, m) then w.late + {m} else w.late)
    case Crash(o) => w.(workers := w.workers - {o})
    case Settle(m) => w.(messages := w.messages[m := Settled])
    case Bounce(m) => w.(messages := w.messages[m := Rejected], standing := w.standing[m := w.standing[m] - 1])
  }

  ghost predicate Run(w: World, ops: seq<Op>, end: World)
    decreases |ops|
  {
    if ops == [] then end == w else Formed(w) && Enabled(w, ops[0]) && Run(After(w, ops[0]), ops[1..], end)
  }

  // ---------- what every step keeps ----------

  predicate Busy(w: World, o: Id, m: Id) {
    o in w.workers && w.workers[o].message == m && (w.workers[o].step == Sending || w.workers[o].step == Submitting)
  }

  /** The job's owner is about to put it back for another attempt. */
  predicate Retrying(w: World, o: Id, m: Id)
    requires m in w.jobs
  {
    o in w.workers && w.workers[o] == Worker(m, Erring(Retryable)) && Owns(w.jobs[m], o)
  }

  /** At most one call stands or is about to be made. While the job can still be leased, the message says so. */
  ghost predicate Careful(w: World, m: Id)
    requires m in w.jobs && m in w.messages && m in w.standing
  {
    && w.standing[m] <= 1
    && (forall o, p :: Busy(w, o, m) && Busy(w, p, m) && w.workers[o].step == w.workers[p].step == Sending ==> o == p)
    && (forall o :: Busy(w, o, m) && w.workers[o].step == Sending ==> w.standing[m] == 0)
    && (!Terminal(w.jobs[m].state) ==> Told(w, m))
  }

  /** A message under way, or sent, is unknown or further; one put back for another attempt is not linked. */
  ghost predicate Told(w: World, m: Id)
    requires m in w.jobs && m in w.messages && m in w.standing
  {
    && (w.jobs[m].state == Pending || (exists o :: Retrying(w, o, m)) ==> w.messages[m] != Linked && forall p :: !Busy(w, p, m))
    && (forall o, p :: Busy(w, o, m) && Busy(w, p, m) ==> o == p)
    && (forall o :: Busy(w, o, m) ==> w.messages[m] == Unknown && w.standing[m] == if w.workers[o].step == Sending then 0 else 1)
    && (w.standing[m] == 1 ==> w.messages[m] == Unknown || w.messages[m] == Linked || w.messages[m] == Settled)
  }

  ghost predicate Safe(w: World) {
    Formed(w) && forall m :: m in w.jobs && m !in w.late ==> Careful(w, m)
  }

  function Target(w: World, op: Op): Id
    requires Formed(w) && Enabled(w, op)
  {
    match op
    case Queue(m) => m
    case Lease(m, _) => m
    case Expire(m) => m
    case Cancel(m) => m
    case Settle(m) => m
    case Bounce(m) => m
    case Intend(o, _, _) => w.workers[o].message
    case Send(o, _) => w.workers[o].message
    case Submitted(o, _) => w.workers[o].message
    case Ack(o) => w.workers[o].message
    case Raise(o) => w.workers[o].message
    case FailJob(o) => w.workers[o].message
    case WriteMessage(o) => w.workers[o].message
    case Crash(o) => w.workers[o].message
  }

  /** A step concerns one message only. */
  lemma OthersUntouched(w: World, op: Op, m: Id)
    requires Formed(w) && Enabled(w, op) && m != Target(w, op) && m in w.jobs
    ensures var v := After(w, op);
      && m in v.jobs && m in v.messages && m in v.standing
      && v.jobs[m] == w.jobs[m] && v.messages[m] == w.messages[m] && v.standing[m] == w.standing[m] && (m in v.late <==> m in w.late)
      && forall o :: (o in v.workers && v.workers[o].message == m <==> o in w.workers && w.workers[o].message == m)
                     && (o in w.workers && w.workers[o].message == m ==> v.workers[o] == w.workers[o])
  {
  }

  lemma OthersCareful(w: World, op: Op, m: Id)
    requires Formed(w) && Enabled(w, op) && m != Target(w, op) && m in w.jobs && Careful(w, m)
    ensures var v := After(w, op); m in v.jobs && m in v.messages && m in v.standing && Careful(v, m)
  {
    OthersUntouched(w, op, m);
    var v := After(w, op);
    forall o ensures Busy(v, o, m) == Busy(w, o, m) && (Busy(w, o, m) ==> v.workers[o] == w.workers[o]) && Retrying(v, o, m) == Retrying(w, o, m) {
    }
    hide After, Enabled;
  }

  lemma FormedStays(w: World, op: Op)
    requires Formed(w) && Enabled(w, op)
    ensures Formed(After(w, op))
  {
  }

  lemma IntendCareful(w: World, op: Op, m: Id)
    requires Formed(w) && Enabled(w, op) && op.Intend? && m == Target(w, op) && Careful(w, m)
    ensures Careful(After(w, op), m)
  {
    var v := After(w, op);
    forall o | o != op.owner ensures Busy(v, o, m) == Busy(w, o, m) && (Busy(w, o, m) ==> v.workers[o] == w.workers[o]) && (Retrying(v, o, m) ==> Retrying(w, o, m)) {
    }
    assert !Busy(w, op.owner, m);
  }

  lemma SendCareful(w: World, op: Op, m: Id)
    requires Formed(w) && Enabled(w, op) && op.Send? && m == Target(w, op) && Careful(w, m)
    ensures Careful(After(w, op), m)
  {
    var v := After(w, op);
    forall o | o != op.owner ensures Busy(v, o, m) == Busy(w, o, m) && (Busy(w, o, m) ==> v.workers[o] == w.workers[o]) && (Retrying(v, o, m) ==> Retrying(w, o, m)) {
    }
    assert Busy(w, op.owner, m);
  }

  lemma SubmittedCareful(w: World, op: Op, m: Id)
    requires Formed(w) && Enabled(w, op) && op.Submitted? && m == Target(w, op) && Careful(w, m)
    ensures Careful(After(w, op), m)
  {
    var v := After(w, op);
    forall o | o != op.owner ensures Busy(v, o, m) == Busy(w, o, m) && (Busy(w, o, m) ==> v.workers[o] == w.workers[o]) && (Retrying(v, o, m) ==> Retrying(w, o, m)) {
    }
    assert Busy(w, op.owner, m);
  }

  lemma FailJobCareful(w: World, op: Op, m: Id)
    requires Formed(w) && Enabled(w, op) && (op.FailJob? || op.Raise?) && m == Target(w, op) && Careful(w, m)
    ensures Careful(After(w, op), m)
  {
    var v := After(w, op);
    forall o | o != op.owner ensures Busy(v, o, m) == Busy(w, o, m) && (Busy(w, o, m) ==> v.workers[o] == w.workers[o]) && (Retrying(v, o, m) ==> Retrying(w, o, m)) {
    }
    assert v.jobs[m].state == Pending && w.jobs[m].state != Pending ==> Retrying(w, op.owner, m);
    assert !Busy(v, op.owner, m);
  }

  lemma WriteMessageCareful(w: World, op: Op, m: Id)
    requires Formed(w) && Enabled(w, op) && op.WriteMessage? && m == Target(w, op) && Careful(w, m) && m !in After(w, op).late
    ensures Careful(After(w, op), m)
  {
    var v := After(w, op);
    forall o ensures Busy(v, o, m) == Busy(w, o, m) && (Busy(w, o, m) ==> v.workers[o] == w.workers[o]) && (Retrying(v, o, m) ==> Retrying(w, o, m)) {
    }
    if w.workers[op.owner].step.error == Definite && w.messages[m] != Settled && !Terminal(w.jobs[m].state) {
      assert !UnderWay(w, m);
      assert forall o :: o in w.workers ==> w.workers[o] != Worker(m, Sending);
    }
  }

  predicate Elsewhere(op: Op) {
    op.Lease? || op.Expire? || op.Cancel? || op.Ack? || op.Crash? || op.Settle? || op.Bounce?
  }

  lemma RestCareful(w: World, op: Op, m: Id)
    requires Formed(w) && Enabled(w, op) && Elsewhere(op) && m == Target(w, op) && Careful(w, m)
    ensures Careful(After(w, op), m)
  {
    var v := After(w, op);
    forall o ensures (Busy(v, o, m) ==> Busy(w, o, m) && v.workers[o] == w.workers[o]) && (Retrying(v, o, m) ==> Retrying(w, o, m)) {
    }
  }

  lemma QueueCareful(w: World, op: Op)
    requires Formed(w) && Enabled(w, op) && op.Queue?
    ensures Careful(After(w, op), op.message)
  {
    forall o ensures !Busy(After(w, op), o, op.message) {
    }
  }

  lemma StepSafe(w: World, op: Op)
    requires Safe(w) && Enabled(w, op)
    ensures Safe(After(w, op))
  {
    FormedStays(w, op);
    hide After, Enabled, Careful;
    var v, t := After(w, op), Target(w, op);
    forall m | m in v.jobs && m !in v.late ensures Careful(v, m) {
      if m != t {
        assert m in w.jobs && m !in w.late by { OldMessage(w, op, m); }
        OthersCareful(w, op, m);
      } else if op.Queue? {
        QueueCareful(w, op);
      } else {
        assert m in w.jobs && m !in w.late by { LateGrows(w, op); }
        if op.Intend? {
          IntendCareful(w, op, m);
        } else if op.Send? {
          SendCareful(w, op, m);
        } else if op.Submitted? {
          SubmittedCareful(w, op, m);
        } else if op.FailJob? || op.Raise? {
          FailJobCareful(w, op, m);
        } else if op.WriteMessage? {
          WriteMessageCareful(w, op, m);
        } else {
          RestCareful(w, op, m);
        }
      }
    }
  }

  lemma OldMessage(w: World, op: Op, m: Id)
    requires Formed(w) && Enabled(w, op) && m in After(w, op).jobs && m != Target(w, op) && m !in After(w, op).late
    ensures m in w.jobs && m !in w.late
  {
  }

  lemma LateGrows(w: World, op: Op)
    requires Formed(w) && Enabled(w, op)
    ensures w.late <= After(w, op).late && (op.Queue? || Target(w, op) in w.jobs)
  {
  }

  lemma {:induction false} RunSafe(w: World, ops: seq<Op>, end: World)
    requires Safe(w) && Run(w, ops, end)
    ensures Safe(end)
    decreases |ops|
  {
    hide After, Enabled, Careful;
    if ops != [] {
      StepSafe(w, ops[0]);
      RunSafe(After(w, ops[0]), ops[1..], end);
    }
  }

  const EMPTY := World(map[], map[], map[], map[], {})

  /** However workers crash, lose their leases and interleave, a message has at most one call of the
      provider that was not definitely rejected, unless it was written off while its job could still be
      leased and such a call stood or was about to be made. */
  lemma SingleUncertainSend(ops: seq<Op>, end: World, m: Id)
    requires Run(EMPTY, ops, end) && m in end.standing && m !in end.late
    ensures end.standing[m] <= 1
  {
    RunSafe(EMPTY, ops, end);
    assert Careful(end, m);
  }

  lemma TerminalStep(w: World, op: Op, m: Id)
    requires Formed(w) && Enabled(w, op) && m in w.jobs && Terminal(w.jobs[m].state)
    ensures Formed(After(w, op)) && m in After(w, op).jobs && After(w, op).jobs[m].state == w.jobs[m].state
  {
  }

  /** Jobs that succeeded, failed, were cancelled or became uncertain stay so: they are never leased again. */
  lemma {:induction false} TerminalForever(w: World, ops: seq<Op>, end: World, m: Id)
    requires Run(w, ops, end) && m in w.jobs && Terminal(w.jobs[m].state)
    ensures m in end.jobs && end.jobs[m].state == w.jobs[m].state && !Leasable(end.jobs[m])
    decreases |ops|
  {
    hide After, Enabled;
    if ops != [] {
      TerminalStep(w, ops[0], m);
      TerminalForever(After(w, ops[0]), ops[1..], end, m);
    }
  }

  lemma {:induction false} RunSnoc(w: World, ops: seq<Op>, mid: World, op: Op, next: World)
    requires Run(w, ops, mid) && Formed(mid) && Enabled(mid, op) && After(mid, op) == next
    ensures Run(w, ops + [op], next)
    decreases |ops|
  {
    hide After, Enabled;
    if ops == [] {
      assert Run(After(w, op), [], After(w, op));
      assert [op][1..] == [] && ops + [op] == [op];
    } else {
      RunSnoc(After(w, ops[0]), ops[1..], mid, op, next);
      assert (ops + [op])[1..] == ops[1..] + [op];
    }
  }

  // ---------- exactly when writing a message off does harm ----------

  /** Whether the message can still be sent twice with nothing written off wrongly from here on. */
  ghost predicate CanSendTwice(w: World, m: Id) {
    exists ops, end :: Run(w.(late := w.late - {m}), ops, end) && m !in end.late && m in end.standing && end.standing[m] >= 2
  }

  predicate WritesOff(w: World, op: Op, m: Id)
    requires Formed(w) && Enabled(w, op)
  {
    op.WriteMessage? && w.workers[op.owner] == Worker(m, Writing(Definite))
  }

  /** A step leads to a message that some continuation sends twice if and only if it writes the message off
      as failed while it is not settled, its job is not finished, and a call stands or is about to be made. */
  lemma SentTwiceIff(w: World, op: Op, m: Id)
    requires Safe(w) && Enabled(w, op) && m in w.jobs && m !in w.late
    ensures CanSendTwice(After(w, op), m) <==> WritesOff(w, op, m) && Exposing(w, m)
  {
    StepSafe(w, op);
    LateExactly(w, op, m);
    if WritesOff(w, op, m) && Exposing(w, m) {
      StillUnderWay(w, op, m);
      hide After, Enabled, Run;
      var v := After(w, op);
      var ops, end := SendsAgain(v.(late := v.late - {m}), m);
    } else {
      hide After, Enabled;
      StaysSingle(After(w, op), m);
    }
  }

  lemma LateExactly(w: World, op: Op, m: Id)
    requires Formed(w) && Enabled(w, op) && m in w.jobs && m !in w.late
    ensures m in After(w, op).late <==> WritesOff(w, op, m) && Exposing(w, m)
    ensures m in After(w, op).jobs
  {
  }

  lemma StaysSingle(v: World, m: Id)
    requires Safe(v) && m in v.jobs && m !in v.late
    ensures !CanSendTwice(v, m)
  {
    assert v.late - {m} == v.late;
    assert v.(late := v.late - {m}) == v;
    forall ops, end | Run(v, ops, end) && m !in end.late && m in end.standing ensures end.standing[m] < 2 {
      RunSafe(v, ops, end);
      assert Careful(end, m);
    }
  }

  lemma StillUnderWay(w: World, op: Op, m: Id)
    requires Formed(w) && Enabled(w, op) && m in w.jobs && WritesOff(w, op, m) && Exposing(w, m)
    ensures var v := After(w, op);
      && Formed(v) && m in v.jobs && v.messages[m] == Rejected && !Terminal(v.jobs[m].state) && (v.standing[m] > 0 || UnderWay(v, m))
  {
    if UnderWay(w, m) {
      var o :| o in w.workers && w.workers[o] == Worker(m, Sending);
      assert o in After(w, op).workers;
    }
  }

  lemma UnusedOwner(w: World) returns (o: Id)
    ensures o !in w.workers && forall k :: k in w.jobs ==> w.jobs[k].owner != Some(o)
  {
    var leases := set k | k in w.jobs && w.jobs[k].owner.Some? :: w.jobs[k].owner.value;
    o := Unused(w.workers.Keys + leases);
    forall k | k in w.jobs ensures w.jobs[k].owner != Some(o) {
      assert w.jobs[k].owner.Some? ==> w.jobs[k].owner.value in leases;
    }
  }

  lemma RunsOut(v: World, m: Id) returns (w: World)
    requires Formed(v) && m in v.jobs && !Terminal(v.jobs[m].state)
    ensures Enabled(v, Expire(m)) && After(v, Expire(m)) == w && Formed(w) && m in w.jobs && Leasable(w.jobs[m])
    ensures w.messages == v.messages && w.standing == v.standing && w.workers == v.workers && w.late == v.late
  {
    w := After(v, Expire(m));
  }

  lemma TakesOver(v: World, m: Id, o: Id) returns (w: World)
    requires Formed(v) && m in v.jobs && Leasable(v.jobs[m])
    requires o !in v.workers && forall k :: k in v.jobs ==> v.jobs[k].owner != Some(o)
    ensures Enabled(v, Lease(m, o)) && After(v, Lease(m, o)) == w && Formed(w) && m in w.jobs && Owns(w.jobs[m], o)
    ensures w.messages == v.messages && w.standing == v.standing && w.workers == v.workers[o := Worker(m, Start)] && w.late == v.late
  {
    w := After(v, Lease(m, o));
  }

  lemma Allows(v: World, m: Id, o: Id) returns (w: World)
    requires Formed(v) && m in v.jobs && Owns(v.jobs[m], o) && o in v.workers && v.workers[o] == Worker(m, Start) && v.messages[m] == Rejected
    ensures Enabled(v, Intend(o, false, true)) && After(v, Intend(o, false, true)) == w && Formed(w) && m in w.jobs
    ensures w.standing == v.standing && w.workers == v.workers[o := Worker(m, Sending)] && w.late == v.late
  {
    w := After(v, Intend(o, false, true));
  }

  lemma Calls(v: World, m: Id, o: Id) returns (w: World)
    requires Formed(v) && m in v.jobs && o in v.workers && v.workers[o] == Worker(m, Sending)
    ensures Enabled(v, Send(o, Accepted)) && After(v, Send(o, Accepted)) == w && Formed(w) && m in w.jobs
    ensures w.standing == v.standing[m := v.standing[m] + 1] && w.workers == v.workers[o := Worker(m, Submitting)] && w.late == v.late
  {
    w := After(v, Send(o, Accepted));
  }

  /** From a message written off over a call: the lease runs out, a worker takes the job and sends again. */
  lemma SendsAgain(v: World, m: Id) returns (ops: seq<Op>, end: World)
    requires Formed(v) && m in v.jobs && m !in v.late && v.messages[m] == Rejected && !Terminal(v.jobs[m].state)
    requires v.standing[m] > 0 || UnderWay(v, m)
    ensures Run(v, ops, end) && m !in end.late && m in end.standing && end.standing[m] >= 2
  {
    hide After, Enabled;
    assert Run(v, [], v);
    hide Run;
    var s1 := RunsOut(v, m);
    RunSnoc(v, [], v, Expire(m), s1);
    var o := UnusedOwner(s1);
    var s2 := TakesOver(s1, m, o);
    RunSnoc(v, [] + [Expire(m)], s1, Lease(m, o), s2);
    var s3 := Allows(s2, m, o);
    RunSnoc(v, [] + [Expire(m)] + [Lease(m, o)], s2, Intend(o, false, true), s3);
    end := Calls(s3, m, o);
    ops := [] + [Expire(m)] + [Lease(m, o)] + [Intend(o, false, true)] + [Send(o, Accepted)];
    RunSnoc(v, [] + [Expire(m)] + [Lease(m, o)] + [Intend(o, false, true)], s3, Send(o, Accepted), end);
    if v.standing[m] == 0 {
      var p :| p in v.workers && v.workers[p] == Worker(m, Sending);
      var last := Calls(end, m, p);
      RunSnoc(v, ops, end, Send(p, Accepted), last);
      ops, end := ops + [Send(p, Accepted)], last;
    }
  }

  // ---------- the exception is real ----------

  function Scene(job: Job, message: MessageState, workers: map<Id, Worker>, standing: nat, late: set<Id>): World {
    World(map[1 := job], map[1 := message], workers, map[1 := standing], late)
  }

  const FIRST := Taken(Job(Pending, None, false, 0), 1)
  const SECOND := Taken(FIRST.(expired := true), 2)
  const THIRD := Taken(SECOND.(expired := true), 3)

  const STALLED := map[1 := Worker(1, Erring(Definite))]

  lemma Stalls() returns (ops: seq<Op>)
    ensures Run(EMPTY, ops, Scene(FIRST.(expired := true), MessageState.Queued, STALLED, 0, {}))
  {
    assert Run(EMPTY, [], EMPTY);
    var s1 := Scene(Job(Pending, None, false, 0), MessageState.Queued, map[], 0, {});
    RunSnoc(EMPTY, [], EMPTY, Queue(1), s1);
    hide Run, After, Enabled;
    ops := TakeAndIntend([] + [Queue(1)], Job(Pending, None, false, 0), MessageState.Queued, map[], 0, {}, 1, false);
    assert map[][1 := Worker(1, Erring(Definite))] == STALLED;
    ops := Expires(ops, FIRST, MessageState.Queued, STALLED, 0, {});
  }

  /** Worker 2 finds it valid and is about to send. */
  lemma TakenOver() returns (ops: seq<Op>)
    ensures Run(EMPTY, ops, Scene(SECOND, Unknown, STALLED[2 := Worker(1, Sending)], 0, {}))
  {
    hide Run, After, Enabled;
    ops := Stalls();
    ops := TakeAndIntend(ops, FIRST.(expired := true), MessageState.Queued, STALLED, 0, {}, 2, true);
  }

  /** Worker 2 has sent; worker 1 is about to write its failure. */
  lemma SentOnce() returns (ops: seq<Op>)
    ensures Run(EMPTY, ops, Scene(SECOND, Unknown, map[1 := Worker(1, Writing(Definite)), 2 := Worker(1, Submitting)], 1, {}))
  {
    hide Run, After, Enabled;
    ops := TakenOver();
    ops := Sends(ops, SECOND, STALLED[2 := Worker(1, Sending)], 0, {}, 2);
    var both := map[1 := Worker(1, Erring(Definite)), 2 := Worker(1, Submitting)];
    assert STALLED[2 := Worker(1, Sending)][2 := Worker(1, Submitting)] == both;
    FailsLate(ops, SECOND, both);
    assert both[1 := Worker(1, Writing(Definite))] == map[1 := Worker(1, Writing(Definite)), 2 := Worker(1, Submitting)];
    ops := ops + [FailJob(1)];
  }

  /** The same, with the submission recorded. */
  lemma LinkedOnce() returns (ops: seq<Op>)
    ensures Run(EMPTY, ops, Scene(SECOND, Linked, map[1 := Worker(1, Writing(Definite)), 2 := Worker(1, Acking)], 1, {}))
  {
    hide Run;
    ops := SentOnce();
    RunSnoc(EMPTY, ops, Scene(SECOND, Unknown, map[1 := Worker(1, Writing(Definite)), 2 := Worker(1, Submitting)], 1, {}), Submitted(2, false),
            Scene(SECOND, Linked, map[1 := Worker(1, Writing(Definite)), 2 := Worker(1, Acking)], 1, {}));
    ops := ops + [Submitted(2, false)];
  }

  /** Worker 2 does not know what became of its call and puts the job back. */
  lemma PutBack() returns (ops: seq<Op>)
    ensures Run(EMPTY, ops, Scene(SECOND.(state := Pending), Unknown, map[1 := Worker(1, Writing(Definite)), 2 := Worker(1, Writing(Retryable))], 1, {}))
  {
    hide Run;
    ops := TakenOver();
    var w1 := Scene(SECOND, Unknown, map[1 := Worker(1, Erring(Definite)), 2 := Worker(1, Erring(Retryable))], 1, {});
    RunSnoc(EMPTY, ops, Scene(SECOND, Unknown, STALLED[2 := Worker(1, Sending)], 0, {}), Send(2, Unclear), w1);
    ops := ops + [Send(2, Unclear)];
    var w2 := Scene(SECOND.(state := Pending), Unknown, map[1 := Worker(1, Erring(Definite)), 2 := Worker(1, Writing(Retryable))], 1, {});
    RunSnoc(EMPTY, ops, w1, FailJob(2), w2);
    ops := ops + [FailJob(2)];
    FailsLate(ops, SECOND.(state := Pending), w2.workers);
    assert w2.workers[1 := Worker(1, Writing(Definite))] == map[1 := Worker(1, Writing(Definite)), 2 := Worker(1, Writing(Retryable))];
    ops := ops + [FailJob(1)];
  }

  lemma SentOnceAndWrittenOff() returns (ops: seq<Op>)
    ensures Run(EMPTY, ops, Scene(SECOND, Rejected, map[2 := Worker(1, Submitting)], 1, {1}))
  {
    hide Run, After, Enabled;
    ops := SentOnce();
    var both := map[1 := Worker(1, Writing(Definite)), 2 := Worker(1, Submitting)];
    WritesLate(ops, SECOND, both);
    assert both - {1} == map[2 := Worker(1, Submitting)] && {} + {1} == {1};
    ops := ops + [WriteMessage(1)];
  }

  /** Worker 1 finds the message invalid and stalls; worker 2 takes the job over once its lease is gone,
      finds it valid and sends; then worker 1 writes its failure, and worker 3 sends again. */
  lemma SentTwice() returns (ops: seq<Op>, end: World)
    ensures Run(EMPTY, ops, end) && 1 in end.standing && end.standing[1] == 2
  {
    hide Run, After, Enabled;
    ops := SentOnceAndWrittenOff();
    var rest := map[2 := Worker(1, Submitting)];
    ops := Expires(ops, SECOND, Rejected, rest, 1, {1});
    ops := TakeAndIntend(ops, SECOND.(expired := true), Rejected, rest, 1, {1}, 3, true);
    ops := Sends(ops, THIRD, rest[3 := Worker(1, Sending)], 1, {1}, 3);
    end := Scene(THIRD, Unknown, rest[3 := Worker(1, Sending)][3 := Worker(1, Submitting)], 2, {1});
  }

  lemma TakeAndIntend(ops: seq<Op>, j: Job, m: MessageState, workers: map<Id, Worker>, standing: nat, late: set<Id>, o: Id, valid: bool)
    returns (more: seq<Op>)
    requires Run(EMPTY, ops, Scene(j, m, workers, standing, late)) && Formed(Scene(j, m, workers, standing, late))
    requires Leasable(j) && o !in workers && j.owner != Some(o) && (m == MessageState.Queued || m == Rejected)
    ensures Run(EMPTY, more, Scene(Taken(j, o), if valid then Unknown else m,
                                   workers[o := Worker(1, if valid then Sending else Erring(Definite))], standing, late))
  {
    hide Run;
    var s1 := Scene(Taken(j, o), m, workers[o := Worker(1, Start)], standing, late);
    RunSnoc(EMPTY, ops, Scene(j, m, workers, standing, late), Lease(1, o), s1);
    Intends(ops + [Lease(1, o)], Taken(j, o), m, workers[o := Worker(1, Start)], standing, late, o, valid);
    var last := Worker(1, if valid then Sending else Erring(Definite));
    assert workers[o := Worker(1, Start)][o := last] == workers[o := last];
    more := ops + [Lease(1, o)] + [Intend(o, false, valid)];
  }

  lemma Intends(ops: seq<Op>, j: Job, m: MessageState, workers: map<Id, Worker>, standing: nat, late: set<Id>, o: Id, valid: bool)
    requires Run(EMPTY, ops, Scene(j, m, workers, standing, late)) && Formed(Scene(j, m, workers, standing, late))
    requires Owns(j, o) && o in workers && workers[o] == Worker(1, Start) && (m == MessageState.Queued || m == Rejected)
    ensures Run(EMPTY, ops + [Intend(o, false, valid)],
                Scene(j, if valid then Unknown else m, workers[o := Worker(1, if valid then Sending else Erring(Definite))], standing, late))
  {
    hide Run;
    RunSnoc(EMPTY, ops, Scene(j, m, workers, standing, late), Intend(o, false, valid),
            Scene(j, if valid then Unknown else m, workers[o := Worker(1, if valid then Sending else Erring(Definite))], standing, late));
  }

  lemma Expires(ops: seq<Op>, j: Job, m: MessageState, workers: map<Id, Worker>, standing: nat, late: set<Id>) returns (more: seq<Op>)
    requires Run(EMPTY, ops, Scene(j, m, workers, standing, late)) && Formed(Scene(j, m, workers, standing, late))
    ensures Run(EMPTY, more, Scene(j.(expired := true), m, workers, standing, late))
  {
    hide Run;
    RunSnoc(EMPTY, ops, Scene(j, m, workers, standing, late), Expire(1), Scene(j.(expired := true), m, workers, standing, late));
    more := ops + [Expire(1)];
  }

  lemma Sends(ops: seq<Op>, j: Job, workers: map<Id, Worker>, standing: nat, late: set<Id>, o: Id) returns (more: seq<Op>)
    requires Run(EMPTY, ops, Scene(j, Unknown, workers, standing, late)) && Formed(Scene(j, Unknown, workers, standing, late))
    requires o in workers && workers[o] == Worker(1, Sending)
    ensures Run(EMPTY, more, Scene(j, Unknown, workers[o := Worker(1, Submitting)], standing + 1, late))
  {
    hide Run;
    RunSnoc(EMPTY, ops, Scene(j, Unknown, workers, standing, late), Send(o, Accepted),
            Scene(j, Unknown, workers[o := Worker(1, Submitting)], standing + 1, late));
    more := ops + [Send(o, Accepted)];
  }

  lemma FailsLate(ops: seq<Op>, j: Job, workers: map<Id, Worker>)
    requires 1 in workers && workers[1] == Worker(1, Erring(Definite)) && !Owns(j, 1)
    requires Run(EMPTY, ops, Scene(j, Unknown, workers, 1, {})) && Formed(Scene(j, Unknown, workers, 1, {}))
    ensures Run(EMPTY, ops + [FailJob(1)], Scene(j, Unknown, workers[1 := Worker(1, Writing(Definite))], 1, {}))
  {
    hide Run;
    RunSnoc(EMPTY, ops, Scene(j, Unknown, workers, 1, {}), FailJob(1), Scene(j, Unknown, workers[1 := Worker(1, Writing(Definite))], 1, {}));
  }

  lemma WritesLate(ops: seq<Op>, j: Job, workers: map<Id, Worker>)
    requires !Terminal(j.state) && 1 in workers && workers[1] == Worker(1, Writing(Definite))
    requires Run(EMPTY, ops, Scene(j, Unknown, workers, 1, {})) && Formed(Scene(j, Unknown, workers, 1, {}))
    ensures Run(EMPTY, ops + [WriteMessage(1)], Scene(j, Rejected, workers - {1}, 1, {} + {1}))
  {
    hide Run;
    RunSnoc(EMPTY, ops, Scene(j, Unknown, workers, 1, {}), WriteMessage(1), Scene(j, Rejected, workers - {1}, 1, {} + {1}));
  }

  // ---------- what the rows of job and message tell ----------

  ghost predicate AboutToWriteOff(w: World, o: Id, m: Id, j: JobState, s: MessageState) {
    && Formed(w) && Enabled(w, WriteMessage(o)) && WritesOff(w, WriteMessage(o), m)
    && m !in w.late && w.jobs[m].state == j && w.messages[m] == s
  }

  /** In every run that comes to a message to be written off, with rows in these states, writing is harmless. */
  ghost predicate Harmless(j: JobState, s: MessageState) {
    forall ops, w, o, m :: Run(EMPTY, ops, w) && AboutToWriteOff(w, o, m, j, s) ==> !CanSendTwice(After(w, WriteMessage(o)), m)
  }

  predicate Harmful(j: JobState, s: MessageState) {
    (j == Leased && (s == Unknown || s == Linked)) || (j == Pending && s == Unknown)
  }

  /** Writing a message off, in whatever run, is harmless if and only if its job is finished, or the message
      shows no attempt or is settled, or it is linked with its job waiting, which never happens. */
  lemma HarmlessIff(j: JobState, s: MessageState)
    ensures Harmless(j, s) <==> !Harmful(j, s)
  {
    hide CanSendTwice, After, Run;
    if Harmful(j, s) {
      var ops, w := HarmfulRun(j, s);
    } else {
      forall ops, w, o, m | Run(EMPTY, ops, w) && AboutToWriteOff(w, o, m, j, s)
        ensures !CanSendTwice(After(w, WriteMessage(o)), m)
      {
        RunSafe(EMPTY, ops, w);
        RowsTell(w, o, m, j, s);
      }
    }
  }

  lemma RowsTell(w: World, o: Id, m: Id, j: JobState, s: MessageState)
    requires Safe(w) && AboutToWriteOff(w, o, m, j, s) && !Harmful(j, s)
    ensures !CanSendTwice(After(w, WriteMessage(o)), m)
  {
    hide CanSendTwice;
    assert Careful(w, m);
    assert forall p :: p in w.workers && w.workers[p] == Worker(m, Sending) ==> Busy(w, p, m);
    SentTwiceIff(w, WriteMessage(o), m);
  }

  /** From a reachable state whose rows are of a harmful kind. */
  lemma HarmfulRun(j: JobState, s: MessageState) returns (ops: seq<Op>, w: World)
    requires Harmful(j, s)
    ensures Run(EMPTY, ops, w) && AboutToWriteOff(w, 1, 1, j, s) && CanSendTwice(After(w, WriteMessage(1)), 1)
  {
    hide Run, After, CanSendTwice;
    if j == Pending {
      ops := PutBack();
      w := Scene(SECOND.(state := Pending), Unknown, map[1 := Worker(1, Writing(Definite)), 2 := Worker(1, Writing(Retryable))], 1, {});
    } else if s == Unknown {
      ops := SentOnce();
      w := Scene(SECOND, Unknown, map[1 := Worker(1, Writing(Definite)), 2 := Worker(1, Submitting)], 1, {});
    } else {
      ops := LinkedOnce();
      w := Scene(SECOND, Linked, map[1 := Worker(1, Writing(Definite)), 2 := Worker(1, Acking)], 1, {});
    }
    WrittenOffAgain(ops, w, j, s);
  }

  lemma WrittenOffAgain(ops: seq<Op>, w: World, j: JobState, s: MessageState)
    requires Run(EMPTY, ops, w) && AboutToWriteOff(w, 1, 1, j, s) && Harmful(j, s) && w.standing[1] > 0
    ensures CanSendTwice(After(w, WriteMessage(1)), 1)
  {
    RunSafe(EMPTY, ops, w);
    SentTwiceIff(w, WriteMessage(1), 1);
  }
}
