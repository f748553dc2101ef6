/** Replies, places and passes of one wedding (packages/persistence/src/guests.ts, passes.ts, index.ts and
    recovery.ts): a counter, a reservation table, replies and passes that must stay in step. */
module Rsvp {
  import opened Options
  import opened Seqs

  type Id = nat

  datatype State = Pending | Confirmed | Declined | Waitlisted

  datatype Policy = PassesDisabled | PassesAutomatic | PassesByOwner

  /** `details` stands for the title, venue and time zone printed on a pass. */
  datatype Event = Event(
    capacity: Option<nat>, confirmed: int, manual: bool, policy: Policy, cutoff: Option<int>,
    startsAt: Option<int>, admissionStartsAt: Option<int>, admissionEndsAt: Option<int>, details: Id, version: nat)

  datatype Attendee = Attendee(party: Id, plusOneOf: Option<Id>, name: string, deleted: bool, version: nat)

  datatype Key = Key(attendee: Id, event: Id)

  datatype Reply = Reply(state: State, version: nat)

  datatype Status = Active | Used | Revoked | Expired

  datatype Pass = Pass(key: Key, status: Status, version: nat)

  /** The tables; admissions are found by their pass. */
  datatype Tables = Tables(
    events: map<Id, Event>,
    attendees: map<Id, Attendee>,
    eligible: set<Key>,
    replies: map<Key, Reply>,
    reserved: set<Key>,
    passes: map<Id, Pass>,
    admissions: map<Id, Key>)

  datatype Response = Response(attendee: Id, attending: bool, name: string, expectedVersion: nat, attendeeVersion: nat)

  datatype Refusal =
    | NotFound | RsvpClosed | PartyAllocation | VersionConflict | AlreadyAdmitted | NameRequired
    | CapacityFull | CapacityConflict | WindowLocked | AdmittedGuest | AdmittedName | StructureConflict
    | AnsweredInvitation | NoAdmission | PassesOff | NotConfirmed | LineageExists | StateConflict | RecoveryHold

  // ---------- the invariant ----------

  function Reserved(reserved: set<Key>, event: Id): set<Id> {
    set k | k in reserved && k.event == event :: k.attendee
  }

  predicate WithinCapacity(e: Event, count: int) {
    e.capacity.Some? ==> count <= e.capacity.value
  }

  /** The counter of an event equals its reservations and respects its capacity. */
  predicate CounterKept(db: Tables, e: Id)
    requires e in db.events
  {
    db.events[e].confirmed == |Reserved(db.reserved, e)| && WithinCapacity(db.events[e], db.events[e].confirmed)
  }

  /** A reply is confirmed exactly when its place is reserved. */
  predicate ConfirmedIffReserved(db: Tables, k: Key) {
    k in db.reserved <==> k in db.replies && db.replies[k].state == Confirmed
  }

  ghost predicate PlacesKept(db: Tables) {
    && (forall e :: e in db.events ==> CounterKept(db, e))
    && (forall k :: k in db.reserved || k in db.replies ==> ConfirmedIffReserved(db, k))
    && db.replies.Keys <= db.eligible
    && (forall k :: k in db.eligible ==> k.event in db.events && k.attendee in db.attendees)
  }

  /** Who may hold an active pass. */
  predicate Entitled(db: Tables, k: Key) {
    && k.attendee in db.attendees && !db.attendees[k.attendee].deleted
    && k in db.replies && db.replies[k].state == Confirmed && k in db.reserved
    && k.event in db.events && db.events[k.event].policy != PassesDisabled
  }

  /** Active passes belong to entitled attendees, no attendee has two passes for an event, and a pass is
      used exactly when it has its admission. */
  ghost predicate PassesKept(db: Tables) {
    && (forall p :: p in db.passes && db.passes[p].status == Active ==> Entitled(db, db.passes[p].key))
    && (forall p :: p in db.passes ==> db.passes[p].key in db.replies)
    && (forall p, q :: p in db.passes && q in db.passes && db.passes[p].key == db.passes[q].key ==> p == q)
    && (forall p :: p in db.admissions ==> p in db.passes && db.passes[p].status == Used && db.admissions[p] == db.passes[p].key)
    && (forall p :: p in db.passes && db.passes[p].status == Used ==> p in db.admissions)
  }

  ghost predicate Kept(db: Tables) {
    PlacesKept(db) && PassesKept(db)
  }

  predicate AdmittedAt(db: Tables, k: Key) {
    exists p :: p in db.admissions && db.admissions[p] == k
  }

  predicate AdmittedAnywhere(db: Tables, attendee: Id) {
    exists p :: p in db.admissions && db.admissions[p].attendee == attendee
  }

  // ---------- reservations ----------

  lemma ReservedPlus(reserved: set<Key>, k: Key)
    ensures Reserved(reserved + {k}, k.event) == Reserved(reserved, k.event) + {k.attendee}
    ensures forall e :: e != k.event ==> Reserved(reserved + {k}, e) == Reserved(reserved, e)
    ensures k in reserved <==> k.attendee in Reserved(reserved, k.event)
  {
    var more := reserved + {k};
    forall a ensures a in Reserved(more, k.event) <==> a in Reserved(reserved, k.event) + {k.attendee} {
      assert Key(a, k.event) in more <==> a in Reserved(more, k.event);
      assert Key(a, k.event) in reserved <==> a in Reserved(reserved, k.event);
    }
    forall e | e != k.event ensures Reserved(more, e) == Reserved(reserved, e) {
      forall a ensures a in Reserved(more, e) <==> a in Reserved(reserved, e) {
        assert Key(a, e) in more <==> a in Reserved(more, e);
        assert Key(a, e) in reserved <==> a in Reserved(reserved, e);
      }
    }
    assert Key(k.attendee, k.event) == k;
  }

  lemma ReservedMinus(reserved: set<Key>, k: Key)
    ensures Reserved(reserved - {k}, k.event) == Reserved(reserved, k.event) - {k.attendee}
    ensures forall e :: e != k.event ==> Reserved(reserved - {k}, e) == Reserved(reserved, e)
    ensures k in reserved <==> k.attendee in Reserved(reserved, k.event)
  {
    var fewer := reserved - {k};
    ReservedPlus(fewer, k);
    if k in reserved {
      assert fewer + {k} == reserved;
      assert k !in fewer;
    } else {
      assert fewer == reserved;
    }
    assert Key(k.attendee, k.event) == k;
  }

  // ---------- passes ----------

  /** The active ones among `ids` take a new status and a higher version. */
  function Retired(passes: map<Id, Pass>, ids: set<Id>, status: Status, bump: nat): map<Id, Pass> {
    map p | p in passes :: if p in ids && passes[p].status == Active
                           then passes[p].(status := status, version := passes[p].version + bump) else passes[p]
  }

  function PassesFor(passes: map<Id, Pass>, keys: set<Key>): set<Id> {
    set p | p in passes && passes[p].key in keys
  }

  function PassesOf(passes: map<Id, Pass>, attendees: set<Id>): set<Id> {
    set p | p in passes && passes[p].key.attendee in attendees
  }

  function PassesAt(passes: map<Id, Pass>, event: Id): set<Id> {
    set p | p in passes && passes[p].key.event == event
  }

  // ---------- what a submission means ----------

  predicate OneEach(responses: seq<Response>) {
    forall i, j :: 0 <= i < j < |responses| ==> responses[i].attendee != responses[j].attendee
  }

  /** The responses by attendee. */
  function Answers(responses: seq<Response>): map<Id, Response> {
    if responses == [] then map[]
    else Answers(responses[..|responses| - 1])[responses[|responses| - 1].attendee := responses[|responses| - 1]]
  }

  function Attending(m: map<Id, Response>): set<Id> {
    set a | a in m && m[a].attending
  }

  function Declining(m: map<Id, Response>): set<Id> {
    set a | a in m && !m[a].attending
  }

  /** One answer, after those before it. */
  function Seated(before: set<Id>, e: Event, r: Response): set<Id> {
    if r.attending && r.attendee !in before && !e.manual && WithinCapacity(e, |before| + 1) then before + {r.attendee} else before
  }

  /** Who has a place after the responses are answered in order, `start` being those left after every decline. */
  function Placed(start: set<Id>, e: Event, responses: seq<Response>): set<Id> {
    if responses == [] then start
    else Seated(Placed(start, e, responses[..|responses| - 1]), e, responses[|responses| - 1])
  }

  function Start(db: Tables, event: Id, m: map<Id, Response>): set<Id> {
    Reserved(db.reserved, event) - Declining(m)
  }

  function Answer(e: Event, placed: set<Id>, r: Response): State {
    if !r.attending then Declined else if r.attendee in placed then Confirmed else if e.manual then Pending else Waitlisted
  }

  function VersionOf(db: Tables, k: Key): nat {
    if k in db.replies then db.replies[k].version else 0
  }

  /** The live attendees of a household who are invited to the event. */
  function Party(db: Tables, party: Id, event: Id): set<Id> {
    set k | k in db.eligible && k.event == event && k.attendee in db.attendees
            && !db.attendees[k.attendee].deleted && db.attendees[k.attendee].party == party :: k.attendee
  }

  /** What is wrong with one response, in the order it is checked. */
  function ResponseRefusal(db: Tables, event: Id, r: Response): Option<Refusal>
    requires r.attendee in db.attendees
  {
    var attendee := db.attendees[r.attendee];
    if VersionOf(db, Key(r.attendee, event)) != r.expectedVersion || attendee.version != r.attendeeVersion then Some(VersionConflict)
    else if AdmittedAnywhere(db, r.attendee) && (r.name != attendee.name || (!r.attending && AdmittedAt(db, Key(r.attendee, event))))
    then Some(AlreadyAdmitted)
    else if r.attending && r.name == "" then Some(NameRequired)
    else None
  }

  function FirstRefusal(db: Tables, event: Id, responses: seq<Response>): Option<Refusal>
    requires forall i :: 0 <= i < |responses| ==> responses[i].attendee in db.attendees
  {
    if responses == [] then None
    else
      var earlier := FirstRefusal(db, event, responses[..|responses| - 1]);
      if earlier.Some? then earlier else ResponseRefusal(db, event, responses[|responses| - 1])
  }

  /** Exactly the household's attendees answer, each once. */
  ghost predicate Allocated(db: Tables, party: Id, event: Id, responses: seq<Response>) {
    OneEach(responses) && Answers(responses).Keys == Party(db, party, event)
  }

  ghost function SubmitRefusal(db: Tables, party: Id, event: Id, responses: seq<Response>, now: int): Option<Refusal> {
    if event !in db.events then Some(NotFound)
    else if db.events[event].cutoff.Some? && db.events[event].cutoff.value <= now then Some(RsvpClosed)
    else if Party(db, party, event) == {} then Some(NotFound)
    else if !Allocated(db, party, event, responses) then Some(PartyAllocation)
    else
      AnswersExact(responses);
      FirstRefusal(db, event, responses)
  }

  lemma {:induction false} AnswersExact(responses: seq<Response>)
    ensures forall i :: 0 <= i < |responses| ==> responses[i].attendee in Answers(responses)
    ensures OneEach(responses) ==> forall i :: 0 <= i < |responses| ==> Answers(responses)[responses[i].attendee] == responses[i]
    ensures forall a :: a in Answers(responses) ==> Answers(responses)[a] in responses && Answers(responses)[a].attendee == a
  {
    if responses != [] {
      AnswersExact(responses[..|responses| - 1]);
      assert forall i :: 0 <= i < |responses| - 1 ==> responses[..|responses| - 1][i] == responses[i];
    }
  }

  predicate Renames(attendees: map<Id, Attendee>, r: Response) {
    r.attendee in attendees && r.name != "" && r.name != attendees[r.attendee].name
  }

  function Renaming(attendees: map<Id, Attendee>, m: map<Id, Response>): set<Id> {
    set a | a in m && Renames(attendees, m[a])
  }

  function KeysAt(attendees: set<Id>, event: Id): (keys: set<Key>)
    ensures forall k :: k in keys <==> k.event == event && k.attendee in attendees
  {
    set a | a in attendees :: Key(a, event)
  }

  function RepliesWith(db: Tables, event: Id, e: Event, placed: set<Id>, m: map<Id, Response>): map<Key, Reply> {
    map k | k in db.replies.Keys + KeysAt(m.Keys, event) ::
      if k.event == event && k.attendee in m then Reply(Answer(e, placed, m[k.attendee]), VersionOf(db, k) + 1) else db.replies[k]
  }

  function Renamed(attendees: map<Id, Attendee>, m: map<Id, Response>): map<Id, Attendee> {
    map a | a in attendees ::
      if a in m && Renames(attendees, m[a]) then attendees[a].(name := m[a].name, version := attendees[a].version + 1) else attendees[a]
  }

  /** Declined passes are withdrawn, and the passes of renamed attendees printed again. */
  function PassesWith(db: Tables, event: Id, m: map<Id, Response>): map<Id, Pass> {
    Retired(Retired(db.passes, PassesFor(db.passes, KeysAt(Declining(m), event)), Revoked, 1),
            PassesOf(db.passes, Renaming(db.attendees, m)), Active, 1)
  }

  /** Everything an accepted submission changes, and that it changes nothing else. */
  ghost predicate Submitted(db: Tables, event: Id, responses: seq<Response>, v: Tables)
    requires event in db.events
  {
    var e, m := db.events[event], Answers(responses);
    var placed := Placed(Start(db, event, m), e, responses);
    && v == Tables(db.events[event := e.(confirmed := |placed|)], Renamed(db.attendees, m), db.eligible,
                   RepliesWith(db, event, e, placed, m), v.reserved, PassesWith(db, event, m), db.admissions)
    && Reserved(v.reserved, event) == placed
    && forall k: Key :: k.event != event ==> (k in v.reserved <==> k in db.reserved)
  }

  // ---------- order cannot manufacture capacity ----------

  function Min(a: int, b: int): int { if a < b then a else b }

  /** How many new confirmations a submission brings, from the answers as a set. */
  function NewPlaces(start: set<Id>, e: Event, attending: set<Id>): nat
    requires WithinCapacity(e, |start|)
  {
    if e.manual then 0
    else if e.capacity.None? then |attending - start|
    else Min(|attending - start|, e.capacity.value - |start|)
  }

  lemma SeatedCount(start: set<Id>, e: Event, attending: set<Id>, before: set<Id>, r: Response)
    requires WithinCapacity(e, |start|) && start <= before <= start + attending && r.attendee !in attending
    requires |before| == |start| + NewPlaces(start, e, attending)
    ensures var more, after := attending + (if r.attending then {r.attendee} else {}), Seated(before, e, r);
            && start <= after <= start + more && |after| == |start| + NewPlaces(start, e, more)
  {
    if r.attending && r.attendee !in start {
      assert (attending + {r.attendee}) - start == (attending - start) + {r.attendee};
    } else if r.attending {
      assert (attending + {r.attendee}) - start == attending - start;
    } else {
      assert attending + {} == attending;
    }
  }

  lemma AnswersSnoc(responses: seq<Response>)
    requires responses != [] && OneEach(responses)
    ensures var r, front := responses[|responses| - 1], responses[..|responses| - 1];
            && Attending(Answers(responses)) == Attending(Answers(front)) + (if r.attending then {r.attendee} else {})
            && r.attendee !in Attending(Answers(front)) && OneEach(front)
  {
    AnswersExact(responses[..|responses| - 1]);
  }

  /** New confirmations are the smaller of the unreserved attending answers and the places left after
      every decline; nobody reserved who answers attending loses the place. */
  lemma {:induction false} PlacedCount(start: set<Id>, e: Event, responses: seq<Response>)
    requires OneEach(responses) && WithinCapacity(e, |start|)
    ensures var placed, attending := Placed(start, e, responses), Attending(Answers(responses));
            && start <= placed <= start + attending
            && |placed| == |start| + NewPlaces(start, e, attending) && WithinCapacity(e, |placed|)
  {
    hide Attending, OneEach, Seated, Answers;
    if responses == [] {
      assert Attending(Answers(responses)) == {} by { NobodyAttends(); }
      assert Attending(Answers(responses)) - start == {};
    } else {
      var front := responses[..|responses| - 1];
      AnswersSnoc(responses);
      PlacedCount(start, e, front);
      SeatedCount(start, e, Attending(Answers(front)), Placed(start, e, front), responses[|responses| - 1]);
    }
    assert WithinCapacity(e, |start| + NewPlaces(start, e, Attending(Answers(responses))));
  }

  lemma NobodyAttends()
    ensures Attending(Answers([])) == {}
  {
  }

  function AnsweredAs(e: Event, placed: set<Id>, m: map<Id, Response>, state: State): set<Id> {
    set a | a in m && Answer(e, placed, m[a]) == state
  }

  /** The answers by state, told from who attends, who declines and who is placed. */
  lemma AnswersByState(e: Event, placed: set<Id>, m: map<Id, Response>)
    requires forall a :: a in m ==> m[a].attendee == a
    ensures AnsweredAs(e, placed, m, Confirmed) == Attending(m) * placed
    ensures AnsweredAs(e, placed, m, Declined) == Declining(m)
    ensures AnsweredAs(e, placed, m, if e.manual then Pending else Waitlisted) == Attending(m) - placed
    ensures AnsweredAs(e, placed, m, if e.manual then Waitlisted else Pending) == {}
  {
  }

  function Count(start: set<Id>, e: Event, m: map<Id, Response>, state: State): int
    requires WithinCapacity(e, |start|)
  {
    var confirmed := |start| + NewPlaces(start, e, Attending(m)) - |start - Attending(m)|;
    match state
    case Confirmed => confirmed
    case Declined => |Declining(m)|
    case Pending => if e.manual then |Attending(m)| - confirmed else 0
    case Waitlisted => if e.manual then 0 else |Attending(m)| - confirmed
  }

  /** How many answers end in a state follows from the answers as a set: for an automatic event
      everyone attending is confirmed as far as the places left after every decline go. */
  lemma CountOfAnswers(start: set<Id>, e: Event, responses: seq<Response>, state: State)
    requires OneEach(responses) && WithinCapacity(e, |start|)
    ensures |AnsweredAs(e, Placed(start, e, responses), Answers(responses), state)| == Count(start, e, Answers(responses), state)
  {
    var m, placed := Answers(responses), Placed(start, e, responses);
    var attending := Attending(m);
    PlacedCount(start, e, responses);
    AnswersExact(responses);
    AnswersByState(e, placed, m);
    hide AnsweredAs, Answers, Attending, Declining, Placed, NewPlaces, OneEach;
    assert placed == (start - attending) + (attending * placed);
    assert attending == (attending * placed) + (attending - placed);
  }

  lemma SameAnswers(a: seq<Response>, b: seq<Response>)
    requires OneEach(a) && OneEach(b) && multiset(a) == multiset(b)
    ensures Answers(a) == Answers(b)
  {
    AnswersExact(a);
    AnswersExact(b);
    forall r ensures r in a <==> r in b {
      assert r in multiset(a) <==> r in multiset(b);
    }
    forall x ensures x in Answers(a) <==> x in Answers(b) {
    }
  }

  /** Whatever order the same answers come in, the numbers confirmed, waitlisted, pending and declined
      are the same, and nobody who had a place and answers attending loses it. */
  lemma OrderCannotMatter(start: set<Id>, e: Event, a: seq<Response>, b: seq<Response>, state: State)
    requires OneEach(a) && OneEach(b) && multiset(a) == multiset(b) && WithinCapacity(e, |start|)
    ensures |AnsweredAs(e, Placed(start, e, a), Answers(a), state)| == |AnsweredAs(e, Placed(start, e, b), Answers(b), state)|
    ensures forall r :: r in a && r.attending && r.attendee in start ==>
              Answer(e, Placed(start, e, a), r) == Answer(e, Placed(start, e, b), r) == Confirmed
  {
    SameAnswers(a, b);
    CountOfAnswers(start, e, a, state);
    CountOfAnswers(start, e, b, state);
    PlacedCount(start, e, a);
    PlacedCount(start, e, b);
    hide AnsweredAs, Answers, Attending, Placed, NewPlaces, OneEach, Count;
  }

  // ---------- a submission keeps the invariant ----------

  lemma ReservedIff(reserved: set<Key>, k: Key)
    ensures k in reserved <==> k.attendee in Reserved(reserved, k.event)
  {
    assert Key(k.attendee, k.event) == k;
  }

  lemma SameReserved(a: set<Key>, b: set<Key>, event: Id)
    requires forall k: Key :: k.event == event ==> (k in a <==> k in b)
    ensures Reserved(a, event) == Reserved(b, event)
  {
  }

  lemma StartWithin(db: Tables, event: Id, m: map<Id, Response>)
    requires PlacesKept(db) && event in db.events
    ensures WithinCapacity(db.events[event], |Start(db, event, m)|)
  {
    SubsetCardinality(Start(db, event, m), Reserved(db.reserved, event));
  }

  lemma AnsweredKey(db: Tables, event: Id, m: map<Id, Response>, placed: set<Id>, k: Key)
    requires ConfirmedIffReserved(db, k) && k.event == event && event in db.events
    requires forall a :: a in m ==> m[a].attendee == a
    requires Start(db, event, m) <= placed <= Start(db, event, m) + Attending(m)
    ensures var replies := RepliesWith(db, event, db.events[event], placed, m);
            k.attendee in placed <==> k in replies && replies[k].state == Confirmed
  {
    ReservedIff(db.reserved, k);
    hide Reserved;
  }

  lemma UnansweredKey(db: Tables, event: Id, m: map<Id, Response>, placed: set<Id>, k: Key)
    requires k.event != event && event in db.events
    ensures var replies := RepliesWith(db, event, db.events[event], placed, m);
            && (k in replies <==> k in db.replies) && (k in replies ==> replies[k] == db.replies[k])
  {
  }

  /** A key is confirmed exactly when it is reserved, whether it was answered or not. */
  lemma SubmittedReply(db: Tables, event: Id, responses: seq<Response>, v: Tables, k: Key)
    requires PlacesKept(db) && event in db.events && OneEach(responses) && Submitted(db, event, responses, v)
    ensures ConfirmedIffReserved(v, k)
  {
    var m := Answers(responses);
    var placed := Placed(Start(db, event, m), db.events[event], responses);
    assert ConfirmedIffReserved(db, k);
    StartWithin(db, event, m);
    hide PlacesKept;
    PlacedCount(Start(db, event, m), db.events[event], responses);
    AnswersExact(responses);
    hide Placed, NewPlaces, Reserved, Answers, PassesWith, Renamed, OneEach, RepliesWith, Attending, Start;
    if k.event == event {
      AnsweredKey(db, event, m, placed, k);
      ReservedIff(v.reserved, k);
    } else {
      UnansweredKey(db, event, m, placed, k);
    }
  }

  lemma SubmittedCounter(db: Tables, event: Id, responses: seq<Response>, v: Tables, f: Id)
    requires PlacesKept(db) && event in db.events && OneEach(responses) && Submitted(db, event, responses, v) && f in v.events
    ensures CounterKept(v, f)
  {
    var m := Answers(responses);
    assert f in db.events && CounterKept(db, f);
    StartWithin(db, event, m);
    hide PlacesKept;
    PlacedCount(Start(db, event, m), db.events[event], responses);
    hide Placed, NewPlaces, Answers, PassesWith, Renamed, OneEach, RepliesWith, Attending, Start;
    if f != event {
      SameReserved(v.reserved, db.reserved, f);
    }
  }

  lemma SubmittedPlaces(db: Tables, event: Id, responses: seq<Response>, v: Tables)
    requires PlacesKept(db) && event in db.events && OneEach(responses) && Submitted(db, event, responses, v)
    requires forall a :: a in Answers(responses) ==> Key(a, event) in db.eligible
    ensures PlacesKept(v)
  {
    hide Placed, NewPlaces, Answer, Answers, PassesWith, OneEach, Reserved, Attending, Start, WithinCapacity, ConfirmedIffReserved, CounterKept, Renamed;
    forall k ensures ConfirmedIffReserved(v, k) {
      SubmittedReply(db, event, responses, v, k);
    }
    forall f | f in v.events ensures CounterKept(v, f) {
      SubmittedCounter(db, event, responses, v, f);
    }
    assert v.replies.Keys <= v.eligible by {
      assert v.replies.Keys == db.replies.Keys + KeysAt(Answers(responses).Keys, event);
    }
    assert v.attendees.Keys == db.attendees.Keys by { RenamedKeys(db.attendees, Answers(responses)); }
  }

  lemma RenamedKeys(attendees: map<Id, Attendee>, m: map<Id, Response>)
    ensures Renamed(attendees, m).Keys == attendees.Keys
    ensures forall a :: a in attendees ==> Renamed(attendees, m)[a].deleted == attendees[a].deleted
  {
  }

  /** A pass still active after a submission belongs to someone who keeps the place. */
  lemma SubmittedEntitled(db: Tables, event: Id, responses: seq<Response>, v: Tables, p: Id)
    requires Kept(db) && PlacesKept(v) && event in db.events && OneEach(responses) && Submitted(db, event, responses, v)
    requires p in v.passes && v.passes[p].status == Active
    ensures Entitled(v, v.passes[p].key)
  {
    var m, k := Answers(responses), db.passes[p].key;
    assert v.passes[p].key == k && db.passes[p].status == Active && (k.event == event ==> k.attendee !in Declining(m));
    assert Entitled(db, k);
    assert k in v.reserved ==> k in v.replies && v.replies[k].state == Confirmed;
    StartWithin(db, event, m);
    hide PlacesKept, PassesKept, PassesWith;
    PlacedCount(Start(db, event, m), db.events[event], responses);
    RenamedKeys(db.attendees, m);
    hide Placed, NewPlaces, Answers, Renamed, OneEach, RepliesWith, Attending, Declining, Reserved;
    ReservedIff(v.reserved, k);
    ReservedIff(db.reserved, k);
  }

  lemma RetiredLineage(passes: map<Id, Pass>, ids: set<Id>, status: Status, bump: nat)
    requires status != Used
    ensures var v := Retired(passes, ids, status, bump);
            v.Keys == passes.Keys && forall p :: p in v ==> v[p].key == passes[p].key && (v[p].status == Used <==> passes[p].status == Used)
  {
  }

  /** The same passes for the same seats, and the same ones used. */
  ghost predicate SameLineage(a: map<Id, Pass>, b: map<Id, Pass>) {
    a.Keys == b.Keys && forall p :: p in a ==> a[p].key == b[p].key && (a[p].status == Used <==> b[p].status == Used)
  }

  lemma LineageKept(db: Tables, v: Tables)
    requires PassesKept(db) && SameLineage(db.passes, v.passes) && v.admissions == db.admissions
    requires db.replies.Keys <= v.replies.Keys
    requires forall p :: p in v.passes && v.passes[p].status == Active ==> Entitled(v, v.passes[p].key)
    ensures PassesKept(v)
  {
    hide Entitled;
  }

  lemma SubmittedPasses(db: Tables, event: Id, responses: seq<Response>, v: Tables)
    requires Kept(db) && PlacesKept(v) && event in db.events && OneEach(responses) && Submitted(db, event, responses, v)
    ensures PassesKept(v)
  {
    hide PlacesKept, PassesKept, Placed, NewPlaces, Answers, Renamed, OneEach, Entitled, Retired, Reserved, Declining;
    forall p | p in v.passes && v.passes[p].status == Active ensures Entitled(v, v.passes[p].key) {
      SubmittedEntitled(db, event, responses, v, p);
    }
    var m := Answers(responses);
    var withdrawn := Retired(db.passes, PassesFor(db.passes, KeysAt(Declining(m), event)), Revoked, 1);
    RetiredLineage(db.passes, PassesFor(db.passes, KeysAt(Declining(m), event)), Revoked, 1);
    RetiredLineage(withdrawn, PassesOf(db.passes, Renaming(db.attendees, m)), Active, 1);
    LineageKept(db, v);
  }

  lemma SubmittedKeeps(db: Tables, party: Id, event: Id, responses: seq<Response>, now: int, v: Tables)
    requires Kept(db) && SubmitRefusal(db, party, event, responses, now).None? && Submitted(db, event, responses, v)
    ensures Kept(v)
  {
    assert forall a :: a in Party(db, party, event) ==> Key(a, event) in db.eligible;
    hide PlacesKept, PassesKept, Submitted, FirstRefusal;
    SubmittedPlaces(db, event, responses, v);
    SubmittedPasses(db, event, responses, v);
  }
}
