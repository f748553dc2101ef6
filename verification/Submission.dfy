/** What a submission of replies means, row by row: which ones are accepted, why one is refused, and
    everything an accepted one changes (packages/persistence/src/guests.ts, `submit`). */
module Submission {
  import opened Options
  import opened Seqs
  import opened Rsvp

  // ---------- when it is accepted ----------

  predicate Open(db: Tables, event: Id, now: int) {
    event in db.events && (db.events[event].cutoff.Some? ==> now < db.events[event].cutoff.value)
  }

  predicate Member(db: Tables, party: Id, event: Id, a: Id) {
    a in db.attendees && !db.attendees[a].deleted && db.attendees[a].party == party && Key(a, event) in db.eligible
  }

  /** The live invited attendees of the household answer, each once, and nobody else. */
  ghost predicate Complete(db: Tables, party: Id, event: Id, responses: seq<Response>) {
    && (forall i, j :: 0 <= i < j < |responses| ==> responses[i].attendee != responses[j].attendee)
    && (forall i :: 0 <= i < |responses| ==> Member(db, party, event, responses[i].attendee))
    && (forall a :: Member(db, party, event, a) ==> exists i :: 0 <= i < |responses| && responses[i].attendee == a)
  }

  /** The page showed the reply and the attendee as they are now. */
  predicate Current(db: Tables, event: Id, r: Response) {
    && r.expectedVersion == (if Key(r.attendee, event) in db.replies then db.replies[Key(r.attendee, event)].version else 0)
    && r.attendee in db.attendees && r.attendeeVersion == db.attendees[r.attendee].version
  }

  /** Whoever was admitted anywhere keeps the name, whoever was admitted to this event attends it. */
  predicate Honours(db: Tables, event: Id, r: Response) {
    && r.attendee in db.attendees
    && (forall p :: p in db.admissions && db.admissions[p].attendee == r.attendee ==> r.name == db.attendees[r.attendee].name)
    && (forall p :: p in db.admissions && db.admissions[p].attendee == r.attendee && db.admissions[p].event == event ==> r.attending)
  }

  predicate Named(r: Response) {
    r.attending ==> r.name != ""
  }

  predicate Good(db: Tables, event: Id, r: Response) {
    Current(db, event, r) && Honours(db, event, r) && Named(r)
  }

  /** The response that is found wanting first. */
  ghost predicate FirstBad(db: Tables, event: Id, responses: seq<Response>, i: int) {
    0 <= i < |responses| && !Good(db, event, responses[i]) && forall j :: 0 <= j < i ==> Good(db, event, responses[j])
  }

  /** The verdict on a list of responses is the reason why the first bad one is bad. */
  ghost predicate Judged(db: Tables, event: Id, responses: seq<Response>, refusal: Option<Refusal>) {
    && (refusal.None? <==> forall i :: 0 <= i < |responses| ==> Good(db, event, responses[i]))
    && (refusal.Some? ==> exists i :: FirstBad(db, event, responses, i) && refusal == Some(Reason(db, event, responses[i])))
  }

  /** Why a bad response is bad. */
  function Reason(db: Tables, event: Id, r: Response): Refusal {
    if !Current(db, event, r) then VersionConflict else if !Honours(db, event, r) then AlreadyAdmitted else NameRequired
  }

  ghost predicate Refused(db: Tables, party: Id, event: Id, responses: seq<Response>, now: int, refusal: Refusal) {
    var answerable := Open(db, event, now) && (exists a :: Member(db, party, event, a)) && Complete(db, party, event, responses);
    match refusal
    case NotFound => event !in db.events || (Open(db, event, now) && forall a :: !Member(db, party, event, a))
    case RsvpClosed => event in db.events && !Open(db, event, now)
    case PartyAllocation => Open(db, event, now) && (exists a :: Member(db, party, event, a)) && !Complete(db, party, event, responses)
    case VersionConflict => answerable && exists i :: FirstBad(db, event, responses, i) && !Current(db, event, responses[i])
    case AlreadyAdmitted =>
      answerable && exists i :: FirstBad(db, event, responses, i) && Current(db, event, responses[i]) && !Honours(db, event, responses[i])
    case NameRequired =>
      answerable && exists i :: FirstBad(db, event, responses, i) && Current(db, event, responses[i]) && Honours(db, event, responses[i])
    case _ => false
  }

  lemma PartyMembers(db: Tables, party: Id, event: Id)
    ensures forall a :: a in Party(db, party, event) <==> Member(db, party, event, a)
  {
    forall a ensures a in Party(db, party, event) <==> Member(db, party, event, a) {
      assert Key(a, event) in db.eligible <==> exists k :: k in db.eligible && k == Key(a, event);
    }
  }

  lemma AllocatedComplete(db: Tables, party: Id, event: Id, responses: seq<Response>)
    ensures Allocated(db, party, event, responses) <==> Complete(db, party, event, responses)
  {
    PartyMembers(db, party, event);
    AnswersExact(responses);
    hide Party, Member;
    forall a ensures a in Answers(responses) <==> exists i :: 0 <= i < |responses| && responses[i].attendee == a {
      if a in Answers(responses) {
        var i :| 0 <= i < |responses| && responses[i] == Answers(responses)[a];
      }
    }
    hide Answers;
    if Complete(db, party, event, responses) {
      assert forall a :: a in Answers(responses) <==> a in Party(db, party, event);
    }
  }

  lemma ResponseMeans(db: Tables, event: Id, r: Response)
    requires r.attendee in db.attendees
    ensures var refusal := ResponseRefusal(db, event, r);
      && (refusal.None? <==> Good(db, event, r))
      && (refusal == Some(VersionConflict) <==> !Current(db, event, r))
      && (refusal == Some(AlreadyAdmitted) <==> Current(db, event, r) && !Honours(db, event, r))
      && (refusal == Some(NameRequired) <==> Current(db, event, r) && Honours(db, event, r) && !Named(r))
  {
    assert forall p | p in db.admissions && db.admissions[p].attendee == r.attendee && db.admissions[p].event == event :: db.admissions[p] == Key(r.attendee, event);
    assert AdmittedAt(db, Key(r.attendee, event)) ==> AdmittedAnywhere(db, r.attendee);
  }

  /** The refusal of a list of responses is that of the first bad one. */
  lemma {:induction false} FirstRefusalMeans(db: Tables, event: Id, responses: seq<Response>)
    requires forall i :: 0 <= i < |responses| ==> responses[i].attendee in db.attendees
    ensures FirstRefusal(db, event, responses).None? ==> forall i :: 0 <= i < |responses| ==> Good(db, event, responses[i])
    ensures FirstRefusal(db, event, responses).Some? ==>
      exists i :: FirstBad(db, event, responses, i) && ResponseRefusal(db, event, responses[i]) == FirstRefusal(db, event, responses)
  {
    if responses != [] {
      var last := |responses| - 1;
      var front := responses[..last];
      assert forall i :: 0 <= i < last ==> front[i] == responses[i];
      FirstRefusalMeans(db, event, front);
      ResponseMeans(db, event, responses[last]);
      hide Good, ResponseRefusal;
      if FirstRefusal(db, event, front).Some? {
        var i :| FirstBad(db, event, front, i) && ResponseRefusal(db, event, front[i]) == FirstRefusal(db, event, front);
        assert FirstBad(db, event, responses, i);
      } else if ResponseRefusal(db, event, responses[last]).Some? {
        assert FirstBad(db, event, responses, last);
      }
    }
  }

  lemma FirstRefusalJudges(db: Tables, event: Id, responses: seq<Response>)
    requires forall i :: 0 <= i < |responses| ==> responses[i].attendee in db.attendees
    ensures Judged(db, event, responses, FirstRefusal(db, event, responses))
  {
    FirstRefusalMeans(db, event, responses);
    hide FirstRefusal;
    var refusal := FirstRefusal(db, event, responses);
    if refusal.Some? {
      var i :| FirstBad(db, event, responses, i) && ResponseRefusal(db, event, responses[i]) == refusal;
      ResponseMeans(db, event, responses[i]);
      hide Good, Current, Honours, Named, ResponseRefusal;
      BadReason(db, event, responses[i]);
    }
  }

  lemma OneFirstBad(db: Tables, event: Id, responses: seq<Response>, i: int, j: int)
    requires FirstBad(db, event, responses, i) && FirstBad(db, event, responses, j)
    ensures i == j
  {
  }

  /** A submission is accepted exactly if the event is open, its household complete and every response good;
      each refusal has its own condition. */
  lemma SubmitRefusalMeans(db: Tables, party: Id, event: Id, responses: seq<Response>, now: int)
    ensures SubmitRefusal(db, party, event, responses, now).None? <==>
      && Open(db, event, now) && (exists a :: Member(db, party, event, a)) && Complete(db, party, event, responses)
      && forall i :: 0 <= i < |responses| ==> Good(db, event, responses[i])
    ensures forall x :: SubmitRefusal(db, party, event, responses, now) == Some(x) <==> Refused(db, party, event, responses, now, x)
  {
    PartyMembers(db, party, event);
    AllocatedComplete(db, party, event, responses);
    hide Party, Allocated;
    assert Party(db, party, event) == {} <==> forall a :: !Member(db, party, event, a);
    if Open(db, event, now) && Party(db, party, event) != {} && Complete(db, party, event, responses) {
      MembersKnown(db, party, event, responses);
      FirstRefusalMeans(db, event, responses);
      hide Complete, FirstRefusal, Member, Good, Current, Honours, Named, FirstBad;
      AnsweredRefusal(db, party, event, responses, now);
    } else {
      hide Complete, Member, FirstRefusal;
    }
  }

  lemma MembersKnown(db: Tables, party: Id, event: Id, responses: seq<Response>)
    requires Complete(db, party, event, responses)
    ensures forall i :: 0 <= i < |responses| ==> responses[i].attendee in db.attendees
  {
  }

  lemma AnsweredRefusal(db: Tables, party: Id, event: Id, responses: seq<Response>, now: int)
    requires Open(db, event, now) && (exists a :: Member(db, party, event, a)) && Complete(db, party, event, responses)
    requires forall i :: 0 <= i < |responses| ==> responses[i].attendee in db.attendees
    ensures FirstRefusal(db, event, responses).None? <==> forall i :: 0 <= i < |responses| ==> Good(db, event, responses[i])
    ensures forall x :: FirstRefusal(db, event, responses) == Some(x) <==> Refused(db, party, event, responses, now, x)
  {
    FirstRefusalMeans(db, event, responses);
    hide Complete, Member, FirstRefusal;
    if FirstRefusal(db, event, responses).Some? {
      var i :| FirstBad(db, event, responses, i) && ResponseRefusal(db, event, responses[i]) == FirstRefusal(db, event, responses);
      ResponseMeans(db, event, responses[i]);
      hide Good, Current, Honours, Named, ResponseRefusal;
      forall j | FirstBad(db, event, responses, j) ensures j == i {
        OneFirstBad(db, event, responses, i, j);
      }
      BadReason(db, event, responses[i]);
    }
  }

  lemma BadReason(db: Tables, event: Id, r: Response)
    ensures !Good(db, event, r) <==> !Current(db, event, r) || !Honours(db, event, r) || !Named(r)
  {
  }

  // ---------- what it changes ----------

  /** Who has a place afterwards: those who decline lose it, those who had it keep it, and others get it in
      the order of the responses, as long as there is room and nobody has to approve. */
  ghost predicate PlacesGiven(db: Tables, event: Id, responses: seq<Response>, v: Tables)
    requires event in db.events
  {
    var e := db.events[event];
    && (forall k: Key :: k.event != event ==> (k in v.reserved <==> k in db.reserved))
    && (forall a :: (forall r :: r in responses ==> r.attendee != a) ==> (Key(a, event) in v.reserved <==> Key(a, event) in db.reserved))
    && (forall r :: r in responses && !r.attending ==> Key(r.attendee, event) !in v.reserved)
    && (forall r :: r in responses && r.attending && Key(r.attendee, event) in db.reserved ==> Key(r.attendee, event) in v.reserved)
    && (forall r :: r in responses && r.attending && Key(r.attendee, event) !in db.reserved && e.manual ==> Key(r.attendee, event) !in v.reserved)
    && (forall r :: r in responses && r.attending && !e.manual && Key(r.attendee, event) !in v.reserved ==>
          e.capacity.Some? && e.capacity.value <= |Holders(v, event)|)
    && (forall i, j | 0 <= i < j < |responses| && responses[i].attending && Key(responses[j].attendee, event) in v.reserved
                      && Key(responses[j].attendee, event) !in db.reserved :: Key(responses[i].attendee, event) in v.reserved)
    && (e.capacity.Some? ==> |Holders(v, event)| <= e.capacity.value)
  }

  function Holders(db: Tables, event: Id): set<Id> {
    set k | k in db.reserved && k.event == event :: k.attendee
  }

  /** A response is recorded with what became of it. */
  predicate ReplyFollows(db: Tables, event: Id, r: Response, v: Tables)
    requires event in db.events
  {
    var k := Key(r.attendee, event);
    && k in v.replies && v.replies[k].version == (if k in db.replies then db.replies[k].version else 0) + 1
    && v.replies[k].state == if !r.attending then Declined else if k in v.reserved then Confirmed
                             else if db.events[event].manual then Pending else Waitlisted
  }

  /** Each response is recorded, and no other reply changes. */
  ghost predicate RepliesRecorded(db: Tables, event: Id, responses: seq<Response>, v: Tables)
    requires event in db.events
  {
    && (forall k :: k in v.replies <==> k in db.replies || (k.event == event && exists r :: r in responses && r.attendee == k.attendee))
    && (forall k :: k in v.replies && (k.event != event || forall r :: r in responses ==> r.attendee != k.attendee) ==> v.replies[k] == db.replies[k])
    && (forall r :: r in responses ==> ReplyFollows(db, event, r, v))
  }

  ghost predicate GivesNewName(db: Tables, responses: seq<Response>, a: Id, name: string) {
    exists r :: r in responses && r.attendee == a && r.name == name && name != "" && a in db.attendees && name != db.attendees[a].name
  }

  ghost predicate DeclinesAt(responses: seq<Response>, a: Id) {
    exists r :: r in responses && r.attendee == a && !r.attending
  }

  /** An attendee's row takes the name given, if one is. */
  ghost predicate NameFollows(db: Tables, responses: seq<Response>, a: Id, row: Attendee)
    requires a in db.attendees
  {
    && (forall name :: GivesNewName(db, responses, a, name) ==> row == db.attendees[a].(name := name, version := db.attendees[a].version + 1))
    && ((forall name :: !GivesNewName(db, responses, a, name)) ==> row == db.attendees[a])
  }

  ghost predicate NamesRecorded(db: Tables, responses: seq<Response>, v: Tables) {
    v.attendees.Keys == db.attendees.Keys && forall a :: a in v.attendees ==> NameFollows(db, responses, a, v.attendees[a])
  }

  /** The active pass of a place declined is withdrawn, that of someone renamed gets a new version. */
  ghost predicate PassFollows(db: Tables, event: Id, responses: seq<Response>, pass: Pass, after: Pass) {
    after == if pass.status != Active then pass
             else if pass.key.event == event && DeclinesAt(responses, pass.key.attendee) then Pass(pass.key, Revoked, pass.version + 1)
             else if exists name :: GivesNewName(db, responses, pass.key.attendee, name) then pass.(version := pass.version + 1)
             else pass
  }

  ghost predicate PassesFollow(db: Tables, event: Id, responses: seq<Response>, v: Tables) {
    v.passes.Keys == db.passes.Keys && forall p :: p in v.passes ==> PassFollows(db, event, responses, db.passes[p], v.passes[p])
  }

  /** Everything an accepted submission changes. */
  ghost predicate SubmittedRows(db: Tables, event: Id, responses: seq<Response>, v: Tables)
    requires event in db.events
  {
    && v.eligible == db.eligible && v.admissions == db.admissions
    && v.events == db.events[event := db.events[event].(confirmed := |Holders(v, event)|)]
    && PlacesGiven(db, event, responses, v) && RepliesRecorded(db, event, responses, v)
    && NamesRecorded(db, responses, v) && PassesFollow(db, event, responses, v)
  }

  /** Whoever waits while nobody has to approve waits because there is no place left. */
  lemma {:induction false} WaitingMeansFull(start: set<Id>, e: Event, responses: seq<Response>)
    requires OneEach(responses) && WithinCapacity(e, |start|)
    ensures forall i :: 0 <= i < |responses| && responses[i].attending && !e.manual && responses[i].attendee !in Placed(start, e, responses) ==>
      e.capacity.Some? && e.capacity.value <= |Placed(start, e, responses)|
  {
    if responses != [] {
      var last := |responses| - 1;
      var front := responses[..last];
      assert forall i :: 0 <= i < last ==> front[i] == responses[i];
      WaitingMeansFull(start, e, front);
    }
  }

  lemma {:induction false} PlacedAmong(start: set<Id>, e: Event, responses: seq<Response>)
    ensures forall a :: a in Placed(start, e, responses) && a !in start ==> exists i :: 0 <= i < |responses| && responses[i].attendee == a
    ensures start <= Placed(start, e, responses)
  {
    if responses != [] {
      var last := |responses| - 1;
      var front := responses[..last];
      PlacedAmong(start, e, front);
      forall a | a in Placed(start, e, responses) && a !in start ensures exists i :: 0 <= i < |responses| && responses[i].attendee == a {
        if a in Placed(start, e, front) {
          var i :| 0 <= i < last && front[i].attendee == a;
          assert responses[i].attendee == a;
        } else {
          assert responses[last].attendee == a;
        }
      }
    }
  }

  lemma PlacedLast(start: set<Id>, e: Event, responses: seq<Response>)
    requires OneEach(responses) && responses != [] && WithinCapacity(e, |start|)
    ensures var last, before := responses[|responses| - 1], Placed(start, e, responses[..|responses| - 1]);
      && before <= Placed(start, e, responses) <= before + {last.attendee}
      && (last.attendee in Placed(start, e, responses) && last.attendee !in start ==>
            last.attendee !in before && !e.manual && WithinCapacity(e, |before| + 1))
  {
    PlacedAmong(start, e, responses[..|responses| - 1]);
  }

  /** Places are given in the order of the responses. */
  lemma {:induction false} PlacedInTurn(start: set<Id>, e: Event, responses: seq<Response>)
    requires OneEach(responses) && WithinCapacity(e, |start|)
    ensures forall i, j | 0 <= i < j < |responses| && responses[i].attending && responses[j].attendee in Placed(start, e, responses)
                          && responses[j].attendee !in start :: responses[i].attendee in Placed(start, e, responses)
    ensures forall a :: a in Placed(start, e, responses) && a !in start ==> !e.manual
  {
    if responses != [] {
      var last := |responses| - 1;
      var front := responses[..last];
      assert forall i :: 0 <= i < last ==> front[i] == responses[i];
      PlacedInTurn(start, e, front);
      WaitingMeansFull(start, e, front);
      PlacedLast(start, e, responses);
      hide Placed;
      forall i, j | 0 <= i < j < |responses| && responses[i].attending && responses[j].attendee in Placed(start, e, responses) && responses[j].attendee !in start
        ensures responses[i].attendee in Placed(start, e, responses)
      {
        if j < last {
          assert responses[j].attendee != responses[last].attendee && front[j] == responses[j];
        }
        assert front[i] == responses[i];
      }
    }
  }

  lemma AnswersAre(responses: seq<Response>)
    requires OneEach(responses)
    ensures forall r :: r in responses ==> r.attendee in Answers(responses) && Answers(responses)[r.attendee] == r
    ensures forall a :: a in Answers(responses) ==> Answers(responses)[a] in responses && Answers(responses)[a].attendee == a
  {
    AnswersExact(responses);
    forall r | r in responses ensures r.attendee in Answers(responses) && Answers(responses)[r.attendee] == r {
      var i :| 0 <= i < |responses| && responses[i] == r;
    }
  }

  lemma HoldersAre(db: Tables, event: Id)
    ensures Holders(db, event) == Reserved(db.reserved, event)
    ensures forall a :: Key(a, event) in db.reserved <==> a in Holders(db, event)
  {
    forall a ensures Key(a, event) in db.reserved <==> a in Holders(db, event) {
      ReservedIff(db.reserved, Key(a, event));
    }
  }

  lemma StartIs(db: Tables, event: Id, responses: seq<Response>)
    requires OneEach(responses)
    ensures forall a :: a in Start(db, event, Answers(responses)) <==>
      Key(a, event) in db.reserved && forall r :: r in responses && r.attendee == a ==> r.attending
  {
    AnswersAre(responses);
    HoldersAre(db, event);
    hide Answers, Reserved, Holders;
    assert forall a :: a in Declining(Answers(responses)) <==> exists r :: r in responses && r.attendee == a && !r.attending;
  }

  lemma PlacesMean(db: Tables, event: Id, responses: seq<Response>, v: Tables)
    requires PlacesKept(db) && event in db.events && OneEach(responses) && Submitted(db, event, responses, v)
    ensures PlacesGiven(db, event, responses, v) && v.events == db.events[event := db.events[event].(confirmed := |Holders(v, event)|)]
  {
    var m, e := Answers(responses), db.events[event];
    var start := Start(db, event, m);
    StartWithin(db, event, m);
    StartIs(db, event, responses);
    HoldersAre(v, event);
    PlacedCount(start, e, responses);
    PlacedAmong(start, e, responses);
    PlacedInTurn(start, e, responses);
    WaitingMeansFull(start, e, responses);
    AnswersAre(responses);
    var placed := Placed(start, e, responses);
    assert Holders(v, event) == placed && forall a :: Key(a, event) in v.reserved <==> a in placed;
    assert v.events == db.events[event := e.(confirmed := |placed|)];
    assert forall k: Key :: k.event != event ==> (k in v.reserved <==> k in db.reserved);
    hide PlacesKept, Answers, Start, Placed, Submitted, Holders, OneEach;
    PlacesMeanFor(db, event, responses, v, start, placed);
  }

  lemma PlacesMeanFor(db: Tables, event: Id, responses: seq<Response>, v: Tables, start: set<Id>, placed: set<Id>)
    requires event in db.events && Holders(v, event) == placed && start <= placed
    requires forall a :: Key(a, event) in v.reserved <==> a in placed
    requires forall k: Key :: k.event != event ==> (k in v.reserved <==> k in db.reserved)
    requires forall a :: a in start <==> Key(a, event) in db.reserved && forall r :: r in responses && r.attendee == a ==> r.attending
    requires forall a :: a in placed && a !in start ==> exists i :: 0 <= i < |responses| && responses[i].attendee == a
    requires forall a :: a in placed && a !in start ==> a in Attending(Answers(responses)) && !db.events[event].manual
    requires forall r :: r in responses ==> r.attendee in Answers(responses) && Answers(responses)[r.attendee] == r
    requires forall i, j | 0 <= i < j < |responses| && responses[i].attending && responses[j].attendee in placed
                           && responses[j].attendee !in start :: responses[i].attendee in placed
    requires forall i :: 0 <= i < |responses| && responses[i].attending && !db.events[event].manual && responses[i].attendee !in placed ==>
      db.events[event].capacity.Some? && db.events[event].capacity.value <= |placed|
    requires WithinCapacity(db.events[event], |placed|)
    ensures PlacesGiven(db, event, responses, v)
  {
    hide Answers, Holders;
    forall r | r in responses && !r.attending ensures r.attendee !in placed {
      assert r.attendee !in start && r.attendee !in Attending(Answers(responses));
    }
    forall r | r in responses && r.attending && Key(r.attendee, event) in db.reserved ensures r.attendee in placed {
      assert Answers(responses)[r.attendee] == r;
    }
  }

  lemma SubmittedParts(db: Tables, event: Id, responses: seq<Response>, v: Tables)
    requires event in db.events && Submitted(db, event, responses, v)
    ensures var m := Answers(responses);
      && v.replies == RepliesWith(db, event, db.events[event], Reserved(v.reserved, event), m)
      && v.attendees == Renamed(db.attendees, m) && v.passes == PassesWith(db, event, m)
      && v.eligible == db.eligible && v.admissions == db.admissions
  {
  }

  lemma AnswersHave(responses: seq<Response>)
    requires OneEach(responses)
    ensures forall a :: a in Answers(responses) <==> exists r :: r in responses && r.attendee == a
    ensures forall a :: a in Declining(Answers(responses)) <==> DeclinesAt(responses, a)
  {
    AnswersAre(responses);
    hide Answers, OneEach;
  }

  lemma RenamingIs(db: Tables, responses: seq<Response>)
    requires OneEach(responses)
    ensures forall a :: a in Answers(responses) && Renames(db.attendees, Answers(responses)[a]) ==>
      GivesNewName(db, responses, a, Answers(responses)[a].name)
    ensures forall a, name :: GivesNewName(db, responses, a, name) ==>
      a in Answers(responses) && Renames(db.attendees, Answers(responses)[a]) && name == Answers(responses)[a].name
    ensures forall a :: a in Renaming(db.attendees, Answers(responses)) <==> exists name :: GivesNewName(db, responses, a, name)
  {
    AnswersAre(responses);
    hide Answers, OneEach;
    forall a ensures a in Renaming(db.attendees, Answers(responses)) <==> exists name :: GivesNewName(db, responses, a, name) {
      if a in Renaming(db.attendees, Answers(responses)) {
        assert GivesNewName(db, responses, a, Answers(responses)[a].name);
      }
    }
  }

  lemma OneReply(db: Tables, event: Id, responses: seq<Response>, v: Tables, r: Response)
    requires event in db.events && r in responses && r.attendee in Answers(responses) && Answers(responses)[r.attendee] == r
    requires v.replies == RepliesWith(db, event, db.events[event], Reserved(v.reserved, event), Answers(responses))
    ensures ReplyFollows(db, event, r, v)
  {
    ReservedIff(v.reserved, Key(r.attendee, event));
    hide Answers, Reserved;
    assert Key(r.attendee, event) in KeysAt(Answers(responses).Keys, event);
  }

  lemma OtherReply(db: Tables, event: Id, responses: seq<Response>, v: Tables, k: Key)
    requires event in db.events && v.replies == RepliesWith(db, event, db.events[event], Reserved(v.reserved, event), Answers(responses))
    ensures k in v.replies <==> k in db.replies || (k.event == event && k.attendee in Answers(responses))
    ensures k in v.replies && !(k.event == event && k.attendee in Answers(responses)) ==> v.replies[k] == db.replies[k]
  {
    hide Answers, Reserved;
  }

  lemma OtherReplies(db: Tables, event: Id, responses: seq<Response>, v: Tables)
    requires event in db.events && OneEach(responses)
    requires v.replies == RepliesWith(db, event, db.events[event], Reserved(v.reserved, event), Answers(responses))
    ensures forall k :: k in v.replies <==> k in db.replies || (k.event == event && exists r :: r in responses && r.attendee == k.attendee)
    ensures forall k :: k in v.replies && (k.event != event || forall r :: r in responses ==> r.attendee != k.attendee) ==> v.replies[k] == db.replies[k]
  {
    AnswersHave(responses);
    hide Answers, Reserved, OneEach, RepliesWith, DeclinesAt, Declining;
    forall k ensures (k in v.replies <==> k in db.replies || (k.event == event && k.attendee in Answers(responses)))
      && (k in v.replies && !(k.event == event && k.attendee in Answers(responses)) ==> v.replies[k] == db.replies[k]) {
      OtherReply(db, event, responses, v, k);
    }
  }

  lemma RepliesMean(db: Tables, event: Id, responses: seq<Response>, v: Tables)
    requires event in db.events && OneEach(responses)
    requires v.replies == RepliesWith(db, event, db.events[event], Reserved(v.reserved, event), Answers(responses))
    ensures RepliesRecorded(db, event, responses, v)
  {
    OtherReplies(db, event, responses, v);
    AnswersAre(responses);
    hide Answers, Reserved, OneEach, RepliesWith, ReplyFollows;
    forall r | r in responses ensures ReplyFollows(db, event, r, v) {
      OneReply(db, event, responses, v, r);
    }
  }

  lemma OneName(db: Tables, m: map<Id, Response>, a: Id)
    requires a in db.attendees
    ensures a in Renamed(db.attendees, m)
    ensures Renamed(db.attendees, m)[a] ==
      if a in Renaming(db.attendees, m) then db.attendees[a].(name := m[a].name, version := db.attendees[a].version + 1) else db.attendees[a]
  {
  }

  lemma OneNameMeans(db: Tables, responses: seq<Response>, a: Id)
    requires OneEach(responses) && a in db.attendees
    ensures a in Renamed(db.attendees, Answers(responses)) && NameFollows(db, responses, a, Renamed(db.attendees, Answers(responses))[a])
  {
    RenamingIs(db, responses);
    OneName(db, Answers(responses), a);
    hide Answers, OneEach, GivesNewName, Renaming, Renamed, Renames;
  }

  lemma NamesMean(db: Tables, responses: seq<Response>, v: Tables)
    requires OneEach(responses) && v.attendees == Renamed(db.attendees, Answers(responses))
    ensures NamesRecorded(db, responses, v)
  {
    assert v.attendees.Keys == db.attendees.Keys;
    hide Answers, OneEach, NameFollows, Renamed;
    forall a | a in v.attendees ensures NameFollows(db, responses, a, v.attendees[a]) {
      OneNameMeans(db, responses, a);
    }
  }

  lemma OnePass(db: Tables, event: Id, m: map<Id, Response>, p: Id)
    requires p in db.passes
    ensures var pass := db.passes[p];
      && p in PassesWith(db, event, m)
      && PassesWith(db, event, m)[p] == if pass.status != Active then pass
                      else if pass.key.event == event && pass.key.attendee in Declining(m) then Pass(pass.key, Revoked, pass.version + 1)
                      else if pass.key.attendee in Renaming(db.attendees, m) then pass.(version := pass.version + 1)
                      else pass
  {
    hide Declining, Renaming;
    var declined, renamed := PassesFor(db.passes, KeysAt(Declining(m), event)), PassesOf(db.passes, Renaming(db.attendees, m));
    assert p in declined <==> db.passes[p].key.event == event && db.passes[p].key.attendee in Declining(m);
    assert p in renamed <==> db.passes[p].key.attendee in Renaming(db.attendees, m);
    hide PassesFor, PassesOf, KeysAt;
  }

  lemma OnePassMeans(db: Tables, event: Id, responses: seq<Response>, p: Id)
    requires OneEach(responses) && p in db.passes
    ensures var after := PassesWith(db, event, Answers(responses)); p in after && PassFollows(db, event, responses, db.passes[p], after[p])
  {
    AnswersHave(responses);
    RenamingIs(db, responses);
    hide Answers, OneEach, GivesNewName, DeclinesAt, Declining, Renaming, Renames, PassesWith;
    OnePass(db, event, Answers(responses), p);
  }

  lemma PassesMean(db: Tables, event: Id, responses: seq<Response>, v: Tables)
    requires OneEach(responses) && v.passes == PassesWith(db, event, Answers(responses))
    ensures PassesFollow(db, event, responses, v)
  {
    assert v.passes.Keys == db.passes.Keys;
    hide Answers, OneEach, PassFollows, PassesWith;
    forall p | p in v.passes ensures PassFollows(db, event, responses, db.passes[p], v.passes[p]) {
      OnePassMeans(db, event, responses, p);
    }
  }

  /** An accepted submission changes its rows as it says, and no other row. */
  lemma SubmittedMeans(db: Tables, event: Id, responses: seq<Response>, v: Tables)
    requires PlacesKept(db) && event in db.events && OneEach(responses) && Submitted(db, event, responses, v)
    ensures SubmittedRows(db, event, responses, v)
  {
    PlacesMean(db, event, responses, v);
    SubmittedParts(db, event, responses, v);
    hide PlacesKept, PlacesGiven, RepliesRecorded, NamesRecorded, PassesFollow, Holders, OneEach, Submitted, Answers, RepliesWith, Renamed, PassesWith, Reserved;
    RepliesMean(db, event, responses, v);
    NamesMean(db, responses, v);
    PassesMean(db, event, responses, v);
  }
}
