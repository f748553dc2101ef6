/** One wedding's tables as an object: every operation keeps replies, places and passes in step, and a
    refused one changes nothing. */
module Wedding {
  import opened Options
  import opened Seqs
  import opened Rsvp
  import opened RsvpService
  import S = Submission
  import C = Changes

  // ---------- submitting, step by step ----------

  /** The allocation test: as many responses as members, as many different attendees, nobody else. */
  lemma AllocationTest(responses: seq<Response>, members: set<Id>)
    ensures (|responses| == |members| && |NamedIn(responses)| == |members| && NamedIn(responses) <= members)
            <==> OneEach(responses) && Answers(responses).Keys == members
  {
    AnswersExact(responses);
    var named := seq(|responses|, i requires 0 <= i < |responses| => responses[i].attendee);
    assert NamedIn(responses) == Elements(named) by {
      forall a ensures a in NamedIn(responses) <==> a in Elements(named) {
        if a in Elements(named) {
          var i :| 0 <= i < |named| && named[i] == a;
          assert responses[i] in responses;
        }
        if a in NamedIn(responses) {
          var r :| r in responses && r.attendee == a;
          var i :| 0 <= i < |responses| && responses[i] == r;
          assert named[i] == a;
        }
      }
    }
    assert NamedIn(responses) == Answers(responses).Keys by {
      forall r | r in responses ensures r.attendee in Answers(responses) {
        var i :| 0 <= i < |responses| && responses[i] == r;
      }
    }
    assert Distinct(named) <==> OneEach(responses) by {
      assert forall i :: 0 <= i < |responses| ==> named[i] == responses[i].attendee;
    }
    CardinalityDistinct(named);
    if Distinct(named) {
      DistinctCardinality(named);
    }
    if NamedIn(responses) <= members {
      SubsetCardinality(NamedIn(responses), members);
    }
  }

  function NamedIn(responses: seq<Response>): set<Id> {
    set r | r in responses :: r.attendee
  }

  lemma AnswersNext(responses: seq<Response>, i: nat)
    requires i < |responses| && OneEach(responses)
    ensures Answers(responses[..i + 1]) == Answers(responses[..i])[responses[i].attendee := responses[i]]
    ensures responses[i].attendee !in Answers(responses[..i])
    ensures forall a :: a in Answers(responses[..i]) ==> Answers(responses[..i])[a].attendee == a
    ensures OneEach(responses[..i])
  {
    assert responses[..i + 1][..i] == responses[..i];
    AnswersExact(responses[..i]);
  }

  /** Releasing one decline more. */
  lemma DeclineNext(db: Tables, event: Id, m: map<Id, Response>, r: Response, reserved: set<Key>)
    requires Reserved(reserved, event) == Start(db, event, m) && r.attendee !in m
    requires forall k: Key :: k.event != event ==> (k in reserved <==> k in db.reserved)
    ensures var after := if r.attending then reserved else reserved - {Key(r.attendee, event)};
            && Reserved(after, event) == Start(db, event, m[r.attendee := r])
            && forall k: Key :: k.event != event ==> (k in after <==> k in db.reserved)
  {
    assert Declining(m[r.attendee := r]) == Declining(m) + (if r.attending then {} else {r.attendee});
    ReservedMinus(reserved, Key(r.attendee, event));
  }

  lemma WithdrawNext(db: Tables, event: Id, m: map<Id, Response>, r: Response)
    requires r.attendee !in m
    ensures var before := Retired(db.passes, PassesFor(db.passes, KeysAt(Declining(m), event)), Revoked, 1);
            Retired(db.passes, PassesFor(db.passes, KeysAt(Declining(m[r.attendee := r]), event)), Revoked, 1)
            == if r.attending then before else Retired(before, PassesFor(before, {Key(r.attendee, event)}), Revoked, 1)
  {
    assert Declining(m[r.attendee := r]) == Declining(m) + (if r.attending then {} else {r.attendee});
  }

  lemma SeatNext(reserved: set<Key>, event: Id, e: Event, r: Response)
    ensures var k, before := Key(r.attendee, event), Reserved(reserved, event);
            && (k in reserved <==> r.attendee in before)
            && Reserved(if r.attendee in Seated(before, e, r) then reserved + {k} else reserved, event) == Seated(before, e, r)
  {
    ReservedPlus(reserved, Key(r.attendee, event));
  }

  lemma RepliesNext(db: Tables, event: Id, e: Event, before: set<Id>, m: map<Id, Response>, r: Response)
    requires r.attendee !in m && forall a :: a in m ==> m[a].attendee == a
    ensures var after, k := Seated(before, e, r), Key(r.attendee, event);
            RepliesWith(db, event, e, before, m)[k := Reply(Answer(e, after, r), VersionOf(db, k) + 1)]
            == RepliesWith(db, event, e, after, m[r.attendee := r])
  {
    var k := Key(r.attendee, event);
    var left := RepliesWith(db, event, e, before, m)[k := Reply(Answer(e, Seated(before, e, r), r), VersionOf(db, k) + 1)];
    var right := RepliesWith(db, event, e, Seated(before, e, r), m[r.attendee := r]);
    forall j ensures j in left <==> j in right {
      assert j == k || (j in left <==> j in db.replies || j in KeysAt(m.Keys, event));
    }
    forall j | j in right ensures left[j] == right[j] {
    }
  }

  lemma RenameNext(attendees: map<Id, Attendee>, m: map<Id, Response>, r: Response)
    requires r.attendee !in m && r.attendee in attendees
    ensures Renamed(attendees, m[r.attendee := r])
            == if Renames(attendees, r)
               then Renamed(attendees, m)[r.attendee := attendees[r.attendee].(name := r.name, version := attendees[r.attendee].version + 1)]
               else Renamed(attendees, m)
    ensures Renaming(attendees, m[r.attendee := r]) == Renaming(attendees, m) + (if Renames(attendees, r) then {r.attendee} else {})
    ensures r.attendee !in Renaming(attendees, m)
  {
  }

  lemma ReprintNext(base: map<Id, Pass>, lineage: map<Id, Pass>, named: set<Id>, a: Id)
    requires base.Keys == lineage.Keys && forall p :: p in base ==> base[p].key == lineage[p].key
    requires a !in named
    ensures var before := Retired(base, PassesOf(lineage, named), Active, 1);
            Retired(base, PassesOf(lineage, named + {a}), Active, 1) == Retired(before, PassesOf(before, {a}), Active, 1)
  {
  }

  /** When a guest may be saved: events that exist, a guest (not a plus one) of that version, the same name
      once admitted, and the same household, invitations and plus ones once any of them has answered, who
      all answered within those invitations. */
  predicate Savable(db: Tables, a: Id, version: nat, name: string, party: Option<Id>, events: set<Id>, plusOnes: nat, slots: seq<Id>) {
    && events <= db.events.Keys
    && a in db.attendees && !db.attendees[a].deleted && db.attendees[a].plusOneOf.None? && db.attendees[a].version == version
    && (AdmittedAnywhere(db, a) ==> name == db.attendees[a].name)
    && AnswersStand(db, a, party, events, plusOnes, slots)
  }

  predicate AnswersStand(db: Tables, a: Id, party: Option<Id>, events: set<Id>, plusOnes: nat, slots: seq<Id>)
    requires a in db.attendees
  {
    forall k :: k in db.replies && (k.attendee == a || k.attendee in slots) ==>
      k.event in events && plusOnes == |slots| && events == InvitedTo(db, a) && (party.None? || party.value == db.attendees[a].party)
  }

  lemma RepliesKnown(db: Tables)
    requires Kept(db)
    ensures forall k :: k in db.replies ==> k.attendee in db.attendees
  {
  }

  class Tenant {
    var db: Tables

    constructor ()
      ensures Kept(db) && db == Tables(map[], map[], {}, map[], {}, map[], map[])
    {
      db := Tables(map[], map[], {}, map[], {}, map[], map[]);
    }

    method CheckResponse(event: Id, r: Response) returns (refusal: Option<Refusal>)
      requires r.attendee in db.attendees
      ensures refusal == ResponseRefusal(db, event, r)
    {
      var version, attendee := if Key(r.attendee, event) in db.replies then db.replies[Key(r.attendee, event)].version else 0, db.attendees[r.attendee];
      if version != r.expectedVersion || attendee.version != r.attendeeVersion {
        return Some(VersionConflict);
      }
      var admittedTo := set p | p in db.admissions && db.admissions[p].attendee == r.attendee :: db.admissions[p].event;
      assert admittedTo != {} <==> AdmittedAnywhere(db, r.attendee) by {
        if AdmittedAnywhere(db, r.attendee) {
          var p :| p in db.admissions && db.admissions[p].attendee == r.attendee;
          assert db.admissions[p].event in admittedTo;
        }
      }
      assert event in admittedTo <==> AdmittedAt(db, Key(r.attendee, event)) by {
        if event in admittedTo {
          var p :| p in db.admissions && db.admissions[p].attendee == r.attendee && db.admissions[p].event == event;
          assert db.admissions[p] == Key(r.attendee, event);
        }
      }
      if admittedTo != {} && (r.name != attendee.name || (!r.attending && event in admittedTo)) {
        return Some(AlreadyAdmitted);
      }
      if r.attending && r.name == "" {
        return Some(NameRequired);
      }
      refusal := None;
    }

    /** `submit`: every decline is released before any place is allocated, and nothing is written
        unless every response is acceptable. */
    method Submit(party: Id, event: Id, responses: seq<Response>, now: int) returns (refusal: Option<Refusal>)
      requires Kept(db)
      modifies this
      ensures Kept(db)
      ensures refusal == SubmitRefusal(old(db), party, event, responses, now)
      ensures refusal.None? <==>
        && S.Open(old(db), event, now) && (exists a :: S.Member(old(db), party, event, a)) && S.Complete(old(db), party, event, responses)
        && forall i :: 0 <= i < |responses| ==> S.Good(old(db), event, responses[i])
      ensures forall x :: refusal == Some(x) <==> S.Refused(old(db), party, event, responses, now, x)
      ensures refusal.Some? ==> db == old(db)
      ensures refusal.None? ==> event in old(db).events && Submitted(old(db), event, responses, db) && S.SubmittedRows(old(db), event, responses, db)
    {
      S.SubmitRefusalMeans(db, party, event, responses, now);
      hide S.Open, S.Member, S.Complete, S.Good, S.Refused, S.SubmittedRows;
      hide PlacesKept, PassesKept, Placed, RepliesWith, Renamed, PassesWith, Retired, Reserved, Start, FirstRefusal, Party, PassesFor, KeysAt, Declining;
      if event !in db.events {
        return Some(NotFound);
      }
      var e := db.events[event];
      if e.cutoff.Some? && e.cutoff.value <= now {
        return Some(RsvpClosed);
      }
      var members := Party(db, party, event);
      if members == {} {
        return Some(NotFound);
      }
      AllocationTest(responses, members);
      if |responses| != |members| || |NamedIn(responses)| != |members| || !(NamedIn(responses) <= members) {
        return Some(PartyAllocation);
      }
      AnswersExact(responses);
      PartyKnown(db, party, event);
      var withdrawn, reserved, count;
      refusal, reserved, count, withdrawn := ReleaseDeclines(event, responses);
      if refusal.Some? {
        return;
      }
      var work := Allocate(event, responses, reserved, count, withdrawn);
      ghost var before := db;
      db := Tables(db.events[event := e.(confirmed := work.count)], work.attendees, db.eligible, work.replies, work.reserved,
                   work.passes, db.admissions);
      assert work.passes == PassesWith(before, event, Answers(responses)) by { PassesWorked(before, event, responses, withdrawn); }
      SubmittedKeeps(before, party, event, responses, now, db);
      S.SubmittedMeans(before, event, responses, db);
    }

    /** The first pass over the responses. */
    method ReleaseDeclines(event: Id, responses: seq<Response>)
      returns (refusal: Option<Refusal>, reserved: set<Key>, count: int, passes: map<Id, Pass>)
      requires PlacesKept(db) && event in db.events && OneEach(responses)
      requires forall i :: 0 <= i < |responses| ==> responses[i].attendee in db.attendees
      ensures refusal == FirstRefusal(db, event, responses)
      ensures S.Judged(db, event, responses, refusal)
      ensures refusal.None? ==>
        && Reserved(reserved, event) == Start(db, event, Answers(responses)) && count == |Reserved(reserved, event)|
        && (forall k: Key :: k.event != event ==> (k in reserved <==> k in db.reserved))
        && passes == Retired(db.passes, PassesFor(db.passes, KeysAt(Declining(Answers(responses)), event)), Revoked, 1)
    {
      S.FirstRefusalJudges(db, event, responses);
      hide Retired, Reserved, PassesFor, KeysAt, Declining, ResponseRefusal, Start, Answers, S.Judged, OneEach, FirstRefusal;
      reserved, count, passes := db.reserved, db.events[event].confirmed, db.passes;
      var i := 0;
      NothingDeclined(db, event);
      NothingRefused(db, event);
      assert CounterKept(db, event);
      while i < |responses|
        invariant 0 <= i <= |responses|
        invariant FirstRefusal(db, event, responses[..i]).None?
        invariant Reserved(reserved, event) == Start(db, event, Answers(responses[..i])) && count == |Reserved(reserved, event)|
        invariant forall k: Key :: k.event != event ==> (k in reserved <==> k in db.reserved)
        invariant passes == Retired(db.passes, PassesFor(db.passes, KeysAt(Declining(Answers(responses[..i])), event)), Revoked, 1)
      {
        var r := responses[i];
        RefusalNext(db, event, responses, i);
        refusal := CheckResponse(event, r);
        if refusal.Some? {
          RefusalStays(db, event, responses, i + 1);
          return;
        }
        AnswersNext(responses, i);
        DeclineNext(db, event, Answers(responses[..i]), r, reserved);
        WithdrawNext(db, event, Answers(responses[..i]), r);
        if !r.attending {
          reserved, count, passes := ReleaseOne(Key(r.attendee, event), reserved, count, passes);
        }
        i := i + 1;
      }
      assert responses[..i] == responses;
      refusal := None;
    }

    static method ReleaseOne(k: Key, reserved: set<Key>, count: int, passes: map<Id, Pass>) returns (left: set<Key>, fewer: int, withdrawn: map<Id, Pass>)
      requires count == |Reserved(reserved, k.event)|
      ensures left == reserved - {k} && fewer == |Reserved(left, k.event)|
      ensures withdrawn == Retired(passes, PassesFor(passes, {k}), Revoked, 1)
    {
      ReservedMinus(reserved, k);
      left, fewer := reserved, count;
      if k in reserved {
        left, fewer := reserved - {k}, count - 1;
      } else {
        assert reserved - {k} == reserved;
      }
      withdrawn := Retired(passes, PassesFor(passes, {k}), Revoked, 1);
    }

    /** The second pass over the responses. */
    method Allocate(event: Id, responses: seq<Response>, released: set<Key>, left: int, withdrawn: map<Id, Pass>)
      returns (work: Work)
      requires event in db.events && OneEach(responses)
      requires forall i :: 0 <= i < |responses| ==> responses[i].attendee in db.attendees
      requires Reserved(released, event) == Start(db, event, Answers(responses)) && left == |Reserved(released, event)|
      requires withdrawn == Retired(db.passes, PassesFor(db.passes, KeysAt(Declining(Answers(responses)), event)), Revoked, 1)
      ensures Worked(db, event, responses, Start(db, event, Answers(responses)), released, withdrawn, work)
    {
      hide Worked, Retired, Reserved, PassesFor, KeysAt, Declining, Start, Answers, PassesOf, OneEach, Placed, RepliesWith, Renamed, Renaming;
      var e := db.events[event];
      ghost var start := Start(db, event, Answers(responses));
      RetiredLineage(db.passes, PassesFor(db.passes, KeysAt(Declining(Answers(responses)), event)), Revoked, 1);
      work := Work(released, left, db.replies, db.attendees, withdrawn);
      WorkBegins(db, event, start, released, withdrawn, work);
      var i := 0;
      while i < |responses|
        invariant 0 <= i <= |responses|
        invariant Worked(db, event, responses[..i], start, released, withdrawn, work)
      {
        ghost var before := work;
        var r := responses[i];
        var k := Key(r.attendee, event);
        var state := Declined;
        if r.attending {
          if k in work.reserved {
            state := Confirmed;
          } else if e.manual {
            state := Pending;
          } else if e.capacity.Some? && e.capacity.value <= work.count {
            state := Waitlisted;
          } else {
            work := work.(reserved := work.reserved + {k}, count := work.count + 1);
            state := Confirmed;
          }
        }
        work := work.(replies := work.replies[k := Reply(state, (if k in db.replies then db.replies[k].version else 0) + 1)]);
        if r.name != "" && r.name != db.attendees[r.attendee].name {
          work := work.(attendees := work.attendees[r.attendee := db.attendees[r.attendee].(name := r.name, version := db.attendees[r.attendee].version + 1)]);
          work := work.(passes := Retired(work.passes, PassesOf(work.passes, {r.attendee}), Active, 1));
        }
        assert work == WorkedOn(db, event, before, r);
        WorkGoesOn(db, event, responses, i, start, released, withdrawn, before);
        i := i + 1;
      }
      assert responses[..i] == responses;
    }

    /** `approve`: a pending or waitlisted answer takes a place, if one is left. */
    method Approve(event: Id, attendee: Id, version: nat) returns (refusal: Option<Refusal>)
      requires Kept(db)
      modifies this
      ensures Kept(db)
      ensures var k := Key(attendee, event);
        && (refusal.None? <==>
             && event in old(db).events && k in old(db).replies && old(db).replies[k].version == version
             && (old(db).replies[k].state == Pending || old(db).replies[k].state == Waitlisted)
             && WithinCapacity(old(db).events[event], old(db).events[event].confirmed + 1))
        && (refusal.None? ==> db == Answered(Place(old(db), k), k, Confirmed))
        && (refusal.Some? ==> db == old(db))
      ensures refusal.None? <==>
        && event in old(db).events && Key(attendee, event) in old(db).replies && old(db).replies[Key(attendee, event)].version == version
        && (old(db).replies[Key(attendee, event)].state == Pending || old(db).replies[Key(attendee, event)].state == Waitlisted)
        && (old(db).events[event].capacity.Some? ==> old(db).events[event].confirmed < old(db).events[event].capacity.value)
      ensures refusal.None? ==> db == old(db).(
        reserved := old(db).reserved + {Key(attendee, event)},
        replies := old(db).replies[Key(attendee, event) := Reply(Confirmed, version + 1)],
        events := old(db).events[event := old(db).events[event].(confirmed := old(db).events[event].confirmed + 1)])
    {
      hide PassesKept, Reserved, Entitled;
      var k := Key(attendee, event);
      if event !in db.events {
        return Some(NotFound);
      }
      if k !in db.replies || (db.replies[k].state != Pending && db.replies[k].state != Waitlisted) || db.replies[k].version != version {
        return Some(VersionConflict);
      }
      var e := db.events[event];
      if e.capacity.Some? && e.capacity.value <= e.confirmed {
        return Some(CapacityFull);
      }
      assert ConfirmedIffReserved(db, k);
      PlaceKeeps(db, k);
      PlacedPasses(db, k);
      db := db.(reserved := db.reserved + {k});
      db := db.(events := db.events[event := e.(confirmed := e.confirmed + 1)]);
      db := db.(replies := db.replies[k := Reply(Confirmed, version + 1)]);
      refusal := None;
    }

    /** `correction` for someone already admitted: the name, or the place, or both. */
    method Correct(attendee: Id, event: Id, name: Option<string>, confirm: Option<bool>) returns (refusal: Option<Refusal>)
      requires Kept(db)
      modifies this
      ensures Kept(db)
      ensures refusal.Some? ==> db == old(db)
      ensures refusal.None? <==>
        && attendee in old(db).attendees && event in old(db).events && AdmittedAt(old(db), Key(attendee, event))
        && (confirm == Some(true) && Key(attendee, event) !in old(db).reserved ==>
              WithinCapacity(old(db).events[event], old(db).events[event].confirmed + 1))
      ensures refusal.None? ==> db == Corrected(old(db), Key(attendee, event), name, confirm)
      ensures refusal.None? <==>
        && attendee in old(db).attendees && event in old(db).events
        && (exists p | p in old(db).admissions :: old(db).admissions[p] == Key(attendee, event))
        && (confirm == Some(true) && Key(attendee, event) !in old(db).reserved && old(db).events[event].capacity.Some? ==>
              old(db).events[event].confirmed < old(db).events[event].capacity.value)
      ensures refusal.None? ==> C.CorrectedRows(old(db), Key(attendee, event), name, confirm, db)
    {
      hide PlacesKept, PassesKept, Reserved, Entitled, Corrected, C.CorrectedRows;
      var k := Key(attendee, event);
      if attendee !in db.attendees || event !in db.events {
        return Some(NotFound);
      }
      var admissions := set p | p in db.admissions && db.admissions[p] == k;
      if admissions == {} {
        assert forall p :: p in admissions <==> p in db.admissions && db.admissions[p] == k;
        return Some(NoAdmission);
      }
      assert AdmittedAt(db, k) by {
        var p :| p in admissions;
        assert db.admissions[p] == k;
      }
      if confirm == Some(true) && k !in db.reserved && db.events[event].capacity.Some? && db.events[event].capacity.value <= db.events[event].confirmed {
        return Some(CapacityFull);
      }
      CorrectedKeeps(db, k, name, confirm);
      CorrectedMeans(db, k, name, confirm);
      WriteCorrection(k, name, confirm);
      refusal := None;
    }

    method WriteCorrection(k: Key, name: Option<string>, confirm: Option<bool>)
      requires k.attendee in db.attendees && k.event in db.events
      modifies this
      ensures db == Corrected(old(db), k, name, confirm)
    {
      if name.Some? && name.value != "" {
        var a := db.attendees[k.attendee];
        db := db.(attendees := db.attendees[k.attendee := a.(name := name.value, version := a.version + 1)]);
      }
      assert db == Corrected(old(db), k, name, None);
      if confirm == Some(false) {
        WithdrawPlace(k);
      } else if confirm == Some(true) {
        GrantPlace(k);
      }
    }

    method WithdrawPlace(k: Key)
      requires k.event in db.events
      modifies this
      ensures db == Answered(Release(old(db), k), k, Declined)
    {
      if k in db.reserved {
        db := db.(reserved := db.reserved - {k}, events := db.events[k.event := db.events[k.event].(confirmed := db.events[k.event].confirmed - 1)]);
      }
      if k in db.replies {
        db := db.(replies := db.replies[k := Reply(Declined, db.replies[k].version + 1)]);
      }
    }

    method GrantPlace(k: Key)
      requires k.event in db.events
      modifies this
      ensures db == Answered(if k in old(db).reserved then old(db) else Place(old(db), k), k, Confirmed)
    {
      if k !in db.reserved {
        db := db.(reserved := db.reserved + {k}, events := db.events[k.event := db.events[k.event].(confirmed := db.events[k.event].confirmed + 1)]);
      }
      if k in db.replies {
        db := db.(replies := db.replies[k := Reply(Confirmed, db.replies[k].version + 1)]);
      }
    }

    /** `remove`: an attendee and every plus one, unless one of them was admitted somewhere. */
    method Remove(attendee: Id, version: nat, related: seq<Id>) returns (refusal: Option<Refusal>)
      requires Kept(db)
      requires forall a :: a in related <==> a in db.attendees && (a == attendee || db.attendees[a].plusOneOf == Some(attendee))
      requires Distinct(related)
      modifies this
      ensures Kept(db)
      ensures refusal.Some? ==> db == old(db)
      ensures refusal.None? <==>
        && attendee in old(db).attendees && !old(db).attendees[attendee].deleted && old(db).attendees[attendee].version == version
        && forall a :: a in related ==> !AdmittedAnywhere(old(db), a)
      ensures refusal.None? ==> db == RowsRemoved(old(db), related, 1) && RemovedRows(old(db), related, 1, db)
    {
      hide Kept, RowRemoved, RemovedRows;
      if attendee !in db.attendees || db.attendees[attendee].deleted {
        return Some(NotFound);
      }
      if db.attendees[attendee].version != version {
        return Some(VersionConflict);
      }
      var work := db;
      var i := 0;
      while i < |related|
        invariant 0 <= i <= |related| && db == old(db)
        invariant forall j :: 0 <= j < i ==> !AdmittedAnywhere(db, related[j])
        invariant work == RowsRemoved(db, related[..i], 1) && work.admissions == db.admissions
      {
        var a := related[i];
        var admissions := set p | p in work.admissions && work.admissions[p].attendee == a;
        if admissions != {} {
          var p :| p in admissions;
          assert AdmittedAnywhere(db, a);
          return Some(AdmittedGuest);
        }
        assert forall p :: p in admissions <==> p in work.admissions && work.admissions[p].attendee == a;
        assert related[..i + 1][..i] == related[..i];
        work := RemoveRow(work, a, 1);
        i := i + 1;
      }
      assert related[..i] == related;
      RowsRemovedClean(db, related, 1);
      RowsRemovedExactly(db, related, 1);
      db := work;
      refusal := None;
    }

    /** One attendee's reservations, one event at a time; a clamped counter never goes below zero. */
    static method CountDown(db: Tables, a: Id, clamped: bool) returns (events: map<Id, Event>)
      requires clamped ==> forall e :: e in db.events && Key(a, e) in db.reserved ==> 0 < db.events[e].confirmed
      ensures events == CountedDown(db, a)
    {
      hide Lowered;
      var left := set e | e in db.events && Key(a, e) in db.reserved;
      ghost var all := left;
      events := db.events;
      while left != {}
        invariant events.Keys == db.events.Keys && left <= all
        invariant forall e :: e in events ==>
          events[e] == if Key(a, e) in db.reserved && e !in left then Lowered(db.events[e]) else db.events[e]
        decreases |left|
      {
        var e :| e in left;
        var lowered := Lower(events[e], clamped);
        events := events[e := lowered];
        left := left - {e};
      }
    }

    static method Lower(e: Event, clamped: bool) returns (v: Event)
      requires clamped ==> 0 < e.confirmed
      ensures v == Lowered(e)
    {
      var next := e.confirmed - 1;
      v := e.(confirmed := if clamped && next < 0 then 0 else next);
    }

    static method RemoveRow(db: Tables, a: Id, bump: nat) returns (v: Tables)
      ensures v == RowRemoved(db, a, bump) && v.admissions == db.admissions
    {
      var events := CountDown(db, a, false);
      var reserved := set k | k in db.reserved && k.attendee != a;
      var replies := map k | k in db.replies :: if k.attendee == a then Reply(Declined, db.replies[k].version + bump) else db.replies[k];
      var passes := Retired(db.passes, PassesOf(db.passes, {a}), Revoked, bump);
      var attendees := db.attendees;
      if a in attendees {
        attendees := attendees[a := attendees[a].(deleted := true, version := attendees[a].version + bump)];
      }
      hide Retired, PassesOf;
      v := Tables(events, attendees, db.eligible, replies, reserved, passes, db.admissions);
    }

    /** The replay of a guest's erasure after a restore. Its counters are clamped at zero, and the clamp
        never matters: what it leaves is exactly a removal. */
    method ReplayErasure(a: Id)
      requires Kept(db)
      modifies this
      ensures Kept(db) && db == RowRemoved(old(db), a, 0) && RemovedRows(old(db), [a], 0, db)
    {
      hide Retired, PlacesKept, PassesKept, PassesOf, RemovedRows;
      RowRemovedKeeps(db, a, 0);
      OneRowRemoved(db, a, 0);
      forall e | e in db.events && Key(a, e) in db.reserved ensures 0 < db.events[e].confirmed {
        ClampNeverFires(db, Key(a, e));
      }
      var events := CountDown(db, a, true);
      var reserved := set k | k in db.reserved && k.attendee != a;
      var attendees := db.attendees;
      if a in attendees {
        attendees := attendees[a := attendees[a].(deleted := true)];
      }
      var replies := map k | k in db.replies :: if k.attendee == a then Reply(Declined, db.replies[k].version) else db.replies[k];
      var passes := Retired(db.passes, PassesOf(db.passes, {a}), Revoked, 0);
      assert Tables(events, attendees, db.eligible, replies, reserved, passes, db.admissions) == RowRemoved(db, a, 0);
      db := Tables(events, attendees, db.eligible, replies, reserved, passes, db.admissions);
    }

    /** `saveEvent` for an event that exists. */
    method SaveEvent(event: Id, i: EventInput, version: nat) returns (refusal: Option<Refusal>)
      requires Kept(db)
      modifies this
      ensures Kept(db)
      ensures refusal.Some? ==> db == old(db)
      ensures refusal.None? <==>
        && event in old(db).events && old(db).events[event].version == version
        && (i.capacity.Some? ==> old(db).events[event].confirmed <= i.capacity.value)
        && !(WindowMoves(old(db).events[event], i) && exists p :: p in old(db).admissions && old(db).admissions[p].event == event)
      ensures refusal.None? ==> db == EventSaved(old(db), event, i)
      ensures refusal.None? <==>
        && event in old(db).events && old(db).events[event].version == version
        && (i.capacity.Some? ==> old(db).events[event].confirmed <= i.capacity.value)
        && ((exists p | p in old(db).admissions :: old(db).admissions[p].event == event) ==>
              && i.policy == old(db).events[event].policy && i.startsAt == old(db).events[event].startsAt
              && i.admissionStartsAt == old(db).events[event].admissionStartsAt && i.admissionEndsAt == old(db).events[event].admissionEndsAt)
      ensures refusal.None? ==> C.EventRow(old(db), event, i, db)
    {
      hide PlacesKept, PassesKept, Retired, C.EventRow;
      if event !in db.events {
        return Some(NotFound);
      }
      var e := db.events[event];
      if e.version != version {
        return Some(VersionConflict);
      }
      if i.capacity.Some? && i.capacity.value < e.confirmed {
        return Some(CapacityConflict);
      }
      var admissions := set p | p in db.admissions && db.admissions[p].event == event;
      if admissions != {} && (e.policy != i.policy || e.startsAt != i.startsAt || e.admissionStartsAt != i.admissionStartsAt
                              || e.admissionEndsAt != i.admissionEndsAt) {
        var p :| p in admissions;
        return Some(WindowLocked);
      }
      assert forall p :: p in admissions <==> p in db.admissions && db.admissions[p].event == event;
      EventSavedKeeps(db, event, i);
      C.EventSavedMeans(db, event, i);
      db := db.(events := db.events[event := Event(i.capacity, e.confirmed, i.manual, i.policy, i.cutoff, i.startsAt,
                                                   i.admissionStartsAt, i.admissionEndsAt, i.details, e.version + 1)]);
      ghost var passes := db.passes;
      if i.policy == PassesDisabled {
        PassesAtStay(db.passes, event);
        db := db.(passes := Retired(db.passes, PassesAt(db.passes, event), Revoked, 1));
      }
      if e.details != i.details || e.startsAt != i.startsAt {
        db := db.(passes := Retired(db.passes, PassesAt(db.passes, event), Active, 1));
      }
      refusal := None;
    }

    method AddEvent(event: Id, i: EventInput)
      requires Kept(db) && event !in db.events
      modifies this
      ensures Kept(db)
      ensures db == old(db).(events := old(db).events[event := Event(i.capacity, 0, i.manual, i.policy, i.cutoff, i.startsAt,
                                                                   i.admissionStartsAt, i.admissionEndsAt, i.details, 1)])
    {
      var e := Event(i.capacity, 0, i.manual, i.policy, i.cutoff, i.startsAt, i.admissionStartsAt, i.admissionEndsAt, i.details, 1);
      EventAddedKeeps(db, event, e);
      db := db.(events := db.events[event := e]);
    }

    /** A new attendee or plus one, invited to some events. */
    method Invite(attendee: Id, party: Id, plusOneOf: Option<Id>, name: string, events: set<Id>) returns (refusal: Option<Refusal>)
      requires Kept(db) && attendee !in db.attendees
      modifies this
      ensures Kept(db)
      ensures refusal.None? <==> events <= old(db).events.Keys
      ensures refusal.Some? ==> db == old(db)
      ensures refusal.None? ==>
        db == old(db).(attendees := old(db).attendees[attendee := Attendee(party, plusOneOf, name, false, 1)],
                       eligible := old(db).eligible + set e | e in events :: Key(attendee, e))
    {
      if !(events <= db.events.Keys) {
        return Some(NotFound);
      }
      ghost var before := db;
      db := db.(attendees := db.attendees[attendee := Attendee(party, plusOneOf, name, false, 1)],
                eligible := db.eligible + set e | e in events :: Key(attendee, e));
      InvitedKeeps(before, attendee, db);
      refusal := None;
    }

    /** The checks of a save, in their order. `slots` lists the live plus ones, `added` the new identifiers. */
    method CheckGuest(a: Id, version: nat, name: string, party: Option<Id>, events: set<Id>, plusOnes: nat, slots: seq<Id>, added: seq<Id>)
      returns (refusal: Option<Refusal>)
      requires Kept(db)
      requires forall x :: x in added ==> x !in db.attendees
      ensures refusal.None? <==> Savable(db, a, version, name, party, events, plusOnes, slots)
    {
      hide Kept;
      if !(events <= db.events.Keys) || a !in db.attendees || db.attendees[a].deleted || db.attendees[a].plusOneOf.Some? {
        return Some(NotFound);
      }
      if db.attendees[a].version != version {
        return Some(VersionConflict);
      }
      var admissions := set p | p in db.admissions && db.admissions[p].attendee == a;
      assert forall p :: p in admissions <==> p in db.admissions && db.admissions[p].attendee == a;
      if admissions != {} && name != db.attendees[a].name {
        return Some(AdmittedName);
      }
      refusal := CheckAnswers(a, party, events, plusOnes, slots, added);
    }

    method CheckAnswers(a: Id, party: Option<Id>, events: set<Id>, plusOnes: nat, slots: seq<Id>, added: seq<Id>)
      returns (refusal: Option<Refusal>)
      requires Kept(db) && a in db.attendees
      requires forall x :: x in added ==> x !in db.attendees
      ensures refusal.None? <==> AnswersStand(db, a, party, events, plusOnes, slots)
    {
      RepliesKnown(db);
      hide Kept, InvitedTo;
      var answered := set k | k in db.replies && (k.attendee == a || k.attendee in slots);
      assert forall k :: k in answered <==> k in db.replies && (k.attendee == a || k.attendee in slots);
      if answered != {} && ((party.Some? && party.value != db.attendees[a].party) || plusOnes != |slots| || InvitedTo(db, a) != events) {
        return Some(StructureConflict);
      }
      var kept := if plusOnes < |slots| then slots[..plusOnes] else slots;
      if exists k :: k in db.replies && k.event !in events && (k.attendee == a || k.attendee in kept || k.attendee in added) {
        return Some(AnsweredInvitation);
      }
      refusal := None;
    }

    /** `saveIn` for an existing attendee. `slots` lists the live plus ones as they were added, `added` the
        new identifiers needed; once anyone of them has answered, the household, the invitations and the
        number of plus ones are fixed, and the database refuses to withdraw an answered invitation. */
    method SaveGuest(a: Id, version: nat, name: string, party: Option<Id>, events: set<Id>, plusOnes: nat, slots: seq<Id>, added: seq<Id>)
      returns (refusal: Option<Refusal>)
      requires Kept(db) && Distinct(slots)
      requires forall x :: x in slots <==> x in db.attendees && !db.attendees[x].deleted && db.attendees[x].plusOneOf == Some(a) && x != a
      requires forall x :: x in added ==> x !in db.attendees
      requires |added| == if |slots| < plusOnes then plusOnes - |slots| else 0
      modifies this
      ensures Kept(db)
      ensures refusal.None? <==> C.MaySave(old(db), a, version, name, party, events, plusOnes, slots)
      ensures refusal.Some? ==> db == old(db)
      ensures refusal.None? ==>
        && a in old(db).attendees
        && var kept := if plusOnes < |slots| then plusOnes else |slots|;
           db == GuestSaved(old(db), a, name, if party.Some? then party.value else old(db).attendees[a].party, events,
                            {a} + Elements(slots[..kept]) + Elements(added), Elements(slots[kept..]))
           && C.GuestRow(old(db), a, name, if party.Some? then party.value else old(db).attendees[a].party, events,
                         Elements(slots[..kept]), Elements(added), Elements(slots[kept..]), db)
    {
      hide C.MaySave, C.GuestRow;
      SavableMeans(db, a, version, name, party, events, plusOnes, slots);
      refusal := CheckGuest(a, version, name, party, events, plusOnes, slots, added);
      if refusal.Some? {
        return;
      }
      RepliesKnown(db);
      hide Kept, Retired, AdmittedAnywhere;
      var kept := if plusOnes < |slots| then plusOnes else |slots|;
      var group := {a} + (set x | x in slots[..kept]) + (set x | x in added);
      var dropped := set x | x in slots[kept..];
      assert group == {a} + Elements(slots[..kept]) + Elements(added) && dropped == Elements(slots[kept..]);
      assert a !in dropped;
      forall k | k in db.replies ensures k.attendee !in dropped && (k.attendee in group ==> k.event in events) {
        assert k.attendee in slots ==> kept == |slots|;
        assert k.attendee in dropped ==> k.attendee in slots;
      }
      var household := if party.Some? then party.value else db.attendees[a].party;
      GuestSavedKeeps(db, a, name, household, events, group, dropped);
      C.GuestSavedMeans(db, a, name, household, events, Elements(slots[..kept]), Elements(added), dropped);
      db := GuestSaved(db, a, name, household, events, group, dropped);
    }

    /** `issueIn`: at most one pass for an attendee and event, ever; an active one is found again. */
    method Issue(attendee: Id, event: Id, newId: Id) returns (refusal: Option<Refusal>, pass: Id)
      requires Kept(db) && newId !in db.passes
      modifies this
      ensures Kept(db)
      ensures var k := Key(attendee, event);
        refusal.None? <==> C.MayHold(old(db), k) && forall p :: p in old(db).passes && old(db).passes[p].key == k ==> old(db).passes[p].status == Active
      ensures refusal.None? ==> pass in db.passes && db.passes[pass].key == Key(attendee, event) && db.passes[pass].status == Active
      ensures refusal.None? ==>
        db == (if pass in old(db).passes then old(db) else old(db).(passes := old(db).passes[newId := Pass(Key(attendee, event), Active, 1)]))
      ensures refusal.Some? ==> db == old(db)
    {
      hide PlacesKept;
      var k := Key(attendee, event);
      C.EntitledMeans(db, k);
      pass := newId;
      if event !in db.events {
        return Some(NotFound), pass;
      }
      if db.events[event].policy == PassesDisabled {
        return Some(PassesOff), pass;
      }
      if attendee !in db.attendees || db.attendees[attendee].deleted || k !in db.replies || db.replies[k].state != Confirmed || k !in db.reserved {
        return Some(NotConfirmed), pass;
      }
      var existing := set p | p in db.passes && db.passes[p].key == k;
      assert forall p :: p in existing <==> p in db.passes && db.passes[p].key == k;
      if existing != {} {
        var p :| p in existing;
        if db.passes[p].status == Active {
          return None, p;
        }
        return Some(LineageExists), pass;
      }
      IssueKeeps(db, newId, k);
      db := db.(passes := db.passes[newId := Pass(k, Active, 1)]);
      refusal := None;
    }

    method Revoke(pass: Id, version: nat) returns (refusal: Option<Refusal>)
      requires Kept(db)
      modifies this
      ensures Kept(db)
      ensures refusal.None? <==> pass in old(db).passes && old(db).passes[pass].status == Active && old(db).passes[pass].version == version
      ensures db == if refusal.None? then old(db).(passes := old(db).passes[pass := Pass(old(db).passes[pass].key, Revoked, version + 1)]) else old(db)
    {
      hide PlacesKept, PassesKept;
      if pass !in db.passes {
        return Some(NotFound);
      }
      if db.passes[pass].status != Active || db.passes[pass].version != version {
        return Some(StateConflict);
      }
      RetiredKeeps(db, {pass}, Revoked, 1);
      assert Retired(db.passes, {pass}, Revoked, 1) == db.passes[pass := Pass(db.passes[pass].key, Revoked, version + 1)];
      db := db.(passes := db.passes[pass := db.passes[pass].(status := Revoked, version := version + 1)]);
      refusal := None;
    }

    /** `reissue`; `recorded` says whether the admission ledger knows the pass. */
    method Reissue(pass: Id, version: nat, recorded: bool) returns (refusal: Option<Refusal>)
      requires Kept(db)
      modifies this
      ensures Kept(db)
      ensures refusal.None? <==>
        && pass in old(db).passes && !recorded && old(db).passes[pass].status != Used && old(db).passes[pass].version == version
        && C.MayHold(old(db), old(db).passes[pass].key)
      ensures db == if refusal.None? then old(db).(passes := old(db).passes[pass := Pass(old(db).passes[pass].key, Active, version + 1)]) else old(db)
    {
      hide PlacesKept, PassesKept;
      if pass !in db.passes {
        return Some(NotFound);
      }
      if recorded {
        return Some(RecoveryHold);
      }
      var p := db.passes[pass];
      if p.status == Used || p.version != version {
        return Some(StateConflict);
      }
      C.EntitledMeans(db, p.key);
      if !Entitled(db, p.key) {
        return Some(NotConfirmed);
      }
      ReissueKeeps(db, pass);
      db := db.(passes := db.passes[pass := p.(status := Active, version := version + 1)]);
      refusal := None;
    }

    /** `sweep`: active passes expire once their event's admission has ended. */
    method Sweep(now: int)
      requires Kept(db)
      modifies this
      ensures Kept(db)
      ensures db == old(db).(passes := Retired(old(db).passes, Ended(old(db), now), Expired, 1))
      ensures forall p :: p in db.passes && old(db).passes[p].key.event in db.events ==>
        var before, e := old(db).passes[p], db.events[old(db).passes[p].key.event];
        var ends := if e.admissionEndsAt.Some? then e.admissionEndsAt else if e.startsAt.Some? then Some(e.startsAt.value + 43200000) else None;
        db.passes[p] == if before.status == Active && ends.Some? && ends.value <= now then Pass(before.key, Expired, before.version + 1) else before
    {
      RetiredKeeps(db, Ended(db, now), Expired, 1);
      db := db.(passes := Retired(db.passes, Ended(db, now), Expired, 1));
    }

    /** The tables' side of a redemption: only an active pass of someone confirmed becomes used. */
    method Admit(pass: Id) returns (ok: bool)
      requires Kept(db)
      modifies this
      ensures Kept(db)
      ensures ok <==> pass in old(db).passes && old(db).passes[pass].status == Active
      ensures db == if ok then Admitted(old(db), pass, old(db).passes[pass].version + 1) else old(db)
      ensures ok ==> C.MayHold(old(db), old(db).passes[pass].key) && C.PassUsed(old(db), pass, old(db).passes[pass].version + 1, db)
    {
      assert pass in db.passes && db.passes[pass].status == Active ==> Entitled(db, db.passes[pass].key);
      hide PlacesKept, PassesKept;
      if pass !in db.passes || db.passes[pass].status != Active
         || db.passes[pass].key !in db.replies || db.replies[db.passes[pass].key].state != Confirmed {
        return false;
      }
      var p := db.passes[pass];
      AdmittedKeeps(db, pass, p.version + 1);
      db := db.(passes := db.passes[pass := p.(status := Used, version := p.version + 1)]);
      db := db.(admissions := db.admissions[pass := p.key]);
      ok := true;
    }

    /** A committed ledger record replayed after a restore: whatever the pass had become, it is used. */
    method ReplayAdmission(pass: Id, version: nat)
      requires Kept(db)
      modifies this
      ensures Kept(db)
      ensures db == if pass in old(db).passes && old(db).passes[pass].status != Used
                    then Admitted(old(db), pass, if old(db).passes[pass].version < version then version else old(db).passes[pass].version)
                    else old(db)
      ensures pass in old(db).passes && old(db).passes[pass].status != Used ==>
        C.PassUsed(old(db), pass, if old(db).passes[pass].version < version then version else old(db).passes[pass].version, db)
    {
      if pass in db.passes && db.passes[pass].status != Used {
        var p := db.passes[pass];
        var next := if p.version < version then version else p.version;
        AdmittedKeeps(db, pass, next);
        db := db.(passes := db.passes[pass := p.(status := Used, version := next)]);
        if pass !in db.admissions {
          db := db.(admissions := db.admissions[pass := p.key]);
        }
      }
    }

    /** After a restore every unused credential is withdrawn. */
    method Quarantine()
      requires Kept(db)
      modifies this
      ensures Kept(db)
      ensures db == old(db).(passes := Retired(old(db).passes, old(db).passes.Keys, Revoked, 1))
      ensures forall p :: p in db.passes ==>
        db.passes[p] == if old(db).passes[p].status == Active then Pass(old(db).passes[p].key, Revoked, old(db).passes[p].version + 1) else old(db).passes[p]
    {
      RetiredKeeps(db, db.passes.Keys, Revoked, 1);
      db := db.(passes := Retired(db.passes, db.passes.Keys, Revoked, 1));
    }
  }

  function Lowered(e: Event): Event { e.(confirmed := e.confirmed - 1) }

  function CountedDown(db: Tables, a: Id): map<Id, Event> {
    map e | e in db.events :: if Key(a, e) in db.reserved then Lowered(db.events[e]) else db.events[e]
  }

  function Ended(db: Tables, now: int): set<Id> {
    set p | p in db.passes && db.passes[p].key.event in db.events
            && var e := db.events[db.passes[p].key.event];
               (e.admissionEndsAt.Some? && e.admissionEndsAt.value <= now)
               || (e.admissionEndsAt.None? && e.startsAt.Some? && e.startsAt.value + 43200000 <= now)
  }

  lemma PassesAtStay(passes: map<Id, Pass>, event: Id)
    ensures PassesAt(Retired(passes, PassesAt(passes, event), Revoked, 1), event) == PassesAt(passes, event)
  {
  }

  /** A reservation is counted, so its event's counter is at least one. */
  lemma ClampNeverFires(db: Tables, k: Key)
    requires PlacesKept(db) && k in db.reserved
    ensures k.event in db.events && 0 < db.events[k.event].confirmed
  {
    assert ConfirmedIffReserved(db, k);
    assert CounterKept(db, k.event);
    ReservedIff(db.reserved, k);
  }

  function Corrected(db: Tables, k: Key, name: Option<string>, confirm: Option<bool>): Tables
    requires k.attendee in db.attendees && k.event in db.events
  {
    var a := db.attendees[k.attendee];
    var named := if name.Some? && name.value != "" then db.(attendees := db.attendees[k.attendee := a.(name := name.value, version := a.version + 1)]) else db;
    if confirm.None? then named
    else if !confirm.value then Answered(Release(named, k), k, Declined)
    else Answered(if k in db.reserved then named else Place(named, k), k, Confirmed)
  }

  lemma CorrectedMeans(db: Tables, k: Key, name: Option<string>, confirm: Option<bool>)
    requires k.attendee in db.attendees && k.event in db.events
    ensures C.CorrectedRows(db, k, name, confirm, Corrected(db, k, name, confirm))
  {
    assert db.events[k.event := db.events[k.event]] == db.events;
  }

  lemma SavableMeans(db: Tables, a: Id, version: nat, name: string, party: Option<Id>, events: set<Id>, plusOnes: nat, slots: seq<Id>)
    ensures Savable(db, a, version, name, party, events, plusOnes, slots) <==> C.MaySave(db, a, version, name, party, events, plusOnes, slots)
  {
    C.InvitedMeans(db, a, events);
    hide InvitedTo;
  }

  lemma AdmittedReplied(db: Tables, k: Key)
    requires PassesKept(db) && AdmittedAt(db, k)
    ensures k in db.replies
  {
    var p :| p in db.admissions && db.admissions[p] == k;
    assert db.passes[p].key == k;
  }

  lemma NamedStays(db: Tables, k: Key, name: Option<string>)
    requires Kept(db) && k.attendee in db.attendees && k.event in db.events && AdmittedAt(db, k)
    ensures var v := Corrected(db, k, name, None);
            Kept(v) && AdmittedAt(v, k) && k in v.replies && v.reserved == db.reserved && v.events == db.events
  {
    hide PlacesKept, PassesKept;
    AdmittedReplied(db, k);
    if name.Some? && name.value != "" {
      NamedKeeps(db, k.attendee, name.value);
    }
    var v := Corrected(db, k, name, None);
    assert v.admissions == db.admissions;
  }

  lemma CorrectedKeeps(db: Tables, k: Key, name: Option<string>, confirm: Option<bool>)
    requires Kept(db) && k.attendee in db.attendees && k.event in db.events && AdmittedAt(db, k)
    requires confirm == Some(true) && k !in db.reserved ==> WithinCapacity(db.events[k.event], db.events[k.event].confirmed + 1)
    ensures Kept(Corrected(db, k, name, confirm))
  {
    hide PlacesKept, PassesKept, Reserved, AdmittedAt;
    var named := Corrected(db, k, name, None);
    NamedStays(db, k, name);
    if confirm == Some(false) {
      ReleaseKeeps(named, k, Declined);
      ReleasedPasses(named, k, Declined);
    } else if confirm == Some(true) && k !in db.reserved {
      PlaceKeeps(named, k);
      PlacedPasses(named, k);
    } else if confirm == Some(true) {
      ReconfirmKeeps(named, k);
    }
  }

  lemma ReconfirmKeeps(db: Tables, k: Key)
    requires Kept(db) && k in db.reserved
    ensures Kept(Answered(db, k, Confirmed))
  {
    var v := Answered(db, k, Confirmed);
    hide Reserved;
    forall e | e in v.events ensures CounterKept(v, e) {
      assert CounterKept(db, e);
    }
    forall j | j in v.reserved || j in v.replies ensures ConfirmedIffReserved(v, j) {
      assert ConfirmedIffReserved(db, j);
    }
    forall q | q in v.passes && v.passes[q].status == Active ensures Entitled(v, v.passes[q].key) {
      assert Entitled(db, db.passes[q].key);
    }
    LineageKept(db, v);
  }

  lemma InvitedKeeps(db: Tables, attendee: Id, v: Tables)
    requires Kept(db) && attendee !in db.attendees && attendee in v.attendees
    requires v == db.(attendees := db.attendees[attendee := v.attendees[attendee]], eligible := v.eligible)
    requires db.eligible <= v.eligible && forall k :: k in v.eligible && k !in db.eligible ==> k.attendee == attendee && k.event in db.events
    ensures Kept(v)
  {
    hide Reserved;
    forall e | e in v.events ensures CounterKept(v, e) {
      assert CounterKept(db, e);
    }
    forall k | k in v.reserved || k in v.replies ensures ConfirmedIffReserved(v, k) {
      assert ConfirmedIffReserved(db, k);
    }
    forall q | q in v.passes && v.passes[q].status == Active ensures Entitled(v, v.passes[q].key) {
      assert Entitled(db, db.passes[q].key);
    }
    LineageKept(db, v);
  }

  /** The rows a transaction is about to write. */
  datatype Work = Work(reserved: set<Key>, count: int, replies: map<Key, Reply>, attendees: map<Id, Attendee>, passes: map<Id, Pass>)

  function WorkedOn(db: Tables, event: Id, w: Work, r: Response): Work
    requires event in db.events && r.attendee in db.attendees
  {
    var e, k, a := db.events[event], Key(r.attendee, event), db.attendees[r.attendee];
    var seats := r.attending && k !in w.reserved && !e.manual && (e.capacity.None? || w.count < e.capacity.value);
    var state := if !r.attending then Declined else if k in w.reserved || seats then Confirmed else if e.manual then Pending else Waitlisted;
    var renames := r.name != "" && r.name != a.name;
    Work(if seats then w.reserved + {k} else w.reserved, if seats then w.count + 1 else w.count,
         w.replies[k := Reply(state, VersionOf(db, k) + 1)],
         if renames then w.attendees[r.attendee := a.(name := r.name, version := a.version + 1)] else w.attendees,
         if renames then Retired(w.passes, PassesOf(w.passes, {r.attendee}), Active, 1) else w.passes)
  }

  /** The rows after the given responses are answered. */
  ghost predicate Worked(db: Tables, event: Id, responses: seq<Response>, start: set<Id>, released: set<Key>, withdrawn: map<Id, Pass>, w: Work)
    requires event in db.events
  {
    var m, e := Answers(responses), db.events[event];
    && Reserved(w.reserved, event) == Placed(start, e, responses) && w.count == |Reserved(w.reserved, event)|
    && (forall k: Key :: k.event != event ==> (k in w.reserved <==> k in released))
    && w.replies == RepliesWith(db, event, e, Reserved(w.reserved, event), m)
    && w.attendees == Renamed(db.attendees, m)
    && w.passes == Retired(withdrawn, PassesOf(db.passes, Renaming(db.attendees, m)), Active, 1)
  }

  lemma WorkBegins(db: Tables, event: Id, start: set<Id>, released: set<Key>, withdrawn: map<Id, Pass>, w: Work)
    requires event in db.events && w == Work(released, |start|, db.replies, db.attendees, withdrawn) && Reserved(released, event) == start
    ensures Worked(db, event, [], start, released, withdrawn, w)
  {
    NothingAnswered(db, event, db.events[event], start, withdrawn);
  }

  lemma SeatsGoOn(db: Tables, event: Id, w: Work, r: Response)
    requires event in db.events && r.attendee in db.attendees && w.count == |Reserved(w.reserved, event)|
    ensures var v, after := WorkedOn(db, event, w, r), Seated(Reserved(w.reserved, event), db.events[event], r);
            && Reserved(v.reserved, event) == after && v.count == |after|
            && (forall k: Key :: k.event != event ==> (k in v.reserved <==> k in w.reserved))
            && v.replies == w.replies[Key(r.attendee, event) := Reply(Answer(db.events[event], after, r), VersionOf(db, Key(r.attendee, event)) + 1)]
  {
    SeatNext(w.reserved, event, db.events[event], r);
    hide Reserved, Retired, PassesOf;
  }

  lemma NamesGoOn(db: Tables, event: Id, m: map<Id, Response>, withdrawn: map<Id, Pass>, w: Work, r: Response)
    requires event in db.events && r.attendee in db.attendees && r.attendee !in m
    requires withdrawn.Keys == db.passes.Keys && forall p :: p in withdrawn ==> withdrawn[p].key == db.passes[p].key
    requires w.attendees == Renamed(db.attendees, m) && w.passes == Retired(withdrawn, PassesOf(db.passes, Renaming(db.attendees, m)), Active, 1)
    ensures var v, n := WorkedOn(db, event, w, r), m[r.attendee := r];
            && v.attendees == Renamed(db.attendees, n)
            && v.passes == Retired(withdrawn, PassesOf(db.passes, Renaming(db.attendees, n)), Active, 1)
  {
    hide Retired, Renamed, Renaming, PassesOf;
    RenameNext(db.attendees, m, r);
    ReprintNext(withdrawn, db.passes, Renaming(db.attendees, m), r.attendee);
    assert Renaming(db.attendees, m) + {} == Renaming(db.attendees, m);
  }

  lemma WorkGoesOn(db: Tables, event: Id, responses: seq<Response>, i: nat, start: set<Id>, released: set<Key>, withdrawn: map<Id, Pass>, w: Work)
    requires event in db.events && i < |responses| && OneEach(responses) && responses[i].attendee in db.attendees
    requires withdrawn.Keys == db.passes.Keys && forall p :: p in withdrawn ==> withdrawn[p].key == db.passes[p].key
    requires Worked(db, event, responses[..i], start, released, withdrawn, w)
    ensures Worked(db, event, responses[..i + 1], start, released, withdrawn, WorkedOn(db, event, w, responses[i]))
  {
    hide Retired, Reserved, Answers, RepliesWith, Renamed, Renaming, PassesOf, OneEach, WorkedOn, Seated;
    assert responses[..i + 1][..i] == responses[..i];
    AnswersNext(responses, i);
    RepliesNext(db, event, db.events[event], Reserved(w.reserved, event), Answers(responses[..i]), responses[i]);
    SeatsGoOn(db, event, w, responses[i]);
    NamesGoOn(db, event, Answers(responses[..i]), withdrawn, w, responses[i]);
  }

  lemma NothingRefused(db: Tables, event: Id)
    ensures FirstRefusal(db, event, []).None?
  {
  }

  lemma RefusalNext(db: Tables, event: Id, responses: seq<Response>, i: nat)
    requires i < |responses| && forall j :: 0 <= j < |responses| ==> responses[j].attendee in db.attendees
    ensures FirstRefusal(db, event, responses[..i]).None? ==>
      FirstRefusal(db, event, responses[..i + 1]) == ResponseRefusal(db, event, responses[i])
  {
    assert responses[..i + 1][..i] == responses[..i];
  }

  lemma PartyKnown(db: Tables, party: Id, event: Id)
    ensures forall a :: a in Party(db, party, event) ==> a in db.attendees
  {
  }

  lemma NothingDeclined(db: Tables, event: Id)
    ensures Reserved(db.reserved, event) == Start(db, event, Answers([]))
    ensures db.passes == Retired(db.passes, PassesFor(db.passes, KeysAt(Declining(Answers([])), event)), Revoked, 1)
  {
  }

  lemma NothingAnswered(db: Tables, event: Id, e: Event, start: set<Id>, withdrawn: map<Id, Pass>)
    ensures db.replies == RepliesWith(db, event, e, start, Answers([])) && db.attendees == Renamed(db.attendees, Answers([]))
    ensures withdrawn == Retired(withdrawn, PassesOf(db.passes, Renaming(db.attendees, Answers([]))), Active, 1)
  {
  }

  lemma {:induction false} RefusalStays(db: Tables, event: Id, responses: seq<Response>, i: nat)
    requires i <= |responses| && forall j :: 0 <= j < |responses| ==> responses[j].attendee in db.attendees
    requires FirstRefusal(db, event, responses[..i]).Some?
    ensures FirstRefusal(db, event, responses) == FirstRefusal(db, event, responses[..i])
    decreases |responses|
  {
    if i < |responses| {
      var front := responses[..|responses| - 1];
      assert front[..i] == responses[..i];
      RefusalStays(db, event, front, i);
    } else {
      assert responses[..i] == responses;
    }
  }

  lemma PassesWorked(db: Tables, event: Id, responses: seq<Response>, withdrawn: map<Id, Pass>)
    requires withdrawn == Retired(db.passes, PassesFor(db.passes, KeysAt(Declining(Answers(responses)), event)), Revoked, 1)
    ensures Retired(withdrawn, PassesOf(db.passes, Renaming(db.attendees, Answers(responses))), Active, 1)
            == PassesWith(db, event, Answers(responses))
  {
  }
}
