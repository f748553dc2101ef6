/** The operations on the tables of one wedding, each of which keeps the tables in step. */
module RsvpService {
  import opened Options
  import opened Seqs
  import opened Rsvp

  // ---------- places ----------

  function Place(db: Tables, k: Key): Tables
    requires k.event in db.events
  {
    db.(reserved := db.reserved + {k},
        events := db.events[k.event := db.events[k.event].(confirmed := db.events[k.event].confirmed + 1)])
  }

  function Release(db: Tables, k: Key): Tables
    requires k.event in db.events
  {
    if k !in db.reserved then db
    else db.(reserved := db.reserved - {k},
             events := db.events[k.event := db.events[k.event].(confirmed := db.events[k.event].confirmed - 1)])
  }

  function Answered(db: Tables, k: Key, state: State): Tables {
    if k in db.replies then db.(replies := db.replies[k := Reply(state, db.replies[k].version + 1)]) else db
  }

  lemma PlaceKeeps(db: Tables, k: Key)
    requires PlacesKept(db) && k in db.replies && k !in db.reserved
    requires WithinCapacity(db.events[k.event], db.events[k.event].confirmed + 1)
    ensures PlacesKept(Answered(Place(db, k), k, Confirmed))
  {
    hide Reserved;
    var v := Answered(Place(db, k), k, Confirmed);
    forall e | e in v.events ensures CounterKept(v, e) {
      assert CounterKept(db, e);
      ReservedPlus(db.reserved, k);
    }
    hide CounterKept;
    forall j | j in v.reserved || j in v.replies ensures ConfirmedIffReserved(v, j) {
      assert j != k ==> ConfirmedIffReserved(db, j);
    }
  }

  lemma ReleaseKeeps(db: Tables, k: Key, state: State)
    requires PlacesKept(db) && k in db.replies && state != Confirmed
    ensures PlacesKept(Answered(Release(db, k), k, state))
  {
    hide Reserved;
    var v := Answered(Release(db, k), k, state);
    forall e | e in v.events ensures CounterKept(v, e) {
      assert CounterKept(db, e);
      ReservedMinus(db.reserved, k);
    }
    hide CounterKept;
    forall j | j in v.reserved || j in v.replies ensures ConfirmedIffReserved(v, j) {
      assert j != k ==> ConfirmedIffReserved(db, j);
    }
  }

  // ---------- passes ----------

  /** Withdrawing, expiring or reprinting active passes keeps everything. */
  lemma RetiredKeeps(db: Tables, ids: set<Id>, status: Status, bump: nat)
    requires Kept(db) && status != Used
    ensures Kept(db.(passes := Retired(db.passes, ids, status, bump)))
  {
    hide PlacesKept;
    var v := db.(passes := Retired(db.passes, ids, status, bump));
    assert PlacesKept(v) by { PlacesOnly(db, v); }
    forall p | p in v.passes && v.passes[p].status == Active ensures Entitled(v, v.passes[p].key) {
      assert Entitled(db, db.passes[p].key);
    }
    hide Entitled;
    RetiredLineage(db.passes, ids, status, bump);
    LineageKept(db, v);
  }

  lemma PlacesOnly(db: Tables, v: Tables)
    requires PlacesKept(db) && v.events == db.events && v.reserved == db.reserved && v.replies == db.replies && v.eligible == db.eligible
    requires db.attendees.Keys <= v.attendees.Keys
    ensures PlacesKept(v)
  {
    hide Reserved;
    forall e | e in v.events ensures CounterKept(v, e) {
      assert CounterKept(db, e);
    }
    forall k | k in v.reserved || k in v.replies ensures ConfirmedIffReserved(v, k) {
      assert ConfirmedIffReserved(db, k);
    }
  }

  // ---------- removal ----------

  /** One attendee leaves: places released, answers declined, passes withdrawn. */
  function RowRemoved(db: Tables, a: Id, bump: nat): Tables {
    db.(reserved := (set k | k in db.reserved && k.attendee != a),
        events := (map e | e in db.events ::
          if Key(a, e) in db.reserved then db.events[e].(confirmed := db.events[e].confirmed - 1) else db.events[e]),
        replies := (map k | k in db.replies ::
          if k.attendee == a then Reply(Declined, db.replies[k].version + bump) else db.replies[k]),
        passes := Retired(db.passes, PassesOf(db.passes, {a}), Revoked, bump),
        attendees := if a in db.attendees
                     then db.attendees[a := db.attendees[a].(deleted := true, version := db.attendees[a].version + bump)]
                     else db.attendees)
  }

  lemma RowRemovedPlaces(db: Tables, a: Id, bump: nat)
    requires PlacesKept(db)
    ensures PlacesKept(RowRemoved(db, a, bump))
  {
    var v := RowRemoved(db, a, bump);
    forall e | e in v.events ensures CounterKept(v, e) {
      assert CounterKept(db, e);
      RowReserved(db.reserved, v.reserved, a, e);
    }
    hide Reserved, CounterKept, Retired;
    forall k | k in v.reserved || k in v.replies ensures ConfirmedIffReserved(v, k) {
      assert ConfirmedIffReserved(db, k);
    }
  }

  lemma RowReserved(before: set<Key>, after: set<Key>, a: Id, e: Id)
    requires after == set k | k in before && k.attendee != a
    ensures Reserved(after, e) == Reserved(before, e) - {a}
    ensures Key(a, e) in before <==> a in Reserved(before, e)
  {
    ReservedIff(before, Key(a, e));
    forall x ensures x in Reserved(after, e) <==> x in Reserved(before, e) - {a} {
      ReservedIff(before, Key(x, e));
      ReservedIff(after, Key(x, e));
    }
  }

  lemma RowRemovedEntitled(db: Tables, a: Id, bump: nat, p: Id)
    requires PassesKept(db) && p in db.passes && RowRemoved(db, a, bump).passes[p].status == Active
    ensures Entitled(RowRemoved(db, a, bump), db.passes[p].key)
  {
    assert db.passes[p].status == Active && db.passes[p].key.attendee != a;
    assert Entitled(db, db.passes[p].key);
  }

  lemma RowRemovedKeeps(db: Tables, a: Id, bump: nat)
    requires Kept(db)
    ensures Kept(RowRemoved(db, a, bump))
  {
    hide PlacesKept, PassesKept, Reserved, Entitled;
    var v := RowRemoved(db, a, bump);
    RowRemovedPlaces(db, a, bump);
    forall p | p in v.passes && v.passes[p].status == Active ensures Entitled(v, v.passes[p].key) {
      RowRemovedEntitled(db, a, bump, p);
    }
    RetiredLineage(db.passes, PassesOf(db.passes, {a}), Revoked, bump);
    LineageKept(db, v);
  }

  function RowsRemoved(db: Tables, rows: seq<Id>, bump: nat): Tables {
    if rows == [] then db else RowRemoved(RowsRemoved(db, rows[..|rows| - 1], bump), rows[|rows| - 1], bump)
  }

  /** After a removal, in whatever order the rows are taken, nothing of them is left anywhere. */
  lemma {:induction false} RowsRemovedClean(db: Tables, rows: seq<Id>, bump: nat)
    requires Kept(db)
    ensures var v := RowsRemoved(db, rows, bump);
            && Kept(v) && v.attendees.Keys == db.attendees.Keys && v.admissions == db.admissions
            && (forall k :: k in v.reserved <==> k in db.reserved && k.attendee !in rows)
            && (forall a :: a in rows && a in v.attendees ==> v.attendees[a].deleted)
            && (forall a :: a !in rows && a in v.attendees ==> v.attendees[a] == db.attendees[a])
            && (forall p :: p in v.passes && v.passes[p].key.attendee in rows ==> v.passes[p].status != Active)
  {
    hide Kept, Retired;
    if rows != [] {
      var last := |rows| - 1;
      var front := rows[..last];
      assert rows == front + [rows[last]];
      RowsRemovedClean(db, front, bump);
      var mid := RowsRemoved(db, front, bump);
      RowRemovedKeeps(mid, rows[last], bump);
      RetiredSome(mid.passes, rows[last], bump);
    }
  }

  lemma RetiredSome(passes: map<Id, Pass>, a: Id, bump: nat)
    ensures var v := Retired(passes, PassesOf(passes, {a}), Revoked, bump);
            && v.Keys == passes.Keys
            && forall p :: p in v ==>
                 && v[p].key == passes[p].key
                 && if v[p].key.attendee == a && passes[p].status == Active then v[p].status == Revoked else v[p] == passes[p]
  {
  }

  /** Passes and replies of everyone else stay as they are. */
  lemma {:induction false} OthersKeepTheirs(db: Tables, rows: seq<Id>, bump: nat)
    ensures var v := RowsRemoved(db, rows, bump);
            && v.passes.Keys == db.passes.Keys && v.replies.Keys == db.replies.Keys
            && (forall p :: p in db.passes && db.passes[p].key.attendee !in rows ==> v.passes[p] == db.passes[p])
            && (forall k :: k in db.replies && k.attendee !in rows ==> v.replies[k] == db.replies[k])
  {
    if rows != [] {
      var last := |rows| - 1;
      assert rows == rows[..last] + [rows[last]];
      OthersKeepTheirs(db, rows[..last], bump);
    }
  }

  /** The rows of `rows` that have a place at the event. */
  function Leaving(db: Tables, rows: seq<Id>, event: Id): set<Id> {
    set a | a in rows && Key(a, event) in db.reserved
  }

  /** What a removal leaves, row by row: theirs are declined, withdrawn and marked as deleted, nobody else's
      are touched, and each counter falls by the places they had. */
  ghost predicate RemovedRows(db: Tables, rows: seq<Id>, bump: nat, v: Tables) {
    && v.eligible == db.eligible && v.admissions == db.admissions
    && v.attendees.Keys == db.attendees.Keys && v.replies.Keys == db.replies.Keys && v.passes.Keys == db.passes.Keys && v.events.Keys == db.events.Keys
    && (forall a :: a in v.attendees ==>
          v.attendees[a] == if a in rows then db.attendees[a].(deleted := true, version := db.attendees[a].version + bump) else db.attendees[a])
    && (forall k :: k in v.replies ==>
          v.replies[k] == if k.attendee in rows then Reply(Declined, db.replies[k].version + bump) else db.replies[k])
    && (forall k :: k in v.reserved <==> k in db.reserved && k.attendee !in rows)
    && (forall p :: p in v.passes ==>
          v.passes[p] == if db.passes[p].key.attendee in rows && db.passes[p].status == Active
                         then Pass(db.passes[p].key, Revoked, db.passes[p].version + bump) else db.passes[p])
    && (forall e :: e in v.events ==> v.events[e] == db.events[e].(confirmed := db.events[e].confirmed - |Leaving(db, rows, e)|))
  }

  lemma OneRowRemoved(db: Tables, a: Id, bump: nat)
    ensures RemovedRows(db, [a], bump, RowRemoved(db, a, bump))
  {
    forall e ensures Leaving(db, [a], e) == if Key(a, e) in db.reserved then {a} else {} {
    }
    assert forall p :: p in db.passes ==> (p in PassesOf(db.passes, {a}) <==> db.passes[p].key.attendee == a);
    hide Leaving;
  }

  lemma RemovedOneMore(db: Tables, front: seq<Id>, mid: Tables, a: Id, bump: nat, v: Tables)
    requires RemovedRows(db, front, bump, mid) && RemovedRows(mid, [a], bump, v) && a !in front
    ensures RemovedRows(db, front + [a], bump, v)
  {
    forall e ensures |Leaving(db, front + [a], e)| == |Leaving(db, front, e)| + |Leaving(mid, [a], e)| {
      assert Leaving(db, front + [a], e) == Leaving(db, front, e) + Leaving(mid, [a], e);
      assert Leaving(db, front, e) !! Leaving(mid, [a], e);
    }
    assert forall x :: x in front + [a] <==> x in front || x == a;
    hide Leaving;
  }

  lemma {:induction false} RowsRemovedExactly(db: Tables, rows: seq<Id>, bump: nat)
    requires Distinct(rows)
    ensures RemovedRows(db, rows, bump, RowsRemoved(db, rows, bump))
  {
    if rows == [] {
      assert forall e :: Leaving(db, [], e) == {};
    } else {
      var last := |rows| - 1;
      var front := rows[..last];
      assert rows == front + [rows[last]] && rows[last] !in front;
      RowsRemovedExactly(db, front, bump);
      OneRowRemoved(RowsRemoved(db, front, bump), rows[last], bump);
      hide RemovedRows, RowRemoved;
      RemovedOneMore(db, front, RowsRemoved(db, front, bump), rows[last], bump, RowsRemoved(db, rows, bump));
    }
  }

  // ---------- events ----------

  /** What a save of an event carries; its counter and version are not among it. */
  datatype EventInput = EventInput(
    capacity: Option<nat>, manual: bool, policy: Policy, cutoff: Option<int>,
    startsAt: Option<int>, admissionStartsAt: Option<int>, admissionEndsAt: Option<int>, details: Id)

  function Merged(e: Event, i: EventInput): Event {
    Event(i.capacity, e.confirmed, i.manual, i.policy, i.cutoff, i.startsAt, i.admissionStartsAt, i.admissionEndsAt, i.details, e.version + 1)
  }

  predicate WindowMoves(e: Event, i: EventInput) {
    e.policy != i.policy || e.startsAt != i.startsAt || e.admissionStartsAt != i.admissionStartsAt || e.admissionEndsAt != i.admissionEndsAt
  }

  function EventSaved(db: Tables, event: Id, i: EventInput): Tables
    requires event in db.events
  {
    var e := db.events[event];
    var withdrawn := if i.policy == PassesDisabled then Retired(db.passes, PassesAt(db.passes, event), Revoked, 1) else db.passes;
    db.(events := db.events[event := Merged(e, i)],
        passes := if e.details != i.details || e.startsAt != i.startsAt
                  then Retired(withdrawn, PassesAt(db.passes, event), Active, 1) else withdrawn)
  }

  lemma EventSavedPlaces(db: Tables, event: Id, i: EventInput)
    requires PlacesKept(db) && event in db.events && WithinCapacity(Merged(db.events[event], i), db.events[event].confirmed)
    ensures PlacesKept(EventSaved(db, event, i))
  {
    var v := EventSaved(db, event, i);
    hide Reserved, Retired;
    forall e | e in v.events ensures CounterKept(v, e) {
      assert CounterKept(db, e);
    }
    forall k | k in v.reserved || k in v.replies ensures ConfirmedIffReserved(v, k) {
      assert ConfirmedIffReserved(db, k);
    }
  }

  lemma EventSavedEntitled(db: Tables, event: Id, i: EventInput, p: Id)
    requires PassesKept(db) && event in db.events && p in db.passes && EventSaved(db, event, i).passes[p].status == Active
    ensures Entitled(EventSaved(db, event, i), db.passes[p].key)
  {
    assert db.passes[p].status == Active;
    assert Entitled(db, db.passes[p].key);
  }

  /** Saving an event keeps everything as long as its capacity is not put below its confirmed count. */
  lemma EventSavedKeeps(db: Tables, event: Id, i: EventInput)
    requires Kept(db) && event in db.events && WithinCapacity(Merged(db.events[event], i), db.events[event].confirmed)
    ensures Kept(EventSaved(db, event, i))
  {
    hide PlacesKept, PassesKept, Retired, Entitled;
    var v := EventSaved(db, event, i);
    EventSavedPlaces(db, event, i);
    RetiredLineage(db.passes, PassesAt(db.passes, event), Revoked, 1);
    RetiredLineage(Retired(db.passes, PassesAt(db.passes, event), Revoked, 1), PassesAt(db.passes, event), Active, 1);
    RetiredLineage(db.passes, PassesAt(db.passes, event), Active, 1);
    forall p | p in v.passes && v.passes[p].status == Active ensures Entitled(v, v.passes[p].key) {
      EventSavedEntitled(db, event, i, p);
    }
    LineageKept(db, v);
  }

  lemma EventAddedKeeps(db: Tables, event: Id, e: Event)
    requires Kept(db) && event !in db.events && e.confirmed == 0
    ensures Kept(db.(events := db.events[event := e]))
  {
    var v := db.(events := db.events[event := e]);
    assert Reserved(db.reserved, event) == {} by {
      forall k | k in db.reserved ensures k.event != event {
        assert ConfirmedIffReserved(db, k);
      }
    }
    hide Reserved;
    forall f | f in v.events ensures CounterKept(v, f) {
      assert f in db.events ==> CounterKept(db, f);
    }
    forall k | k in v.reserved || k in v.replies ensures ConfirmedIffReserved(v, k) {
      assert ConfirmedIffReserved(db, k);
    }
    forall p | p in v.passes && v.passes[p].status == Active ensures Entitled(v, v.passes[p].key) {
      assert Entitled(db, db.passes[p].key);
    }
    LineageKept(db, v);
  }

  // ---------- passes, one at a time ----------

  lemma IssueKeeps(db: Tables, p: Id, k: Key)
    requires Kept(db) && p !in db.passes && Entitled(db, k) && forall q :: q in db.passes ==> db.passes[q].key != k
    ensures Kept(db.(passes := db.passes[p := Pass(k, Active, 1)]))
  {
    hide PlacesKept;
    var v := db.(passes := db.passes[p := Pass(k, Active, 1)]);
    assert PlacesKept(v) by { PlacesOnly(db, v); }
    forall q | q in v.passes && v.passes[q].status == Active ensures Entitled(v, v.passes[q].key) {
      assert q != p ==> Entitled(db, db.passes[q].key);
    }
  }

  lemma ReissueKeeps(db: Tables, p: Id)
    requires Kept(db) && p in db.passes && db.passes[p].status != Used && Entitled(db, db.passes[p].key)
    ensures Kept(db.(passes := db.passes[p := Pass(db.passes[p].key, Active, db.passes[p].version + 1)]))
  {
    hide PlacesKept;
    var v := db.(passes := db.passes[p := Pass(db.passes[p].key, Active, db.passes[p].version + 1)]);
    assert PlacesKept(v) by { PlacesOnly(db, v); }
    forall q | q in v.passes && v.passes[q].status == Active ensures Entitled(v, v.passes[q].key) {
      assert q != p ==> Entitled(db, db.passes[q].key);
    }
    hide Entitled;
    LineageKept(db, v);
  }

  function Admitted(db: Tables, p: Id, version: nat): Tables
    requires p in db.passes
  {
    db.(passes := db.passes[p := Pass(db.passes[p].key, Used, version)], admissions := db.admissions[p := db.passes[p].key])
  }

  lemma AdmittedKeeps(db: Tables, p: Id, version: nat)
    requires Kept(db) && p in db.passes
    ensures Kept(Admitted(db, p, version))
  {
    hide PlacesKept;
    var v := Admitted(db, p, version);
    assert PlacesKept(v) by { PlacesOnly(db, v); }
    forall q | q in v.passes && v.passes[q].status == Active ensures Entitled(v, v.passes[q].key) {
      assert Entitled(db, db.passes[q].key);
    }
  }

  /** When a place is taken or a declined place is given up, no active pass may lose its entitlement. */
  lemma PlacedPasses(db: Tables, k: Key)
    requires PassesKept(db) && k.event in db.events && k !in db.reserved
    ensures PassesKept(Answered(Place(db, k), k, Confirmed))
  {
    var v := Answered(Place(db, k), k, Confirmed);
    forall q | q in v.passes && v.passes[q].status == Active ensures Entitled(v, v.passes[q].key) {
      assert Entitled(db, db.passes[q].key);
    }
    hide Entitled;
    LineageKept(db, v);
  }

  lemma ReleasedPasses(db: Tables, k: Key, state: State)
    requires PassesKept(db) && k.event in db.events && AdmittedAt(db, k)
    ensures PassesKept(Answered(Release(db, k), k, state))
  {
    var v := Answered(Release(db, k), k, state);
    forall q | q in v.passes && v.passes[q].status == Active ensures Entitled(v, v.passes[q].key) {
      assert Entitled(db, db.passes[q].key);
      var p :| p in db.admissions && db.admissions[p] == k;
      assert db.passes[p].key == k && p != q;
    }
    hide Entitled;
    LineageKept(db, v);
  }

  lemma NamedKeeps(db: Tables, a: Id, name: string)
    requires Kept(db) && a in db.attendees
    ensures Kept(db.(attendees := db.attendees[a := db.attendees[a].(name := name, version := db.attendees[a].version + 1)]))
  {
    hide PlacesKept;
    var v := db.(attendees := db.attendees[a := db.attendees[a].(name := name, version := db.attendees[a].version + 1)]);
    assert PlacesKept(v) by { PlacesOnly(db, v); }
    forall q | q in v.passes && v.passes[q].status == Active ensures Entitled(v, v.passes[q].key) {
      assert Entitled(db, db.passes[q].key);
    }
    hide Entitled;
    LineageKept(db, v);
  }

  // ---------- households ----------

  function KeysOf(attendees: set<Id>, events: set<Id>): (keys: set<Key>)
    ensures forall k :: k in keys <==> k.attendee in attendees && k.event in events
  {
    set a, e | a in attendees && e in events :: Key(a, e)
  }

  function InvitedTo(db: Tables, attendee: Id): set<Id> {
    set k | k in db.eligible && k.attendee == attendee :: k.event
  }

  /** A save of an attendee: `group` is the attendee with the plus ones kept and added, `dropped` those no
      longer allocated; the group shares a household and its invitations. */
  function GuestSaved(db: Tables, a: Id, name: string, party: Id, events: set<Id>, group: set<Id>, dropped: set<Id>): Tables
    requires a in db.attendees && a in group
  {
    db.(attendees := map x | x in db.attendees.Keys + group ::
          if x == a then Attendee(party, db.attendees[a].plusOneOf, name, db.attendees[a].deleted, db.attendees[a].version + 1)
          else if x in group && x in db.attendees then db.attendees[x].(party := party)
          else if x in group then Attendee(party, Some(a), "", false, 1)
          else if x in dropped then db.attendees[x].(deleted := true, version := db.attendees[x].version + 1)
          else db.attendees[x],
        eligible := (set k | k in db.eligible && k.attendee !in group) + KeysOf(group, events),
        passes := if name != db.attendees[a].name then Retired(db.passes, PassesOf(db.passes, {a}), Active, 1) else db.passes)
  }

  lemma GuestSavedEntitled(db: Tables, a: Id, name: string, party: Id, events: set<Id>, group: set<Id>, dropped: set<Id>, p: Id)
    requires PassesKept(db) && a in db.attendees && a in group && a !in dropped
    requires forall k :: k in db.replies ==> k.attendee !in dropped
    requires p in db.passes && GuestSaved(db, a, name, party, events, group, dropped).passes[p].status == Active
    ensures Entitled(GuestSaved(db, a, name, party, events, group, dropped), db.passes[p].key)
  {
    assert db.passes[p].status == Active;
    assert Entitled(db, db.passes[p].key);
  }

  lemma GuestSavedPlaces(db: Tables, a: Id, name: string, party: Id, events: set<Id>, group: set<Id>, dropped: set<Id>)
    requires PlacesKept(db) && a in db.attendees && a in group && events <= db.events.Keys
    requires forall k :: k in db.replies && k.attendee in group ==> k.event in events
    ensures PlacesKept(GuestSaved(db, a, name, party, events, group, dropped))
  {
    var v := GuestSaved(db, a, name, party, events, group, dropped);
    hide Reserved, Retired, PassesOf;
    forall e | e in v.events ensures CounterKept(v, e) {
      assert CounterKept(db, e);
    }
    forall k | k in v.reserved || k in v.replies ensures ConfirmedIffReserved(v, k) {
      assert ConfirmedIffReserved(db, k);
    }
    hide CounterKept, ConfirmedIffReserved;
  }

  /** Saving keeps everything as long as no dropped attendee and no withdrawn invitation has been answered. */
  lemma GuestSavedKeeps(db: Tables, a: Id, name: string, party: Id, events: set<Id>, group: set<Id>, dropped: set<Id>)
    requires Kept(db) && a in db.attendees && a in group && a !in dropped && events <= db.events.Keys
    requires forall k :: k in db.replies ==> k.attendee !in dropped && (k.attendee in group ==> k.event in events)
    ensures Kept(GuestSaved(db, a, name, party, events, group, dropped))
  {
    hide PlacesKept, PassesKept, Entitled, Retired, PassesOf, KeysOf;
    var v := GuestSaved(db, a, name, party, events, group, dropped);
    GuestSavedPlaces(db, a, name, party, events, group, dropped);
    RetiredLineage(db.passes, PassesOf(db.passes, {a}), Active, 1);
    forall p | p in v.passes && v.passes[p].status == Active ensures Entitled(v, v.passes[p].key) {
      GuestSavedEntitled(db, a, name, party, events, group, dropped, p);
    }
    LineageKept(db, v);
  }
}
