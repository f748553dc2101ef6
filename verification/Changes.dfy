/** What the edits of one wedding may do, row by row: who may hold a pass, what a saved event, a saved guest or a
    correction changes, and that nothing else is touched (packages/persistence/src/guests.ts, passes.ts and index.ts). */
module Changes {
  import opened Options
  import opened Seqs
  import opened Rsvp
  import opened RsvpService

  // ---------- passes ----------

  /** Living, confirmed, with a place, at an event that uses passes. */
  ghost predicate MayHold(db: Tables, k: Key) {
    && k.attendee in db.attendees && !db.attendees[k.attendee].deleted
    && k.event in db.events && db.events[k.event].policy != PassesDisabled
    && k in db.replies && db.replies[k].state == Confirmed && k in db.reserved
  }

  lemma EntitledMeans(db: Tables, k: Key)
    ensures Entitled(db, k) <==> MayHold(db, k)
  {
  }

  /** A pass is used, with its admission, at this version. */
  ghost predicate PassUsed(db: Tables, p: Id, version: nat, v: Tables)
    requires p in db.passes
  {
    && v == db.(passes := v.passes, admissions := v.admissions)
    && v.passes == db.passes[p := Pass(db.passes[p].key, Used, version)]
    && v.admissions == db.admissions[p := db.passes[p].key]
  }

  // ---------- a saved event ----------

  /** One pass of the event after the save: withdrawn if passes were switched off, printed again if what is
      printed on it changed, and otherwise as it was. */
  ghost predicate PassAfterEvent(e: Event, i: EventInput, p: Pass, q: Pass) {
    q ==
      if p.status != Active then p
      else if i.policy == PassesDisabled then Pass(p.key, Revoked, p.version + 1)
      else if e.details != i.details || e.startsAt != i.startsAt then Pass(p.key, Active, p.version + 1)
      else p
  }

  ghost predicate EventRow(db: Tables, event: Id, i: EventInput, v: Tables)
    requires event in db.events
  {
    && v == db.(events := v.events, passes := v.passes)
    && v.events == db.events[event := Event(i.capacity, db.events[event].confirmed, i.manual, i.policy, i.cutoff, i.startsAt,
                                            i.admissionStartsAt, i.admissionEndsAt, i.details, db.events[event].version + 1)]
    && v.passes.Keys == db.passes.Keys
    && (forall p | p in db.passes ::
          if db.passes[p].key.event == event then PassAfterEvent(db.events[event], i, db.passes[p], v.passes[p]) else v.passes[p] == db.passes[p])
  }

  lemma EventSavedMeans(db: Tables, event: Id, i: EventInput)
    requires event in db.events
    ensures EventRow(db, event, i, EventSaved(db, event, i))
  {
    var v := EventSaved(db, event, i);
    forall p | p in db.passes
      ensures p in v.passes && if db.passes[p].key.event == event then PassAfterEvent(db.events[event], i, db.passes[p], v.passes[p]) else v.passes[p] == db.passes[p] {
    }
    assert v.passes.Keys == db.passes.Keys;
    hide Retired, PassesAt, PassAfterEvent;
  }

  // ---------- a saved guest ----------

  /** The guest exists and is no plus one, the page showed this version, every event exists, nobody admitted is
      renamed, and once the guest or a plus one has answered, the household, the invitations and the number of
      plus ones stay as they are and every answer is within the invitations. */
  ghost predicate MaySave(db: Tables, a: Id, version: nat, name: string, party: Option<Id>, events: set<Id>, plusOnes: nat, slots: seq<Id>) {
    && (forall e | e in events :: e in db.events)
    && a in db.attendees && !db.attendees[a].deleted && db.attendees[a].plusOneOf.None? && db.attendees[a].version == version
    && (forall p | p in db.admissions && db.admissions[p].attendee == a :: name == db.attendees[a].name)
    && (forall k | k in db.replies && (k.attendee == a || k.attendee in slots) ::
          && k.event in events && plusOnes == |slots| && (party.Some? ==> party.value == db.attendees[a].party)
          && (forall e :: e in events <==> Key(a, e) in db.eligible))
  }

  lemma InvitedMeans(db: Tables, a: Id, events: set<Id>)
    ensures InvitedTo(db, a) == events <==> forall e :: e in events <==> Key(a, e) in db.eligible
  {
    assert forall e :: e in InvitedTo(db, a) <==> Key(a, e) in db.eligible;
  }

  /** The guest after the save; `kept` and `added` are the plus ones that remain or are new, `dropped` those that
      are no longer allocated. */
  ghost predicate GuestRow(db: Tables, a: Id, name: string, party: Id, events: set<Id>, kept: set<Id>, added: set<Id>, dropped: set<Id>, v: Tables)
    requires a in db.attendees
  {
    && v == db.(attendees := v.attendees, eligible := v.eligible, passes := v.passes)
    && v.attendees.Keys == db.attendees.Keys + added && v.passes.Keys == db.passes.Keys
    && (forall x | x in v.attendees :: AttendeeAfterSave(db, a, name, party, kept, added, dropped, x, v.attendees[x]))
    && (forall k :: k in v.eligible <==>
          if k.attendee == a || k.attendee in kept || k.attendee in added then k.event in events else k in db.eligible)
    && (forall p | p in db.passes :: v.passes[p] ==
          if db.passes[p].key.attendee == a && db.passes[p].status == Active && name != db.attendees[a].name
          then Pass(db.passes[p].key, Active, db.passes[p].version + 1) else db.passes[p])
  }

  ghost predicate AttendeeAfterSave(db: Tables, a: Id, name: string, party: Id, kept: set<Id>, added: set<Id>, dropped: set<Id>, x: Id, y: Attendee)
    requires a in db.attendees
  {
    if x == a then y == Attendee(party, db.attendees[a].plusOneOf, name, db.attendees[a].deleted, db.attendees[a].version + 1)
    else if x !in db.attendees then x in added && y == Attendee(party, Some(a), "", false, 1)
    else if x in kept then y == db.attendees[x].(party := party)
    else if x in dropped then y == db.attendees[x].(deleted := true, version := db.attendees[x].version + 1)
    else y == db.attendees[x]
  }

  lemma GuestSavedMeans(db: Tables, a: Id, name: string, party: Id, events: set<Id>, kept: set<Id>, added: set<Id>, dropped: set<Id>)
    requires a in db.attendees && kept <= db.attendees.Keys && added !! db.attendees.Keys
    ensures GuestRow(db, a, name, party, events, kept, added, dropped, GuestSaved(db, a, name, party, events, {a} + kept + added, dropped))
  {
    var group := {a} + kept + added;
    var v := GuestSaved(db, a, name, party, events, group, dropped);
    assert v.attendees.Keys == db.attendees.Keys + added;
    assert v.passes.Keys == db.passes.Keys;
    forall k ensures k in v.eligible <==>
        if k.attendee == a || k.attendee in kept || k.attendee in added then k.event in events else k in db.eligible {
    }
    forall x | x in v.attendees ensures AttendeeAfterSave(db, a, name, party, kept, added, dropped, x, v.attendees[x]) {
    }
    forall p | p in db.passes
      ensures v.passes[p] ==
        if db.passes[p].key.attendee == a && db.passes[p].status == Active && name != db.attendees[a].name
        then Pass(db.passes[p].key, Active, db.passes[p].version + 1) else db.passes[p] {
    }
    hide AttendeeAfterSave, KeysOf, Retired, PassesOf;
  }

  // ---------- a correction ----------

  /** The name, the place, the reply to that event and its counter: as corrected, or as they were. */
  ghost predicate CorrectedRows(db: Tables, k: Key, name: Option<string>, confirm: Option<bool>, v: Tables)
    requires k.attendee in db.attendees && k.event in db.events
  {
    && v == db.(attendees := v.attendees, reserved := v.reserved, replies := v.replies, events := v.events)
    && v.attendees == (if name.Some? && name.value != ""
                       then db.attendees[k.attendee := db.attendees[k.attendee].(name := name.value, version := db.attendees[k.attendee].version + 1)]
                       else db.attendees)
    && v.reserved == (if confirm == Some(true) then db.reserved + {k} else if confirm == Some(false) then db.reserved - {k} else db.reserved)
    && v.replies == (if confirm.Some? && k in db.replies
                     then db.replies[k := Reply(if confirm.value then Confirmed else Declined, db.replies[k].version + 1)] else db.replies)
    && v.events == db.events[k.event := db.events[k.event].(confirmed := db.events[k.event].confirmed
         + (if confirm == Some(true) && k !in db.reserved then 1 else 0) - (if confirm == Some(false) && k in db.reserved then 1 else 0))]
  }
}
