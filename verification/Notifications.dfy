/** Provider events against sent messages (packages/persistence/src/notifications.ts): events arrive in any
    order, more than once, and even before the submission that links them to a message. */
module Notifications {
  import opened Options
  import opened Seqs

  type Id = nat

  datatype State = Queued | ProviderQueued | Accepted | Delivered | Bounced | Complained | Delayed | Failed | Unknown

  datatype Status = Sent | DeliveredTo | HardBounced | ComplainedOf | SoftBounced | DelayedBy | FailedWith(deliveryUnknown: bool)

  datatype Event = Event(provider: Id, status: Status, occurredAt: int, recipients: set<Id>, processed: bool)

  datatype Message = Message(recipient: Id, state: State, provider: Option<Id>, eventAt: Option<int>)

  function Target(status: Status): State {
    match status
    case Sent => Accepted
    case DeliveredTo => Delivered
    case HardBounced => Bounced
    case ComplainedOf => Complained
    case SoftBounced => Delayed
    case DelayedBy => Delayed
    case FailedWith(deliveryUnknown) => if deliveryUnknown then Unknown else Failed
  }

  /** Whether one event overrides what a message shows. */
  predicate Overrides(m: Message, e: Event) {
    var target := Target(e.status);
    var sticky := m.state == Bounced || m.state == Complained;
    var newer := m.eventAt.None? || m.eventAt.value <= e.occurredAt;
    || (!sticky && (target == Bounced || target == Complained || (newer && (m.state != Delivered || target == Delivered))))
    || (m.state == Bounced && target == Complained)
  }

  function Applied(m: Message, e: Event): Message {
    if m.recipient in e.recipients && Overrides(m, e) then m.(state := Target(e.status), eventAt := Some(e.occurredAt)) else m
  }

  function Folded(m: Message, events: seq<Event>): Message {
    if events == [] then m else Applied(Folded(m, events[..|events| - 1]), events[|events| - 1])
  }

  // ---------- one event, in rows ----------

  /** A complaint shows unless one is shown already, a hard bounce unless a bounce or a complaint is shown; a
      delivery never replaces those, and anything else no delivery either, nor what a later event said. */
  ghost predicate Shows(m: Message, e: Event, n: Message) {
    var negative := m.state == Bounced || m.state == Complained;
    var late := m.eventAt.Some? && m.eventAt.value > e.occurredAt;
    n ==
      if m.recipient !in e.recipients then m
      else match e.status
           case ComplainedOf => if m.state == Complained then m else m.(state := Complained, eventAt := Some(e.occurredAt))
           case HardBounced => if negative then m else m.(state := Bounced, eventAt := Some(e.occurredAt))
           case DeliveredTo => if negative || late then m else m.(state := Delivered, eventAt := Some(e.occurredAt))
           case Sent => if negative || m.state == Delivered || late then m else m.(state := Accepted, eventAt := Some(e.occurredAt))
           case SoftBounced => if negative || m.state == Delivered || late then m else m.(state := Delayed, eventAt := Some(e.occurredAt))
           case DelayedBy => if negative || m.state == Delivered || late then m else m.(state := Delayed, eventAt := Some(e.occurredAt))
           case FailedWith(doubtful) =>
             if negative || m.state == Delivered || late then m
             else m.(state := if doubtful then Unknown else Failed, eventAt := Some(e.occurredAt))
  }

  lemma AppliedMeans(m: Message, e: Event)
    ensures Shows(m, e, Applied(m, e))
  {
  }

  /** A new event is stored; every message linked to its provider shows it as it should, every other message is as
      it was, and the event counts as processed exactly if there is such a message. */
  ghost predicate EventTaken(before: map<Id, Message>, earlier: map<Id, Event>, id: Id, event: Event, messages: map<Id, Message>, events: map<Id, Event>) {
    && messages.Keys == before.Keys && events.Keys == earlier.Keys + {id}
    && (forall i | i in messages && i in before ::
          if before[i].provider == Some(event.provider) then Shows(before[i], event, messages[i]) else messages[i] == before[i])
    && (forall e | e in earlier && e in events && e != id && earlier[e].provider != event.provider :: events[e] == earlier[e])
    && id in events && events[id] == event.(processed := events[id].processed)
    && (events[id].processed <==> exists i :: i in before && before[i].provider == Some(event.provider))
  }

  /** An acknowledged submission changes its own message only, and that only if no event has reached it; without a
      pending event about its recipient it shows what was acknowledged. Then nothing of that provider is pending. */
  ghost predicate LinkTaken(before: map<Id, Message>, earlier: map<Id, Event>, id: Id, state: State, provider: Id,
                            messages: map<Id, Message>, events: map<Id, Event>)
    requires id in before
  {
    && messages.Keys == before.Keys && events.Keys == earlier.Keys
    && (forall i | i in messages && i in before && (i != id || before[id].eventAt.Some?) :: messages[i] == before[i])
    && (before[id].eventAt.None? && (forall e | e in earlier && earlier[e].provider == provider && !earlier[e].processed :: before[id].recipient !in earlier[e].recipients) ==>
          messages[id] == before[id].(state := state, provider := Some(provider)))
    && (before[id].eventAt.None? ==> forall e | e in events && e in earlier && earlier[e].provider == provider :: events[e] == earlier[e].(processed := true))
    && (forall e | e in events && e in earlier && earlier[e].provider != provider :: events[e] == earlier[e])
  }

  /** Neither a delivery nor a negative outcome. */
  predicate Passing(e: Event) { e.status == Sent || e.status == SoftBounced || e.status == DelayedBy || e.status.FailedWith? }

  /** Among passing events the newest wins, in whatever order they come: what a message then shows was said by an
      event that no other one is newer than, or it shows what it did because none is as new. */
  lemma {:induction false} NewestWins(m: Message, events: seq<Event>)
    requires m.state != Delivered && m.state != Bounced && m.state != Complained
    requires forall e | e in events :: m.recipient in e.recipients ==> Passing(e)
    ensures var n := Folded(m, events);
      && (n == m || exists e | e in events :: m.recipient in e.recipients && n.eventAt == Some(e.occurredAt) && Shows(m.(eventAt := None), e, n))
      && (m.eventAt.Some? ==> n.eventAt.Some? && m.eventAt.value <= n.eventAt.value)
      && (forall e | e in events && m.recipient in e.recipients :: n.eventAt.Some? && e.occurredAt <= n.eventAt.value)
  {
    if events != [] {
      var front, last := events[..|events| - 1], events[|events| - 1];
      assert events == front + [last];
      NewestWins(m, front);
      hide Overrides;
      AppliedMeans(Folded(m, front), last);
    }
  }

  // ---------- the negative outcomes ----------

  /** Complaints outrank bounces, and both outrank everything else. */
  function Rank(s: State): nat { if s == Complained then 2 else if s == Bounced then 1 else 0 }

  predicate Final(s: State) { s == Delivered || s == Bounced || s == Complained }

  predicate Names(e: Event, recipient: Id, rank: nat) {
    recipient in e.recipients && Rank(Target(e.status)) == rank
  }

  function Worse(a: nat, b: nat): nat { if a < b then b else a }

  lemma AppliedRank(m: Message, e: Event)
    ensures Rank(Applied(m, e).state) == if m.recipient in e.recipients then Worse(Rank(m.state), Rank(Target(e.status))) else Rank(m.state)
    ensures Applied(m, e).recipient == m.recipient && Applied(m, e).provider == m.provider
    ensures m.eventAt.Some? ==> Applied(m, e).eventAt.Some?
    ensures m.eventAt.None? && Applied(m, e).eventAt.None? ==> Applied(m, e).state == m.state
  {
  }

  /** Some event of the list tells the recipient this outcome. */
  predicate Tells(events: seq<Event>, recipient: Id, rank: nat) {
    exists i :: 0 <= i < |events| && Names(events[i], recipient, rank)
  }

  /** Folding events in any order leaves the worst outcome that names the recipient. */
  lemma {:induction false} FoldedRank(m: Message, events: seq<Event>)
    ensures Folded(m, events).recipient == m.recipient && Folded(m, events).provider == m.provider
    ensures Rank(Folded(m, events).state) == 2 <==> Rank(m.state) == 2 || Tells(events, m.recipient, 2)
    ensures Rank(Folded(m, events).state) >= 1 <==> Rank(m.state) >= 1 || Tells(events, m.recipient, 1) || Tells(events, m.recipient, 2)
    ensures (Rank(m.state) > 0 ==> m.eventAt.Some?) ==> (Rank(Folded(m, events).state) > 0 ==> Folded(m, events).eventAt.Some?)
  {
    if events != [] {
      var last, front := events[|events| - 1], events[..|events| - 1];
      FoldedRank(m, front);
      AppliedRank(Folded(m, front), last);
      TellsMore(front, last, m.recipient, 1);
      TellsMore(front, last, m.recipient, 2);
      assert front + [last] == events;
    }
  }

  lemma TellsMore(front: seq<Event>, last: Event, recipient: Id, rank: nat)
    ensures Tells(front + [last], recipient, rank) <==> Tells(front, recipient, rank) || Names(last, recipient, rank)
  {
    var all := front + [last];
    assert forall i :: 0 <= i < |front| ==> all[i] == front[i];
    if Names(last, recipient, rank) {
      assert Names(all[|front|], recipient, rank);
    }
    if Tells(front, recipient, rank) {
      var i :| 0 <= i < |front| && Names(front[i], recipient, rank);
      assert Names(all[i], recipient, rank);
    }
  }

  /** Two orders of the same events end in the same negative outcome, or both in none. */
  lemma OrderFree(m: Message, a: seq<Event>, b: seq<Event>)
    requires forall e :: e in a <==> e in b
    ensures Rank(Folded(m, a).state) == Rank(Folded(m, b).state)
  {
    FoldedRank(m, a);
    FoldedRank(m, b);
    forall r: nat ensures Tells(a, m.recipient, r) <==> Tells(b, m.recipient, r) {
      if Tells(a, m.recipient, r) {
        var i :| 0 <= i < |a| && Names(a[i], m.recipient, r);
        assert a[i] in b;
      }
      if Tells(b, m.recipient, r) {
        var i :| 0 <= i < |b| && Names(b[i], m.recipient, r);
        assert b[i] in a;
      }
    }
  }

  /** No such claim holds of the rest: delivery and delay depend on the order of arrival. */
  lemma DeliveryIsNotOrderFree()
    ensures exists m, a, b :: Applied(Applied(m, a), b).state != Applied(Applied(m, b), a).state
  {
    var m := Message(1, Accepted, Some(1), None);
    var a, b := Event(1, DelayedBy, 5, {1}, false), Event(1, Sent, 5, {1}, false);
    assert Applied(Applied(m, a), b).state == Accepted && Applied(Applied(m, b), a).state == Delayed;
  }

  // ---------- the inbox and the messages ----------

  /** Some stored event of the message's provider, not among the missed ones, tells it this outcome. */
  predicate Told(m: Message, events: map<Id, Event>, missed: set<Id>, rank: nat) {
    exists e :: e in events && Some(events[e].provider) == m.provider && e !in missed && Names(events[e], m.recipient, rank)
  }

  /** A message is complained of exactly when some complaint names its recipient, else bounced exactly
      when some hard bounce does. */
  predicate Verdict(m: Message, events: map<Id, Event>, missed: set<Id>) {
    && (m.state == Complained <==> Told(m, events, missed, 2))
    && (m.state == Bounced <==> !Told(m, events, missed, 2) && Told(m, events, missed, 1))
    && (Rank(m.state) > 0 ==> m.eventAt.Some?)
  }

  /** Nothing is left unprocessed for a linked message. */
  predicate UpToDate(messages: map<Id, Message>, events: map<Id, Event>) {
    forall id, e :: id in messages && e in events && messages[id].provider == Some(events[e].provider) ==> events[e].processed
  }

  predicate SameButProcessed(a: map<Id, Event>, b: map<Id, Event>) {
    a.Keys == b.Keys && forall e :: e in a ==> a[e].(processed := b[e].processed) == b[e]
  }

  lemma ToldSame(m: Message, n: Message, a: map<Id, Event>, b: map<Id, Event>, missed: set<Id>, rank: nat)
    requires SameButProcessed(a, b) && n.recipient == m.recipient && n.provider == m.provider
    ensures Told(m, a, missed, rank) <==> Told(n, b, missed, rank)
  {
    if Told(m, a, missed, rank) {
      var e :| e in a && Some(a[e].provider) == m.provider && e !in missed && Names(a[e], m.recipient, rank);
      assert Names(b[e], n.recipient, rank);
    }
    if Told(n, b, missed, rank) {
      var e :| e in b && Some(b[e].provider) == n.provider && e !in missed && Names(b[e], n.recipient, rank);
      assert Names(a[e], m.recipient, rank);
    }
  }

  lemma ToldMore(m: Message, events: map<Id, Event>, missed: set<Id>, id: Id, e: Event, rank: nat)
    requires id !in events && id !in missed
    ensures Told(m, events[id := e], missed, rank) <==> Told(m, events, missed, rank) || (m.provider == Some(e.provider) && Names(e, m.recipient, rank))
  {
    var more := events[id := e];
    if Told(m, events, missed, rank) {
      var x :| x in events && Some(events[x].provider) == m.provider && x !in missed && Names(events[x], m.recipient, rank);
      assert Names(more[x], m.recipient, rank);
    }
    if m.provider == Some(e.provider) && Names(e, m.recipient, rank) {
      assert Names(more[id], m.recipient, rank);
    }
  }

  /** A message just linked is told exactly what the unprocessed events say. */
  lemma ToldOnLinking(m: Message, events: map<Id, Event>, missed: set<Id>, order: seq<Id>, rank: nat)
    requires m.provider.Some? && Pending(events, m.provider.value, order)
    requires missed == ProcessedOf(events, m.provider.value)
    ensures Told(m, events, missed, rank) <==> Tells(Read(events, order), m.recipient, rank)
  {
    if Told(m, events, missed, rank) {
      var e :| e in events && Some(events[e].provider) == m.provider && e !in missed && Names(events[e], m.recipient, rank);
      var i :| 0 <= i < |order| && order[i] == e;
      assert Names(Read(events, order)[i], m.recipient, rank);
    }
    if Tells(Read(events, order), m.recipient, rank) {
      var i :| 0 <= i < |order| && Names(Read(events, order)[i], m.recipient, rank);
      assert Names(events[order[i]], m.recipient, rank);
    }
  }

  function ProcessedOf(events: map<Id, Event>, provider: Id): set<Id> {
    set e | e in events && events[e].provider == provider && events[e].processed
  }

  function Read(events: map<Id, Event>, order: seq<Id>): seq<Event>
    requires forall i :: 0 <= i < |order| ==> order[i] in events
  {
    seq(|order|, i requires 0 <= i < |order| => events[order[i]])
  }

  /** The unprocessed events of a provider, each once, in whatever order they are read. */
  predicate Pending(events: map<Id, Event>, provider: Id, order: seq<Id>) {
    && (forall i, j :: 0 <= i < j < |order| ==> order[i] != order[j])
    && (forall i :: 0 <= i < |order| ==> order[i] in events && events[order[i]].provider == provider && !events[order[i]].processed)
    && (forall e :: e in events && events[e].provider == provider && !events[e].processed ==> e in order)
  }

  lemma NothingFolded(messages: map<Id, Message>, events: map<Id, Event>, order: seq<Id>)
    requires forall i :: 0 <= i < |order| ==> order[i] in events
    ensures forall id :: id in messages ==> Folded(messages[id], Read(events, order)[..0]) == messages[id]
  {
  }

  lemma FoldedNext(m: Message, all: seq<Event>, i: nat)
    requires i < |all|
    ensures Folded(m, all[..i + 1]) == Applied(Folded(m, all[..i]), all[i])
  {
    assert all[..i + 1][..i] == all[..i];
  }

  lemma PendingNext(events: map<Id, Event>, provider: Id, order: seq<Id>, i: nat)
    requires Pending(events, provider, order) && i < |order|
    ensures order[i] in events && order[i] !in order[..i]
    ensures forall e :: e in order[..i + 1] <==> e in order[..i] || e == order[i]
    ensures Read(events, order)[i] == events[order[i]]
  {
    assert order[..i + 1] == order[..i] + [order[i]];
  }

  /** The messages of a provider, each listed once. */
  predicate Linked(messages: map<Id, Message>, provider: Id, ids: seq<Id>) {
    && (forall i, j :: 0 <= i < j < |ids| ==> ids[i] != ids[j])
    && (forall i :: 0 <= i < |ids| ==> ids[i] in messages && messages[ids[i]].provider == Some(provider))
    && (forall id :: id in messages && messages[id].provider == Some(provider) ==> id in ids)
  }

  class Inbox {
    var messages: map<Id, Message>
    var events: map<Id, Event>

    /** For each message the events of its provider that had been processed before it was linked. */
    ghost var missed: map<Id, set<Id>>

    /** The providers' names that some message was ever linked to. */
    ghost var linked: set<Id>

    constructor ()
      ensures Reconciled() && messages == map[] && events == map[] && missed == map[] && linked == {}
    {
      messages, events, missed, linked := map[], map[], map[], {};
    }

    ghost predicate Reconciled()
      reads this
    {
      && missed.Keys == messages.Keys && UpToDate(messages, events)
      && (forall id :: id in messages ==> Verdict(messages[id], events, missed[id]) && missed[id] <= events.Keys)
      && (forall id :: id in messages && messages[id].provider.Some? ==> messages[id].provider.value in linked)
      && (forall e :: e in events && events[e].processed ==> events[e].provider in linked)
    }

    /** A message is queued. */
    method Queue(id: Id, recipient: Id)
      requires Reconciled() && id !in messages
      modifies this
      ensures Reconciled() && messages == old(messages)[id := Message(recipient, Queued, None, None)] && events == old(events)
      ensures missed == old(missed)[id := {}] && linked == old(linked)
    {
      messages := messages[id := Message(recipient, Queued, None, None)];
      missed := missed[id := {}];
    }

    /** The worker's own writes about an attempt to send; they leave final outcomes alone. */
    method Attempted(id: Id, state: State)
      requires Reconciled() && id in messages && Rank(state) == 0
      modifies this
      ensures Reconciled() && events == old(events) && missed == old(missed) && linked == old(linked)
      ensures var was := old(messages)[id].state;
        messages == if was == Delivered || was == Bounced || was == Complained then old(messages)
                    else old(messages)[id := old(messages)[id].(state := state)]
    {
      if !Final(messages[id].state) {
        var m := messages[id];
        forall r: nat ensures Told(m.(state := state), events, missed[id], r) == Told(m, events, missed[id], r) {
          ToldSame(m, m.(state := state), events, events, missed[id], r);
        }
        messages := messages[id := m.(state := state)];
      }
    }

    /** One event against every linked message. */
    method ApplyToAll(event: Event, ids: seq<Id>)
      requires forall i :: 0 <= i < |ids| ==> ids[i] in messages
      requires forall i, j :: 0 <= i < j < |ids| ==> ids[i] != ids[j]
      modifies this`messages
      ensures messages.Keys == old(messages).Keys
      ensures forall id :: id in messages ==> messages[id] == if id in ids then Applied(old(messages)[id], event) else old(messages)[id]
    {
      var j := 0;
      while j < |ids|
        invariant 0 <= j <= |ids| && messages.Keys == old(messages).Keys
        invariant forall id :: id in messages ==> messages[id] == if id in ids[..j] then Applied(old(messages)[id], event) else old(messages)[id]
      {
        assert ids[..j + 1] == ids[..j] + [ids[j]];
        assert ids[j] !in ids[..j];
        var m := messages[ids[j]];
        if m.recipient in event.recipients {
          var target := Target(event.status);
          var sticky := m.state == Bounced || m.state == Complained;
          var newer := m.eventAt.None? || m.eventAt.value <= event.occurredAt;
          if (!sticky && (target == Bounced || target == Complained || (newer && (m.state != Delivered || target == Delivered))))
             || (m.state == Bounced && target == Complained) {
            messages := messages[ids[j] := m.(state := target, eventAt := Some(event.occurredAt))];
          }
        }
        j := j + 1;
      }
      assert ids[..j] == ids;
    }

    /** `reconcile`: a provider's unprocessed events in the order they are read, each against every linked message. */
    method Reconcile(provider: Id, order: seq<Id>, ids: seq<Id>)
      requires Linked(messages, provider, ids) && Pending(events, provider, order)
      modifies this`messages, this`events
      ensures messages.Keys == old(messages).Keys && SameButProcessed(old(events), events)
      ensures forall id :: id in messages ==>
        messages[id] == if id in ids then Folded(old(messages)[id], Read(old(events), order)) else old(messages)[id]
      ensures forall e :: e in events ==>
        events[e] == if e in order && ids != [] then old(events)[e].(processed := true) else old(events)[e]
      ensures forall id :: id in messages ==> messages[id].provider == old(messages)[id].provider && messages[id].recipient == old(messages)[id].recipient
    {
      if ids == [] {
        return;
      }
      hide Applied, UpToDate, Folded;
      var i := 0;
      ghost var all := Read(events, order);
      NothingFolded(messages, events, order);
      while i < |order|
        invariant 0 <= i <= |order| && messages.Keys == old(messages).Keys && events.Keys == old(events).Keys
        invariant forall id :: id in messages ==> messages[id] == if id in ids then Folded(old(messages)[id], all[..i]) else old(messages)[id]
        invariant forall e :: e in events ==> events[e] == if e in order[..i] then old(events)[e].(processed := true) else old(events)[e]
      {
        PendingNext(old(events), provider, order, i);
        var event := events[order[i]];
        forall m: Message ensures Folded(m, all[..i + 1]) == Applied(Folded(m, all[..i]), event) {
          FoldedNext(m, all, i);
        }
        ApplyToAll(event, ids);
        events := events[order[i] := event.(processed := true)];
        i := i + 1;
      }
      assert order[..i] == order && all[..i] == all;
      forall id | id in messages ensures messages[id].provider == old(messages)[id].provider && messages[id].recipient == old(messages)[id].recipient {
        FoldedRank(old(messages)[id], all);
      }
    }

    /** `receive`: a repeated event changes nothing; a new one is stored and reconciled at once. */
    method Receive(id: Id, event: Event, order: seq<Id>, ids: seq<Id>)
      requires Reconciled() && !event.processed && Linked(messages, event.provider, ids)
      requires id !in events ==> Pending(events[id := event], event.provider, order)
      modifies this
      ensures Reconciled() && missed == old(missed) && linked == old(linked) && messages.Keys == old(messages).Keys
      ensures SameButProcessed(if id in old(events) then old(events) else old(events)[id := event], events)
      ensures id in old(events) ==> messages == old(messages) && events == old(events)
      ensures id !in old(events) ==> EventTaken(old(messages), old(events), id, event, messages, events)
      ensures forall i :: i in messages ==> messages[i].provider == old(messages)[i].provider && messages[i].recipient == old(messages)[i].recipient
    {
      hide Verdict, Told, Folded, UpToDate, Linked, Pending, Names, EventTaken, Rank;
      if id in events {
        return;
      }
      ghost var before, earlier := messages, events;
      events := events[id := event];
      Reconcile(event.provider, order, ids);
      assert UpToDate(messages, events) by {
        OthersStay(before, earlier, id, event);
        ReconciledUpToDate(before, earlier[id := event], event.provider, order, ids, messages, events);
      }
      VerdictsAfterEvent(before, earlier, events, id, event, order, ids, messages, missed);
      ProcessedLinked(before, earlier[id := event], event.provider, order, ids, events, linked);
      TakesEvent(before, earlier, id, event, order, ids, messages, events);
    }

    /** `submitted`: the acknowledgement links a message to its provider's name for it, unless an event
        already reached it, and catches up with the events that came first. Those that an earlier link of
        the same name had already processed are missed: the message is told the worst of all events if
        and only if none of them is worse than all that are still unprocessed, so always at a first link. */
    method Submitted(id: Id, state: State, provider: Id, order: seq<Id>, ids: seq<Id>)
      requires Reconciled() && id in messages && Rank(state) == 0
      requires Pending(events, provider, order) && Linked(Acknowledged(messages, id, state, provider), provider, ids)
      modifies this
      ensures Reconciled() && SameButProcessed(old(events), events) && messages.Keys == old(messages).Keys
      ensures missed == if old(messages)[id].eventAt.None? then old(missed)[id := ProcessedOf(old(events), provider)] else old(missed)
      ensures linked == if old(messages)[id].eventAt.None? then old(linked) + {provider} else old(linked)
      ensures old(messages)[id].eventAt.None? ==> messages[id].provider == Some(provider) && messages[id].recipient == old(messages)[id].recipient
      ensures old(messages)[id].eventAt.None? ==>
        (Verdict(messages[id], events, {}) <==> CaughtUp(old(messages)[id].recipient, old(events), provider))
      ensures old(messages)[id].eventAt.None? && provider !in old(linked) ==> missed[id] == {} && Verdict(messages[id], events, {})
      ensures LinkTaken(old(messages), old(events), id, state, provider, messages, events)
    {
      hide Verdict, Told, Folded, UpToDate, Linked, Pending, LinkTaken, Rank, CaughtUp;
      ghost var before, earlier := Acknowledged(messages, id, state, provider), events;
      if messages[id].eventAt.None? {
        messages := messages[id := messages[id].(state := state, provider := Some(provider))];
        missed := missed[id := ProcessedOf(events, provider)];
        linked := linked + {provider};
      }
      assert messages == before;
      hide Acknowledged;
      Reconcile(provider, order, ids);
      assert UpToDate(messages, events) by {
        OthersLinked(old(messages), earlier, id, state, provider);
        ReconciledUpToDate(before, earlier, provider, order, ids, messages, events);
      }
      VerdictsAfterLink(old(messages), earlier, events, id, state, provider, order, ids, messages, old(missed), missed);
      ProcessedLinked(before, earlier, provider, order, ids, events, linked);
      TakesLink(old(messages), earlier, id, state, provider, order, ids, messages, events);
      if old(messages)[id].eventAt.None? {
        LinkedComplete(before[id], messages[id], earlier, events);
        assert provider !in old(linked) ==> missed[id] == {};
      }
    }
  }

  lemma OneFolded(before: map<Id, Message>, earlier: map<Id, Event>, id: Id, event: Event, order: seq<Id>, i: Id)
    requires i in before && before[i].provider == Some(event.provider) && UpToDate(before, earlier) && id !in earlier && !event.processed
    requires Pending(earlier[id := event], event.provider, order)
    ensures Shows(before[i], event, Folded(before[i], Read(earlier[id := event], order)))
  {
    OnlyTheNew(before, earlier, id, event, order, i);
    assert Read(earlier[id := event], order) == [event];
    assert [event][..0] == [];
    FoldedNone(before[i]);
    AppliedMeans(before[i], event);
  }

  lemma PendingIs(events: map<Id, Event>, provider: Id, order: seq<Id>)
    requires Pending(events, provider, order)
    ensures forall e :: e in order <==> e in events && events[e].provider == provider && !events[e].processed
  {
  }

  lemma AlreadyLinked(first: map<Id, Message>, earlier: map<Id, Event>, id: Id, state: State, provider: Id, order: seq<Id>, ids: seq<Id>, i: Id)
    requires id in first && i in first && UpToDate(first, earlier) && (i != id || first[id].eventAt.Some?)
    requires Pending(earlier, provider, order) && Linked(Acknowledged(first, id, state, provider), provider, ids)
    ensures first[i] == if i in ids then Folded(first[i], Read(earlier, order)) else Acknowledged(first, id, state, provider)[i]
  {
    LinkedIff(Acknowledged(first, id, state, provider), provider, ids);
    if i in ids {
      NothingPending(first, earlier, i, provider, order);
      FoldedNone(first[i]);
      assert Read(earlier, order) == [];
    }
  }

  lemma NothingNamed(m: Message, events: map<Id, Event>, provider: Id, order: seq<Id>)
    requires Pending(events, provider, order)
    ensures (forall e | e in events && events[e].provider == provider && !events[e].processed :: m.recipient !in events[e].recipients) ==>
      Folded(m, Read(events, order)) == m
  {
    if forall e | e in events && events[e].provider == provider && !events[e].processed :: m.recipient !in events[e].recipients {
      forall e | e in Read(events, order) ensures m.recipient !in e.recipients {
        var k :| 0 <= k < |order| && Read(events, order)[k] == e;
        assert events[order[k]] == e;
      }
      NothingNew(m, Read(events, order));
    }
  }

  lemma TakesEvent(before: map<Id, Message>, earlier: map<Id, Event>, id: Id, event: Event, order: seq<Id>, ids: seq<Id>,
                   messages: map<Id, Message>, events: map<Id, Event>)
    requires UpToDate(before, earlier) && id !in earlier && !event.processed
    requires Linked(before, event.provider, ids) && Pending(earlier[id := event], event.provider, order)
    requires messages.Keys == before.Keys && events.Keys == earlier.Keys + {id}
    requires forall i :: i in messages ==> messages[i] == if i in ids then Folded(before[i], Read(earlier[id := event], order)) else before[i]
    requires forall e :: e in events ==> events[e] == if e in order && ids != [] then earlier[id := event][e].(processed := true) else earlier[id := event][e]
    ensures EventTaken(before, earlier, id, event, messages, events)
  {
    hide Folded, Shows, UpToDate, Linked, Pending;
    LinkedIff(before, event.provider, ids);
    forall i | i in before ensures if before[i].provider == Some(event.provider) then Shows(before[i], event, messages[i]) else messages[i] == before[i] {
      if i in ids {
        OneFolded(before, earlier, id, event, order, i);
      }
    }
    PendingIs(earlier[id := event], event.provider, order);
    assert ids != [] ==> ids[0] in ids;
  }

  lemma TakesLink(before: map<Id, Message>, earlier: map<Id, Event>, id: Id, state: State, provider: Id, order: seq<Id>, ids: seq<Id>,
                  messages: map<Id, Message>, events: map<Id, Event>)
    requires id in before && UpToDate(before, earlier)
    requires Pending(earlier, provider, order) && Linked(Acknowledged(before, id, state, provider), provider, ids)
    requires messages.Keys == before.Keys && events.Keys == earlier.Keys
    requires var v := Acknowledged(before, id, state, provider);
      forall i :: i in messages ==> messages[i] == if i in ids then Folded(v[i], Read(earlier, order)) else v[i]
    requires forall e :: e in events ==> events[e] == if e in order && ids != [] then earlier[e].(processed := true) else earlier[e]
    ensures LinkTaken(before, earlier, id, state, provider, messages, events)
  {
    hide Folded, UpToDate, Linked, Pending;
    forall i | i in messages && (i != id || before[id].eventAt.Some?) ensures messages[i] == before[i] {
      AlreadyLinked(before, earlier, id, state, provider, order, ids, i);
    }
    NothingNamed(Acknowledged(before, id, state, provider)[id], earlier, provider, order);
    PendingIs(earlier, provider, order);
    LinkedIff(Acknowledged(before, id, state, provider), provider, ids);
  }

  /** No pending event names the recipient. */
  lemma {:induction false} NothingNew(m: Message, events: seq<Event>)
    requires forall e | e in events :: m.recipient !in e.recipients
    ensures Folded(m, events) == m
  {
    if events != [] {
      NothingNew(m, events[..|events| - 1]);
    }
  }

  /** One message's verdict after a new event. */
  lemma VerdictAfterEvent(before: map<Id, Message>, earlier: map<Id, Event>, events: map<Id, Event>, id: Id, event: Event,
                          order: seq<Id>, ids: seq<Id>, i: Id, n: Message, missed: set<Id>)
    requires i in before && UpToDate(before, earlier) && Verdict(before[i], earlier, missed) && id !in earlier && id !in missed && !event.processed
    requires Pending(earlier[id := event], event.provider, order) && Linked(before, event.provider, ids) && SameButProcessed(earlier[id := event], events)
    requires n == if i in ids then Folded(before[i], Read(earlier[id := event], order)) else before[i]
    ensures Verdict(n, events, missed)
  {
    hide Verdict, Told, Folded, UpToDate, Linked, Pending;
    LinkedIff(before, event.provider, ids);
    if i in ids {
      OnlyTheNew(before, earlier, id, event, order, i);
      assert Read(earlier[id := event], order) == [event];
    }
    ReceivedVerdict(before[i], n, earlier, events, missed, id, event);
  }

  /** One message's verdict after a submission was recorded: the linked one's, or another's. */
  lemma VerdictAfterLink(first: map<Id, Message>, earlier: map<Id, Event>, events: map<Id, Event>, id: Id, state: State, provider: Id,
                         order: seq<Id>, ids: seq<Id>, i: Id, n: Message, before: set<Id>, missed: set<Id>)
    requires id in first && i in first && Rank(state) == 0 && UpToDate(first, earlier) && Verdict(first[i], earlier, before)
    requires Pending(earlier, provider, order) && Linked(Acknowledged(first, id, state, provider), provider, ids) && SameButProcessed(earlier, events)
    requires var m := Acknowledged(first, id, state, provider)[i]; n == if i in ids then Folded(m, Read(earlier, order)) else m
    requires missed == if i == id && first[id].eventAt.None? then ProcessedOf(earlier, provider) else before
    ensures Verdict(n, events, missed)
  {
    hide Verdict, Told, Folded, UpToDate, Linked, Pending;
    var linked := Acknowledged(first, id, state, provider);
    if i == id && first[id].eventAt.None? {
      UntoldWithoutEvent(first[id], earlier, before);
      LinkedIff(linked, provider, ids);
      LinkedVerdict(linked[i], n, earlier, events, order);
    } else {
      if i in ids {
        LinkedIff(linked, provider, ids);
        NothingPending(first, earlier, i, provider, order);
        assert Read(earlier, order) == [];
        FoldedNone(first[i]);
      }
      SameVerdict(first[i], earlier, events, before);
    }
  }

  lemma VerdictsAfterLink(first: map<Id, Message>, earlier: map<Id, Event>, events: map<Id, Event>, id: Id, state: State, provider: Id,
                          order: seq<Id>, ids: seq<Id>, messages: map<Id, Message>, before: map<Id, set<Id>>, missed: map<Id, set<Id>>)
    requires id in first && Rank(state) == 0 && UpToDate(first, earlier) && messages.Keys == first.Keys == before.Keys == missed.Keys
    requires forall i :: i in first ==> Verdict(first[i], earlier, before[i])
    requires Pending(earlier, provider, order) && Linked(Acknowledged(first, id, state, provider), provider, ids) && SameButProcessed(earlier, events)
    requires var v := Acknowledged(first, id, state, provider);
      forall i :: i in messages ==> messages[i] == if i in ids then Folded(v[i], Read(earlier, order)) else v[i]
    requires missed == if first[id].eventAt.None? then before[id := ProcessedOf(earlier, provider)] else before
    ensures forall i :: i in messages ==> Verdict(messages[i], events, missed[i])
  {
    hide Verdict, Folded, UpToDate, Linked, Pending, SameButProcessed, Acknowledged;
    forall i | i in messages ensures Verdict(messages[i], events, missed[i]) {
      VerdictAfterLink(first, earlier, events, id, state, provider, order, ids, i, messages[i], before[i], missed[i]);
    }
  }

  lemma VerdictsAfterEvent(before: map<Id, Message>, earlier: map<Id, Event>, events: map<Id, Event>, id: Id, event: Event,
                           order: seq<Id>, ids: seq<Id>, messages: map<Id, Message>, missed: map<Id, set<Id>>)
    requires UpToDate(before, earlier) && id !in earlier && !event.processed && messages.Keys == before.Keys == missed.Keys
    requires forall i :: i in before ==> Verdict(before[i], earlier, missed[i]) && id !in missed[i]
    requires Pending(earlier[id := event], event.provider, order) && Linked(before, event.provider, ids) && SameButProcessed(earlier[id := event], events)
    requires forall i :: i in messages ==> messages[i] == if i in ids then Folded(before[i], Read(earlier[id := event], order)) else before[i]
    ensures forall i :: i in messages ==> Verdict(messages[i], events, missed[i])
  {
    hide Verdict, Folded, UpToDate, Linked, Pending, SameButProcessed;
    forall i | i in messages ensures Verdict(messages[i], events, missed[i]) {
      VerdictAfterEvent(before, earlier, events, id, event, order, ids, i, messages[i], missed[i]);
    }
  }

  /** Apart from one provider's messages and events, nothing is unprocessed. */
  predicate OthersUpToDate(messages: map<Id, Message>, events: map<Id, Event>, provider: Id) {
    forall i, e :: i in messages && e in events && messages[i].provider == Some(events[e].provider) && events[e].provider != provider
                   ==> events[e].processed
  }

  lemma OthersStay(messages: map<Id, Message>, events: map<Id, Event>, id: Id, event: Event)
    requires UpToDate(messages, events)
    ensures OthersUpToDate(messages, events[id := event], event.provider)
  {
  }

  lemma OthersLinked(messages: map<Id, Message>, events: map<Id, Event>, id: Id, state: State, provider: Id)
    requires UpToDate(messages, events) && id in messages
    ensures OthersUpToDate(Acknowledged(messages, id, state, provider), events, provider)
  {
  }

  lemma LinkedIff(messages: map<Id, Message>, provider: Id, ids: seq<Id>)
    requires Linked(messages, provider, ids)
    ensures forall i :: i in messages ==> (i in ids <==> messages[i].provider == Some(provider))
    ensures forall i :: i in ids ==> i in messages
  {
  }

  lemma NothingPending(messages: map<Id, Message>, events: map<Id, Event>, i: Id, provider: Id, order: seq<Id>)
    requires UpToDate(messages, events) && i in messages && messages[i].provider == Some(provider) && Pending(events, provider, order)
    ensures order == []
  {
    assert Elements(order) == {};
    DistinctCardinality(order);
  }

  lemma ReconciledUpToDate(before: map<Id, Message>, earlier: map<Id, Event>, provider: Id, order: seq<Id>, ids: seq<Id>,
                           messages: map<Id, Message>, events: map<Id, Event>)
    requires OthersUpToDate(before, earlier, provider) && Linked(before, provider, ids) && Pending(earlier, provider, order)
    requires messages.Keys == before.Keys && forall i :: i in messages ==> messages[i].provider == before[i].provider
    requires events.Keys == earlier.Keys
    requires forall e :: e in events ==> events[e] == if e in order && ids != [] then earlier[e].(processed := true) else earlier[e]
    ensures UpToDate(messages, events)
  {
  }

  lemma ProcessedLinked(before: map<Id, Message>, earlier: map<Id, Event>, provider: Id, order: seq<Id>, ids: seq<Id>,
                        events: map<Id, Event>, linked: set<Id>)
    requires Linked(before, provider, ids) && Pending(earlier, provider, order)
    requires forall i :: i in before && before[i].provider.Some? ==> before[i].provider.value in linked
    requires forall e :: e in earlier && earlier[e].processed ==> earlier[e].provider in linked
    requires events.Keys == earlier.Keys
    requires forall e :: e in events ==> events[e] == if e in order && ids != [] then earlier[e].(processed := true) else earlier[e]
    ensures forall e :: e in events && events[e].processed ==> events[e].provider in linked
  {
    assert ids != [] ==> before[ids[0]].provider == Some(provider);
  }

  lemma FoldedNone(m: Message)
    ensures Folded(m, []) == m
  {
  }

  lemma ReceivedVerdict(m: Message, n: Message, earlier: map<Id, Event>, events: map<Id, Event>, missed: set<Id>, id: Id, event: Event)
    requires Verdict(m, earlier, missed) && id !in earlier && id !in missed && SameButProcessed(earlier[id := event], events)
    requires n == if m.provider == Some(event.provider) then Folded(m, [event]) else m
    ensures Verdict(n, events, missed)
  {
    FoldedRank(m, [event]);
    TellsMore([], event, m.recipient, 1);
    TellsMore([], event, m.recipient, 2);
    assert [] + [event] == [event];
    hide Folded, Names, Tells;
    forall r: nat ensures Told(n, events, missed, r) <==> Told(m, earlier, missed, r) || (m.provider == Some(event.provider) && Names(event, m.recipient, r)) {
      ToldSame(m, n, earlier[id := event], events, missed, r);
      ToldMore(m, earlier, missed, id, event, r);
    }
    hide Told;
  }

  lemma UntoldWithoutEvent(m: Message, events: map<Id, Event>, missed: set<Id>)
    requires Verdict(m, events, missed) && m.eventAt.None?
    ensures Rank(m.state) == 0
  {
  }

  lemma LinkedVerdict(m: Message, n: Message, earlier: map<Id, Event>, events: map<Id, Event>, order: seq<Id>)
    requires m.provider.Some? && Rank(m.state) == 0 && Pending(earlier, m.provider.value, order) && SameButProcessed(earlier, events)
    requires n == Folded(m, Read(earlier, order))
    ensures Verdict(n, events, ProcessedOf(earlier, m.provider.value))
  {
    var missed := ProcessedOf(earlier, m.provider.value);
    FoldedRank(m, Read(earlier, order));
    hide Folded, Names, Tells;
    forall r: nat ensures Told(n, events, missed, r) <==> Tells(Read(earlier, order), m.recipient, r) {
      ToldSame(m, n, earlier, events, missed, r);
      ToldOnLinking(m, earlier, missed, order, r);
    }
    hide Told;
  }

  /** No processed event of the provider tells the recipient worse than every unprocessed one. */
  predicate CaughtUp(recipient: Id, events: map<Id, Event>, provider: Id) {
    forall e :: e in events && events[e].provider == provider && events[e].processed && Harms(events[e], recipient) ==>
      exists f :: f in events && events[f].provider == provider && !events[f].processed && Harms(events[f], recipient)
                  && Rank(Target(events[e].status)) <= Rank(Target(events[f].status))
  }

  predicate Harms(e: Event, recipient: Id) {
    recipient in e.recipients && Rank(Target(e.status)) > 0
  }

  lemma LinkedComplete(m: Message, n: Message, earlier: map<Id, Event>, events: map<Id, Event>)
    requires m.provider.Some? && n.provider == m.provider && n.recipient == m.recipient && SameButProcessed(earlier, events)
    requires Verdict(n, events, ProcessedOf(earlier, m.provider.value))
    ensures Verdict(n, events, {}) <==> CaughtUp(m.recipient, earlier, m.provider.value)
  {
    var missed := ProcessedOf(earlier, m.provider.value);
    forall r: nat ensures (Told(n, events, missed, r) <==> Told(m, earlier, missed, r)) && (Told(n, events, {}, r) <==> Told(m, earlier, {}, r)) {
      ToldSame(m, n, earlier, events, missed, r);
      ToldSame(m, n, earlier, events, {}, r);
    }
    if CaughtUp(m.recipient, earlier, m.provider.value) {
      CaughtUpTold(m, earlier);
    } else {
      NotCaughtUpTold(m, earlier);
    }
  }

  /** The worst that all events tell is what the unprocessed ones tell. */
  predicate SameWorst(m: Message, events: map<Id, Event>, missed: set<Id>) {
    && (Told(m, events, {}, 2) <==> Told(m, events, missed, 2))
    && (!Told(m, events, {}, 2) ==> (Told(m, events, {}, 1) <==> Told(m, events, missed, 1)))
  }

  lemma CaughtUpTold(m: Message, events: map<Id, Event>)
    requires m.provider.Some? && CaughtUp(m.recipient, events, m.provider.value)
    ensures SameWorst(m, events, ProcessedOf(events, m.provider.value))
  {
    var missed := ProcessedOf(events, m.provider.value);
    forall r: nat | r > 0 && Told(m, events, {}, r) && !Told(m, events, missed, r) ensures r == 1 && Told(m, events, missed, 2) {
      var e :| e in events && Some(events[e].provider) == m.provider && Names(events[e], m.recipient, r);
      assert e in missed && Harms(events[e], m.recipient);
      var f :| f in events && events[f].provider == m.provider.value && !events[f].processed && Harms(events[f], m.recipient)
               && Rank(Target(events[e].status)) <= Rank(Target(events[f].status));
      assert Names(events[f], m.recipient, Rank(Target(events[f].status))) && f !in missed;
      assert Told(m, events, missed, Rank(Target(events[f].status)));
    }
    MissedTold(m, events, missed);
  }

  lemma MissedTold(m: Message, events: map<Id, Event>, missed: set<Id>)
    ensures forall r: nat :: Told(m, events, missed, r) ==> Told(m, events, {}, r)
  {
  }

  lemma NotCaughtUpTold(m: Message, events: map<Id, Event>)
    requires m.provider.Some? && !CaughtUp(m.recipient, events, m.provider.value)
    ensures !SameWorst(m, events, ProcessedOf(events, m.provider.value))
  {
    var missed := ProcessedOf(events, m.provider.value);
    var e :| e in events && events[e].provider == m.provider.value && events[e].processed && Harms(events[e], m.recipient)
             && forall f :: f in events && events[f].provider == m.provider.value && !events[f].processed && Harms(events[f], m.recipient)
                            ==> Rank(Target(events[f].status)) < Rank(Target(events[e].status));
    var r := Rank(Target(events[e].status));
    assert Names(events[e], m.recipient, r) && Told(m, events, {}, r);
    forall q: nat | Told(m, events, missed, q) && 0 < q ensures q < r {
      var f :| f in events && Some(events[f].provider) == m.provider && f !in missed && Names(events[f], m.recipient, q);
      assert Harms(events[f], m.recipient);
    }
  }

  lemma SameVerdict(m: Message, earlier: map<Id, Event>, events: map<Id, Event>, missed: set<Id>)
    requires Verdict(m, earlier, missed) && SameButProcessed(earlier, events)
    ensures Verdict(m, events, missed)
  {
    ToldSame(m, m, earlier, events, missed, 1);
    ToldSame(m, m, earlier, events, missed, 2);
    hide Told;
  }

  function Acknowledged(messages: map<Id, Message>, id: Id, state: State, provider: Id): map<Id, Message>
    requires id in messages
  {
    if messages[id].eventAt.None? then messages[id := messages[id].(state := state, provider := Some(provider))] else messages
  }

  /** When a linked message exists, the new event is the only one pending. */
  lemma OnlyTheNew(messages: map<Id, Message>, events: map<Id, Event>, id: Id, event: Event, order: seq<Id>, i: Id)
    requires UpToDate(messages, events) && i in messages && messages[i].provider == Some(event.provider)
    requires id !in events && !event.processed && Pending(events[id := event], event.provider, order)
    ensures order == [id]
  {
    assert id in order;
    forall k | 0 <= k < |order| ensures order[k] == id {
    }
    assert Elements(order) == {id};
    DistinctCardinality(order);
  }

  const COMPLAINT := Event(5, ComplainedOf, 0, {7}, false)

  lemma OneLinked(messages: map<Id, Message>)
    requires messages.Keys == {1} && messages[1].provider == Some(5)
    ensures Linked(messages, 5, [1])
  {
  }

  lemma NonePending(events: map<Id, Event>)
    requires forall e :: e in events ==> events[e].processed
    ensures Pending(events, 5, [])
  {
  }

  /** A message is sent and linked. */
  method Sends() returns (inbox: Inbox)
    ensures fresh(inbox) && inbox.Reconciled() && inbox.messages.Keys == {1} && inbox.events == map[]
    ensures inbox.messages[1].provider == Some(5) && inbox.messages[1].recipient == 7
  {
    inbox := new Inbox();
    hide Verdict, Told, Pending, Linked;
    inbox.Queue(1, 7);
    OneLinked(Acknowledged(inbox.messages, 1, ProviderQueued, 5));
    NonePending(inbox.events);
    inbox.Submitted(1, ProviderQueued, 5, [], [1]);
  }

  lemma ComplaintPending()
    ensures Pending(map[][0 := COMPLAINT], 5, [0])
  {
  }

  /** Its recipient complains. */
  method Complains() returns (inbox: Inbox)
    ensures fresh(inbox) && inbox.Reconciled() && inbox.messages.Keys == {1}
    ensures inbox.messages[1].provider == Some(5) && inbox.messages[1].recipient == 7
    ensures inbox.events == map[0 := COMPLAINT.(processed := true)]
  {
    inbox := Sends();
    hide Verdict, Told, Pending, Linked;
    OneLinked(inbox.messages);
    ComplaintPending();
    inbox.Receive(0, COMPLAINT, [0], [1]);
    assert inbox.events[0].processed;
  }

  /** A second message to the same person is queued. */
  method QueuesAgain() returns (inbox: Inbox)
    ensures fresh(inbox) && inbox.Reconciled() && inbox.messages.Keys == {1, 2}
    ensures inbox.messages[1].provider == Some(5) && inbox.messages[2] == Message(7, Queued, None, None)
    ensures inbox.events == map[0 := COMPLAINT.(processed := true)]
  {
    inbox := Complains();
    hide Verdict, Told;
    inbox.Queue(2, 7);
  }

  /** It can be missed: linked to the same name of the provider after the complaint was processed, the second
      message is never told of it. */
  method ComplaintMissed() returns (inbox: Inbox)
    ensures fresh(inbox) && inbox.Reconciled() && inbox.messages.Keys == {1, 2}
    ensures inbox.messages[2].provider == Some(5) && inbox.messages[2].recipient == 7 && inbox.messages[2].state != Complained
    ensures Told(inbox.messages[2], inbox.events, {}, 2)
  {
    inbox := QueuesAgain();
    hide Verdict, Told, Pending, Linked;
    SecondLinked(inbox.messages);
    NonePending(inbox.events);
    ghost var missed := ProcessedOf(inbox.events, 5);
    assert missed == {0};
    inbox.Submitted(2, ProviderQueued, 5, [], [1, 2]);
    NotTold(inbox.messages[2], inbox.events, missed);
  }

  lemma SecondLinked(messages: map<Id, Message>)
    requires messages.Keys == {1, 2} && messages[1].provider == Some(5) && messages[2].eventAt.None?
    ensures Linked(Acknowledged(messages, 2, ProviderQueued, 5), 5, [1, 2])
  {
  }

  lemma NotTold(m: Message, events: map<Id, Event>, missed: set<Id>)
    requires m.provider == Some(5) && m.recipient == 7 && 0 in events && events[0].(processed := false) == COMPLAINT
    requires missed == {0} && events.Keys == {0} && Verdict(m, events, missed)
    ensures m.state != Complained && Told(m, events, {}, 2)
  {
    assert Names(events[0], 7, 2);
  }
}
