/** The accounting transactions as updates of one wedding's books. */
module QuotaService {
  import opened Options
  import opened Totals
  import opened Quota

  class Accounts {
    var books: Books

    constructor (limit: nat)
      ensures Balanced(books, 0, 0) && AllowanceKept(books)
    {
      books := Books(0, 0, limit, true, map[], map[], map[], map[]);
      new;
      assert AssetReserved(map[]) == map[] && AssetActual(map[]) == map[] && RunReserved(map[]) == map[];
    }

    /** `intent`: the reservation is taken before any byte is accepted. */
    method Intend(id: Id, bytes: nat, ghost o: nat, ghost d: nat) returns (ok: bool)
      requires Balanced(books, o, d) && id !in books.assets
      modifies this
      ensures Balanced(books, o, d)
      ensures var needed := bytes + if bytes < 2097152 then 2097152 else bytes;
        && (ok <==> old(books).open && old(books).stored + old(books).reserved + needed <= old(books).limit)
        && (ok ==> books == old(books).(
             reserved := old(books).reserved + needed,
             assets := old(books).assets[id := Asset(Awaiting, needed, 0, false)]))
      ensures if ok then Some(books) == Intended(old(books), id, bytes) else books == old(books)
    {
      hide Balanced;
      IntendedKeeps(books, o, d, id, bytes);
      var reserved := bytes + if bytes < 2 * MIB then 2 * MIB else bytes;
      ok := books.open && books.stored + books.reserved + reserved <= books.limit;
      if ok {
        books := books.(reserved := books.reserved + reserved);
        books := books.(assets := books.assets[id := Asset(Awaiting, reserved, 0, false)]);
      }
    }

    /** The worker's last transaction on an asset: reserved bytes become stored ones. */
    method Finish(id: Id, total: nat, ghost o: nat, ghost d: nat) returns (ok: bool)
      requires Balanced(books, o, d)
      modifies this
      ensures ok <==>
        && id in old(books).assets && old(books).assets[id].processing == Processing && !old(books).assets[id].deleted
        && old(books).assets[id].reserved <= old(books).reserved
        && old(books).stored + old(books).reserved - old(books).assets[id].reserved + total <= old(books).limit
      ensures ok ==> books == old(books).(
        stored := old(books).stored + total,
        reserved := old(books).reserved - old(books).assets[id].reserved,
        assets := old(books).assets[id := Asset(Ready, 0, total, false)])
      ensures if ok then Some(books) == Committed(old(books), id, total) else books == old(books)
      ensures ok ==> Balanced(books, o + old(books).assets[id].actual, d)
    {
      hide Balanced;
      if id !in books.assets {
        return false;
      }
      var a := books.assets[id];
      if a.deleted || a.processing != Processing || books.limit < books.stored + books.reserved - a.reserved + total || books.reserved < a.reserved {
        return false;
      }
      CommittedKeeps(books, o, d, id, total);
      books := books.(stored := books.stored + total, reserved := books.reserved - a.reserved);
      books := books.(assets := books.assets[id := a.(processing := Ready, reserved := 0, actual := total)]);
      ok := true;
    }

    /** `release` of a rejected or deleted asset. */
    method Release(id: Id, to: Processing, ghost o: nat)
      requires Balanced(books, o, 0)
      modifies this
      ensures Balanced(books, o, 0) && Some(books) == Released(old(books), id, to)
      ensures id in old(books).assets ==> books == old(books).(
        stored := old(books).stored - old(books).assets[id].actual,
        reserved := old(books).reserved - old(books).assets[id].reserved,
        assets := old(books).assets[id := Asset(to, 0, 0, old(books).assets[id].deleted)])
      ensures id !in old(books).assets ==> books == old(books)
    {
      hide Balanced;
      ReleasedKeeps(books, o, 0, id, to);
      if id in books.assets {
        var a := books.assets[id];
        books := books.(stored := books.stored - a.actual, reserved := books.reserved - a.reserved);
        books := books.(assets := books.assets[id := a.(processing := to, reserved := 0, actual := 0)]);
      }
    }

    /** `sweep` of overdue uploads, or the uploads a removed member left unfinished: one row at a time. */
    method GiveUpAll(rows: seq<Id>, ghost o: nat)
      requires Balanced(books, o, 0) && forall i :: 0 <= i < |rows| ==> rows[i] in books.assets
      modifies this
      ensures Balanced(books, o, 0)
      ensures books.assets.Keys == old(books).assets.Keys && books.stored == old(books).stored && books.limit == old(books).limit
      ensures forall id :: id in books.assets ==>
        books.assets[id] == if id in rows then old(books).assets[id].(processing := Expired, reserved := 0) else old(books).assets[id]
      ensures books == old(books).(reserved := books.reserved, assets := books.assets)
    {
      hide Balanced;
      var i := 0;
      while i < |rows|
        invariant 0 <= i <= |rows| && Balanced(books, o, 0)
        invariant books == old(books).(reserved := books.reserved, assets := books.assets)
        invariant books.assets.Keys == old(books).assets.Keys
        invariant forall id :: id in books.assets ==>
          books.assets[id] == if id in rows[..i] then old(books).assets[id].(processing := Expired, reserved := 0) else old(books).assets[id]
      {
        var id := rows[i];
        GivenUpKeeps(books, o, 0, id);
        var a := books.assets[id];
        books := books.(reserved := books.reserved - a.reserved);
        books := books.(assets := books.assets[id := a.(processing := Expired, reserved := 0)]);
        assert rows[..i + 1] == rows[..i] + [id];
        i := i + 1;
      }
      assert rows[..i] == rows;
    }

    /** The replay of an erasure: its clamps make no difference to balanced books. */
    method Replay(id: Id, ghost o: nat)
      requires Balanced(books, o, 0)
      modifies this
      ensures Balanced(books, o, 0)
      ensures id in old(books).assets ==>
        && books.stored == old(books).stored - old(books).assets[id].actual
        && books.reserved == old(books).reserved - old(books).assets[id].reserved
        && books.assets == old(books).assets[id := Asset(Expired, 0, 0, true)]
      ensures id !in old(books).assets ==> books == old(books)
    {
      hide Balanced;
      ReplayedKeeps(books, o, 0, id);
      if id in books.assets {
        var stored, reserved := books.stored - books.assets[id].actual, books.reserved - books.assets[id].reserved;
        books := books.(stored := if stored < 0 then 0 else stored, reserved := if reserved < 0 then 0 else reserved);
        books := books.(assets := books.assets[id := Asset(Expired, 0, 0, true)]);
      }
    }

    /** `controls`: a limit below what is in use is refused. */
    method SetLimit(limit: int, open: bool, ghost o: nat, ghost d: nat) returns (ok: bool)
      requires Balanced(books, o, d)
      modifies this
      ensures Balanced(books, o, d) && (ok <==> old(books).stored + old(books).reserved <= limit)
      ensures books == if ok then old(books).(limit := limit, open := open) else old(books)
    {
      ok := books.stored + books.reserved <= limit;
      if ok {
        books := books.(limit := limit, open := open);
      }
    }

    /** `generate`: the allowance and, for a board, the storage, or neither. */
    method Generate(id: Id, board: bool, day: Id, allowance: nat, ghost o: nat, ghost d: nat) returns (ok: bool)
      requires Balanced(books, o, d) && AllowanceKept(books) && id !in books.runs
      modifies this
      ensures Balanced(books, o, d) && AllowanceKept(books)
      ensures ok <==> Affordable(old(books), board, day, allowance)
      ensures if ok then Requested(old(books), id, board, day, books) else books == old(books)
      ensures if ok then Some(books) == Generated(old(books), id, board, day, allowance) else books == old(books)
    {
      hide Balanced, AllowanceKept, Affordable, Requested;
      GeneratedMeans(books, id, board, day, allowance);
      GeneratedKeeps(books, o, d, id, board, day, allowance);
      GeneratedAllowance(books, id, board, day, allowance);
      var work := books;
      if day !in work.days {
        work := work.(days := work.days[day := Day(0, 0)]);
      }
      var usage := work.days[day];
      if board && usage.boards < allowance {
        work := work.(days := work.days[day := usage.(boards := usage.boards + 1)]);
      } else if !board && usage.concepts < allowance {
        work := work.(days := work.days[day := usage.(concepts := usage.concepts + 1)]);
      } else {
        return false;
      }
      var bytes: nat := 0;
      if board {
        if work.limit < work.stored + work.reserved + BOARD_BYTES {
          return false;
        }
        bytes := BOARD_BYTES;
        work := work.(reserved := work.reserved + bytes);
      }
      assert work.days == books.days[day := Counted(DayOf(books, day), board, 1)];
      books := work.(runs := work.runs[id := Run(board, day, Queued, bytes, true, false)]);
      ok := true;
    }

    method ReleaseStorage(id: Id, ghost o: nat)
      requires Balanced(books, o, 0) && AllowanceKept(books) && id in books.runs
      modifies this
      ensures Balanced(books, o, 0) && AllowanceKept(books) && Some(books) == StorageReleased(old(books), id)
      ensures books == old(books).(
        reserved := old(books).reserved - old(books).runs[id].reserved,
        runs := old(books).runs[id := old(books).runs[id].(reserved := 0)])
    {
      hide Balanced, AllowanceKept;
      StorageReleasedKeeps(books, o, 0, id);
      RunRowAllowance(books, id, books.runs[id].(reserved := 0));
      ghost var before := books;
      if books.runs[id].reserved > 0 {
        books := books.(reserved := books.reserved - books.runs[id].reserved);
        books := books.(runs := books.runs[id := books.runs[id].(reserved := 0)]);
        SameRuns(before.(runs := books.runs), books);
      }
    }

    method ReleaseRun(id: Id, ghost o: nat, ghost d: nat)
      requires Balanced(books, o, d) && AllowanceKept(books) && id in books.runs
      modifies this
      ensures Balanced(books, o, d) && AllowanceKept(books) && books == AllowanceReleased(old(books), id)
      ensures var r := old(books).runs[id];
        if !r.allowance then books == old(books)
        else
          && r.day in old(books).days
          && books == old(books).(
               runs := old(books).runs[id := r.(allowance := false)],
               days := old(books).days[r.day := if r.board then old(books).days[r.day].(boards := old(books).days[r.day].boards - 1)
                                                else old(books).days[r.day].(concepts := old(books).days[r.day].concepts - 1)])
    {
      hide Balanced;
      AllowanceReleasedKeeps(books, o, d, id);
      AllowanceReleasedOnce(books, id);
      var r := books.runs[id];
      if r.allowance {
        var usage := books.days[r.day];
        hide AllowanceKept;
        books := books.(runs := books.runs[id := r.(allowance := false)]);
        books := books.(days := books.days[r.day := if r.board then usage.(boards := usage.boards - 1) else usage.(concepts := usage.concepts - 1)]);
      }
    }

    /** `cancel`: a submitted run keeps its allowance spent, every run gives back its storage. */
    method Cancel(id: Id, ghost o: nat)
      requires Balanced(books, o, 0) && AllowanceKept(books) && id in books.runs
      modifies this
      ensures Balanced(books, o, 0) && AllowanceKept(books) && Some(books) == RunCancelled(old(books), id)
      ensures var state := old(books).runs[id].state;
        if state == Completed || state == Failed || state == Cancelled then books == old(books)
        else GivenBack(old(books), id, Cancelled, true, !(state == Submitted || state == UnknownExternal), books)
    {
      hide Balanced, AllowanceKept, StorageReleased, AllowanceReleased, GivenBack;
      CancelledMeans(books, id);
      var r := books.runs[id];
      if r.state != Completed && r.state != Failed && r.state != Cancelled {
        InStateKeeps(books, o, 0, id, Cancelled, true);
        RunRowAllowance(books, id, r.(cancelled := true, state := Cancelled));
        books := books.(runs := books.runs[id := r.(cancelled := true, state := Cancelled)]);
        if r.state != Submitted && r.state != UnknownExternal {
          RowStays(books, id);
          ReleaseRun(id, o, 0);
        }
        ReleaseStorage(id, o);
      }
    }
  }

  lemma SameRuns(b: Books, v: Books)
    requires AllowanceKept(b) && v.runs == b.runs && v.days == b.days
    ensures AllowanceKept(v)
  {
  }

  lemma RowStays(b: Books, id: Id)
    requires id in b.runs
    ensures id in AllowanceReleased(b, id).runs
  {
  }
}
