/** The ledger of channel deliveries: one row for each turn's action. The action of turn
    `t` is named `act-t`, so the turn's id stands for it here. */
module DeliveryLedger {
  import opened Prelude

  datatype Request = Request(turn: string, driver: string, text: string)

  datatype RowState = PENDING | SUCCEEDED

  /** `result` is what a retry would find: a stored JSON null counts as no result. */
  datatype Row = Row(request: Request, state: RowState, result: Option<string>, createdAt: int, updatedAt: int)

  type Ledger = map<string, Row>

  const SETTLE_MS := 5_000
  const LIST_LIMIT: nat := 20

  function Reserve(ledger: Ledger, r: Request, now: int): Ledger {
    if r.turn in ledger then ledger else ledger[r.turn := Row(r, PENDING, None, now, now)]
  }

  function CompleteAction(ledger: Ledger, turn: string, result: Option<string>, now: int): Ledger {
    if turn in ledger then ledger[turn := ledger[turn].(state := SUCCEEDED, result := result, updatedAt := now)] else ledger
  }

  /** A reply that need not be sent: an earlier one was answered. */
  predicate Answered(ledger: Ledger, turn: string) { turn in ledger && ledger[turn].result.Some? }

  function PendingSince(ledger: Ledger, olderThan: int): set<string> {
    set turn | turn in ledger && ledger[turn].state == PENDING && ledger[turn].updatedAt <= olderThan
  }

  function CreatedAt(ledger: Ledger): string -> int { turn => if turn in ledger then ledger[turn].createdAt else 0 }

  /** What `listPendingActions` may return: the oldest pending rows, with their requests. */
  ghost predicate IsPendingList(ledger: Ledger, olderThan: int, list: seq<Request>) {
    && (forall i :: 0 <= i < |list| ==> list[i].turn in ledger && ledger[list[i].turn].request == list[i])
    && IsOldest(PendingSince(ledger, olderThan), CreatedAt(ledger), LIST_LIMIT, Turns(list))
  }

  function Turns(list: seq<Request>): seq<string> { seq(|list|, i requires 0 <= i < |list| => list[i].turn) }

  function Requests(ledger: Ledger, turns: seq<string>): seq<Request>
    requires forall turn :: turn in turns ==> turn in ledger
  {
    seq(|turns|, i requires 0 <= i < |turns| => ledger[turns[i]].request)
  }

  lemma RequestsOfTurns(ledger: Ledger, turns: seq<string>)
    requires forall turn :: turn in turns ==> turn in ledger && ledger[turn].request.turn == turn
    ensures var list := Requests(ledger, turns);
      Turns(list) == turns && forall i :: 0 <= i < |list| ==> list[i].turn in ledger && ledger[list[i].turn].request == list[i]
  {
    var list := Requests(ledger, turns);
    forall i | 0 <= i < |turns| ensures list[i] == ledger[turns[i]].request && list[i].turn == turns[i] {
      assert turns[i] in turns;
    }
  }

  class DeliveryLedger {
    var rows: Ledger

    constructor (stored: Ledger)
      ensures rows == stored
    {
      rows := stored;
    }

    method ReserveAction(r: Request, now: int) returns (duplicate: bool, result: Option<string>)
      modifies this
      ensures rows == Reserve(old(rows), r, now)
      ensures duplicate == (r.turn in old(rows)) && result == if duplicate then old(rows)[r.turn].result else None
      ensures if duplicate then rows == old(rows) else rows == old(rows)[r.turn := Row(r, PENDING, None, now, now)]
      ensures result.Some? <==> Answered(old(rows), r.turn)
      ensures LedgerLater(old(rows), rows)
    {
      if r.turn in rows { return true, rows[r.turn].result; }
      rows := rows[r.turn := Row(r, PENDING, None, now, now)];
      return false, None;
    }

    method Complete(turn: string, result: Option<string>, now: int)
      modifies this
      ensures rows == CompleteAction(old(rows), turn, result, now)
      ensures LedgerLater(old(rows), rows) && rows.Keys == old(rows).Keys
      ensures turn in rows ==> rows[turn].state == SUCCEEDED && rows[turn].result == result && rows[turn].createdAt == old(rows)[turn].createdAt
    {
      if turn in rows {
        rows := rows[turn := rows[turn].(state := SUCCEEDED, result := result, updatedAt := now)];
      }
    }

    /** Every row's request names the row's own turn. */
    ghost predicate Keyed()
      reads this
    {
      forall turn :: turn in rows ==> rows[turn].request.turn == turn
    }

    method ListPendingActions(olderThan: int) returns (list: seq<Request>)
      requires Keyed()
      ensures IsPendingList(rows, olderThan, list)
      ensures forall i :: 0 <= i < |list| ==> list[i].turn in rows && rows[list[i].turn].state == PENDING && rows[list[i].turn].updatedAt <= olderThan
    {
      var turns := Oldest(PendingSince(rows, olderThan), CreatedAt(rows), LIST_LIMIT);
      assert forall turn :: turn in turns ==> turn in rows;
      list := Requests(rows, turns);
      RequestsOfTurns(rows, turns);
      forall i | 0 <= i < |list| ensures list[i].turn in rows && rows[list[i].turn].state == PENDING && rows[list[i].turn].updatedAt <= olderThan {
        ListedIsPending(rows, olderThan, list, i);
      }
    }
  }

  // ---- what holds of every ledger ----

  /** A reserved request is never replaced, a succeeded row never leaves that state. */
  ghost predicate LedgerLater(a: Ledger, b: Ledger) {
    forall turn :: turn in a ==>
      turn in b && b[turn].request == a[turn].request && (a[turn].state == SUCCEEDED ==> b[turn].state == SUCCEEDED)
  }

  /** What is listed was still pending when the list was made, and old enough. */
  lemma ListedIsPending(ledger: Ledger, olderThan: int, list: seq<Request>, i: nat)
    requires IsPendingList(ledger, olderThan, list) && i < |list|
    ensures list[i].turn in ledger && ledger[list[i].turn].state == PENDING && ledger[list[i].turn].request == list[i]
    ensures ledger[list[i].turn].updatedAt <= olderThan
  {
    assert Turns(list)[i] == list[i].turn;
    assert Turns(list)[i] in Turns(list);
  }

  /** What is pending and old enough is listed, unless twenty no younger ones are. */
  lemma OldPendingIsListed(ledger: Ledger, olderThan: int, list: seq<Request>, turn: string)
    requires IsPendingList(ledger, olderThan, list) && turn in ledger
    requires ledger[turn].state == PENDING && ledger[turn].updatedAt <= olderThan
    ensures (exists i :: 0 <= i < |list| && list[i].turn == turn)
      || (|list| == 20 && forall i :: 0 <= i < |list| ==> ledger[list[i].turn].createdAt <= ledger[turn].createdAt)
  {
    var turns, candidates := Turns(list), PendingSince(ledger, olderThan);
    if turn in turns {
      var i :| 0 <= i < |turns| && turns[i] == turn;
      assert list[i].turn == turn;
    } else {
      forall i | 0 <= i < |list| ensures ledger[list[i].turn].createdAt <= ledger[turn].createdAt {
        assert turns[i] in turns;
      }
      assert turn in candidates && turn !in ToSet(turns);
      DistinctLength(turns);
      if |ToSet(turns)| == |candidates| { SubsetOfSameSize(ToSet(turns), candidates); }
    }
  }
}
