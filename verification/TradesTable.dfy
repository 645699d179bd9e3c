/** The `trades` table: rows by id with a unique idempotency key, changed by inserts and blind
    updates, and transactions that apply whole or not at all. */
module TradesTable {
  import opened Domain

  type Table = map<nat, Row>

  predicate KeyFree(t: Table, key: string) {
    forall id :: id in t ==> t[id].key != key
  }

  /** One statement; Err is a violated primary key or unique index. */
  function Execute(t: Table, task: Task): Result<Table> {
    match task
    case Insert(id, row) => if id !in t && KeyFree(t, row.key) then Ok(t[id := row]) else Err
    case Update(id, f) => if id in t then Ok(t[id := f.Apply(t[id])]) else Ok(t)
  }

  /** One transaction over a batch. */
  function Transact(t: Table, batch: seq<Task>): Result<Table>
    decreases |batch|
  {
    if batch == [] then Ok(t)
    else
      match Transact(t, batch[..|batch| - 1])
      case Ok(u) => Execute(u, batch[|batch| - 1])
      case Err => Err
  }

  lemma TransactSnoc(t: Table, batch: seq<Task>, task: Task)
    ensures Transact(t, batch + [task]) ==
            match Transact(t, batch) case Ok(u) => Execute(u, task) case Err => Err
  {
    assert (batch + [task])[..|batch|] == batch;
  }

  /** Cutting a batch in two changes nothing: the second part starts where the first ended. */
  lemma {:induction false} TransactSplit(t: Table, b1: seq<Task>, b2: seq<Task>)
    ensures Transact(t, b1 + b2) == match Transact(t, b1) case Ok(u) => Transact(u, b2) case Err => Err
    decreases |b2|
  {
    if b2 == [] {
      assert b1 + b2 == b1;
    } else {
      var init, last := b2[..|b2| - 1], b2[|b2| - 1];
      assert b1 + b2 == (b1 + init) + [last];
      TransactSnoc(t, b1 + init, last);
      TransactSplit(t, b1, init);
    }
  }

  /** Updates of different rows: each row named gets its columns, every other row stays. */
  predicate UpdatesApart(batch: seq<Task>) {
    && (forall k :: 0 <= k < |batch| ==> batch[k].Update?)
    && (forall k, l :: 0 <= k < l < |batch| ==> batch[k].id != batch[l].id)
  }

  lemma {:induction false} UpdatesApply(t: Table, batch: seq<Task>)
    requires UpdatesApart(batch)
    ensures Transact(t, batch).Ok? && Transact(t, batch).value.Keys == t.Keys
    ensures forall k :: 0 <= k < |batch| && batch[k].id in t ==>
              Transact(t, batch).value[batch[k].id] == batch[k].fields.Apply(t[batch[k].id])
    ensures forall id :: id in t && (forall k :: 0 <= k < |batch| ==> batch[k].id != id) ==>
              Transact(t, batch).value[id] == t[id]
    decreases |batch|
  {
    hide Fields.Apply, KeyFree;
    if batch != [] {
      var init, last := batch[..|batch| - 1], batch[|batch| - 1];
      assert forall k :: 0 <= k < |init| ==> batch[k] == init[k] && batch[k].id != last.id;
      UpdatesApply(t, init);
      var before, after := Transact(t, init).value, Transact(t, batch).value;
      assert after == if last.id in before then before[last.id := last.fields.Apply(before[last.id])] else before;
      assert last.id in t ==> before[last.id] == t[last.id];
      forall k | 0 <= k < |batch| && batch[k].id in t
        ensures after[batch[k].id] == batch[k].fields.Apply(t[batch[k].id])
      {
        if k < |init| { assert init[k].id in t; }
      }
    }
  }

  /** A transaction keeps the index: keys stay unique. */
  lemma {:induction false} KeysStayUnique(t: Table, batch: seq<Task>)
    requires UniqueKeys(t) && Transact(t, batch).Ok?
    ensures UniqueKeys(Transact(t, batch).value)
    decreases |batch|
  {
    if batch != [] {
      KeysStayUnique(t, batch[..|batch| - 1]);
    }
  }

  ghost predicate UniqueKeys(t: Table) {
    forall i, j :: i in t && j in t && i != j ==> t[i].key != t[j].key
  }

  /** Startup and reports select rows in an order that does not matter here; a listing shows at
      most `limit` matching rows, none twice, and leaves one out only when the limit is reached. */
  ghost predicate Lists(t: Table, wanted: Row -> bool, limit: nat, ids: seq<nat>) {
    && (forall k :: 0 <= k < |ids| ==> ids[k] in t && wanted(t[ids[k]]))
    && (forall k, l :: 0 <= k < l < |ids| ==> ids[k] != ids[l])
    && |ids| <= limit
    && (|ids| < limit ==> forall id :: id in t && wanted(t[id]) ==> id in ids)
  }
}
