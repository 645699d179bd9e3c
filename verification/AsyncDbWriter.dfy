/** The write-behind queue: services enqueue without blocking (a full queue drops the write), one
    worker takes batches off the front and applies each in one transaction. */
module AsyncDbWriters {
  import opened Domain
  import opened TradesTable

  /** A batch the worker took off the queue, and whether its transaction was committed. */
  datatype Batch = Batch(tasks: seq<Task>, committed: bool)

  function Tasks(batches: seq<Batch>): seq<Task> {
    if batches == [] then [] else Tasks(batches[..|batches| - 1]) + batches[|batches| - 1].tasks
  }

  function CommittedTasks(batches: seq<Batch>): seq<Task> {
    if batches == [] then []
    else
      var b := batches[|batches| - 1];
      CommittedTasks(batches[..|batches| - 1]) + if b.committed then b.tasks else []
  }

  lemma TasksSnoc(batches: seq<Batch>, b: Batch)
    ensures Tasks(batches + [b]) == Tasks(batches) + b.tasks
    ensures CommittedTasks(batches + [b]) == CommittedTasks(batches) + if b.committed then b.tasks else []
  {
    assert (batches + [b])[..|batches|] == batches;
  }

  /** How far a queue has got: what was taken off it, how many writes it was asked for, and the longest
      backlog there was. */
  datatype Standing = Standing(flushed: seq<Batch>, asked: nat, peak: nat)

  /** From a to b, writes were asked for and nothing was taken off. */
  predicate Grew(a: Standing, b: Standing) {
    && b.flushed == a.flushed && a.asked <= b.asked && a.peak <= b.peak
    && (b.peak <= a.peak || b.peak <= b.asked - |Tasks(a.flushed)|)
  }

  lemma GrewTwice(a: Standing, b: Standing, c: Standing)
    ensures Grew(a, a)
    ensures Grew(a, b) && Grew(b, c) ==> Grew(a, c)
  {
  }

  class TradesDb {
    var table: Table

    constructor (table: Table)
      ensures this.table == table
    {
      this.table := table;
    }
  }

  class AsyncDbWriter {
    const batchSize: int
    const queueSize: int   // as in queue.Queue, zero or less means unbounded
    const db: TradesDb
    var queue: seq<Task>
    ghost const initial: Table
    ghost var submitted: seq<Task>   // every insert and update asked for
    ghost var accepted: seq<Task>    // those that found room in the queue
    ghost var flushed: seq<Batch>
    ghost var peak: nat              // the longest backlog so far

    /** Writes asked for and not taken off the queue, those that were dropped among them. */
    ghost function Backlog(): int
      reads this
    {
      |submitted| - |Tasks(flushed)|
    }

    ghost function Mark(): Standing
      reads this
    {
      Standing(flushed, |submitted|, peak)
    }

    /** The backlog never outgrew the queue. */
    ghost predicate HadRoom()
      reads this
    {
      queueSize <= 0 || peak <= queueSize
    }

    /** Nothing is lost or reordered between the queue and the table: what was accepted is what was
        flushed followed by what waits, and the table is the committed part applied in order. Every write
        was accepted if and only if the backlog never outgrew the queue. */
    ghost predicate Valid()
      reads this, db
    {
      && accepted == Tasks(flushed) + queue
      && (queueSize > 0 ==> |queue| <= queueSize)
      && |accepted| <= |submitted| && Backlog() <= peak <= |submitted|
      && (if HadRoom() then accepted == submitted else |accepted| < |submitted|)
      && Transact(initial, CommittedTasks(flushed)) == Ok(db.table)
    }

    constructor (db: TradesDb, batchSize: int, queueSize: int)
      ensures Valid() && fresh(this) && this.db == db && this.batchSize == batchSize && this.queueSize == queueSize
      ensures queue == [] && submitted == [] && accepted == [] && flushed == [] && initial == db.table
      ensures peak == 0
    {
      this.db, this.batchSize, this.queueSize, this.queue := db, batchSize, queueSize, [];
      this.initial, this.submitted, this.accepted, this.flushed, this.peak := db.table, [], [], [], 0;
    }

    predicate Full()
      reads this
    {
      0 < queueSize <= |queue|
    }

    /** `insert` and `update`: enqueue, or drop the write when the queue is full. */
    method Enqueue(task: Task)
      requires Valid()
      modifies this
      ensures Valid() && flushed == old(flushed) && submitted == old(submitted) + [task]
      ensures queue == if old(Full()) then old(queue) else old(queue) + [task]
      ensures accepted == if old(Full()) then old(accepted) else old(accepted) + [task]
      ensures Grew(old(Mark()), Mark())
    {
      submitted := submitted + [task];
      peak := if peak < Backlog() then Backlog() else peak;
      if !Full() {
        queue := queue + [task];
        accepted := accepted + [task];
      }
    }

    /** How many of n waiting tasks one batch takes; the first is taken before the size is looked at. */
    function BatchOf(n: nat): nat {
      if n == 0 then 0 else if batchSize < 1 then 1 else if n <= batchSize then n else batchSize
    }

    /** `_collect_batch`: the tasks at the front, up to the batch size; empty when nothing waits. */
    method CollectBatch() returns (batch: seq<Task>)
      modifies this`queue
      ensures var n := BatchOf(|old(queue)|); batch == old(queue)[..n] && queue == old(queue)[n..]
    {
      batch := [];
      if queue == [] {
        return;
      }
      batch, queue := [queue[0]], queue[1..];
      while |batch| < batchSize && queue != []
        invariant 1 <= |batch| <= |old(queue)| && (batchSize < 1 || |batch| <= batchSize)
        invariant batchSize < 1 ==> |batch| == 1
        invariant batch == old(queue)[..|batch|] && queue == old(queue)[|batch|..]
        decreases |queue|
      {
        batch, queue := batch + [queue[0]], queue[1..];
      }
    }

    /** `_flush`: all tasks in one transaction; any failure, a violated constraint or one the database
        reports by itself, drops the whole batch. */
    method Flush(batch: seq<Task>, databaseFails: bool) returns (ghost committed: bool)
      modifies db
      ensures committed == (!databaseFails && Transact(old(db.table), batch).Ok?)
      ensures db.table == if committed then Transact(old(db.table), batch).value else old(db.table)
    {
      var work := db.table;
      var failed := false;
      var i := 0;
      while i < |batch| && !failed
        invariant 0 <= i <= |batch|
        invariant !failed ==> Transact(old(db.table), batch[..i]) == Ok(work)
        invariant failed ==> Transact(old(db.table), batch[..i]).Err?
        invariant db.table == old(db.table)
        decreases |batch| - i, !failed
      {
        TransactSnoc(db.table, batch[..i], batch[i]);
        assert batch[..i + 1] == batch[..i] + [batch[i]];
        match batch[i] {
          case Insert(id, row) =>
            if id !in work && KeyFree(work, row.key) {
              work := work[id := row];
            } else {
              failed := true;
            }
          case Update(id, f) =>
            if id in work {
              work := work[id := f.Apply(work[id])];
            }
        }
        i := i + 1;
      }
      ghost var whole := Transact(db.table, batch);
      assert whole.Ok? <==> !failed by {
        if failed {
          FailedPrefix(db.table, batch, i);
        } else {
          assert batch[..i] == batch;
        }
      }
      assert !failed ==> batch[..i] == batch;
      if !failed && !databaseFails {
        db.table := work;
      }
      committed := !failed && !databaseFails;
    }

    /** One turn of the worker: a batch is collected and, unless empty, flushed. */
    method DrainOnce(databaseFails: bool)
      requires Valid()
      modifies this, db
      ensures Valid() && accepted == old(accepted) && submitted == old(submitted) && peak == old(peak)
      ensures queue == old(queue)[BatchOf(|old(queue)|)..]
      ensures var batch := old(queue)[..BatchOf(|old(queue)|)];
              flushed == if batch == [] then old(flushed)
                         else old(flushed) + [Batch(batch, !databaseFails && Transact(old(db.table), batch).Ok?)]
    {
      hide Transact, Tasks, CommittedTasks;
      var batch := CollectBatch();
      if batch != [] {
        assert old(queue) == batch + queue;
        ghost var committed := Flush(batch, databaseFails);
        FlushedKept(initial, flushed, batch, queue, committed);
        flushed := flushed + [Batch(batch, committed)];
      }
    }

    /** The end of `run_forever`: one last batch. With no producer left, everything accepted has been
        flushed exactly when no more than one batch was waiting. */
    method Shutdown(databaseFails: bool)
      requires Valid()
      modifies this, db
      ensures Valid() && accepted == old(accepted)
      ensures Tasks(flushed) == accepted <==> |old(queue)| <= 1 || |old(queue)| <= batchSize
    {
      hide Transact;
      DrainOnce(databaseFails);
      assert |accepted| == |Tasks(flushed)| + |queue|;
      assert queue == [] ==> Tasks(flushed) + queue == Tasks(flushed);
    }
  }

  lemma FlushedKept(initial: Table, flushed: seq<Batch>, batch: seq<Task>, rest: seq<Task>, committed: bool)
    requires Transact(initial, CommittedTasks(flushed)).Ok?
    requires committed ==> Transact(Transact(initial, CommittedTasks(flushed)).value, batch).Ok?
    ensures Tasks(flushed) + (batch + rest) == Tasks(flushed + [Batch(batch, committed)]) + rest
    ensures Transact(initial, CommittedTasks(flushed + [Batch(batch, committed)])) ==
            if committed then Transact(Transact(initial, CommittedTasks(flushed)).value, batch)
            else Transact(initial, CommittedTasks(flushed))
  {
    hide Transact;
    TransactSplit(initial, CommittedTasks(flushed), batch);
    TasksSnoc(flushed, Batch(batch, committed));
    assert CommittedTasks(flushed) + [] == CommittedTasks(flushed);
  }

  lemma FailedPrefix(t: Table, batch: seq<Task>, i: nat)
    requires i <= |batch| && Transact(t, batch[..i]).Err?
    ensures Transact(t, batch).Err?
  {
    assert batch == batch[..i] + batch[i..];
    TransactSplit(t, batch[..i], batch[i..]);
  }

  /** When no batch failed, cutting the tasks into batches made no difference. */
  lemma {:induction false} BatchingIsTransparent(batches: seq<Batch>)
    requires forall k :: 0 <= k < |batches| ==> batches[k].committed
    ensures CommittedTasks(batches) == Tasks(batches)
    decreases |batches|
  {
    if batches != [] {
      BatchingIsTransparent(batches[..|batches| - 1]);
    }
  }
}
