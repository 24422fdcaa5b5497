/** The two writers that take records from busy threads and hand them to a database in batches. */
module AsyncWriters {

  function Flat<T>(batches: seq<seq<T>>): seq<T> {
    if batches == [] then [] else Flat(batches[..|batches| - 1]) + batches[|batches| - 1]
  }

  lemma {:induction false} FlatOne<T>(batches: seq<seq<T>>, b: seq<T>)
    ensures Flat(batches + [b]) == Flat(batches) + b
  {
    assert (batches + [b])[..|batches|] == batches;
  }

  // ---- The object records ---------------------------------------------------------------------------------

  const CHANNEL_SIZE := 50000
  const BATCH_SIZE := 2000

  /** One attempt to write a batch, all or nothing. */
  datatype Attempt<T> = Attempt(batch: seq<T>, ok: bool)

  datatype Fate<T> = Saved(batch: seq<T>) | Dropped(batch: seq<T>)

  /** Failures in a row since the last batch was settled. */
  function Trail<T>(log: seq<Attempt<T>>): (n: nat)
    ensures n < 3
  {
    if log == [] || log[|log| - 1].ok then 0
    else
      var n := Trail(log[..|log| - 1]);
      if n == 2 then 0 else n + 1
  }

  /** What became of the batches: saved, or dropped at the third failure in a row. */
  function Settled<T>(log: seq<Attempt<T>>): seq<Fate<T>> {
    if log == [] then []
    else
      var front, last := log[..|log| - 1], log[|log| - 1];
      Settled(front) + if last.ok then [Saved(last.batch)] else if Trail(front) == 2 then [Dropped(last.batch)] else []
  }

  function Records<T>(fates: seq<Fate<T>>): seq<T> {
    if fates == [] then [] else Records(fates[..|fates| - 1]) + fates[|fates| - 1].batch
  }

  /** While a batch is being retried, it only grows. */
  ghost predicate Growing<T>(log: seq<Attempt<T>>) {
    log == [] ||
    var front := log[..|log| - 1];
    Growing(front) && (Trail(front) > 0 ==> front != [] && front[|front| - 1].batch <= log[|log| - 1].batch)
  }

  lemma Appended<T>(log: seq<Attempt<T>>, a: Attempt<T>)
    ensures (log + [a])[..|log|] == log && (log + [a])[|log|] == a
  {}

  /** At position i the batch failed for the third time in a row. */
  ghost predicate ThirdFailure<T>(log: seq<Attempt<T>>, b: seq<T>, i: int) {
    && 2 <= i < |log| && log[i].batch == b && !log[i].ok && !log[i - 1].ok && !log[i - 2].ok
    && log[i - 2].batch <= log[i - 1].batch <= b
  }

  lemma {:induction false} TrailTwo<T>(log: seq<Attempt<T>>)
    requires Trail(log) == 2
    ensures |log| >= 2 && !log[|log| - 1].ok && !log[|log| - 2].ok && Trail(log[..|log| - 1]) == 1
  {
    var front := log[..|log| - 1];
    assert Trail(front) == 1;
    assert front != [] && front[|front| - 1] == log[|log| - 2];
  }

  lemma {:induction false} LastIsThird<T>(log: seq<Attempt<T>>)
    requires Growing(log) && log != [] && !log[|log| - 1].ok && Trail(log[..|log| - 1]) == 2
    ensures ThirdFailure(log, log[|log| - 1].batch, |log| - 1)
  {
    var front := log[..|log| - 1];
    TrailTwo(front);
    assert Growing(front) && front[..|front| - 1] != [];
  }

  /** A dropped batch has failed three times in a row, each time with what had been queued by then. */
  lemma {:induction false} DroppedAfterThree<T>(log: seq<Attempt<T>>, b: seq<T>)
    requires Growing(log) && Dropped(b) in Settled(log)
    ensures exists i :: ThirdFailure(log, b, i)
    decreases |log|
  {
    hide Trail;
    var n := |log| - 1;
    if Dropped(b) in Settled(log[..n]) {
      DroppedAfterThree(log[..n], b);
      var i :| ThirdFailure(log[..n], b, i);
      assert ThirdFailure(log, b, i);
    } else {
      LastIsThird(log);
    }
  }

  lemma {:induction false} RecordsOne<T>(fates: seq<Fate<T>>, f: Fate<T>)
    ensures Records(fates + [f]) == Records(fates) + f.batch
  {
    assert (fates + [f])[..|fates|] == fates;
  }

  lemma {:induction false} GrowingMore<T>(log: seq<Attempt<T>>, a: Attempt<T>)
    requires Growing(log) && (Trail(log) > 0 ==> log != [] && log[|log| - 1].batch <= a.batch)
    ensures Growing(log + [a])
  {
    Appended(log, a);
  }

  /** One more attempt: what is settled by it, and how many failures are behind. */
  lemma {:induction false} OneMore<T>(log: seq<Attempt<T>>, a: Attempt<T>)
    ensures Trail(log + [a]) == if a.ok || Trail(log) == 2 then 0 else Trail(log) + 1
    ensures Records(Settled(log + [a])) == if a.ok || Trail(log) == 2 then Records(Settled(log)) + a.batch
        else Records(Settled(log))
  {
    Appended(log, a);
    var f := if a.ok then [Saved(a.batch)] else if Trail(log) == 2 then [Dropped(a.batch)] else [];
    assert Settled(log + [a]) == Settled(log) + f;
    if a.ok || Trail(log) == 2 { RecordsOne(Settled(log), f[0]); } else { assert Settled(log) + f == Settled(log); }
  }

  /** The books of the service: every accepted record is settled, in the batch, or in the channel. */
  ghost predicate Books<T>(log: seq<Attempt<T>>, batch: seq<T>, ch: seq<T>, flushRetries: nat, accepted: seq<T>) {
    && flushRetries == Trail(log) && Growing(log)
    && (flushRetries > 0 ==> log != [] && log[|log| - 1].batch <= batch)
    && Records(Settled(log)) + batch + ch == accepted
  }

  lemma BooksAccept<T>(log: seq<Attempt<T>>, batch: seq<T>, ch: seq<T>, flushRetries: nat, accepted: seq<T>, rec: T)
    requires Books(log, batch, ch, flushRetries, accepted)
    ensures Books(log, batch, ch + [rec], flushRetries, accepted + [rec])
  {
    hide Growing, Trail, Records, Settled;
    assert Records(Settled(log)) + batch + (ch + [rec]) == (Records(Settled(log)) + batch + ch) + [rec];
  }

  lemma BooksReceive<T>(log: seq<Attempt<T>>, batch: seq<T>, ch: seq<T>, flushRetries: nat, accepted: seq<T>)
    requires Books(log, batch, ch, flushRetries, accepted) && ch != []
    ensures Books(log, batch + [ch[0]], ch[1..], flushRetries, accepted)
  {
    hide Growing, Trail, Records, Settled;
    assert Records(Settled(log)) + (batch + [ch[0]]) + ch[1..] == Records(Settled(log)) + batch + ch;
  }

  lemma BooksFlush<T>(log: seq<Attempt<T>>, batch: seq<T>, ch: seq<T>, flushRetries: nat, accepted: seq<T>, ok: bool)
    requires Books(log, batch, ch, flushRetries, accepted)
    ensures flushRetries < 3
    ensures ok || flushRetries == 2 ==> Books(log + [Attempt(batch, ok)], [], ch, 0, accepted)
    ensures !ok && flushRetries < 2 ==> Books(log + [Attempt(batch, ok)], batch, ch, flushRetries + 1, accepted)
  {
    hide Growing, Trail, Records, Settled;
    var a := Attempt(batch, ok);
    OneMore(log, a);
    GrowingMore(log, a);
    Appended(log, a);
    assert Records(Settled(log)) + batch + [] + ch == Records(Settled(log)) + batch + ch;
  }

  class AsyncDbService<T> {
    var ch: seq<T>
    var closed: bool
    var stopped: bool
    var batch: seq<T>
    var flushRetries: nat
    var errors: nat
    /** Every attempt of the worker, and every record a caller was told is accepted, in order. */
    ghost var log: seq<Attempt<T>>
    ghost var accepted: seq<T>

    ghost predicate Valid()
      reads this
    {
      Books(log, batch, ch, flushRetries, accepted) && flushRetries < 3
          && (stopped ==> closed && batch == [] && ch == [])
    }

    constructor ()
      ensures Valid() && accepted == [] && log == [] && !closed && !stopped
    {
      ch, closed, stopped, batch, flushRetries, errors := [], false, false, [], 0, 0;
      log, accepted := [], [];
    }

    /** Accepted exactly when the service is open and the channel has room. */
    method RecordObject(rec: T) returns (ok: bool)
      requires Valid()
      modifies this
      ensures Valid() && ok == (!old(closed) && |old(ch)| < 50000)
      ensures ch == old(ch) + (if ok then [rec] else [])
      ensures errors == old(errors) + if !ok && !closed then 1 else 0
      ensures accepted == old(accepted) + (if ok then [rec] else []) && log == old(log)
      ensures closed == old(closed) && batch == old(batch) && stopped == old(stopped)
    {
      if closed { return false; }
      if |ch| >= CHANNEL_SIZE {
        errors := errors + 1;
        return false;
      }
      hide Books;
      BooksAccept(log, batch, ch, flushRetries, accepted, rec);
      ch, accepted := ch + [rec], accepted + [rec];
      ok := true;
    }

    /** Writes the batch, or keeps it for another try, or drops it at the third failure in a row. */
    method FlushBatch(fails: bool)
      requires Valid() && !stopped
      modifies this`batch, this`flushRetries, this`errors, this`log
      ensures Valid()
      ensures old(batch) == [] ==> log == old(log) && batch == []
      ensures old(batch) != [] ==> log == old(log) + [Attempt(old(batch), !fails)]
      ensures batch == if fails && old(flushRetries) < 2 then old(batch) else []
      ensures old(batch) != [] ==> flushRetries == if fails && old(flushRetries) < 2 then old(flushRetries) + 1 else 0
      ensures errors == old(errors) + if fails && old(batch) != [] then 1 else 0
    {
      hide Books;
      if batch == [] { return; }
      BooksFlush(log, batch, ch, flushRetries, accepted, !fails);
      log := log + [Attempt(batch, !fails)];
      if fails {
        errors, flushRetries := errors + 1, flushRetries + 1;
        if flushRetries >= 3 { batch, flushRetries := [], 0; }
        return;
      }
      flushRetries, batch := 0, [];
    }

    /** The worker takes one record off the channel, and writes the batch when it is full. */
    method Receive(fails: bool) returns (tried: bool)
      requires Valid() && !stopped && ch != []
      modifies this`ch, this`batch, this`flushRetries, this`errors, this`log
      ensures Valid() && ch == old(ch)[1..] && tried == (|old(batch)| + 1 >= 2000)
      ensures log == old(log) + if tried then [Attempt(old(batch) + [old(ch)[0]], !fails)] else []
    {
      hide Books;
      BooksReceive(log, batch, ch, flushRetries, accepted);
      ch, batch := ch[1..], batch + [ch[0]];
      tried := |batch| >= BATCH_SIZE;
      if tried { FlushBatch(fails); }
    }

    /** The flush interval has passed. */
    method Tick(fails: bool)
      requires Valid() && !stopped
      modifies this`batch, this`flushRetries, this`errors, this`log
      ensures Valid() && log == old(log) + if old(batch) == [] then [] else [Attempt(old(batch), !fails)]
    {
      if |batch| > 0 { FlushBatch(fails); }
    }

    /** The worker has seen the signal: it empties the channel and writes what is left. The store's answer to
        the n-th attempt from here on is `fails(n)`. */
    method Drain(fails: nat -> bool)
      requires Valid() && closed && !stopped
      modifies this`ch, this`batch, this`flushRetries, this`errors, this`log, this`stopped
      ensures Valid() && stopped && |log| <= |old(log)| + |old(ch)| + 3
      ensures Answered(old(log), log, fails)
    {
      hide Books, Answered;
      var i: nat := 0;
      NothingAsked(log, fails);
      while ch != []
        invariant Valid() && !stopped && |log| + |ch| <= |old(log)| + |old(ch)|
        invariant Answered(old(log), log, fails) && |log| == |old(log)| + i
        decreases |ch|
      {
        ghost var was := log;
        var tried := Receive(fails(i));
        if tried {
          OneAnswer(old(log), was, log[|was|], fails);
          i := i + 1;
        } else {
          assert log == was;
        }
      }
      ghost var before, tries: nat := |log|, 0;
      while batch != []
        invariant Valid() && !stopped && ch == [] && |log| == before + tries
        invariant Answered(old(log), log, fails) && |log| == |old(log)| + i
        invariant batch != [] ==> tries <= flushRetries
        invariant tries <= 3
        decreases |batch|, 3 - flushRetries
      {
        ghost var was := log;
        tries := tries + 1;
        FlushBatch(fails(i));
        OneAnswer(old(log), was, log[|was|], fails);
        i := i + 1;
      }
      stopped := true;
    }

    /** What the worker may still choose before it sees the signal: ticks of the flush interval and records off
        the channel, in any order. */
    method Linger(fails: nat -> bool, ticks: seq<bool>) returns (tried: nat)
      requires Valid() && closed && !stopped
      modifies this`ch, this`batch, this`flushRetries, this`errors, this`log
      ensures Valid() && tried <= |ticks| && |log| == |old(log)| + tried && |ch| <= |old(ch)|
      ensures Answered(old(log), log, fails)
    {
      hide Books, Answered;
      NothingAsked(log, fails);
      tried := 0;
      for i := 0 to |ticks|
        invariant Valid() && !stopped && tried <= i && |log| == |old(log)| + tried && |ch| <= |old(ch)|
        invariant Answered(old(log), log, fails)
      {
        ghost var was := log;
        if ticks[i] {
          var pending := batch != [];
          Tick(fails(tried));
          if pending {
            OneAnswer(old(log), was, log[|was|], fails);
            tried := tried + 1;
          } else {
            assert log == was;
          }
        } else if ch != [] {
          var full := Receive(fails(tried));
          if full {
            OneAnswer(old(log), was, log[|was|], fails);
            tried := tried + 1;
          } else {
            assert log == was;
          }
        }
      }
    }

    /** Ends the service: nothing stays queued, the number of attempts is bounded, earlier attempts stand and the
        new ones are what the store answered; without a failure from here on nothing queued is dropped. `ticks` is
        what the worker does between the signal and seeing it. */
    method Close(fails: nat -> bool, ticks: seq<bool>)
      requires Valid() && (closed ==> stopped)
      modifies this
      ensures Valid() && closed && stopped && accepted == old(accepted)
      ensures Records(Settled(log)) == accepted
      ensures |log| <= |old(log)| + |ticks| + |old(ch)| + 3
      ensures Answered(old(log), log, fails)
      ensures (forall n: nat :: !fails(n)) ==> forall b :: Dropped(b) in Settled(log) ==>
          Dropped(b) in Settled(old(log))
    {
      if !closed {
        closed := true;
        var tried := Linger(fails, ticks);
        ghost var before := log;
        Drain(From(fails, tried));
        AnsweredOn(old(log), before, log, fails, tried);
      } else {
        NothingAsked(log, fails);
      }
      NoneDropped(old(log), log, fails);
      assert Records(Settled(log)) + [] + [] == Records(Settled(log));
    }
  }

  /** The store's answers after the first ones. */
  function From(fails: nat -> bool, tried: nat): nat -> bool {
    (n: nat) => fails(tried + n)
  }

  lemma AnsweredOn<T>(before: seq<Attempt<T>>, middle: seq<Attempt<T>>, log: seq<Attempt<T>>, fails: nat -> bool,
                      tried: nat)
    requires Answered(before, middle, fails) && |middle| == |before| + tried
        && Answered(middle, log, From(fails, tried))
    ensures Answered(before, log, fails)
  {
    forall n | |before| <= n < |log| ensures log[n].ok == !fails(n - |before|) {
      if n < |middle| { assert log[n] == middle[n]; } else { assert n - |before| == tried + (n - |middle|); }
    }
  }

  /** The attempts after those of `before` end as the store answered, one after the other. */
  ghost predicate Answered<T>(before: seq<Attempt<T>>, log: seq<Attempt<T>>, fails: nat -> bool) {
    before <= log && forall n :: |before| <= n < |log| ==> log[n].ok == !fails(n - |before|)
  }

  lemma NothingAsked<T>(log: seq<Attempt<T>>, fails: nat -> bool)
    ensures Answered(log, log, fails)
  {}

  lemma OneAnswer<T>(before: seq<Attempt<T>>, log: seq<Attempt<T>>, a: Attempt<T>, fails: nat -> bool)
    requires Answered(before, log, fails) && a.ok == !fails(|log| - |before|)
    ensures Answered(before, log + [a], fails)
  {}

  lemma {:induction false} NoneDropped<T>(before: seq<Attempt<T>>, log: seq<Attempt<T>>, fails: nat -> bool)
    requires Answered(before, log, fails)
    ensures (forall n: nat :: !fails(n)) ==> forall b :: Dropped(b) in Settled(log) ==> Dropped(b) in Settled(before)
    decreases |log|
  {
    if |log| > |before| {
      var front := log[..|log| - 1];
      assert before <= front && forall n :: 0 <= n < |front| ==> front[n] == log[n];
      NoneDropped(before, front, fails);
      assert log[|log| - 1].ok == !fails(|front| - |before|);
      if forall n: nat :: !fails(n) {
        assert Settled(log) == Settled(front) + [Saved(log[|log| - 1].batch)];
      }
    } else {
      assert log == before;
    }
  }

  // ---- The gate records -------------------------------------------------------------------------------------------

  /** One goroutine flushes; callers add. A batch is swapped out under the lock and written outside it. */
  class GateRecordBuffer<T> {
    const limit: nat
    var batch: seq<T>
    var inflight: seq<T>
    var signalled: bool
    var closed: bool
    var stopped: bool
    /** Every batch handed to the store, and every record added before Close, in order. */
    ghost var handed: seq<seq<T>>
    ghost var accepted: seq<T>

    ghost predicate Valid()
      reads this
    {
      Flat(handed) + inflight + batch == accepted && (stopped ==> closed)
    }

    constructor (limit: nat)
      ensures Valid() && accepted == [] && !closed && !stopped && inflight == []
    {
      this.limit, batch, inflight, signalled, closed, stopped := limit, [], [], false, false, false;
      handed, accepted := [], [];
    }

    method Add(rec: T)
      requires Valid()
      modifies this`batch, this`signalled, this`accepted
      ensures Valid() && accepted == if closed then old(accepted) else old(accepted) + [rec]
      ensures batch == if closed then old(batch) else old(batch) + [rec]
      ensures signalled == (old(signalled) || (!closed && |old(batch)| + 1 >= limit))
    {
      if closed { return; }
      assert Flat(handed) + inflight + (batch + [rec]) == (Flat(handed) + inflight + batch) + [rec];
      batch, accepted := batch + [rec], accepted + [rec];
      if |batch| >= limit { signalled := true; }
    }

    /** The first half of a flush. */
    method Swap()
      requires Valid() && inflight == []
      modifies this`batch, this`inflight
      ensures Valid() && inflight == old(batch) && batch == []
    {
      assert Flat(handed) + batch + [] == Flat(handed) + inflight + batch;
      inflight, batch := batch, [];
    }

    /** The second half: the store gets the batch, and keeps it or not. */
    method Save()
      requires Valid()
      modifies this`inflight, this`handed
      ensures Valid() && inflight == [] && handed == if old(inflight) == [] then old(handed)
          else old(handed) + [old(inflight)]
    {
      if inflight == [] { return; }
      hide Flat;
      FlatOne(handed, inflight);
      assert Flat(handed) + inflight + [] + batch == Flat(handed) + inflight + batch;
      handed, inflight := handed + [inflight], [];
    }

    /** Close, once the flushing goroutine has ended: the last flush hands over everything, so that each
        accepted record is in some batch and no batch holds anything else. */
    method Close()
      requires Valid() && inflight == [] && (closed ==> stopped && batch == [])
      modifies this
      ensures Valid() && closed && batch == [] && Flat(handed) == accepted == old(accepted)
      ensures forall t :: t in accepted ==> exists i :: 0 <= i < |handed| && t in handed[i]
      ensures forall i, t :: 0 <= i < |handed| && t in handed[i] ==> t in accepted
    {
      hide Flat;
      if !closed {
        closed, stopped := true, true;
        Swap();
        Save();
      }
      assert Flat(handed) + [] + [] == Flat(handed);
      forall t | t in accepted ensures exists i :: 0 <= i < |handed| && t in handed[i] { FlatIs(handed, t); }
      forall i, t | 0 <= i < |handed| && t in handed[i] ensures t in accepted { FlatIs(handed, t); }
    }
  }

  lemma {:induction false} FlatIs<T>(batches: seq<seq<T>>, t: T)
    ensures t in Flat(batches) <==> exists i :: 0 <= i < |batches| && t in batches[i]
  {
    if batches != [] {
      var n := |batches| - 1;
      FlatIs(batches[..n], t);
      if t in Flat(batches[..n]) {
        var i :| 0 <= i < n && t in batches[..n][i];
        assert t in batches[i];
      }
      if exists i :: 0 <= i < |batches| && t in batches[i] {
        var i :| 0 <= i < |batches| && t in batches[i];
        if i < n { assert t in batches[..n][i]; }
      }
    }
  }
}
