/** The transaction scope of `DatabaseConnection.transactional`: a session is
    started and stored in the connection's session slot, a transaction is
    begun on it, the wrapped function runs, and the transaction is committed
    when it returns or aborted when it raises; the slot is cleared in
    `finally`.

    The driver's calls and the wrapped function are not run: how each of them
    ends is a parameter, an `Outcome`. A run of the scope is described by the
    calls it makes (`TxEvent`), what the slot holds afterwards and how the
    scope itself ends. */
module Transaction {
  import opened Driver

  /** A Python exception, told apart by its type name and message. */
  datatype Exception = Exception(kind: string, message: string)

  /** How a call ends: it returns a value or raises an exception. */
  datatype Outcome<+R> = Returned(value: R) | Raised(error: Exception)

  /** The calls the scope makes, in order. `CallWork` records what the session
      slot held while the wrapped function ran. */
  datatype TxEvent =
    | StartSession
    | StartTransaction(session: Session)
    | CallWork(slot: Option<Session>)
    | CommitTransaction(session: Session)
    | AbortTransaction(session: Session)

  predicate IsCommit(e: TxEvent) { e.CommitTransaction? }
  predicate IsAbort(e: TxEvent) { e.AbortTransaction? }
  predicate IsWork(e: TxEvent) { e.CallWork? }

  /** One run of the scope: the calls made, the slot afterwards and how it ended. */
  datatype TxRun<R> = TxRun(events: seq<TxEvent>, slotAfter: Option<Session>, outcome: Outcome<R>)

  /** Whether the scope got as far as its `try` block. */
  predicate Entered(start: Outcome<Session>, begin: Outcome<()>) {
    start.Returned? && begin.Returned?
  }

  /** The `try`/`except`/`finally` part of the scope, entered with session `s`
      in the slot. A failed commit is caught by the same `except` and so leads
      to an abort; a failed abort replaces the exception being re-raised. */
  function TryBlock<R>(s: Session, work: Outcome<R>, commit: Outcome<()>, abort: Outcome<()>): (run: TxRun<R>)
    ensures run.slotAfter == None
    ensures Count(run.events, IsWork) == 1 && run.events[0] == CallWork(Some(s))
    ensures forall e :: e in run.events ==> e == CallWork(Some(s)) || e == CommitTransaction(s) || e == AbortTransaction(s)
    // in order: the work, then the commit when the work returned, then the abort when anything raised
    ensures |run.events| == 1 + (if work.Returned? then 1 else 0) + (if run.outcome.Raised? then 1 else 0)
    ensures work.Returned? ==> run.events[1] == CommitTransaction(s)
    ensures run.outcome.Raised? ==> run.events[|run.events| - 1] == AbortTransaction(s)
    // success: committed once, never aborted, the work's value returned
    ensures run.outcome.Returned? <==> work.Returned? && commit.Returned?
    ensures run.outcome.Returned? ==>
      run.outcome.value == work.value && Count(run.events, IsCommit) == 1 && Count(run.events, IsAbort) == 0
    // failure of the work: aborted once, never committed, the same exception re-raised
    ensures work.Raised? ==>
      Count(run.events, IsAbort) == 1 && Count(run.events, IsCommit) == 0 &&
      run.outcome == Raised(if abort.Raised? then abort.error else work.error)
    // failure of the commit: the commit was tried once, then aborted once
    ensures work.Returned? && commit.Raised? ==>
      Count(run.events, IsCommit) == 1 && Count(run.events, IsAbort) == 1 &&
      run.outcome == Raised(if abort.Raised? then abort.error else commit.error)
  {
    var ran := [CallWork(Some(s))];
    var committed := if work.Returned? then ran + [CommitTransaction(s)] else ran;
    CountSingle(CallWork(Some(s)), IsWork);
    CountSingle(CallWork(Some(s)), IsCommit);
    CountSingle(CallWork(Some(s)), IsAbort);
    CountSingle(CommitTransaction(s), IsWork);
    CountSingle(CommitTransaction(s), IsCommit);
    CountSingle(CommitTransaction(s), IsAbort);
    CountSingle(AbortTransaction(s), IsWork);
    CountSingle(AbortTransaction(s), IsCommit);
    CountSingle(AbortTransaction(s), IsAbort);
    CountConcat(ran, [CommitTransaction(s)], IsWork);
    CountConcat(ran, [CommitTransaction(s)], IsCommit);
    CountConcat(ran, [CommitTransaction(s)], IsAbort);
    CountConcat(committed, [AbortTransaction(s)], IsWork);
    CountConcat(committed, [AbortTransaction(s)], IsCommit);
    CountConcat(committed, [AbortTransaction(s)], IsAbort);
    if work.Returned? && commit.Returned? then
      TxRun(committed, None, Returned(work.value))
    else
      var cause := if work.Raised? then work.error else commit.error;
      TxRun(committed + [AbortTransaction(s)], None, Raised(if abort.Raised? then abort.error else cause))
  }

  /** The scope as the code is written: `start_transaction()` is called after
      the session is stored in the slot but before the `try`, so when it
      raises the slot is left holding the session. When `start_session()`
      raises, the slot is not assigned at all. */
  function TxAsWritten<R>(before: Option<Session>, start: Outcome<Session>, begin: Outcome<()>,
                          work: Outcome<R>, commit: Outcome<()>, abort: Outcome<()>): (run: TxRun<R>)
    ensures run.events != [] && run.events[0] == StartSession
    ensures start.Raised? ==> run == TxRun([StartSession], before, Raised(start.error))
    // start_transaction is called once, on the new session, before anything else
    ensures start.Returned? ==> |run.events| >= 2 && run.events[1] == StartTransaction(start.value)
    ensures start.Returned? && begin.Raised? ==> |run.events| == 2
    // everything after it is the work, a commit or an abort, all on that same session
    ensures start.Returned? ==> forall e :: e in run.events[2..] ==>
      e == CallWork(Some(start.value)) || e == CommitTransaction(start.value) || e == AbortTransaction(start.value)
    // once inside the try block, the calls after start_transaction and the outcome are those of the try block, in order
    ensures Entered(start, begin) ==>
      run.events[2..] == TryBlock(start.value, work, commit, abort).events &&
      run.outcome == TryBlock(start.value, work, commit, abort).outcome
    // once inside the try block the slot is cleared on every exit path
    ensures Entered(start, begin) ==> run.slotAfter == None
    // the work runs exactly once, and only after the transaction has begun, with the new session in the slot
    ensures Count(run.events, IsWork) == (if Entered(start, begin) then 1 else 0)
    ensures Entered(start, begin) ==> CallWork(Some(start.value)) in run.events
    ensures run.outcome.Returned? <==> Entered(start, begin) && work.Returned? && commit.Returned?
    ensures run.outcome.Returned? ==>
      run.outcome.value == work.value && Count(run.events, IsCommit) == 1 && Count(run.events, IsAbort) == 0
    ensures Entered(start, begin) && work.Raised? ==>
      Count(run.events, IsAbort) == 1 && Count(run.events, IsCommit) == 0 &&
      run.outcome == Raised(if abort.Raised? then abort.error else work.error)
    ensures Entered(start, begin) && work.Returned? && commit.Raised? ==>
      Count(run.events, IsCommit) == 1 && Count(run.events, IsAbort) == 1 &&
      run.outcome == Raised(if abort.Raised? then abort.error else commit.error)
  {
    if start.Raised? then
      TxRun([StartSession], before, Raised(start.error))
    else
      var s := start.value;
      var prologue := [StartSession, StartTransaction(s)];
      assert Count(prologue, IsWork) == 0 && Count(prologue, IsCommit) == 0 && Count(prologue, IsAbort) == 0 by {
        CountConcat([StartSession], [StartTransaction(s)], IsWork);
        CountConcat([StartSession], [StartTransaction(s)], IsCommit);
        CountConcat([StartSession], [StartTransaction(s)], IsAbort);
        assert [StartSession] + [StartTransaction(s)] == prologue;
      }
      if begin.Raised? then
        TxRun(prologue, Some(s), Raised(begin.error))
      else
        var tail := TryBlock(s, work, commit, abort);
        CountConcat(prologue, tail.events, IsWork);
        CountConcat(prologue, tail.events, IsCommit);
        CountConcat(prologue, tail.events, IsAbort);
        assert (prologue + tail.events)[2..] == tail.events;
        TxRun(prologue + tail.events, tail.slotAfter, tail.outcome)
  }

  /** The scope as evidently intended: the `finally` that clears the slot also
      covers `start_transaction()`. A failed `start_transaction()` leaves no
      transaction to abort, so its exception propagates unchanged. */
  function TxCorrected<R>(before: Option<Session>, start: Outcome<Session>, begin: Outcome<()>,
                          work: Outcome<R>, commit: Outcome<()>, abort: Outcome<()>): (run: TxRun<R>)
    // whenever a session has been stored, the slot is empty when the scope exits
    ensures start.Returned? ==> run.slotAfter == None
    ensures start.Raised? ==> run.slotAfter == before
    ensures Count(run.events, IsWork) == (if Entered(start, begin) then 1 else 0)
    ensures run.outcome.Returned? <==> Entered(start, begin) && work.Returned? && commit.Returned?
    ensures run.outcome.Returned? ==>
      run.outcome.value == work.value && Count(run.events, IsCommit) == 1 && Count(run.events, IsAbort) == 0
    ensures start.Returned? && begin.Raised? ==>
      run.outcome == Raised(begin.error) && Count(run.events, IsCommit) == 0 && Count(run.events, IsAbort) == 0
  {
    var written := TxAsWritten(before, start, begin, work, commit, abort);
    if start.Returned? && begin.Raised? then
      assert written.events == [StartSession, StartTransaction(start.value)];
      assert Count(written.events, IsCommit) == 0 && Count(written.events, IsAbort) == 0 by {
        CountConcat([StartSession], [StartTransaction(start.value)], IsCommit);
        CountConcat([StartSession], [StartTransaction(start.value)], IsAbort);
        assert [StartSession] + [StartTransaction(start.value)] == written.events;
      }
      TxRun(written.events, None, written.outcome)
    else
      written
  }

  /** A failing `start_transaction()` leaves the new session in the slot:
      the scope exits by raising, yet the slot is not empty. */
  lemma StartTransactionFailureLeavesSession<R>(before: Option<Session>, s: Session, e: Exception,
                                                work: Outcome<R>, commit: Outcome<()>, abort: Outcome<()>)
    ensures var run := TxAsWritten(before, Returned(s), Raised(e), work, commit, abort);
      run.outcome == Raised(e) && run.slotAfter == Some(s) && Count(run.events, IsWork) == 0
  {
  }

  /** The correction changes nothing once the transaction has begun. */
  lemma CorrectedAgreesOnceBegun<R>(before: Option<Session>, start: Outcome<Session>, begin: Outcome<()>,
                                    work: Outcome<R>, commit: Outcome<()>, abort: Outcome<()>)
    requires Entered(start, begin)
    ensures TxCorrected(before, start, begin, work, commit, abort) == TxAsWritten(before, start, begin, work, commit, abort)
  {
  }

  /** Entering the scope while a session is already in the slot replaces it:
      on exit the slot is empty, and the outer session is never committed or
      aborted by the inner scope. */
  lemma NestedEntryDropsOuterSession<R>(outer: Session, start: Outcome<Session>, begin: Outcome<()>,
                                        work: Outcome<R>, commit: Outcome<()>, abort: Outcome<()>)
    requires Entered(start, begin) && start.value != outer
    ensures var run := TxAsWritten(Some(outer), start, begin, work, commit, abort);
      run.slotAfter == None &&
      CommitTransaction(outer) !in run.events && AbortTransaction(outer) !in run.events
  {
  }
}
