/**
 * The capacitor: the allow-list of contracts whose logs are indexed, kept in
 * memory and mirrored to the persisted `allowed_account_ids` collection; the
 * receipt filter; and the per-outcome loop that forwards decoded events to
 * the sink.
 */
module Capacitor {
  import opened Wrappers
  import Seqs
  import opened Json
  import opened Events
  import opened Decoder
  import opened Near

  // ---------------------------------------------------------------------
  // The allow-list
  // ---------------------------------------------------------------------

  predicate NoDup(s: seq<string>)
  {
    forall i, j :: 0 <= i < j < |s| ==> s[i] != s[j]
  }

  /**
   * What `load` leaves in memory: the ids already known, followed by each
   * persisted id, in cursor order, that is not known yet.
   */
  function Merge(known: seq<string>, incoming: seq<string>): (r: seq<string>)
    ensures known <= r
    ensures forall x :: x in r <==> x in known || x in incoming
    ensures forall x :: x in r[|known|..] ==> x !in known
    ensures NoDup(known) ==> NoDup(r)
    decreases |incoming|
  {
    if incoming == [] then known
    else
      var m := Merge(known, incoming[..|incoming| - 1]);
      var x := incoming[|incoming| - 1];
      if x in m then m else m + [x]
  }

  lemma {:induction false} MergeKnownOnly(known: seq<string>, incoming: seq<string>)
    requires forall x :: x in incoming ==> x in known
    ensures Merge(known, incoming) == known
    decreases |incoming|
  {
    if incoming != [] {
      MergeKnownOnly(known, incoming[..|incoming| - 1]);
      assert incoming[|incoming| - 1] in incoming;
    }
  }

  /** Loading the same collection a second time changes nothing. */
  lemma MergeIdempotent(known: seq<string>, incoming: seq<string>)
    ensures Merge(Merge(known, incoming), incoming) == Merge(known, incoming)
  {
    MergeKnownOnly(Merge(known, incoming), incoming);
  }

  /** The allow-list in memory and the persisted collection (one account id per record, in cursor order). */
  datatype AllowState = AllowState(memory: seq<string>, store: seq<string>)

  /**
   * `add_account_id`: if the collection already holds a record for the id,
   * nothing changes; otherwise one record is inserted and the id is
   * appended in memory. Only the collection is consulted.
   */
  function AddAccount(st: AllowState, id: string): AllowState
  {
    if id in st.store then st else AllowState(st.memory + [id], st.store + [id])
  }

  /** Memory and store hold the same ids, and memory holds each once. */
  ghost predicate Mirrored(st: AllowState)
  {
    NoDup(st.memory) && forall x :: x in st.memory <==> x in st.store
  }

  /** A duplicate-free seed of persisted ids, merged with the collection, mirrors it. */
  lemma LoadMirrors(seed: seq<string>, store: seq<string>)
    requires NoDup(seed) && forall x :: x in seed ==> x in store
    ensures Mirrored(AllowState(Merge(seed, store), store))
  {
  }

  lemma AddAccountKeepsMirrored(st: AllowState, id: string)
    requires Mirrored(st)
    ensures Mirrored(AddAccount(st, id))
  {
    if id !in st.store {
      var m := st.memory + [id];
      forall i, j | 0 <= i < j < |m| ensures m[i] != m[j] {
        if j == |m| - 1 {
          assert m[i] in st.memory;
        }
      }
    }
  }

  /** `add_account_id` is idempotent in every state: a second add of the same id finds its record. */
  lemma AddAccountIdempotent(st: AllowState, id: string)
    ensures AddAccount(AddAccount(st, id), id) == AddAccount(st, id)
  {
    if id !in st.store {
      assert (st.store + [id])[|st.store|] == id;
    }
  }

  /** While memory mirrors the collection, adding an id leaves one record for it and one entry in memory. */
  lemma {:induction false} AddAccountTwice(st: AllowState, id: string)
    requires Mirrored(st) && multiset(st.store)[id] <= 1
    ensures multiset(AddAccount(st, id).store)[id] == 1
    ensures multiset(AddAccount(st, id).memory)[id] == 1
  {
    var r := AddAccount(st, id);
    if id in st.store {
      assert id in st.memory;
      NoDupCountsOnce(st.memory, id);
    } else {
      assert id !in st.memory;
      assert multiset(r.memory) == multiset(st.memory) + multiset{id};
    }
  }

  /** While memory mirrors a collection without a record of the id, two adds leave one record and one entry. */
  lemma TwoAddsLeaveOne(st: AllowState, id: string)
    requires Mirrored(st) && id !in st.store
    ensures multiset(AddAccount(AddAccount(st, id), id).store)[id] == 1
    ensures multiset(AddAccount(AddAccount(st, id), id).memory)[id] == 1
  {
    AddAccountIdempotent(st, id);
    AddAccountTwice(st, id);
  }

  lemma {:induction false} NoDupCountsOnce(s: seq<string>, x: string)
    requires NoDup(s) && x in s
    ensures multiset(s)[x] == 1
    decreases |s|
  {
    assert s == [s[0]] + s[1..];
    if s[0] == x {
      assert x !in s[1..];
    } else {
      NoDupCountsOnce(s[1..], x);
    }
  }

  /**
   * Because only the collection is consulted, an id that is in memory but
   * was never persisted is appended once more, and memory then holds it
   * twice.
   */
  lemma SeededIdDuplicated(st: AllowState, id: string)
    requires id in st.memory && id !in st.store
    ensures multiset(AddAccount(st, id).memory)[id] == multiset(st.memory)[id] + 1
    ensures !NoDup(AddAccount(st, id).memory)
  {
    var m := AddAccount(st, id).memory;
    assert m == st.memory + [id];
    assert multiset(m) == multiset(st.memory) + multiset{id};
    var i :| 0 <= i < |st.memory| && st.memory[i] == id;
    assert m[i] == m[|m| - 1];
  }

  /** The smallest such state: the seed `["a"]` over an empty collection. */
  lemma SeededIdDuplicatedExample()
    ensures AddAccount(AllowState(["a"], []), "a").memory == ["a", "a"]
  {
  }

  /**
   * Without the mirror, a record persisted after `load` makes `add_account_id`
   * return early, and the account stays out of memory.
   */
  lemma StoredButNotLoadedStaysOut(st: AllowState, id: string)
    requires id in st.store && id !in st.memory
    ensures id !in AddAccount(st, id).memory
  {
  }

  // ---------------------------------------------------------------------
  // The receipt filter
  // ---------------------------------------------------------------------

  /** `is_valid_receipt`, with the capacitor reduced to its allow-list. */
  predicate IsValidReceipt(allowed: seq<string>, outcome: ExecutionOutcome)
  {
    match outcome.status
    case SuccessValue(_) => outcome.executorId in allowed
    case SuccessReceiptId(_) => outcome.executorId in allowed
    case _ => false
  }

  /** A failed or unknown outcome is rejected whatever the allow-list holds. */
  lemma UnsuccessfulRejected(outcome: ExecutionOutcome)
    requires !outcome.status.SuccessValue? && !outcome.status.SuccessReceiptId?
    ensures forall allowed :: !IsValidReceipt(allowed, outcome)
  {
  }

  /** A successful outcome is accepted exactly when its executor is allow-listed. */
  lemma SuccessfulByMembership(allowed: seq<string>, outcome: ExecutionOutcome)
    requires outcome.status.SuccessValue? || outcome.status.SuccessReceiptId?
    ensures IsValidReceipt(allowed, outcome) <==> outcome.executorId in allowed
  {
  }

  /**
   * While memory mirrors the collection, an account just added through the
   * admin endpoint is accepted by the very next filter check.
   */
  lemma AddedAccountAccepted(st: AllowState, id: string, outcome: ExecutionOutcome)
    requires Mirrored(st)
    requires outcome.executorId == id && (outcome.status.SuccessValue? || outcome.status.SuccessReceiptId?)
    ensures IsValidReceipt(AddAccount(st, id).memory, outcome)
  {
  }

  /** The smallest such state: an empty memory over the collection `["a"]`. */
  lemma StoredButNotLoadedExample()
    ensures AddAccount(AllowState([], ["a"]), "a").memory == []
  {
  }

  // ---------------------------------------------------------------------
  // Forwarding the logs of one outcome
  // ---------------------------------------------------------------------

  /** The sink calls made so far, and whether a field panic stopped the consumer. */
  datatype Run = Run(calls: seq<DomainEvent>, halted: bool)

  const Idle := Run([], false)

  /** Running `a` and then, unless `a` panicked, `b`. */
  function Then(a: Run, b: Run): Run
  {
    if a.halted then a else Run(a.calls + b.calls, b.halted)
  }

  lemma ThenAssociative(a: Run, b: Run, c: Run)
    ensures Then(a, Then(b, c)) == Then(Then(a, b), c)
  {
    if !a.halted && !b.halted {
      assert a.calls + (b.calls + c.calls) == (a.calls + b.calls) + c.calls;
    }
  }

  lemma ThenIdle(a: Run)
    ensures Then(a, Idle) == a && Then(Idle, a) == a
  {
    assert a.calls + [] == a.calls;
  }

  /** The sink calls of one log line: a parse error, JSON null and an unknown tag make none. */
  function LogRun(parse: string -> Option<Json>, contractId: string, log: string): Run
  {
    match DecodeLog(parse, contractId, log)
    case Produced(es) => Run(es, false)
    case FieldError(es) => Run(es, true)
    case _ => Idle
  }

  /** The sink calls of the logs of one outcome, line after line. */
  function OutcomeRun(parse: string -> Option<Json>, contractId: string, logs: seq<string>): Run
    decreases |logs|
  {
    if logs == [] then Idle
    else Then(LogRun(parse, contractId, logs[0]), OutcomeRun(parse, contractId, logs[1..]))
  }

  lemma {:induction false} OutcomeRunAppend(parse: string -> Option<Json>, contractId: string, a: seq<string>, b: seq<string>)
    ensures OutcomeRun(parse, contractId, a + b) ==
            Then(OutcomeRun(parse, contractId, a), OutcomeRun(parse, contractId, b))
    decreases |a|
  {
    if a != [] {
      assert (a + b)[0] == a[0];
      assert (a + b)[1..] == a[1..] + b;
      OutcomeRunAppend(parse, contractId, a[1..], b);
      ThenAssociative(LogRun(parse, contractId, a[0]), OutcomeRun(parse, contractId, a[1..]),
                      OutcomeRun(parse, contractId, b));
    } else {
      assert a + b == b;
    }
  }

  /** One more log line adds its own calls after those already made. */
  lemma OutcomeRunSnoc(parse: string -> Option<Json>, contractId: string, logs: seq<string>, i: nat)
    requires i < |logs|
    ensures OutcomeRun(parse, contractId, logs[..i + 1]) ==
            Then(OutcomeRun(parse, contractId, logs[..i]), LogRun(parse, contractId, logs[i]))
  {
    OutcomeRunAppend(parse, contractId, logs[..i], [logs[i]]);
    Seqs.TakeSnoc(logs, i);
    assert [logs[i]][1..] == [];
    ThenIdle(LogRun(parse, contractId, logs[i]));
  }

  /** Once the lines read so far have panicked, the remaining lines change nothing. */
  lemma HaltedPrefixIsFinal(parse: string -> Option<Json>, contractId: string, logs: seq<string>, n: nat)
    requires n <= |logs| && OutcomeRun(parse, contractId, logs[..n]).halted
    ensures OutcomeRun(parse, contractId, logs) == OutcomeRun(parse, contractId, logs[..n])
  {
    OutcomeRunAppend(parse, contractId, logs[..n], logs[n..]);
    Seqs.TakeDrop(logs, n);
  }

  /** The consumer stops on a log line exactly when some line has a missing or mistyped required field. */
  lemma {:induction false} OutcomeHaltsIffFieldError(parse: string -> Option<Json>, contractId: string, logs: seq<string>)
    ensures OutcomeRun(parse, contractId, logs).halted <==>
            exists i :: 0 <= i < |logs| && DecodeLog(parse, contractId, logs[i]).FieldError?
    decreases |logs|
  {
    if logs != [] {
      OutcomeHaltsIffFieldError(parse, contractId, logs[1..]);
      if exists i :: 0 <= i < |logs| && DecodeLog(parse, contractId, logs[i]).FieldError? {
        var i :| 0 <= i < |logs| && DecodeLog(parse, contractId, logs[i]).FieldError?;
        if i > 0 {
          assert logs[1..][i - 1] == logs[i];
        }
      }
      if exists i :: 0 <= i < |logs[1..]| && DecodeLog(parse, contractId, logs[1..][i]).FieldError? {
        var i :| 0 <= i < |logs[1..]| && DecodeLog(parse, contractId, logs[1..][i]).FieldError?;
        assert logs[i + 1] == logs[1..][i];
      }
    }
  }

  /**
   * A line that fails to parse, is JSON null or carries no known tag is
   * skipped: the lines around it make the same calls, in the same order, as
   * if it were not there.
   */
  lemma {:induction false} SkippedLineIsInvisible(parse: string -> Option<Json>, contractId: string,
                                                  before: seq<string>, line: string, after: seq<string>)
    requires DecodeLog(parse, contractId, line).ParseError? || DecodeLog(parse, contractId, line).NoMatch?
    ensures OutcomeRun(parse, contractId, before + [line] + after) == OutcomeRun(parse, contractId, before + after)
  {
    var b := OutcomeRun(parse, contractId, before);
    var a := OutcomeRun(parse, contractId, after);
    assert OutcomeRun(parse, contractId, [line]) == Idle by {
      assert [line][1..] == [];
      assert LogRun(parse, contractId, line) == Idle;
    }
    OutcomeRunAppend(parse, contractId, before, [line]);
    ThenIdle(b);
    assert OutcomeRun(parse, contractId, before + [line]) == b;
    OutcomeRunAppend(parse, contractId, before + [line], after);
    assert OutcomeRun(parse, contractId, before + [line] + after) == Then(b, a);
    OutcomeRunAppend(parse, contractId, before, after);
  }

  // ---------------------------------------------------------------------
  // The capacitor object
  // ---------------------------------------------------------------------

  class Capacitor {
    /** The `allowed_ids` vector. */
    var allowedIds: seq<string>
    /** The persisted `allowed_account_ids` collection: one account id per record, in cursor order. */
    var store: seq<string>

    ghost function State(): AllowState
      reads this
    {
      AllowState(allowedIds, store)
    }

    /** `Capacitor::new`: the given ids in memory, over the given collection. */
    constructor (persisted: seq<string>, tempAllowedIds: seq<string>)
      ensures allowedIds == tempAllowedIds && store == persisted
    {
      allowedIds := tempAllowedIds;
      store := persisted;
    }

    /** `load`: walk the whole collection and append every id not yet in memory. */
    method Load()
      modifies this`allowedIds
      ensures allowedIds == Merge(old(allowedIds), store)
    {
      var i := 0;
      while i < |store|
        invariant 0 <= i <= |store|
        invariant allowedIds == Merge(old(allowedIds), store[..i])
      {
        var accountId := store[i];
        assert store[..i + 1][..i] == store[..i];
        if accountId !in allowedIds {
          allowedIds := allowedIds + [accountId];
        }
        i := i + 1;
      }
      assert store[..i] == store;
    }

    /**
     * `add_account_id`: look for a record of the id in the collection and
     * return if there is one; otherwise insert one and append the id in memory.
     */
    method AddAccountId(accountId: string)
      modifies this
      ensures State() == AddAccount(old(State()), accountId)
    {
      // the cursor over the records that match the query
      var i := 0;
      while i < |store|
        invariant 0 <= i <= |store|
        invariant accountId !in store[..i]
      {
        if store[i] == accountId {
          return;
        }
        assert store[..i + 1] == store[..i] + [store[i]];
        i := i + 1;
      }
      assert store[..i] == store;
      store := store + [accountId];
      allowedIds := allowedIds + [accountId];
    }

    /**
     * `process_outcome`: decode the outcome's logs in order and make the
     * sink calls of each before looking at the next; a panic on a required
     * field ends the loop after the calls it had already made.
     */
    method ProcessOutcome(parse: string -> Option<Json>, outcome: ExecutionOutcome)
      returns (calls: seq<DomainEvent>, halted: bool)
      ensures Run(calls, halted) == OutcomeRun(parse, outcome.executorId, outcome.logs)
    {
      var contractId := outcome.executorId;
      var logs := outcome.logs;
      calls, halted := [], false;
      var i := 0;
      while i < |logs|
        invariant 0 <= i <= |logs|
        invariant Run(calls, false) == OutcomeRun(parse, contractId, logs[..i])
      {
        OutcomeRunSnoc(parse, contractId, logs, i);
        var decoded := DecodeLog(parse, contractId, logs[i]);
        match decoded {
          case ParseError =>
          case NoMatch =>
          case Produced(es) =>
            calls := calls + es;
          case FieldError(es) =>
            calls := calls + es;
            halted := true;
            HaltedPrefixIsFinal(parse, contractId, logs, i + 1);
            return;
        }
        i := i + 1;
      }
      assert logs[..i] == logs;
    }
  }
}
