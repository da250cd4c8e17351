/**
 * `handle_blocks_message`: the consumer of the block stream. Messages are
 * taken in the order they arrive, shards in their order within a message,
 * outcomes in their order within a shard; an outcome that is not a valid
 * receipt is skipped, and each valid one is processed to the end before the
 * next is looked at. The source takes the capacitor's lock and reads the
 * allow-list anew for every message; here one snapshot of the allow-list,
 * taken when the consumer starts, serves the whole stream.
 */
module Indexer {
  import opened Wrappers
  import Seqs
  import opened Json
  import opened Events
  import opened Near
  import opened Capacitor
  import Decoder
  import DecoderRoundTrip

  /** One outcome: its logs' calls if it is a valid receipt, no call otherwise. */
  function OutcomeStep(parse: string -> Option<Json>, allowed: seq<string>, o: ExecutionOutcome): Run
  {
    if IsValidReceipt(allowed, o) then OutcomeRun(parse, o.executorId, o.logs) else Idle
  }

  /** The outcomes of one shard, in order. */
  function OutcomesRun(parse: string -> Option<Json>, allowed: seq<string>, os: seq<ExecutionOutcome>): Run
    decreases |os|
  {
    if os == [] then Idle
    else Then(OutcomeStep(parse, allowed, os[0]), OutcomesRun(parse, allowed, os[1..]))
  }

  /** The shards of one message, in order. */
  function ShardsRun(parse: string -> Option<Json>, allowed: seq<string>, shards: seq<Shard>): Run
    decreases |shards|
  {
    if shards == [] then Idle
    else Then(OutcomesRun(parse, allowed, shards[0].outcomes), ShardsRun(parse, allowed, shards[1..]))
  }

  /** The messages of the stream, in the order received. */
  function StreamRun(parse: string -> Option<Json>, allowed: seq<string>, stream: seq<StreamerMessage>): Run
    decreases |stream|
  {
    if stream == [] then Idle
    else Then(ShardsRun(parse, allowed, stream[0].shards), StreamRun(parse, allowed, stream[1..]))
  }

  // ---------------------------------------------------------------------
  // Appending to each fold
  // ---------------------------------------------------------------------

  lemma {:induction false} OutcomesRunAppend(parse: string -> Option<Json>, allowed: seq<string>,
                                             a: seq<ExecutionOutcome>, b: seq<ExecutionOutcome>)
    ensures OutcomesRun(parse, allowed, a + b) ==
            Then(OutcomesRun(parse, allowed, a), OutcomesRun(parse, allowed, b))
    decreases |a|
  {
    if a == [] {
      assert a + b == b;
      ThenIdle(OutcomesRun(parse, allowed, b));
    } else {
      assert (a + b)[0] == a[0];
      assert (a + b)[1..] == a[1..] + b;
      OutcomesRunAppend(parse, allowed, a[1..], b);
      ThenAssociative(OutcomeStep(parse, allowed, a[0]), OutcomesRun(parse, allowed, a[1..]),
                      OutcomesRun(parse, allowed, b));
    }
  }

  lemma {:induction false} ShardsRunAppend(parse: string -> Option<Json>, allowed: seq<string>,
                                           a: seq<Shard>, b: seq<Shard>)
    ensures ShardsRun(parse, allowed, a + b) == Then(ShardsRun(parse, allowed, a), ShardsRun(parse, allowed, b))
    decreases |a|
  {
    if a == [] {
      assert a + b == b;
      ThenIdle(ShardsRun(parse, allowed, b));
    } else {
      assert (a + b)[0] == a[0];
      assert (a + b)[1..] == a[1..] + b;
      ShardsRunAppend(parse, allowed, a[1..], b);
      ThenAssociative(OutcomesRun(parse, allowed, a[0].outcomes), ShardsRun(parse, allowed, a[1..]),
                      ShardsRun(parse, allowed, b));
    }
  }

  lemma {:induction false} StreamRunAppend(parse: string -> Option<Json>, allowed: seq<string>,
                                           a: seq<StreamerMessage>, b: seq<StreamerMessage>)
    ensures StreamRun(parse, allowed, a + b) == Then(StreamRun(parse, allowed, a), StreamRun(parse, allowed, b))
    decreases |a|
  {
    if a == [] {
      assert a + b == b;
      ThenIdle(StreamRun(parse, allowed, b));
    } else {
      assert (a + b)[0] == a[0];
      assert (a + b)[1..] == a[1..] + b;
      StreamRunAppend(parse, allowed, a[1..], b);
      ThenAssociative(ShardsRun(parse, allowed, a[0].shards), StreamRun(parse, allowed, a[1..]),
                      StreamRun(parse, allowed, b));
    }
  }

  lemma OutcomesRunSnoc(parse: string -> Option<Json>, allowed: seq<string>, os: seq<ExecutionOutcome>, k: nat)
    requires k < |os|
    ensures OutcomesRun(parse, allowed, os[..k + 1]) ==
            Then(OutcomesRun(parse, allowed, os[..k]), OutcomeStep(parse, allowed, os[k]))
  {
    Seqs.TakeSnoc(os, k);
    OutcomesRunAppend(parse, allowed, os[..k], [os[k]]);
    assert [os[k]][1..] == [];
    ThenIdle(OutcomeStep(parse, allowed, os[k]));
  }

  lemma ShardsRunSnoc(parse: string -> Option<Json>, allowed: seq<string>, shards: seq<Shard>, s: nat)
    requires s < |shards|
    ensures ShardsRun(parse, allowed, shards[..s + 1]) ==
            Then(ShardsRun(parse, allowed, shards[..s]), OutcomesRun(parse, allowed, shards[s].outcomes))
  {
    Seqs.TakeSnoc(shards, s);
    ShardsRunAppend(parse, allowed, shards[..s], [shards[s]]);
    assert [shards[s]][1..] == [];
    ThenIdle(OutcomesRun(parse, allowed, shards[s].outcomes));
  }

  lemma StreamRunSnoc(parse: string -> Option<Json>, allowed: seq<string>, stream: seq<StreamerMessage>, m: nat)
    requires m < |stream|
    ensures StreamRun(parse, allowed, stream[..m + 1]) ==
            Then(StreamRun(parse, allowed, stream[..m]), ShardsRun(parse, allowed, stream[m].shards))
  {
    Seqs.TakeSnoc(stream, m);
    StreamRunAppend(parse, allowed, stream[..m], [stream[m]]);
    assert [stream[m]][1..] == [];
    ThenIdle(ShardsRun(parse, allowed, stream[m].shards));
  }

  // A panic inside an outcome ends the consumer: once the outcomes, shards
  // or messages read so far have panicked, the ones after them forward
  // nothing.

  lemma OutcomesHaltFinal(parse: string -> Option<Json>, allowed: seq<string>, os: seq<ExecutionOutcome>, n: nat)
    requires n <= |os| && OutcomesRun(parse, allowed, os[..n]).halted
    ensures OutcomesRun(parse, allowed, os) == OutcomesRun(parse, allowed, os[..n])
  {
    OutcomesRunAppend(parse, allowed, os[..n], os[n..]);
    Seqs.TakeDrop(os, n);
  }

  lemma ShardsHaltFinal(parse: string -> Option<Json>, allowed: seq<string>, shards: seq<Shard>, n: nat)
    requires n <= |shards| && ShardsRun(parse, allowed, shards[..n]).halted
    ensures ShardsRun(parse, allowed, shards) == ShardsRun(parse, allowed, shards[..n])
  {
    ShardsRunAppend(parse, allowed, shards[..n], shards[n..]);
    Seqs.TakeDrop(shards, n);
  }

  lemma StreamHaltFinal(parse: string -> Option<Json>, allowed: seq<string>, stream: seq<StreamerMessage>, n: nat)
    requires n <= |stream| && StreamRun(parse, allowed, stream[..n]).halted
    ensures StreamRun(parse, allowed, stream) == StreamRun(parse, allowed, stream[..n])
  {
    StreamRunAppend(parse, allowed, stream[..n], stream[n..]);
    Seqs.TakeDrop(stream, n);
  }

  // ---------------------------------------------------------------------
  // The same calls, read as "filter the flattened stream, then forward"
  // ---------------------------------------------------------------------

  /** The outcomes of the given shards, shard after shard. */
  function ShardOutcomes(shards: seq<Shard>): seq<ExecutionOutcome>
  {
    if shards == [] then [] else shards[0].outcomes + ShardOutcomes(shards[1..])
  }

  /** Every outcome of the stream, in block, shard and outcome order. */
  function StreamOutcomes(stream: seq<StreamerMessage>): seq<ExecutionOutcome>
  {
    if stream == [] then [] else ShardOutcomes(stream[0].shards) + StreamOutcomes(stream[1..])
  }

  /** The valid receipts among `os`, in their order. */
  function Eligible(allowed: seq<string>, os: seq<ExecutionOutcome>): (r: seq<ExecutionOutcome>)
    ensures |r| <= |os|
    ensures forall o :: o in r <==> o in os && IsValidReceipt(allowed, o)
  {
    if os == [] then []
    else if IsValidReceipt(allowed, os[0]) then [os[0]] + Eligible(allowed, os[1..])
    else Eligible(allowed, os[1..])
  }

  /** Forwarding the logs of every outcome in `os`, one outcome after the other. */
  function Forwarded(parse: string -> Option<Json>, os: seq<ExecutionOutcome>): Run
  {
    if os == [] then Idle
    else Then(OutcomeRun(parse, os[0].executorId, os[0].logs), Forwarded(parse, os[1..]))
  }

  lemma {:induction false} OutcomesRunFiltered(parse: string -> Option<Json>, allowed: seq<string>,
                                               os: seq<ExecutionOutcome>)
    ensures OutcomesRun(parse, allowed, os) == Forwarded(parse, Eligible(allowed, os))
    decreases |os|
  {
    if os != [] {
      OutcomesRunFiltered(parse, allowed, os[1..]);
      var rest := Eligible(allowed, os[1..]);
      if IsValidReceipt(allowed, os[0]) {
        assert ([os[0]] + rest)[0] == os[0] && ([os[0]] + rest)[1..] == rest;
      } else {
        ThenIdle(OutcomesRun(parse, allowed, os[1..]));
      }
    }
  }

  lemma {:induction false} ShardsRunFlat(parse: string -> Option<Json>, allowed: seq<string>, shards: seq<Shard>)
    ensures ShardsRun(parse, allowed, shards) == OutcomesRun(parse, allowed, ShardOutcomes(shards))
    decreases |shards|
  {
    if shards != [] {
      ShardsRunFlat(parse, allowed, shards[1..]);
      OutcomesRunAppend(parse, allowed, shards[0].outcomes, ShardOutcomes(shards[1..]));
    }
  }

  lemma {:induction false} StreamRunFlat(parse: string -> Option<Json>, allowed: seq<string>,
                                         stream: seq<StreamerMessage>)
    ensures StreamRun(parse, allowed, stream) == OutcomesRun(parse, allowed, StreamOutcomes(stream))
    decreases |stream|
  {
    if stream != [] {
      StreamRunFlat(parse, allowed, stream[1..]);
      ShardsRunFlat(parse, allowed, stream[0].shards);
      OutcomesRunAppend(parse, allowed, ShardOutcomes(stream[0].shards), StreamOutcomes(stream[1..]));
    }
  }

  /**
   * The sink calls of the whole stream are those of forwarding, one after the
   * other, exactly the valid receipts of the stream in block, shard and
   * outcome order.
   */
  lemma StreamIsFilterThenForward(parse: string -> Option<Json>, allowed: seq<string>, stream: seq<StreamerMessage>)
    ensures StreamRun(parse, allowed, stream) == Forwarded(parse, Eligible(allowed, StreamOutcomes(stream)))
  {
    StreamRunFlat(parse, allowed, stream);
    OutcomesRunFiltered(parse, allowed, StreamOutcomes(stream));
  }

  /** A stream with no valid receipt (failed outcomes, or executors not allow-listed) makes no sink call. */
  lemma NoValidReceiptNoCalls(parse: string -> Option<Json>, allowed: seq<string>, stream: seq<StreamerMessage>)
    requires forall o :: o in StreamOutcomes(stream) ==> !IsValidReceipt(allowed, o)
    ensures StreamRun(parse, allowed, stream) == Idle
  {
    StreamIsFilterThenForward(parse, allowed, stream);
    NothingEligible(allowed, StreamOutcomes(stream));
  }

  lemma {:induction false} NothingEligible(allowed: seq<string>, os: seq<ExecutionOutcome>)
    requires forall o :: o in os ==> !IsValidReceipt(allowed, o)
    ensures Eligible(allowed, os) == []
    decreases |os|
  {
    if os != [] {
      assert os[0] in os;
      NothingEligible(allowed, os[1..]);
    }
  }

  /**
   * A worked case: an allow-listed marketplace logs one `add_bid` event
   * behind the marker, and exactly one bid, priced at the logged amount, is
   * forwarded.
   */
  lemma AddBidEndToEnd(parse: string -> Option<Json>, text: string, height: nat, value: string)
    requires !Decoder.HasMarker(text)
    requires parse(text) == Some(JObject(map[
      "event" := JString("add_bid"),
      "params" := JObject(map["bidder_id" := JString("bob.near"), "nft_contract_id" := JString("nft.near"),
                              "token_id" := JString("42"), "ft_token_id" := JString("near"),
                              "amount" := JString("100")])]))
    ensures StreamRun(parse, ["market.near"],
              [StreamerMessage(height, [Shard([ExecutionOutcome("market.near", SuccessValue(value),
                                                                [Decoder.Marker + text])])])])
            == Run([AddBid("42", "nft.near", "bob.near", "near", "100")], false)
  {
    var e := AddBid("42", "nft.near", "bob.near", "near", "100");
    var line := Decoder.Marker + text;
    var o := ExecutionOutcome("market.near", SuccessValue(value), [line]);
    var shard := Shard([o]);
    var msg := StreamerMessage(height, [shard]);
    DecoderRoundTrip.AddBidExample(parse(text).value);
    Decoder.LeadingMarkerStripped(text);
    assert Decoder.DecodeLog(parse, "market.near", line) == Decoder.Produced([e]);
    assert LogRun(parse, "market.near", line) == Run([e], false);
    assert [line][1..] == [];
    ThenIdle(Run([e], false));
    assert OutcomeRun(parse, "market.near", [line]) == Run([e], false);
    assert OutcomeStep(parse, ["market.near"], o) == Run([e], false);
    assert [o][1..] == [];
    assert OutcomesRun(parse, ["market.near"], [o]) == Run([e], false);
    assert [shard][1..] == [];
    assert ShardsRun(parse, ["market.near"], [shard]) == Run([e], false);
    assert [msg][1..] == [];
  }

  // ---------------------------------------------------------------------
  // The consumer
  // ---------------------------------------------------------------------

  /** The run so far, message prefix then shard prefix then outcome prefix, followed by one more outcome. */
  lemma ThenRegroup(a: Run, b: Run, c: Run, d: Run)
    ensures Then(a, Then(b, Then(c, d))) == Then(Then(a, Then(b, c)), d)
  {
    ThenAssociative(b, c, d);
    ThenAssociative(a, Then(b, c), d);
  }

  /**
   * `handle_blocks_message` over the messages the stream yields before it
   * closes, with one snapshot of the capacitor's allow-list taken at the
   * start and used for every message (the source re-reads it under the lock
   * for each message; nothing changes it in between in this model). Returns
   * the sink calls in the order they are made, and whether a field panic
   * ended the consumer early.
   */
  method HandleBlocksMessage(cap: Capacitor, parse: string -> Option<Json>, stream: seq<StreamerMessage>)
    returns (calls: seq<DomainEvent>, halted: bool)
    ensures Run(calls, halted) == StreamRun(parse, cap.allowedIds, stream)
  {
    var allowed := cap.allowedIds;
    calls, halted := [], false;
    var m := 0;
    while m < |stream|
      invariant 0 <= m <= |stream|
      invariant Run(calls, false) == StreamRun(parse, allowed, stream[..m])
    {
      var shards := stream[m].shards;
      var s := 0;
      while s < |shards|
        invariant 0 <= s <= |shards|
        invariant Run(calls, false) == Then(StreamRun(parse, allowed, stream[..m]), ShardsRun(parse, allowed, shards[..s]))
      {
        var outcomes := shards[s].outcomes;
        var k := 0;
        while k < |outcomes|
          invariant 0 <= k <= |outcomes|
          invariant Run(calls, false) ==
                    Then(StreamRun(parse, allowed, stream[..m]),
                         Then(ShardsRun(parse, allowed, shards[..s]), OutcomesRun(parse, allowed, outcomes[..k])))
        {
          var outcome := outcomes[k];
          OutcomesRunSnoc(parse, allowed, outcomes, k);
          ghost var before := Run(calls, false);
          ThenRegroup(StreamRun(parse, allowed, stream[..m]), ShardsRun(parse, allowed, shards[..s]),
                      OutcomesRun(parse, allowed, outcomes[..k]), OutcomeStep(parse, allowed, outcome));
          if IsValidReceipt(allowed, outcome) {
            var more, stop := cap.ProcessOutcome(parse, outcome);
            calls := calls + more;
            if stop {
              halted := true;
              assert Run(calls, halted) == StreamRun(parse, allowed, stream) by {
                OutcomesHaltFinal(parse, allowed, outcomes, k + 1);
                ShardsRunSnoc(parse, allowed, shards, s);
                ShardsHaltFinal(parse, allowed, shards, s + 1);
                StreamRunSnoc(parse, allowed, stream, m);
                StreamHaltFinal(parse, allowed, stream, m + 1);
              }
              return;
            }
          } else {
            ThenIdle(before);
          }
          k := k + 1;
        }
        assert outcomes[..k] == outcomes;
        ShardsRunSnoc(parse, allowed, shards, s);
        s := s + 1;
      }
      assert shards[..s] == shards;
      StreamRunSnoc(parse, allowed, stream, m);
      m := m + 1;
    }
    assert stream[..m] == stream;
  }
}
