/** The append path as the source runs it: the fill loop of one shard, the batch it hands to
    the store, and the replies it sends. */
module BatchLoop {
  import opened Wrappers
  import opened Events
  import opened Engines
  import opened Faults
  import opened Enumerations
  import opened BatchProtocol
  import opened Store

  /** One turn of the store's tier loop is one `AppendTier` step of the protocol, in any order. */
  lemma AppendTierIsOneTurn(before: EngineMap, now: EngineMap, reqs: seq<Request>, written: set<Tier>, tier: Tier)
    requires WroteTiers(before, now, EventsOf(reqs), written) && tier !in written
    ensures WroteTiers(before, AppendTo(now, reqs, tier), EventsOf(reqs), written + {tier})
  {
  }

  /** When no tier fails, a request answered with its own event's id is durable. */
  lemma RepliesAreDurable(before: EngineMap, after: EngineMap, reqs: seq<Request>, order: seq<Tier>,
                          fault: Tier -> Fault, replies: seq<Finished>)
    requires Visits(order, TiersOf(EventsOf(reqs))) && !Fails(order, fault)
    requires WroteTiers(before, after, EventsOf(reqs), WrittenTiers(order, fault))
    requires Requests(replies) == reqs
    requires forall i :: 0 <= i < |reqs| ==> replies[i].answer == Acked(EventsOf(reqs)[i].id)
    ensures forall f :: f in replies ==> f.answer == Acked(f.req.event.id) && Durable(after, f.req.event)
  {
    AllWritten(order, fault);
    forall f | f in replies
      ensures f.answer == Acked(f.req.event.id) && Durable(after, f.req.event)
    {
      var i :| 0 <= i < |replies| && replies[i] == f;
      assert EventsOf(reqs)[i] == f.req.event;
      AppendedIsDurable(before, after, EventsOf(reqs), SetOf(order), f.req.event);
    }
  }

  /** One shard's append loop between two flushes. */
  class AppendLoop {
    var queue: seq<Request>
    var buffer: seq<Request>
    const batchSize: nat

    ghost predicate Valid()
      reads this
    {
      |buffer| < batchSize
    }

    constructor (batchSize: nat)
      requires batchSize > 0
      ensures Valid() && queue == [] && buffer == [] && this.batchSize == batchSize
    {
      this.batchSize := batchSize;
      queue, buffer := [], [];
    }

    /** `Some(r)` arm: buffer `r`, then drain the channel without waiting. Requests keep their
        order, and the loop stops short of a full batch only when the channel is empty. */
    method Receive() returns (full: bool)
      requires Valid() && queue != []
      modifies this
      ensures buffer + queue == old(buffer + queue) && old(buffer) + [old(queue)[0]] <= buffer
      ensures |buffer| <= batchSize
      ensures full <==> |buffer| == batchSize
      ensures !full ==> queue == [] && Valid()
    {
      buffer, queue := buffer + [queue[0]], queue[1..];
      while |buffer| < batchSize && queue != []
        invariant buffer + queue == old(buffer + queue) && old(buffer) + [old(queue)[0]] <= buffer
        invariant |buffer| <= batchSize
        decreases |queue|
      {
        buffer, queue := buffer + [queue[0]], queue[1..];
      }
      full := |buffer| >= batchSize;
    }

    /** `append_only`: the buffer becomes one batch. Either every request is acknowledged with
        its own event's id and is durable, or every request is rejected. */
    method AppendOnly(store: KdbStore, order: seq<Tier>, fault: Tier -> Fault) returns (replies: seq<Finished>)
      requires batchSize > 0 && Visits(order, TiersOf(EventsOf(buffer)))
      modifies this, store
      ensures buffer == [] && queue == old(queue) && Valid()
      ensures Requests(replies) == old(buffer)
      ensures !Fails(order, fault) ==>
        forall f :: f in replies ==> f.answer == Acked(f.req.event.id) && Durable(store.engines, f.req.event)
      ensures Fails(order, fault) ==> forall f :: f in replies ==> f.answer == Rejected
      ensures WroteTiers(old(store.engines), store.engines, EventsOf(old(buffer)), WrittenTiers(order, fault))
    {
      var pending := buffer;
      buffer := [];
      var senders, batch := Unzip(pending);
      var result := store.AppendBatchDurable(batch, order, fault);
      replies := SendReplies(senders, result);
      if result.Ok? {
        RepliesAreDurable(old(store.engines), store.engines, pending, order, fault, replies);
      }
    }

    /** The batch is taken apart into reply senders and events, in the same order. */
    method Unzip(pending: seq<Request>) returns (senders: seq<Request>, batch: seq<LlmEvent>)
      ensures senders == pending && batch == EventsOf(pending)
    {
      senders, batch := [], [];
      for n := 0 to |pending|
        invariant senders == pending[..n] && batch == EventsOf(pending)[..n]
      {
        PrefixGrows(pending, n);
        PrefixGrows(EventsOf(pending), n);
        senders := senders + [pending[n]];
        batch := batch + [pending[n].event];
      }
      WholePrefix(pending);
      WholePrefix(EventsOf(pending));
    }

    /** Ids are zipped with senders; after an error every sender gets it. */
    method SendReplies(senders: seq<Request>, result: Result<seq<EventId>, StoreError>) returns (replies: seq<Finished>)
      requires result.Ok? ==> |result.value| == |senders|
      ensures Requests(replies) == senders
      ensures forall i :: 0 <= i < |senders| ==>
        replies[i].answer == if result.Ok? then Acked(result.value[i]) else Rejected
    {
      replies := [];
      for n := 0 to |senders|
        invariant |replies| == n
        invariant forall i :: 0 <= i < n ==>
          replies[i] == Finished(senders[i], if result.Ok? then Acked(result.value[i]) else Rejected)
      {
        replies := replies + [Finished(senders[n], if result.Ok? then Acked(result.value[n]) else Rejected)];
      }
    }
  }
}
