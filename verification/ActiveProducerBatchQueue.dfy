/** The batch queue of one target: the methods behind the steps of module BatchQueues, and the delivery of a batch. */
module ActiveProducerBatchQueues {
  import opened Bytes
  import opened Wrappers
  import opened Promises
  import opened TopicLog
  import opened ProducerBatches
  import opened BatchQueueLoops
  import opened BatchQueues
  import opened MemoryTopicManagers

  /**
   * A batch is held as the sequence of its entries, each with its promise; module ProducerBatches packs it. sender is
   * where the loop is in its code: a notification moves it if it sleeps.
   */
  class ActiveProducerBatchQueue<E> {
    const batchSize: SizeT
    var batchQueue: seq<seq<E>>
    var needStop: bool
    var requestFlush: bool
    var running: bool
    ghost var sender: Sender<E>

    /** Nobody reads the flush request of a loop that has ended. */
    ghost function State(): Queue<E>
      reads this
    {
      Queue(batchQueue, sender, running, needStop, requestFlush && !sender.Terminated?)
    }

    ghost predicate Valid()
      reads this
    {
      running <==> sender.AtTop? || sender.Asleep? || sender.Sending?
    }

    constructor (batchSize: SizeT)
      ensures Valid() && this.batchSize == batchSize && State() == Empty()
    {
      this.batchSize := batchSize;
      batchQueue, needStop, requestFlush, running, sender := [], false, false, false, NotStarted;
    }

    /** notify_one: only the loop waits for it. */
    ghost method Notify()
      modifies this`sender
      ensures State() == Notified(old(State()))
    {
      if sender.Asleep? {
        sender := AtTop;
      }
    }

    /** Notifies the loop when a batch is added behind a full one, or always if batches are adaptive. */
    method Push(e: E) returns (needNotification: bool)
      requires Valid()
      modifies this
      ensures Valid() && State() == BatchQueues.Pushed(old(State()), batchSize, e)
      ensures needNotification <==> Notifies(old(batchQueue), batchSize)
    {
      batchQueue, needNotification := Add(batchQueue, batchSize, e);
      if needNotification {
        Notify();
      }
    }

    /** What push does under the mutex. */
    static method Add(batchQueue: seq<seq<E>>, batchSize: SizeT, e: E) returns (q: seq<seq<E>>, needNotification: bool)
      ensures q == Enqueued(batchQueue, batchSize, e)
      ensures needNotification <==> Notifies(batchQueue, batchSize)
      ensures batchQueue == [] ==> (needNotification <==> batchSize == ADAPTIVE || batchSize == 0)
      ensures batchQueue != [] ==> (needNotification <==> batchSize == ADAPTIVE || |Last(batchQueue)| == batchSize)
    {
      var adaptive := batchSize == ADAPTIVE;
      needNotification := adaptive;
      q := batchQueue;
      if |q| == 0 {
        q := q + [[]];
      }
      if !adaptive && |Last(q)| == batchSize {
        q := q + [[]];
        needNotification := true;
      }
      q := q[..|q| - 1] + [Last(q) + [e]];
    }

    method Stop()
      requires Valid()
      modifies this
      ensures Valid() && State() == Stopped(old(State()))
    {
      if !running { return; }
      needStop := true;
      Notify();
    }

    method Flush()
      requires Valid()
      modifies this
      ensures Valid() && State() == Flushed(old(State()))
    {
      if !running { return; }
      requestFlush := true;
      Notify();
    }

    /** The first thing the loop's ULT does. */
    method BeginLoop()
      requires Valid() && sender.NotStarted?
      modifies this
      ensures Valid() && State() == old(State()).(sender := AtTop, running := true)
    {
      running := true;
      sender := AtTop;
    }

    /** The predicate of the loop's wait. */
    method IsAwake() returns (awake: bool)
      requires !sender.Terminated?
      ensures awake <==> Wakes(State(), batchSize)
    {
      if needStop || requestFlush { return true; }
      if |batchQueue| == 0 { return false; }
      if batchSize == ADAPTIVE { return true; }
      awake := |batchQueue[0]| == batchSize;
    }

    /** The loop with the mutex: until it sleeps or ends, without a batch, or lets go of the mutex to send one. */
    method TakeNext() returns (batch: Option<seq<E>>)
      requires Valid() && running
      modifies this
      ensures Valid() && State() == Look(old(State()), batchSize)
      ensures batch == if sender.Sending? then Some(sender.batch) else None
    {
      while !needStop || |batchQueue| != 0
        invariant Valid() && running && needStop == old(needStop) && batchQueue == old(batchQueue)
        invariant sender == old(sender)
        invariant requestFlush != old(requestFlush) ==> !requestFlush && batchQueue == [] && !needStop
        decreases requestFlush
      {
        var awake := IsAwake();
        if !awake {
          sender := Asleep;
          return None;
        }
        if |batchQueue| == 0 {
          requestFlush := false;
          continue;
        }
        batch := Some(batchQueue[0]);
        sender := Sending(batchQueue[0]);
        batchQueue := batchQueue[1..];
        return;
      }
      running := false;
      sender := Terminated;
      return None;
    }

    /** What follows sendBatch: the flush request is cleared, and the loop goes on with the mutex. */
    method AfterSending() returns (batch: Option<seq<E>>)
      requires Valid() && sender.Sending?
      modifies this
      ensures Valid() && State() == Returned(old(State()), batchSize)
      ensures batch == if sender.Sending? then Some(sender.batch) else None
      ensures !sender.AtTop? && !sender.NotStarted? && |batchQueue| + One(batch.Some?) <= |old(batchQueue)|
    {
      requestFlush := false;
      batch := TakeNext();
    }

    /** The loop from its start, or from a notification on, when no call comes, until it sleeps or ends. */
    method RunLoop() returns (sent: seq<seq<E>>)
      requires Valid() && sender.AtTop?
      modifies this
      ensures Valid()
      ensures var end := AtRest(Run(old(State()), [], [], 0, false), batchSize);
              sent == end.sent && State() == end.q
    {
      ghost var start := Run(State(), [], [], 0, false);
      AtRestStep(start, batchSize);
      sent := [];
      var batch := TakeNext();
      while batch.Some?
        invariant Valid() && batch == if sender.Sending? then Some(sender.batch) else None
        invariant !sender.AtTop? && !sender.NotStarted?
        invariant AtRest(Run(State(), [], sent, 0, false), batchSize) == AtRest(start, batchSize)
        decreases |batchQueue| + One(batch.Some?)
      {
        AtRestStep(Run(State(), [], sent, 0, false), batchSize);
        sent := sent + [batch.value];
        batch := AfterSending();
      }
      AtRestStep(Run(State(), [], sent, 0, false), batchSize);
    }
  }

  // ----- Delivery -----

  /** How the RPC that carries a batch can end; with a lost reply the events are in the log all the same. */
  datatype RpcOutcome = Delivered | Refused(error: string) | ReplyLost(error: string)

  /** The first id that the promises of a batch get, or the exception. */
  function SendResult(rpc: RpcOutcome, firstId: EventId): Result<EventId> {
    match rpc
    case Delivered => Success(firstId)
    case Refused(e) => Failure(e)
    case ReplyLost(e) => Failure(e)
  }

  method CallReceiveBatch(batch: ProducerBatch, topic: MemoryTopicManager, rpc: RpcOutcome, ghost log: seq<Event>)
    returns (result: Result<EventId>)
    requires batch.Valid() && Stores(topic.Contents(), log) && |log| + |batch.events| < SIZE_T_LIMIT
    requires RoomForBatch(topic.Contents(), |batch.events|, BulkBytes(Metas(batch.events)), BulkBytes(Datas(batch.events)))
    modifies topic
    ensures rpc.Refused? ==> topic.Contents() == old(topic.Contents())
    ensures !rpc.Refused? ==> Stores(topic.Contents(), log + batch.events)
    ensures rpc.Delivered? ==> result == Success(|log|)
    ensures rpc.Refused? || rpc.ReplyLost? ==> result == Failure(rpc.error)
  {
    var metadata := batch.ExposeMetadata();
    var data := batch.ExposeData();
    if rpc.Refused? {
      return Failure(rpc.error);
    }
    ghost var before := topic.Contents();
    var firstId := topic.ReceiveBatch(batch.Count(), metadata, data);
    ReceiveStores(before, log, batch.events);
    result := SendResult(rpc, firstId);
  }

  /**
   * sendBatch: expose the batch, let the server append it, and fulfil its promises with the ids of its events,
   * or with an exception. A promise that gets id n belongs to the event at index n of the log.
   */
  method SendBatch(batch: ProducerBatch, topic: MemoryTopicManager, rpc: RpcOutcome, movedFrom: string,
                   ghost log: seq<Event>)
    requires batch.Valid() && Distinct(batch.promises) && forall p :: p in batch.promises ==> p.Open()
    requires Stores(topic.Contents(), log) && |log| + |batch.events| < SIZE_T_LIMIT
    requires RoomForBatch(topic.Contents(), |batch.events|, BulkBytes(Metas(batch.events)), BulkBytes(Datas(batch.events)))
    modifies topic, batch.promises
    ensures rpc.Refused? ==> topic.Contents() == old(topic.Contents())
    ensures !rpc.Refused? ==> Stores(topic.Contents(), log + batch.events)
    ensures forall i :: 0 <= i < |batch.events| ==> (log + batch.events)[|log| + i] == batch.events[i]
    ensures rpc.Delivered? ==> Resolved(batch.promises, |log|)
    ensures rpc.Refused? || rpc.ReplyLost? ==> Failed(batch.promises, rpc.error, movedFrom)
  {
    var result := CallReceiveBatch(batch, topic, rpc, log);
    batch.SetPromises(result, movedFrom);
  }
}
