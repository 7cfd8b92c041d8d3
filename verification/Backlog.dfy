/** The telemetry backlog: what each lock region of the gateway does to it. */
module Backlog {
  import opened Outcomes

  const MAX_PENDING := 512

  datatype UploadResult = Accepted | Retryable | Permanent

  datatype State<T> = State(pending: seq<T>, flushing: bool, permanentDrops: nat, overflowDrops: nat)
  {
    predicate Full() {
      |pending| == MAX_PENDING
    }

    function Enqueue(batch: T): State<T> {
      if Full() then this.(pending := pending[1..] + [batch], overflowDrops := overflowDrops + 1)
      else this.(pending := pending + [batch])
    }

    predicate ShouldFlush() {
      !flushing && pending != []
    }

    function StartFlush(): State<T> {
      if ShouldFlush() then this.(flushing := true) else this
    }

    /** Take the oldest batch, or stop flushing. */
    function Take(): State<T> {
      if pending == [] then this.(flushing := false) else this.(pending := pending[1..])
    }

    /** Put a batch back at the front, unless newer batches have filled the queue. */
    function Restore(batch: T): State<T> {
      if Full() then this.(overflowDrops := overflowDrops + 1) else this.(pending := [batch] + pending)
    }

    function DropPermanently(): State<T> {
      this.(permanentDrops := permanentDrops + 1)
    }

    function Handle(batch: T, result: UploadResult): State<T> {
      match result
      case Accepted => this
      case Retryable => Restore(batch)
      case Permanent => DropPermanently()
    }
  }

  class TelemetryBacklog<T> {
    var pending: seq<T>
    var flushing: bool
    var permanentDrops: nat
    var overflowDrops: nat

    ghost function Model(): State<T>
      reads this
    {
      State(pending, flushing, permanentDrops, overflowDrops)
    }

    constructor ()
      ensures Model() == State([], false, 0, 0)
    {
      pending, flushing, permanentDrops, overflowDrops := [], false, 0, 0;
    }

    method Enqueue(batch: T)
      modifies this
      ensures Model() == old(Model()).Enqueue(batch)
    {
      if |pending| == MAX_PENDING {
        pending := pending[1..];
        overflowDrops := overflowDrops + 1;
      }
      pending := pending + [batch];
    }

    method TriggerFlush() returns (shouldSpawn: bool)
      modifies this
      ensures Model() == old(Model()).StartFlush()
      ensures shouldSpawn == old(Model()).ShouldFlush()
    {
      shouldSpawn := !(flushing || pending == []);
      if shouldSpawn { flushing := true; }
    }

    method TakeNext() returns (batch: Option<T>)
      modifies this
      ensures Model() == old(Model()).Take()
      ensures batch == if old(pending) == [] then None else Some(old(pending)[0])
    {
      if pending == [] {
        flushing := false;
        return None;
      }
      batch := Some(pending[0]);
      pending := pending[1..];
    }

    method RestoreRetryable(batch: T)
      modifies this
      ensures Model() == old(Model()).Restore(batch)
    {
      if |pending| == MAX_PENDING {
        overflowDrops := overflowDrops + 1;
      } else {
        pending := [batch] + pending;
      }
    }

    method RecordPermanentDrop()
      modifies this
      ensures Model() == old(Model()).DropPermanently()
    {
      permanentDrops := permanentDrops + 1;
    }

    /** Whether the worker may go on at once. */
    method HandleFlushResult(batch: T, result: UploadResult) returns (settled: bool)
      modifies this
      ensures Model() == old(Model()).Handle(batch, result)
      ensures settled <==> !result.Retryable?
    {
      match result {
        case Accepted => settled := true;
        case Retryable =>
          RestoreRetryable(batch);
          settled := false;
        case Permanent =>
          RecordPermanentDrop();
          settled := true;
      }
    }
  }
}
