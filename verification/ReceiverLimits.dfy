/** What the receiver refuses, in numbers. */
module ReceiverLimits {
  import opened Outcomes
  import opened JsonValues
  import opened TraceIo
  import opened TelemetryEvents
  import opened EmbeddedMonitor
  import opened MonitorBatches

  /** A record of a delivery is accepted exactly if its times are in order and within a day, and a failed one says
      why, in at most 512 bytes. */
  lemma DeliveriesAreChecked(t: TraceTelemetry)
    requires t.Delivery?
    ensures ValidTelemetry(t)
      <==> && t.start <= t.deliveryEnd <= 86_400_000 && t.deliveryElapsed <= 86_400_000
           && (t.delivered || t.error.Some?)
           && (t.error == None || (1 <= Utf8Size(t.error.value) <= 512 && '\0' !in t.error.value))
  {
  }

  /** A record of a stage has an elapsed time and an end exactly if it does not start the stage, an error if it
      failed, and no time above a day and no count above a billion. */
  lemma StagesAreChecked(t: TraceTelemetry)
    requires t.ProviderStage?
    ensures ValidTelemetry(t)
      <==> && (t.status == Started || (t.elapsed.Some? && t.end.Some?)) && (t.status != Started || (t.elapsed == None && t.end == None))
           && (t.status != Failed || t.error.Some?)
           && (t.error == None || (1 <= Utf8Size(t.error.value) <= 512 && '\0' !in t.error.value))
           && t.start <= 86_400_000
           && (t.end == None || t.start <= t.end.value <= 86_400_000)
           && (t.elapsed == None || t.elapsed.value <= 86_400_000)
           && (t.requestElapsed == None || t.requestElapsed.value <= 86_400_000)
           && (t.inputTokens == None || t.inputTokens.value <= 1_000_000_000)
           && (t.outputTokens == None || t.outputTokens.value <= 1_000_000_000)
  {
  }

  /** A summary is accepted exactly if it has at most 131072 bytes, is its own canonical form, and is flagged when it
      shows a cut. */
  lemma SummariesAreChecked(reader: Reader, s: TraceIoSummary)
    ensures ValidateSummary(reader, s).Ok?
      <==> && EncodedSize(s.value) <= 131_072 && CanonicalSummary(reader, s.value).value == s.value
           && (!s.truncated ==> !RequiresTruncation(s.value))
  {
  }

  /** A batch with nothing in it, with more than 32 records or 10000 losses, or with one bad record or summary is
      refused, and no other. */
  lemma BatchesAreChecked(reader: Reader, batch: Batch)
    ensures !ValidBatch(reader, batch)
      <==> || (batch.events == [] && batch.input == None && batch.output == None)
           || |batch.events| > 32 || batch.dropped > 10_000
           || (exists i :: 0 <= i < |batch.events| && !ValidTelemetry(batch.events[i]))
           || (batch.input.Some? && ValidateSummary(reader, batch.input.value).Err?)
           || (batch.output.Some? && ValidateSummary(reader, batch.output.value).Err?)
  {
    if !(forall t :: t in batch.events ==> ValidTelemetry(t)) {
      var t :| t in batch.events && !ValidTelemetry(t);
      var i :| 0 <= i < |batch.events| && batch.events[i] == t;
    }
    assert forall i :: 0 <= i < |batch.events| ==> batch.events[i] in batch.events;
  }

  /** A batch of the monitor is refused for the same reasons, for a bad name, without a start, and when it ends before
      it starts, lasts more than a day or says why in more than 512 bytes. */
  lemma RuntimeBatchesAreChecked(reader: Reader, b: RuntimeBatch)
    ensures ValidRuntimeBatch(reader, b)
      <==> && b.startedAt > 0 && (b.events != [] || b.terminal.Some?)
           && |b.events| <= 32 && b.dropped <= 10_000
           && (forall i :: 0 <= i < |b.events| ==> ValidTelemetry(b.events[i]))
           && (b.input == None || ValidateSummary(reader, b.input.value).Ok?)
           && (b.output == None || ValidateSummary(reader, b.output.value).Ok?)
           && ValidIdentifier(b.traceId) && ValidIdentifier(b.invocationId) && ValidIdentifier(b.deployment.project)
           && ValidIdentifier(b.endpoint) && ValidIdentifier(b.agent)
           && (b.terminal == None
               || (b.terminal.value.duration <= 86_400_000 && b.terminal.value.endedAt >= b.startedAt
                   && (b.terminal.value.error == None
                       || (1 <= Utf8Size(b.terminal.value.error.value) <= 512 && '\0' !in b.terminal.value.error.value))))
  {
    assert forall i :: 0 <= i < |b.events| ==> b.events[i] in b.events;
  }
}
