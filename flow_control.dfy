/** The per-partition flow controller of the mission-command consumer: it
    records the offset of every record, pauses a partition at the offset of
    a failed record, schedules a delayed resume that seeks back to that
    offset, and tracks the backoff counters of the pauses. */
module FlowControl {
  import opened Wrappers
  import opened Backoff

  datatype TopicPartition = TopicPartition(topic: string, partition: int)

  /** The (offset, paused) pair stored per partition. */
  datatype OffsetEntry = OffsetEntry(offset: int, paused: bool)

  /** The (offset, flag) pair `setOffset` returns. */
  datatype Reply = Reply(offset: int, flag: bool)

  datatype FlowError = IllegalState

  /** The calls the listener issues to the Kafka consumer. */
  datatype ConsumerCall =
    | PauseCall(tp: TopicPartition)
    | SeekCall(tp: TopicPartition, offset: int)
    | ResumeCall(tp: TopicPartition)

  /** The offset table after `setOffset(tp, offset, paused)` and its reply,
      or the IllegalStateException it throws. An `offset` of -1 means "keep
      the stored offset, only set the paused flag". */
  function SetOffsetSpec(table: map<TopicPartition, OffsetEntry>, tp: TopicPartition, offset: int, paused: bool)
    : (r: Result<(map<TopicPartition, OffsetEntry>, Reply), FlowError>)
    ensures r.Ok? ==> tp in r.value.0
    ensures r.Ok? ==> forall other :: other != tp ==>
              (other in r.value.0 <==> other in table) && (other in table ==> r.value.0[other] == table[other])
    ensures r.Err? ==> offset != -1 && !paused && tp in table && table[tp].paused
  {
    var pair := if tp in table then table[tp] else OffsetEntry(offset, paused);
    var t := table[tp := pair];
    if offset == -1 then
      Ok((t[tp := OffsetEntry(pair.offset, paused)], Reply(pair.offset, paused)))
    else if !paused && pair.paused then
      Err(IllegalState)
    else if !pair.paused || (paused && pair.paused && offset < pair.offset) then
      Ok((t[tp := OffsetEntry(offset, paused)], Reply(offset, !pair.paused)))
    else
      Ok((t, Reply(offset, !pair.paused)))
  }

  /** setOffset throws exactly when a real offset is recorded for a partition
      that is marked paused. */
  lemma SetOffsetFailsIffRecordingWhilePaused(table: map<TopicPartition, OffsetEntry>, tp: TopicPartition, offset: int, paused: bool)
    ensures SetOffsetSpec(table, tp, offset, paused).Err?
            <==> offset != -1 && !paused && tp in table && table[tp].paused
  {
  }

  /** Recording the offset of a record on a running partition stores it. */
  lemma RecordOnRunningPartition(table: map<TopicPartition, OffsetEntry>, tp: TopicPartition, offset: int)
    requires offset != -1
    requires tp in table ==> !table[tp].paused
    ensures var r := SetOffsetSpec(table, tp, offset, false);
            r.Ok? && r.value.0[tp] == OffsetEntry(offset, false) && r.value.1 == Reply(offset, true)
  {
  }

  /** A pause leaves the partition paused at an offset no greater than the
      failed one: a new pause stores it, a repeated pause keeps the lowest. */
  lemma PauseKeepsLowestOffset(table: map<TopicPartition, OffsetEntry>, tp: TopicPartition, offset: int)
    requires offset != -1
    ensures var r := SetOffsetSpec(table, tp, offset, true);
            r.Ok? && r.value.0[tp].paused
            && r.value.0[tp].offset == (if tp in table && table[tp].paused && table[tp].offset < offset
                                        then table[tp].offset else offset)
  {
  }

  /** The pause flag in the reply says whether this pause is new: only a
      partition with a stored, unpaused entry is paused at the broker. A
      partition without an entry is marked paused but reported as not new. */
  lemma PauseReportsNewPause(table: map<TopicPartition, OffsetEntry>, tp: TopicPartition, offset: int)
    requires offset != -1
    ensures var r := SetOffsetSpec(table, tp, offset, true);
            r.Ok? && (r.value.1.flag <==> tp in table && !table[tp].paused)
  {
  }

  /** Setting only the flag keeps the stored offset (-1 for a partition
      without one) and answers it. */
  lemma FlagOnlyKeepsOffset(table: map<TopicPartition, OffsetEntry>, tp: TopicPartition, paused: bool)
    ensures var old' := if tp in table then table[tp].offset else -1;
            var r := SetOffsetSpec(table, tp, -1, paused);
            r.Ok? && r.value.0[tp] == OffsetEntry(old', paused) && r.value.1 == Reply(old', paused)
  {
  }

  /** A failure after a pause and a resume: the resume answers the offset of
      the first failed record, so nothing after it is skipped. */
  lemma ResumeSeeksToFailedOffset(table: map<TopicPartition, OffsetEntry>, tp: TopicPartition, offset: int)
    requires offset != -1
    requires tp in table && !table[tp].paused
    ensures var p := SetOffsetSpec(table, tp, offset, true);
            p.Ok? && var q := SetOffsetSpec(p.value.0, tp, -1, false);
            q.Ok? && q.value.1.offset == offset && q.value.0[tp] == OffsetEntry(offset, false)
  {
  }

  /** The listener: assigned partitions, the offset table, the backoff
      counters, and the calls issued to the consumer. */
  class RebalanceListener {
    const delay: int
    const maxDelay: int
    var counters: map<TopicPartition, Counter>
    var topicPartitions: set<TopicPartition>
    var offsets: map<TopicPartition, OffsetEntry>
    var consumerCalls: seq<ConsumerCall>

    /** Every stored backoff counter is a power of two. */
    predicate Valid()
      reads this
    {
      forall tp :: tp in counters ==> IsPowerOfTwo(counters[tp].attempts)
    }

    constructor(delay: int, maxDelay: int)
      ensures Valid()
      ensures this.delay == delay && this.maxDelay == maxDelay
      ensures counters == map[] && topicPartitions == {} && offsets == map[] && consumerCalls == []
    {
      this.delay := delay;
      this.maxDelay := maxDelay;
      counters := map[];
      topicPartitions := {};
      offsets := map[];
      consumerCalls := [];
    }

    /** `endOffsets` is what the consumer reports for exactly the new partitions;
        each becomes an unpaused entry at its end offset. Backoff counters
        survive reassignment. */
    method OnPartitionsAssigned(partitions: set<TopicPartition>, endOffsets: map<TopicPartition, int>)
      requires Valid()
      requires endOffsets.Keys == partitions
      modifies this
      ensures Valid()
      ensures topicPartitions == old(topicPartitions) + partitions
      ensures offsets == old(offsets) + map tp | tp in endOffsets :: OffsetEntry(endOffsets[tp], false)
      ensures counters == old(counters) && consumerCalls == old(consumerCalls)
    {
      topicPartitions := topicPartitions + partitions;
      offsets := offsets + map tp | tp in endOffsets :: OffsetEntry(endOffsets[tp], false);
    }

    /** Revoked partitions lose their assignment and offset entry; their
        backoff counters stay. */
    method OnPartitionsRevoked(partitions: set<TopicPartition>)
      requires Valid()
      modifies this
      ensures Valid()
      ensures topicPartitions == old(topicPartitions) - partitions
      ensures offsets == old(offsets) - partitions
      ensures counters == old(counters) && consumerCalls == old(consumerCalls)
    {
      topicPartitions := topicPartitions - partitions;
      offsets := offsets - partitions;
    }

    /** The four-argument `setOffset`. */
    method SetOffset(topic: string, partition: int, offset: int, paused: bool) returns (r: Result<Reply, FlowError>)
      modifies this
      ensures var s := SetOffsetSpec(old(offsets), TopicPartition(topic, partition), offset, paused);
              (s.Ok? ==> r == Ok(s.value.1) && offsets == s.value.0)
              && (s.Err? ==> r == Err(IllegalState) && offsets == old(offsets))
      ensures counters == old(counters) && topicPartitions == old(topicPartitions)
      ensures consumerCalls == old(consumerCalls)
    {
      var tp := TopicPartition(topic, partition);
      var pair: OffsetEntry;
      if tp in offsets {
        pair := offsets[tp];
      } else {
        pair := OffsetEntry(offset, paused);
        offsets := offsets[tp := pair];
      }
      if offset == -1 {
        var pOffset := OffsetEntry(pair.offset, paused);
        offsets := offsets[tp := pOffset];
        return Ok(Reply(pOffset.offset, pOffset.paused));
      } else if !paused && pair.paused {
        return Err(IllegalState);
      } else if !pair.paused || (paused && pair.paused && offset < pair.offset) {
        offsets := offsets[tp := OffsetEntry(offset, paused)];
      }
      return Ok(Reply(offset, !pair.paused));
    }

    /** `setOffset(topic, partition, offset)`: record the offset of a record. */
    method RecordOffset(topic: string, partition: int, offset: int) returns (r: Result<Reply, FlowError>)
      modifies this
      ensures var s := SetOffsetSpec(old(offsets), TopicPartition(topic, partition), offset, false);
              (s.Ok? ==> r == Ok(s.value.1) && offsets == s.value.0)
              && (s.Err? ==> r == Err(IllegalState) && offsets == old(offsets))
      ensures counters == old(counters) && topicPartitions == old(topicPartitions)
      ensures consumerCalls == old(consumerCalls)
    {
      r := SetOffset(topic, partition, offset, false);
    }

    /** `setOffset(topic, partition, paused)`: set only the paused flag. */
    method SetPaused(topic: string, partition: int, paused: bool) returns (r: Reply)
      modifies this
      ensures var s := SetOffsetSpec(old(offsets), TopicPartition(topic, partition), -1, paused);
              s.Ok? && r == s.value.1 && offsets == s.value.0
      ensures counters == old(counters) && topicPartitions == old(topicPartitions)
      ensures consumerCalls == old(consumerCalls)
    {
      var res := SetOffset(topic, partition, -1, paused);
      r := res.value;
    }

    /** `calculateDelay` with one clock reading `now`. */
    method CalculateDelay(tp: TopicPartition, now: int) returns (totalDelay: int)
      requires Valid()
      modifies this
      ensures Valid()
      ensures counters == old(counters)[tp := Advance(if tp in old(counters) then Some(old(counters)[tp]) else None, now, delay, maxDelay)]
      ensures totalDelay == DelayFor(counters[tp], delay, maxDelay)
      ensures 0 < delay && 0 < maxDelay ==> 0 < totalDelay <= maxDelay
      ensures var stored := if tp in old(counters) then Some(old(counters)[tp]) else None;
              NoLongOverflow(stored, now, delay, maxDelay) ==>
                (counters[tp], totalDelay) == CalculateDelayAsWritten(stored, now, delay, maxDelay)
      ensures offsets == old(offsets) && topicPartitions == old(topicPartitions)
      ensures consumerCalls == old(consumerCalls)
    {
      var stored := if tp in counters then Some(counters[tp]) else None;
      var pair := stored.GetOr(Counter(0, now));
      var counter := pair.attempts;
      var timestamp := pair.timestamp;
      var expected := if counter * delay > maxDelay then timestamp + maxDelay else timestamp + counter * delay;
      if counter != 0 && now - expected > delay {
        counter := 0;
      }
      timestamp := now;
      counter := if counter == 0 then 1 else counter * 2;
      AdvanceKeepsPowerOfTwo(stored, now, delay, maxDelay);
      counters := counters[tp := Counter(counter, timestamp)];
      totalDelay := if counter * delay > maxDelay then maxDelay else counter * delay;
      if 0 < delay && 0 < maxDelay {
        DelayWithinBounds(stored, now, delay, maxDelay);
      }
      if NoLongOverflow(stored, now, delay, maxDelay) {
        AsWrittenAgreesInRange(stored, now, delay, maxDelay);
      }
    }

    /** Pause a partition at the offset of a failed record. A new pause
        pauses the consumer and answers the delay after which the resume
        timer fires; a repeated pause only keeps the lowest offset. */
    method Pause(topic: string, partition: int, offset: int, now: int) returns (resumeAfter: Option<int>)
      requires Valid()
      modifies this
      ensures Valid()
      ensures var tp := TopicPartition(topic, partition);
              var s := SetOffsetSpec(old(offsets), tp, offset, true);
              s.Ok? && offsets == s.value.0
              && (s.value.1.flag ==>
                    consumerCalls == old(consumerCalls) + [PauseCall(tp)]
                    && counters == old(counters)[tp := Advance(if tp in old(counters) then Some(old(counters)[tp]) else None, now, delay, maxDelay)]
                    && resumeAfter == Some(DelayFor(counters[tp], delay, maxDelay)))
              && (!s.value.1.flag ==>
                    consumerCalls == old(consumerCalls) && counters == old(counters) && resumeAfter == None)
      ensures resumeAfter.Some? && 0 < delay && 0 < maxDelay ==> 0 < resumeAfter.value <= maxDelay
      ensures var tp := TopicPartition(topic, partition);
              var stored := if tp in old(counters) then Some(old(counters)[tp]) else None;
              resumeAfter.Some? && NoLongOverflow(stored, now, delay, maxDelay) ==>
                (counters[tp], resumeAfter.value) == CalculateDelayAsWritten(stored, now, delay, maxDelay)
      ensures topicPartitions == old(topicPartitions)
    {
      var tp := TopicPartition(topic, partition);
      var res := SetOffset(topic, partition, offset, true);
      var paused := res.value.flag;
      if paused {
        consumerCalls := consumerCalls + [PauseCall(tp)];
        var totalDelay := CalculateDelay(tp, now);
        resumeAfter := Some(totalDelay);
      } else {
        resumeAfter := None;
      }
    }

    /** The resume timer: on a partition still assigned, clear the paused
        flag, seek to the stored offset and resume; otherwise nothing. */
    method Resume(topic: string, partition: int) returns (seekedTo: Option<int>)
      requires Valid()
      modifies this
      ensures Valid()
      ensures var tp := TopicPartition(topic, partition);
              if tp !in old(topicPartitions) then
                seekedTo == None && offsets == old(offsets) && consumerCalls == old(consumerCalls)
              else
                var s := SetOffsetSpec(old(offsets), tp, -1, false);
                s.Ok? && offsets == s.value.0
                && seekedTo == Some(s.value.1.offset)
                && consumerCalls == old(consumerCalls) + [SeekCall(tp, s.value.1.offset), ResumeCall(tp)]
      ensures counters == old(counters) && topicPartitions == old(topicPartitions)
    {
      var tp := TopicPartition(topic, partition);
      if tp !in topicPartitions {
        return None;
      }
      var reply := SetPaused(topic, partition, false);
      var offset := reply.offset;
      consumerCalls := consumerCalls + [SeekCall(tp, offset), ResumeCall(tp)];
      seekedTo := Some(offset);
    }
  }

  /** A partition assigned at end offset 1000 whose record at 1005 fails:
      the pause is new, the consumer is paused for the first-tier delay, and
      the resume seeks to 1005 and leaves the partition unpaused. */
  method PauseAndResumeScenario(now: int) returns (resumeAfter: Option<int>, seekedTo: Option<int>)
    ensures resumeAfter == Some(DEFAULT_DELAY)
    ensures seekedTo == Some(1005)
  {
    var tp := TopicPartition("topic-mission-command", 0);
    var listener := new RebalanceListener(DEFAULT_DELAY, DEFAULT_MAX_DELAY);
    listener.OnPartitionsAssigned({tp}, map[tp := 1000]);
    var recorded := listener.RecordOffset("topic-mission-command", 0, 1005);
    assert listener.offsets[tp] == OffsetEntry(1005, false);
    resumeAfter := listener.Pause("topic-mission-command", 0, 1005, now);
    assert listener.offsets[tp] == OffsetEntry(1005, true);
    seekedTo := listener.Resume("topic-mission-command", 0);
  }
}
