/** Client views of one batch run: sequences of batch operations and what they
    must yield, stated over whole runs rather than single calls. */
module PipeBatchScenarios {
  import opened Wrappers
  import opened Records
  import opened LanePayload
  import opened OffsetTracking
  import opened PipeBatches

  /** A batch over a fresh tracker for the given pipeline revision. */
  method NewBatch(batchSize: int, snapshot: bool) returns (batch: FullPipeBatch)
    ensures fresh(batch) && fresh(batch.offsetTracker) && fresh(batch.offsetTracker.store)
    ensures batch.Valid() && batch.batchSize == batchSize
    ensures batch.fullPayload == map[] && batch.processedStages == {}
    ensures batch.recordsIn == 0 && batch.recordsOut == 0
    ensures batch.stageOutputSnapshot == if snapshot then Some([]) else None
  {
    var store := new OffsetStore(map[]);
    var tracker := new ProductionSourceOffsetTracker("pipeline", "0", store);
    batch := new FullPipeBatch(tracker, batchSize, snapshot);
  }

  /** Starting the same stage twice in one batch fails the second time. */
  method StartTwice(pipe: StagePipe, batchSize: int) returns (first: Result<BatchMaker, BatchError>, second: Result<BatchMaker, BatchError>)
    ensures first.Success? && first.value.pipe == pipe
    ensures first.value.recordAllowance == if pipe.stageType == Source then batchSize else INTEGER_MAX_VALUE
    ensures second == Failure(StageAlreadyProcessed(pipe.instanceName))
  {
    var batch := NewBatch(batchSize, false);
    first := batch.StartStage(pipe);
    second := batch.StartStage(pipe);
  }

  /** A source emits records on its one output lane and a target consumes that lane:
      the target receives the records in order, the lane is consumed, the source's
      records count as input and the target's as output. */
  method SourceToTarget(records: seq<Record>)
    returns (received: Result<Batch, BatchError>, laneLeft: bool, input: int, output: int)
    requires |records| <= INTEGER_MAX_VALUE
    ensures received.Success? && received.value.records == records && received.value.instanceName == "target"
    ensures !laneLeft
    ensures input == |records| && output == |records|
  {
    var batch := NewBatch(1000, false);
    var source := StagePipe("source", Source, [], ["source::out"], ["out"]);
    var target := StagePipe("target", Target, ["source::out"], [], []);
    var started := batch.StartStage(source);
    var maker := started.value.(output := map["out" := records], size := |records|);
    var failed := batch.CompleteStage(maker);
    var _ := batch.StartStage(target);
    received := batch.GetBatch(target);
    laneLeft := "source::out" in batch.fullPayload;
    input := batch.GetInputRecords();
    output := batch.GetOutputRecords();
  }

  /** Reading a lane that a started stage has not completed yet fails instead of
      yielding an empty batch, and the lane is consumed by the attempt. */
  method ConsumeUnproducedLane() returns (received: Result<Batch, BatchError>, laneLeft: bool)
    ensures received == Failure(NullDereference)
    ensures !laneLeft
  {
    var batch := NewBatch(1000, false);
    var source := StagePipe("source", Source, [], ["source::out"], ["out"]);
    var target := StagePipe("target", Target, ["source::out"], [], []);
    var _ := batch.StartStage(source);
    received := batch.GetBatch(target);
    laneLeft := "source::out" in batch.fullPayload;
  }

  /** Fan-out gives each destination its own records: changing a record reached
      through one destination leaves the record at the same position of the other
      destination as it was. */
  method FanOutIsolation(record: Record, changed: Content)
    returns (first: Content, second: Content, original: Content)
    ensures first == changed && second == old(record.content) && original == old(record.content)
  {
    var batch := NewBatch(1000, false);
    batch.fullPayload := map["in" := Populated([record]), "a" := Pending, "b" := Pending];
    var r := batch.MoveLaneCopying("in", ["a", "b"]);
    var a := batch.fullPayload["a"].records[0];
    var b := batch.fullPayload["b"].records[0];
    a.content := changed;
    first, second, original := a.content, b.content, record.content;
  }

  /** Fan-out to a destination that is not a lane creates that lane. */
  method UnknownDestinationCreated(record: Record) returns (r: Option<BatchError>, created: bool)
    ensures r == None && created
  {
    var batch := NewBatch(1000, false);
    batch.fullPayload := map["in" := Populated([record])];
    r := batch.MoveLaneCopying("in", ["nowhere"]);
    created := "nowhere" in batch.fullPayload;
  }

  /** With the destination check in force, the same fan-out is rejected. */
  method UnknownDestinationRejected(record: Record) returns (r: Option<BatchError>, created: bool)
    ensures r == Some(LaneDoesNotExist("nowhere")) && !created
  {
    var batch := NewBatch(1000, false);
    batch.fullPayload := map["in" := Populated([record])];
    r := batch.MoveLaneCopyingChecked("in", ["nowhere"]);
    created := "nowhere" in batch.fullPayload;
  }

  /** Combining [r1] and [r2, r3] into a new lane yields [r1, r2, r3] there, and
      the combined lanes no longer resolve. */
  lemma CombineExample(r1: Record, r2: Record, r3: Record)
    ensures var p := map["L1" := Populated([r1]), "L2" := Populated([r2, r3])];
            Combine(p, ["L1", "L2"], "L3") == (map["L3" := Populated([r1, r2, r3])], None)
  {
    var p := map["L1" := Populated([r1]), "L2" := Populated([r2, r3])];
    var lanes := ["L1", "L2"];
    assert NoDuplicates(lanes) && "L3" !in lanes;
    assert forall l :: l in lanes ==> Holds(p, l);
    CombineSpec(p, lanes, "L3");
    assert lanes[1..] == ["L2"] && lanes[1..][1..] == [];
    assert Concat(p, lanes) == [r1] + ([r2, r3] + []) == [r1, r2, r3];
    assert (set l | l in lanes) == {"L1", "L2"};
    assert (p - {"L1", "L2"}) == map[];
    assert p - (set l | l in lanes) == map[];
  }
}
