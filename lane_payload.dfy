/** The payload of one batch run: pipe-lane name to the records on that lane,
    and the meaning of the operations that consume, store, move and combine lanes. */
module LanePayload {
  import opened Wrappers
  import opened Records

  /** A payload entry. Pending is the null placeholder that a started stage puts on
      its output lanes until it completes; a lane that is not a key was never
      produced in this batch or has been consumed. */
  datatype LaneEntry = Pending | Populated(records: seq<Record>)

  type Payload = map<string, LaneEntry>

  /** The failures of the batch operations. */
  datatype BatchError =
    | StageAlreadyProcessed(stage: string)  // startStage on a stage that already ran
    | StreamDoesNotExist(lane: string)      // a moved or combined lane holds no list
    | LanesDoNotExist(lanes: seq<string>)   // combineLanes names lanes that are not keys
    | LaneDoesNotExist(lane: string)        // a fan-out destination that is not a lane
    | NullDereference                       // a null list is appended or appended to
    | IndexOutOfBounds(index: int)          // a stage has more output lanes than its pipe

  /** The lane holds a list of records (it is a key and not pending). */
  predicate Holds(p: Payload, lane: string) {
    lane in p && p[lane].Populated?
  }

  predicate NoDuplicates(lanes: seq<string>) {
    forall i, j :: 0 <= i < j < |lanes| ==> lanes[i] != lanes[j]
  }

  /** What reading a lane yields: a missing key reads as null, like a pending lane. */
  function LaneView(p: Payload, lane: string): LaneEntry {
    if lane in p then p[lane] else Pending
  }

  /** The entry a stage-lane of a stage's output map yields; a stage lane the
      stage did not write reads as null. */
  function EntryFor(output: map<string, seq<Record>>, stageLane: string): LaneEntry {
    if stageLane in output then Populated(output[stageLane]) else Pending
  }

  /** The records of the listed lanes, concatenated in list order. */
  function Concat(p: Payload, lanes: seq<string>): seq<Record>
    requires forall l :: l in lanes ==> Holds(p, l)
    decreases |lanes|
  {
    if lanes == [] then []
    else
      assert lanes[0] in lanes;
      assert Holds(p, lanes[0]);
      p[lanes[0]].records + Concat(p, lanes[1..])
  }

  lemma {:induction false} ConcatFrame(p: Payload, q: Payload, lanes: seq<string>)
    requires forall l :: l in lanes ==> Holds(p, l) && l in q && q[l] == p[l]
    ensures Concat(p, lanes) == Concat(q, lanes)
    decreases |lanes|
  {
    if lanes != [] {
      ConcatFrame(p, q, lanes[1..]);
    }
  }

  // ---------------------------------------------------------------------------
  // getBatch

  /** Puts records in front of the records of a successful outcome. */
  function Prepend(records: seq<Record>, r: (Payload, Result<seq<Record>, BatchError>)): (Payload, Result<seq<Record>, BatchError>) {
    (r.0, if r.1.Success? then Success(records + r.1.value) else r.1)
  }

  /** getBatch's loop over the input lanes: each lane is removed in turn and its
      list appended; a lane that is missing or pending yields a null list, and
      appending it fails after the lane has been removed. */
  function Consume(p: Payload, lanes: seq<string>): (Payload, Result<seq<Record>, BatchError>)
    decreases |lanes|
  {
    if lanes == [] then (p, Success([]))
    else if Holds(p, lanes[0]) then Prepend(p[lanes[0]].records, Consume(p - {lanes[0]}, lanes[1..]))
    else (p - {lanes[0]}, Failure(NullDereference))
  }

  lemma PrependPrepend(a: seq<Record>, b: seq<Record>, r: (Payload, Result<seq<Record>, BatchError>))
    ensures Prepend(a, Prepend(b, r)) == Prepend(a + b, r)
  {
    if r.1.Success? {
      assert a + (b + r.1.value) == (a + b) + r.1.value;
    }
  }

  /** Consuming lanes succeeds exactly when they are distinct and all hold records;
      it then yields their concatenation in list order and removes exactly them. */
  lemma {:induction false} ConsumeSpec(p: Payload, lanes: seq<string>)
    ensures Consume(p, lanes).1.Success? <==> NoDuplicates(lanes) && forall l :: l in lanes ==> Holds(p, l)
    ensures Consume(p, lanes).1.Success? ==>
              (forall l :: l in lanes ==> Holds(p, l)) &&
              Consume(p, lanes).1.value == Concat(p, lanes) &&
              Consume(p, lanes).0 == p - (set l | l in lanes)
    decreases |lanes|
  {
    if lanes != [] && Holds(p, lanes[0]) {
      var a, rest := lanes[0], lanes[1..];
      var q := p - {a};
      ConsumeSpec(q, rest);
      assert lanes == [a] + rest;
      assert forall l :: l in rest ==> l in lanes;
      if NoDuplicates(lanes) {
        NoDuplicatesTail(lanes);
      }
      if Consume(p, lanes).1.Success? {
        assert forall l :: l in rest ==> Holds(q, l) && l != a;
        ConcatFrame(q, p, rest);
        assert q - (set l | l in rest) == p - (set l | l in lanes);
      }
    }
  }

  // ---------------------------------------------------------------------------
  // completeStage

  /** The payload after the first n stage lanes of a completed stage have been
      stored, stage lane i under pipe lane i, later indices overwriting earlier. */
  function StoreOutputs(p: Payload, pipeLanes: seq<string>, stageLanes: seq<string>,
                        output: map<string, seq<Record>>, n: nat): Payload
    requires n <= |pipeLanes| && n <= |stageLanes|
  {
    if n == 0 then p
    else StoreOutputs(p, pipeLanes, stageLanes, output, n - 1)[pipeLanes[n - 1] := EntryFor(output, stageLanes[n - 1])]
  }

  /** Storing a stage's output adds exactly the pipe lanes written, leaves every
      other lane as it was and, with distinct pipe lanes, puts under pipe lane i
      what the stage wrote on stage lane i (null for a stage lane it left empty). */
  lemma {:induction false} StoreOutputsSpec(p: Payload, pipeLanes: seq<string>, stageLanes: seq<string>,
                                            output: map<string, seq<Record>>, n: nat)
    requires n <= |pipeLanes| && n <= |stageLanes|
    ensures StoreOutputs(p, pipeLanes, stageLanes, output, n).Keys == p.Keys + set i | 0 <= i < n :: pipeLanes[i]
    ensures forall k :: k in p && k !in pipeLanes[..n] ==> StoreOutputs(p, pipeLanes, stageLanes, output, n)[k] == p[k]
    ensures NoDuplicates(pipeLanes[..n]) ==>
              forall i :: 0 <= i < n ==>
                StoreOutputs(p, pipeLanes, stageLanes, output, n)[pipeLanes[i]] == EntryFor(output, stageLanes[i])
  {
    if n > 0 {
      StoreOutputsSpec(p, pipeLanes, stageLanes, output, n - 1);
      assert pipeLanes[..n] == pipeLanes[..n - 1] + [pipeLanes[n - 1]];
      if NoDuplicates(pipeLanes[..n]) {
        var prev := pipeLanes[..n - 1];
        assert NoDuplicates(prev) by {
          forall i, j | 0 <= i < j < |prev| ensures prev[i] != prev[j] {
            assert pipeLanes[..n][i] != pipeLanes[..n][j];
          }
        }
        forall i | 0 <= i < n - 1 ensures pipeLanes[i] != pipeLanes[n - 1] {
          assert pipeLanes[..n][i] != pipeLanes[..n][n - 1];
        }
      }
    }
  }

  // ---------------------------------------------------------------------------
  // combineLanes

  /** The listed lanes that are not keys of the payload, in list order; a pending
      lane is a key and so is not undefined. */
  function UndefinedLanes(p: Payload, lanes: seq<string>): (undefined: seq<string>)
    ensures forall l :: l in undefined <==> l in lanes && l !in p
    decreases |lanes|
  {
    if lanes == [] then []
    else (if lanes[0] in p then [] else [lanes[0]]) + UndefinedLanes(p, lanes[1..])
  }

  /** combineLanes' loop, once the target lane holds a list: each lane is removed in
      turn and its list appended to the target's. A lane without a list stops the
      loop after its removal, and so does a target that is no longer a key. */
  function CombineFrom(p: Payload, lanes: seq<string>, to: string): (Payload, Option<BatchError>)
    decreases |lanes|
  {
    if lanes == [] then (p, None)
    else
      var lane := lanes[0];
      var rest := p - {lane};
      if !Holds(p, lane) then (rest, Some(StreamDoesNotExist(lane)))
      else if !Holds(rest, to) then (rest, Some(NullDereference))
      else CombineFrom(rest[to := Populated(rest[to].records + p[lane].records)], lanes[1..], to)
  }

  /** combineLanes: reject the call unchanged when a lane is not a key, otherwise
      give the target an empty list and append the lanes to it. */
  function Combine(p: Payload, lanes: seq<string>, to: string): (Payload, Option<BatchError>) {
    var undefined := UndefinedLanes(p, lanes);
    if undefined != [] then (p, Some(LanesDoNotExist(undefined)))
    else CombineFrom(p[to := Populated([])], lanes, to)
  }

  lemma {:induction false} CombineFromSpec(q: Payload, lanes: seq<string>, to: string)
    requires Holds(q, to)
    ensures CombineFrom(q, lanes, to).1.None? <==>
              NoDuplicates(lanes) && to !in lanes && forall l :: l in lanes ==> Holds(q, l)
    ensures CombineFrom(q, lanes, to).1.None? ==>
              (forall l :: l in lanes ==> Holds(q, l)) &&
              CombineFrom(q, lanes, to).0 ==
                (q - (set l | l in lanes))[to := Populated(q[to].records + Concat(q, lanes))]
    decreases |lanes|
  {
    if lanes != [] {
      var a, rest := lanes[0], lanes[1..];
      if Holds(q, a) && a != to {
        var q' := (q - {a})[to := Populated(q[to].records + q[a].records)];
        CombineFromSpec(q', rest, to);
        assert forall l :: l in rest ==> l in lanes;
        if NoDuplicates(lanes) {
          NoDuplicatesTail(lanes);
        }
        if CombineFrom(q, lanes, to).1.None? {
          assert forall l :: l in rest ==> Holds(q', l) && l != a && l != to;
          CombineMerge(q, lanes, to);
        }
      }
    } else {
      assert q[to].records + Concat(q, lanes) == q[to].records;
      assert (set l | l in lanes) == {};
      assert (q - {})[to := Populated(q[to].records)] == q;
    }
  }

  lemma NoDuplicatesTail(lanes: seq<string>)
    requires lanes != [] && NoDuplicates(lanes)
    ensures NoDuplicates(lanes[1..]) && lanes[0] !in lanes[1..]
  {
    var rest := lanes[1..];
    forall i, j | 0 <= i < j < |rest| ensures rest[i] != rest[j] {
      assert rest[i] == lanes[i + 1] && rest[j] == lanes[j + 1];
    }
    forall k | 0 <= k < |rest| ensures rest[k] != lanes[0] {
      assert rest[k] == lanes[k + 1];
    }
  }

  /** One step of combining: moving the first lane onto the target and then the rest
      is the same as moving all of them at once. */
  lemma CombineMerge(q: Payload, lanes: seq<string>, to: string)
    requires lanes != [] && Holds(q, to) && Holds(q, lanes[0]) && lanes[0] != to
    requires forall l :: l in lanes[1..] ==> Holds(q, l) && l != lanes[0] && l != to
    ensures forall l :: l in lanes ==> Holds(q, l)
    ensures var q' := (q - {lanes[0]})[to := Populated(q[to].records + q[lanes[0]].records)];
            (forall l :: l in lanes[1..] ==> Holds(q', l)) &&
            (q' - (set l | l in lanes[1..]))[to := Populated(q'[to].records + Concat(q', lanes[1..]))] ==
            (q - (set l | l in lanes))[to := Populated(q[to].records + Concat(q, lanes))]
  {
    var a, rest := lanes[0], lanes[1..];
    assert lanes == [a] + rest;
    var q' := (q - {a})[to := Populated(q[to].records + q[a].records)];
    ConcatFrame(q', q, rest);
    var merged := q[to].records + Concat(q, lanes);
    assert q'[to].records + Concat(q', rest) == merged by {
      assert Concat(q, lanes) == q[a].records + Concat(q, rest);
      assert (q[to].records + q[a].records) + Concat(q, rest) == q[to].records + (q[a].records + Concat(q, rest));
    }
    var removed := set l | l in lanes;
    assert removed == (set l | l in rest) + {a};
    assert (q' - (set l | l in rest))[to := Populated(merged)] == (q - removed)[to := Populated(merged)];
  }


  /** combineLanes succeeds exactly when every lane holds a list, no lane is listed
      twice and the target is not among them; the target then holds the lanes'
      records concatenated in list order, and the lanes are gone. */
  lemma CombineSpec(p: Payload, lanes: seq<string>, to: string)
    ensures Combine(p, lanes, to).1.None? <==>
              NoDuplicates(lanes) && to !in lanes && forall l :: l in lanes ==> Holds(p, l)
    ensures Combine(p, lanes, to).1.None? ==>
              (forall l :: l in lanes ==> Holds(p, l)) &&
              Combine(p, lanes, to).0 == (p - (set l | l in lanes))[to := Populated(Concat(p, lanes))]
    ensures UndefinedLanes(p, lanes) != [] ==> Combine(p, lanes, to) == (p, Some(LanesDoNotExist(UndefinedLanes(p, lanes))))
  {
    var undefined := UndefinedLanes(p, lanes);
    if undefined == [] {
      var q := p[to := Populated([])];
      CombineFromSpec(q, lanes, to);
      assert forall l :: l in lanes && Holds(p, l) && l != to ==> Holds(q, l);
      if CombineFrom(q, lanes, to).1.None? {
        EmptyTargetFrame(p, lanes, to);
      }
    } else {
      var l := undefined[0];
      assert l in undefined;
      assert l in lanes && !Holds(p, l);
    }
  }

  /** Starting from an empty target that is not among the lanes, the combined list
      is the lanes' records read from the original payload. */
  lemma EmptyTargetFrame(p: Payload, lanes: seq<string>, to: string)
    requires to !in lanes
    requires forall l :: l in lanes ==> Holds(p[to := Populated([])], l)
    ensures forall l :: l in lanes ==> Holds(p, l)
    ensures var q := p[to := Populated([])];
            (q - (set l | l in lanes))[to := Populated(q[to].records + Concat(q, lanes))] ==
            (p - (set l | l in lanes))[to := Populated(Concat(p, lanes))]
  {
    var q := p[to := Populated([])];
    forall l | l in lanes ensures Holds(p, l) && q[l] == p[l] {
      assert Holds(q, l) && l != to;
    }
    ConcatFrame(q, p, lanes);
    assert q[to].records + Concat(q, lanes) == Concat(q, lanes);
  }
}
