/** The rule-change detector: diffs two snapshots of monitoring rules by id and
    tells the observer which live alert, meter and sampling state to tear down or resize. */
module RuleChanges {
  import opened Wrappers

  /** A Java String field that may be null. */
  type NullableString = Option<string>

  /** A data-quality rule on a lane. Threshold type is held by its enum constant's name. */
  datatype DataRule = DataRule(
    id: string,
    lane: NullableString,
    condition: NullableString,
    thresholdValue: NullableString,
    thresholdType: string,
    minVolume: int,
    samplingPercentage: real,
    samplingRecordsToRetain: int,
    enabled: bool,
    alertEnabled: bool,
    meterEnabled: bool)

  /** A metric alert rule. Metric type and element are held by their enum constants' names. */
  datatype MetricRule = MetricRule(
    id: string,
    metricId: NullableString,
    condition: NullableString,
    metricType: string,
    metricElement: string,
    enabled: bool)

  /** A snapshot handed out by the rule store. `instance` identifies the snapshot
      object: two snapshots are the same object exactly when their tokens agree.
      Either list may be null. */
  datatype RuleDefinitions = RuleDefinitions(
    instance: nat,
    dataRules: Option<seq<DataRule>>,
    metricRules: Option<seq<MetricRule>>)

  /** What the observer is told after a snapshot changed. */
  datatype ChangeRequest = ChangeRequest(
    rules: RuleDefinitions,
    rulesToRemove: set<string>,
    alertsToRemove: set<NullableString>,
    laneToDataRules: map<string, seq<DataRule>>,
    samplingResizes: map<string, int>)

  /** The only way detection fails: comparing two null strings dereferences null. */
  datatype LoadError = NullDereference

  // ---------------------------------------------------------------------------
  // Comparisons of two versions of one rule

  predicate BothNull(a: NullableString, b: NullableString) {
    a.None? && b.None?
  }

  /** String comparison that tolerates one null side; two nulls dereference the left one. */
  function AreStringsSame(lhs: NullableString, rhs: NullableString): (r: Result<bool, LoadError>)
    ensures r.Failure? <==> BothNull(lhs, rhs)
    ensures r.Success? ==> (r.value <==> lhs == rhs)
  {
    if lhs.None? && rhs.Some? then Success(false)
    else if lhs.Some? && rhs.None? then Success(false)
    else if lhs.None? then Failure(NullDereference)
    else Success(lhs.value == rhs.value)
  }

  /** The content comparison of a data rule throws exactly when the new rule is
      enabled and some nullable field is null on both sides. */
  predicate RuleComparisonFails(o: DataRule, n: DataRule) {
    n.enabled &&
    (BothNull(o.lane, n.lane) || BothNull(o.condition, n.condition) || BothNull(o.thresholdValue, n.thresholdValue))
  }

  /** Reference meaning of "the data rule changed": the new version is enabled and
      a tracked field differs, or the old version was disabled. */
  predicate RuleContentChanged(o: DataRule, n: DataRule) {
    n.enabled &&
    (o.lane != n.lane || o.condition != n.condition || o.thresholdValue != n.thresholdValue ||
     o.minVolume != n.minVolume || o.samplingPercentage != n.samplingPercentage ||
     o.thresholdType != n.thresholdType || !o.enabled)
  }

  /** The source's accumulation of "no change" over the tracked fields, each compared as a string. */
  function HasRuleChanged(o: DataRule, n: DataRule): (r: Result<bool, LoadError>)
    ensures r.Failure? <==> RuleComparisonFails(o, n)
    ensures r.Success? ==> (r.value <==> RuleContentChanged(o, n))
  {
    if !n.enabled then Success(false)
    else
      var sameLane := AreStringsSame(o.lane, n.lane);
      var sameCondition := AreStringsSame(o.condition, n.condition);
      var sameThreshold := AreStringsSame(o.thresholdValue, n.thresholdValue);
      if sameLane.Failure? || sameCondition.Failure? || sameThreshold.Failure? then Failure(NullDereference)
      else
        var noChange := sameLane.value && sameCondition.value && sameThreshold.value &&
                        o.minVolume == n.minVolume && o.samplingPercentage == n.samplingPercentage &&
                        o.thresholdType == n.thresholdType && (o.enabled && n.enabled);
        Success(!noChange)
  }

  /** The source's "no change" flag for the sampled-record retention size, which is
      only cleared for an enabled new rule. */
  predicate HasSamplingSizeChanged(o: DataRule, n: DataRule): (changed: bool)
    ensures changed <==> n.enabled && o.samplingRecordsToRetain != n.samplingRecordsToRetain
  {
    var noChange := if n.enabled then o.samplingRecordsToRetain == n.samplingRecordsToRetain else true;
    !noChange
  }

  predicate AlertComparisonFails(o: MetricRule, n: MetricRule) {
    n.enabled && (BothNull(o.metricId, n.metricId) || BothNull(o.condition, n.condition))
  }

  /** Reference meaning of "the metric alert changed". */
  predicate AlertContentChanged(o: MetricRule, n: MetricRule) {
    n.enabled &&
    (o.metricId != n.metricId || o.condition != n.condition || o.metricType != n.metricType ||
     o.metricElement != n.metricElement || !o.enabled)
  }

  function HasAlertChanged(o: MetricRule, n: MetricRule): (r: Result<bool, LoadError>)
    ensures r.Failure? <==> AlertComparisonFails(o, n)
    ensures r.Success? ==> (r.value <==> AlertContentChanged(o, n))
  {
    if !n.enabled then Success(false)
    else
      var sameMetric := AreStringsSame(o.metricId, n.metricId);
      var sameCondition := AreStringsSame(o.condition, n.condition);
      if sameMetric.Failure? || sameCondition.Failure? then Failure(NullDereference)
      else
        var noChange := sameMetric.value && sameCondition.value &&
                        o.metricType == n.metricType && o.metricElement == n.metricElement &&
                        (o.enabled && n.enabled);
        Success(!noChange)
  }

  // ---------------------------------------------------------------------------
  // What the diff of two rule lists should produce

  /** A matched old/new pair of data rules forces teardown of the old rule's live state. */
  predicate RemovedFor(o: DataRule, n: DataRule) {
    (o.enabled && !n.enabled) || (RuleContentChanged(o, n) && (o.alertEnabled || o.meterEnabled))
  }

  predicate HasDataRule(rules: seq<DataRule>, id: string) {
    exists j :: 0 <= j < |rules| && rules[j].id == id
  }

  /** An old data rule is torn down when its id is gone, or some new rule with its id forces it. */
  predicate DataRuleRemoved(o: DataRule, news: seq<DataRule>) {
    !HasDataRule(news, o.id) ||
    exists j :: 0 <= j < |news| && news[j].id == o.id && RemovedFor(o, news[j])
  }

  function DataRemovals(olds: seq<DataRule>, news: seq<DataRule>): set<string> {
    set i | 0 <= i < |olds| && DataRuleRemoved(olds[i], news) :: olds[i].id
  }

  predicate DataPairFails(o: DataRule, n: DataRule) {
    o.id == n.id && RuleComparisonFails(o, n)
  }

  /** Comparing one old rule against the new list dereferences a null. */
  predicate DataRuleFails(o: DataRule, news: seq<DataRule>) {
    exists j :: 0 <= j < |news| && DataPairFails(o, news[j])
  }

  predicate DataDiffFails(olds: seq<DataRule>, news: seq<DataRule>) {
    exists i :: 0 <= i < |olds| && DataRuleFails(olds[i], news)
  }

  /** The resize entries one old rule contributes, in the order of the new list. */
  function PairResizes(o: DataRule, news: seq<DataRule>): seq<(string, int)>
    decreases |news|
  {
    if news == [] then []
    else
      var n := news[|news| - 1];
      PairResizes(o, news[..|news| - 1]) +
      (if o.id == n.id && HasSamplingSizeChanged(o, n) then [(n.id, n.samplingRecordsToRetain)] else [])
  }

  /** All resize entries, in the order the nested loops put them. */
  function ResizeEntries(olds: seq<DataRule>, news: seq<DataRule>): seq<(string, int)>
    decreases |olds|
  {
    if olds == [] then []
    else ResizeEntries(olds[..|olds| - 1], news) + PairResizes(olds[|olds| - 1], news)
  }

  /** Successive map puts; a later entry for a key overwrites an earlier one. */
  function PutAll(m: map<string, int>, entries: seq<(string, int)>): map<string, int>
    decreases |entries|
  {
    if entries == [] then m
    else
      var e := entries[|entries| - 1];
      PutAll(m, entries[..|entries| - 1])[e.0 := e.1]
  }

  predicate MetricRemovedFor(o: MetricRule, n: MetricRule) {
    (o.enabled && !n.enabled) || AlertContentChanged(o, n)
  }

  predicate HasMetricRule(rules: seq<MetricRule>, id: string) {
    exists j :: 0 <= j < |rules| && rules[j].id == id
  }

  predicate MetricRuleRemoved(o: MetricRule, news: seq<MetricRule>) {
    !HasMetricRule(news, o.id) ||
    exists j :: 0 <= j < |news| && news[j].id == o.id && MetricRemovedFor(o, news[j])
  }

  /** The alerts to remove are named by the old rules' metric ids, not their rule ids. */
  function MetricRemovals(olds: seq<MetricRule>, news: seq<MetricRule>): set<NullableString> {
    set i | 0 <= i < |olds| && MetricRuleRemoved(olds[i], news) :: olds[i].metricId
  }

  predicate MetricPairFails(o: MetricRule, n: MetricRule) {
    o.id == n.id && AlertComparisonFails(o, n)
  }

  /** Comparing one old metric rule against the new list dereferences a null. */
  predicate MetricRuleFails(o: MetricRule, news: seq<MetricRule>) {
    exists j :: 0 <= j < |news| && MetricPairFails(o, news[j])
  }

  predicate MetricDiffFails(olds: seq<MetricRule>, news: seq<MetricRule>) {
    exists i :: 0 <= i < |olds| && MetricRuleFails(olds[i], news)
  }

  /** The rules of the list indexed under one observer lane, in list order. */
  function RulesOnLane(rules: seq<DataRule>, observerLane: NullableString -> string, lane: string): seq<DataRule>
    decreases |rules|
  {
    if rules == [] then []
    else
      var r := rules[|rules| - 1];
      RulesOnLane(rules[..|rules| - 1], observerLane, lane) + (if observerLane(r.lane) == lane then [r] else [])
  }

  // ---------------------------------------------------------------------------
  // The detection loops

  /** Nested loops over old and new data rules, adding to the caller's removal
      set and resize map; a null-on-both-sides comparison aborts the whole diff. */
  method DetectDataRuleChanges(olds: Option<seq<DataRule>>, news: Option<seq<DataRule>>,
                               rulesToRemove: set<string>, resizes: map<string, int>)
    returns (r: Result<(set<string>, map<string, int>), LoadError>)
    ensures (olds.None? || news.None?) ==> r == Success((rulesToRemove, resizes))
    ensures olds.Some? && news.Some? ==>
              (r.Failure? <==> DataDiffFails(olds.value, news.value)) &&
              (r.Success? ==>
                 r.value.0 == rulesToRemove + DataRemovals(olds.value, news.value) &&
                 r.value.1 == PutAll(resizes, ResizeEntries(olds.value, news.value)))
  {
    if olds.None? || news.None? {
      return Success((rulesToRemove, resizes));
    }
    var olds, news := olds.value, news.value;
    var removed, resized := rulesToRemove, resizes;
    for i := 0 to |olds|
      invariant removed == rulesToRemove + DataRemovals(olds[..i], news)
      invariant resized == PutAll(resizes, ResizeEntries(olds[..i], news))
      invariant !DataDiffFails(olds[..i], news)
    {
      var step := DiffDataRule(olds[i], news, removed, resized);
      if step.Failure? {
        assert DataRuleFails(olds[i], news);
        return Failure(NullDereference);
      }
      DataRemovalsStep(olds, news, i);
      ResizeEntriesStep(resizes, olds, news, i);
      removed, resized := step.value.0, step.value.1;
    }
    assert olds[..|olds|] == olds;
    return Success((removed, resized));
  }

  /** The body of the outer loop of DetectDataRuleChanges: one old data rule
      against every new one. */
  method DiffDataRule(o: DataRule, news: seq<DataRule>, rulesToRemove: set<string>, resizes: map<string, int>)
    returns (r: Result<(set<string>, map<string, int>), LoadError>)
    ensures r.Failure? <==> DataRuleFails(o, news)
    ensures r.Success? ==>
              r.value.0 == rulesToRemove + (if DataRuleRemoved(o, news) then {o.id} else {}) &&
              r.value.1 == PutAll(resizes, PairResizes(o, news))
  {
    var found := false;
    ghost var forced := false;
    var removed, resized := rulesToRemove, resizes;
    for j := 0 to |news|
      invariant found <==> HasDataRule(news[..j], o.id)
      invariant forced <==> ForcedRemoval(o, news[..j])
      invariant removed == rulesToRemove + if forced then {o.id} else {}
      invariant resized == PutAll(resizes, PairResizes(o, news[..j]))
      invariant !DataRuleFails(o, news[..j])
    {
      var n := news[j];
      DataRuleMatchStep(o, news, j);
      PutAllPairStep(resizes, o, news, j);
      if o.id == n.id {
        found := true;
        var step := DiffMatchedDataRule(o, n, removed, resized);
        if step.Failure? {
          assert DataPairFails(o, news[j]);
          return Failure(NullDereference);
        }
        removed, resized := step.value.0, step.value.1;
        forced := forced || RemovedFor(o, n);
      }
    }
    assert news[..|news|] == news;
    if !found {
      removed := removed + {o.id};
    }
    return Success((removed, resized));
  }

  /** The effect of one old/new pair of data rules that share an id. */
  method DiffMatchedDataRule(o: DataRule, n: DataRule, rulesToRemove: set<string>, resizes: map<string, int>)
    returns (r: Result<(set<string>, map<string, int>), LoadError>)
    requires o.id == n.id
    ensures r.Failure? <==> RuleComparisonFails(o, n)
    ensures r.Success? ==>
              r.value.0 == rulesToRemove + (if RemovedFor(o, n) then {o.id} else {}) &&
              r.value.1 == if HasSamplingSizeChanged(o, n) then resizes[n.id := n.samplingRecordsToRetain] else resizes
  {
    var removed, resized := rulesToRemove, resizes;
    if o.enabled && !n.enabled {
      removed := removed + {o.id};
    }
    var changed := HasRuleChanged(o, n);
    if changed.Failure? {
      return Failure(NullDereference);
    }
    if changed.value && (o.alertEnabled || o.meterEnabled) {
      removed := removed + {o.id};
    }
    if HasSamplingSizeChanged(o, n) {
      resized := resized[n.id := n.samplingRecordsToRetain];
    }
    return Success((removed, resized));
  }

  /** Some new rule with the old rule's id forces its teardown. */
  predicate ForcedRemoval(o: DataRule, news: seq<DataRule>) {
    exists t :: 0 <= t < |news| && news[t].id == o.id && RemovedFor(o, news[t])
  }

  lemma DataRuleMatchStep(o: DataRule, news: seq<DataRule>, j: int)
    requires 0 <= j < |news|
    ensures HasDataRule(news[..j + 1], o.id) <==> HasDataRule(news[..j], o.id) || news[j].id == o.id
    ensures ForcedRemoval(o, news[..j + 1]) <==>
              ForcedRemoval(o, news[..j]) || (news[j].id == o.id && RemovedFor(o, news[j]))
    ensures DataRuleFails(o, news[..j + 1]) <==> DataRuleFails(o, news[..j]) || DataPairFails(o, news[j])
  {
    var prefix := news[..j + 1];
    assert forall t :: 0 <= t < j ==> prefix[t] == news[..j][t];
    assert prefix[j] == news[j];
  }

  lemma PutAllPairStep(m: map<string, int>, o: DataRule, news: seq<DataRule>, j: int)
    requires 0 <= j < |news|
    ensures PutAll(m, PairResizes(o, news[..j + 1])) ==
              if o.id == news[j].id && HasSamplingSizeChanged(o, news[j])
              then PutAll(m, PairResizes(o, news[..j]))[news[j].id := news[j].samplingRecordsToRetain]
              else PutAll(m, PairResizes(o, news[..j]))
  {
    var n := news[j];
    assert news[..j + 1][..j] == news[..j];
    var extra := if o.id == n.id && HasSamplingSizeChanged(o, n) then [(n.id, n.samplingRecordsToRetain)] else [];
    PutAllAppend(m, PairResizes(o, news[..j]), extra);
    if extra != [] {
      PutAllAppend(PutAll(m, PairResizes(o, news[..j])), [], extra);
    }
  }

  lemma DataRemovalsStep(olds: seq<DataRule>, news: seq<DataRule>, i: int)
    requires 0 <= i < |olds|
    ensures DataRemovals(olds[..i + 1], news) ==
              DataRemovals(olds[..i], news) + (if DataRuleRemoved(olds[i], news) then {olds[i].id} else {})
    ensures DataDiffFails(olds[..i + 1], news) <==> DataDiffFails(olds[..i], news) || DataRuleFails(olds[i], news)
  {
    var a, b := olds[..i + 1], olds[..i];
    assert forall k :: 0 <= k < i ==> a[k] == b[k];
  }

  lemma ResizeEntriesStep(m: map<string, int>, olds: seq<DataRule>, news: seq<DataRule>, i: int)
    requires 0 <= i < |olds|
    ensures PutAll(m, ResizeEntries(olds[..i + 1], news)) ==
              PutAll(PutAll(m, ResizeEntries(olds[..i], news)), PairResizes(olds[i], news))
  {
    assert olds[..i + 1][..i] == olds[..i];
    PutAllAppend(m, ResizeEntries(olds[..i], news), PairResizes(olds[i], news));
  }

  lemma RulesOnLaneStep(rules: seq<DataRule>, observerLane: NullableString -> string, i: int, lane: string)
    requires 0 <= i < |rules|
    ensures RulesOnLane(rules[..i + 1], observerLane, lane) ==
            RulesOnLane(rules[..i], observerLane, lane) + (if observerLane(rules[i].lane) == lane then [rules[i]] else [])
  {
    assert rules[..i + 1][..i] == rules[..i];
  }

  /** Applying two runs of puts one after the other is applying their concatenation. */
  lemma {:induction false} PutAllAppend(m: map<string, int>, a: seq<(string, int)>, b: seq<(string, int)>)
    ensures PutAll(m, a + b) == PutAll(PutAll(m, a), b)
    decreases |b|
  {
    if b == [] {
      assert a + b == a;
    } else {
      var b' := b[..|b| - 1];
      assert (a + b)[..|a + b| - 1] == a + b';
      PutAllAppend(m, a, b');
    }
  }

  /** The metric-rule counterpart of DetectDataRuleChanges. */
  method DetectMetricRuleChanges(olds: Option<seq<MetricRule>>, news: Option<seq<MetricRule>>,
                                 alertsToRemove: set<NullableString>)
    returns (r: Result<set<NullableString>, LoadError>)
    ensures (olds.None? || news.None?) ==> r == Success(alertsToRemove)
    ensures olds.Some? && news.Some? ==>
              (r.Failure? <==> MetricDiffFails(olds.value, news.value)) &&
              (r.Success? ==> r.value == alertsToRemove + MetricRemovals(olds.value, news.value))
  {
    if olds.None? || news.None? {
      return Success(alertsToRemove);
    }
    var olds, news := olds.value, news.value;
    var removed := alertsToRemove;
    for i := 0 to |olds|
      invariant removed == alertsToRemove + MetricRemovals(olds[..i], news)
      invariant !MetricDiffFails(olds[..i], news)
    {
      var o := olds[i];
      var found := false;
      ghost var removedBefore := removed;
      for j := 0 to |news|
        invariant found <==> HasMetricRule(news[..j], o.id)
        invariant removed == removedBefore + if MetricForcedRemoval(o, news[..j]) then {o.metricId} else {}
        invariant !MetricRuleFails(o, news[..j])
      {
        var n := news[j];
        MetricRuleMatchStep(o, news, j);
        if o.id == n.id {
          found := true;
          if o.enabled && !n.enabled {
            removed := removed + {o.metricId};
          }
          var changed := HasAlertChanged(o, n);
          if changed.Failure? {
            assert MetricPairFails(o, news[j]);
            assert MetricRuleFails(olds[i], news);
            return Failure(NullDereference);
          }
          if changed.value {
            removed := removed + {o.metricId};
          }
        }
      }
      assert news[..|news|] == news;
      if !found {
        removed := removed + {o.metricId};
      }
      MetricRemovalsStep(olds, news, i);
    }
    assert olds[..|olds|] == olds;
    return Success(removed);
  }

  /** Some new metric rule with the old rule's id forces removal of its alert. */
  predicate MetricForcedRemoval(o: MetricRule, news: seq<MetricRule>) {
    exists t :: 0 <= t < |news| && news[t].id == o.id && MetricRemovedFor(o, news[t])
  }

  lemma MetricRuleMatchStep(o: MetricRule, news: seq<MetricRule>, j: int)
    requires 0 <= j < |news|
    ensures HasMetricRule(news[..j + 1], o.id) <==> HasMetricRule(news[..j], o.id) || news[j].id == o.id
    ensures MetricForcedRemoval(o, news[..j + 1]) <==>
              MetricForcedRemoval(o, news[..j]) || (news[j].id == o.id && MetricRemovedFor(o, news[j]))
    ensures MetricRuleFails(o, news[..j + 1]) <==> MetricRuleFails(o, news[..j]) || MetricPairFails(o, news[j])
  {
    var prefix := news[..j + 1];
    assert forall t :: 0 <= t < j ==> prefix[t] == news[..j][t];
    assert prefix[j] == news[j];
  }

  lemma MetricRemovalsStep(olds: seq<MetricRule>, news: seq<MetricRule>, i: int)
    requires 0 <= i < |olds|
    ensures MetricRemovals(olds[..i + 1], news) ==
              MetricRemovals(olds[..i], news) + (if MetricRuleRemoved(olds[i], news) then {olds[i].metricId} else {})
    ensures MetricDiffFails(olds[..i + 1], news) <==> MetricDiffFails(olds[..i], news) || MetricRuleFails(olds[i], news)
  {
    var a, b := olds[..i + 1], olds[..i];
    assert forall k :: 0 <= k < i ==> a[k] == b[k];
  }

  /** Groups every data rule of the new snapshot, enabled or not, under its observer lane. */
  method BuildLaneIndex(rules: seq<DataRule>, observerLane: NullableString -> string)
    returns (index: map<string, seq<DataRule>>)
    ensures index.Keys == set i | 0 <= i < |rules| :: observerLane(rules[i].lane)
    ensures forall lane :: lane in index ==> index[lane] == RulesOnLane(rules, observerLane, lane)
  {
    index := map[];
    for i := 0 to |rules|
      invariant IndexedUpTo(index, rules, observerLane, i)
    {
      var r := rules[i];
      var lane := observerLane(r.lane);
      var onLane := if lane in index then index[lane] else [];
      IndexStep(index, rules, observerLane, i);
      index := index[lane := onLane + [r]];
    }
    assert rules[..|rules|] == rules;
  }

  /** The lane index built from the first `i` rules. */
  ghost predicate IndexedUpTo(index: map<string, seq<DataRule>>, rules: seq<DataRule>,
                              observerLane: NullableString -> string, i: int)
    requires 0 <= i <= |rules|
  {
    && index.Keys == (set k | 0 <= k < i :: observerLane(rules[k].lane))
    && (forall lane :: lane in index ==> index[lane] == RulesOnLane(rules[..i], observerLane, lane))
    && (forall lane :: lane !in index ==> RulesOnLane(rules[..i], observerLane, lane) == [])
  }

  lemma IndexStep(index: map<string, seq<DataRule>>, rules: seq<DataRule>,
                  observerLane: NullableString -> string, i: int)
    requires 0 <= i < |rules| && IndexedUpTo(index, rules, observerLane, i)
    ensures var lane := observerLane(rules[i].lane);
            IndexedUpTo(index[lane := (if lane in index then index[lane] else []) + [rules[i]]], rules, observerLane, i + 1)
  {
    var lane := observerLane(rules[i].lane);
    var index' := index[lane := (if lane in index then index[lane] else []) + [rules[i]]];
    forall l {
      RulesOnLaneStep(rules, observerLane, i, l);
    }
    assert (set k | 0 <= k < i + 1 :: observerLane(rules[k].lane)) ==
           (set k | 0 <= k < i :: observerLane(rules[k].lane)) + {lane};
  }

  // ---------------------------------------------------------------------------
  // detectChanges and load

  /** Teardown sets and resize map are computed only against a previous snapshot,
      and only for lists present on both sides. */
  function RulesToRemove(previous: Option<RuleDefinitions>, next: RuleDefinitions): set<string> {
    if previous.Some? && previous.value.dataRules.Some? && next.dataRules.Some?
    then DataRemovals(previous.value.dataRules.value, next.dataRules.value)
    else {}
  }

  function AlertsToRemove(previous: Option<RuleDefinitions>, next: RuleDefinitions): set<NullableString> {
    if previous.Some? && previous.value.metricRules.Some? && next.metricRules.Some?
    then MetricRemovals(previous.value.metricRules.value, next.metricRules.value)
    else {}
  }

  function SamplingResizes(previous: Option<RuleDefinitions>, next: RuleDefinitions): map<string, int> {
    if previous.Some? && previous.value.dataRules.Some? && next.dataRules.Some?
    then PutAll(map[], ResizeEntries(previous.value.dataRules.value, next.dataRules.value))
    else map[]
  }

  /** detectChanges throws when a diff compares two nulls, or when the new
      snapshot has no data-rule list to index. */
  predicate DetectionFails(previous: Option<RuleDefinitions>, next: RuleDefinitions) {
    || (previous.Some? && previous.value.dataRules.Some? && next.dataRules.Some? &&
        DataDiffFails(previous.value.dataRules.value, next.dataRules.value))
    || (previous.Some? && previous.value.metricRules.Some? && next.metricRules.Some? &&
        MetricDiffFails(previous.value.metricRules.value, next.metricRules.value))
    || next.dataRules.None?
  }

  /** The change request for a pair of snapshots. */
  predicate IsChangeRequestFor(request: ChangeRequest, previous: Option<RuleDefinitions>, next: RuleDefinitions,
                               observerLane: NullableString -> string)
  {
    && next.dataRules.Some?
    && request.rules == next
    && request.rulesToRemove == RulesToRemove(previous, next)
    && request.alertsToRemove == AlertsToRemove(previous, next)
    && request.samplingResizes == SamplingResizes(previous, next)
    && request.laneToDataRules.Keys ==
         (set i | 0 <= i < |next.dataRules.value| :: observerLane(next.dataRules.value[i].lane))
    && (forall lane :: lane in request.laneToDataRules ==>
          request.laneToDataRules[lane] == RulesOnLane(next.dataRules.value, observerLane, lane))
  }

  method DetectChanges(previous: Option<RuleDefinitions>, next: RuleDefinitions,
                       observerLane: NullableString -> string)
    returns (r: Result<ChangeRequest, LoadError>)
    ensures r.Failure? <==> DetectionFails(previous, next)
    ensures r.Success? ==> IsChangeRequestFor(r.value, previous, next, observerLane)
    ensures r.Success? && previous.None? ==>
              r.value.rulesToRemove == {} && r.value.alertsToRemove == {} && r.value.samplingResizes == map[]
  {
    var rulesToRemove: set<string> := {};
    var alertsToRemove: set<NullableString> := {};
    var resizes: map<string, int> := map[];
    if previous.Some? {
      var data := DetectDataRuleChanges(previous.value.dataRules, next.dataRules, rulesToRemove, resizes);
      if data.Failure? {
        return Failure(NullDereference);
      }
      rulesToRemove, resizes := data.value.0, data.value.1;
      var metrics := DetectMetricRuleChanges(previous.value.metricRules, next.metricRules, alertsToRemove);
      if metrics.Failure? {
        return Failure(NullDereference);
      }
      alertsToRemove := metrics.value;
    }
    if next.dataRules.None? {
      return Failure(NullDereference);
    }
    var index := BuildLaneIndex(next.dataRules.value, observerLane);
    return Success(ChangeRequest(next, rulesToRemove, alertsToRemove, index, resizes));
  }

  /** The retrieved snapshot is a different object from the one seen last time. */
  predicate IsNewInstance(previous: Option<RuleDefinitions>, retrieved: RuleDefinitions) {
    previous.None? || previous.value.instance != retrieved.instance
  }

  class RulesConfigLoader {
    const pipelineName: string
    const revision: string
    var previousRuleDefinitions: Option<RuleDefinitions>

    constructor (pipelineName: string, revision: string)
      ensures this.pipelineName == pipelineName && this.revision == revision
      ensures previousRuleDefinitions == None
    {
      this.pipelineName := pipelineName;
      this.revision := revision;
      previousRuleDefinitions := None;
    }

    /** One load cycle over the snapshot the rule store returned. The observer is
        notified with a change request only for a new snapshot object; on success
        the snapshot becomes the previous one and is returned. */
    method Load(retrieved: RuleDefinitions, observerLane: NullableString -> string)
      returns (r: Result<RuleDefinitions, LoadError>, notified: Option<ChangeRequest>)
      modifies this`previousRuleDefinitions
      ensures r.Failure? <==> IsNewInstance(old(previousRuleDefinitions), retrieved) &&
                              DetectionFails(old(previousRuleDefinitions), retrieved)
      ensures r.Success? ==> r.value == retrieved && previousRuleDefinitions == Some(retrieved)
      ensures r.Success? ==> (notified.Some? <==> IsNewInstance(old(previousRuleDefinitions), retrieved))
      ensures notified.Some? ==>
                IsChangeRequestFor(notified.value, old(previousRuleDefinitions), retrieved, observerLane)
      ensures r.Failure? ==> notified.None? && previousRuleDefinitions == old(previousRuleDefinitions)
    {
      notified := None;
      if IsNewInstance(previousRuleDefinitions, retrieved) {
        var request := DetectChanges(previousRuleDefinitions, retrieved, observerLane);
        if request.Failure? {
          return Failure(request.error), None;
        }
        notified := Some(request.value);
      }
      previousRuleDefinitions := Some(retrieved);
      r := Success(retrieved);
    }

    method SetPreviousRuleDefinitions(previous: Option<RuleDefinitions>)
      modifies this`previousRuleDefinitions
      ensures previousRuleDefinitions == previous
    {
      previousRuleDefinitions := previous;
    }
  }
}
