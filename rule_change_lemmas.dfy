/** Properties of the rule-change detector's specification. */
module RuleChangeProperties {
  import opened Wrappers
  import opened RuleChanges

  /** Rule ids are unique within one snapshot list. */
  predicate UniqueDataIds(rules: seq<DataRule>) {
    forall a, b :: 0 <= a < b < |rules| ==> rules[a].id != rules[b].id
  }

  predicate UniqueMetricIds(rules: seq<MetricRule>) {
    forall a, b :: 0 <= a < b < |rules| ==> rules[a].id != rules[b].id
  }

  // ---------------------------------------------------------------------------
  // Teardown

  /** An old data rule whose id is gone from the new list is torn down. */
  lemma MissingDataRuleRemoved(olds: seq<DataRule>, news: seq<DataRule>, i: int)
    requires 0 <= i < |olds| && forall j :: 0 <= j < |news| ==> news[j].id != olds[i].id
    ensures olds[i].id in DataRemovals(olds, news)
  {
  }

  /** An enabled data rule whose new version is disabled is torn down. */
  lemma NewlyDisabledDataRuleRemoved(olds: seq<DataRule>, news: seq<DataRule>, i: int, j: int)
    requires 0 <= i < |olds| && 0 <= j < |news| && olds[i].id == news[j].id
    requires olds[i].enabled && !news[j].enabled
    ensures olds[i].id in DataRemovals(olds, news)
  {
  }

  /** A new version that is disabled is never compared for content: such a pair
      forces teardown exactly when the old version was enabled, and never resizes. */
  lemma DisabledDataRuleNotCompared(o: DataRule, n: DataRule)
    requires !n.enabled
    ensures HasRuleChanged(o, n) == Success(false)
    ensures RemovedFor(o, n) <==> o.enabled
    ensures !HasSamplingSizeChanged(o, n)
  {
  }

  /** A content change of an enabled rule tears the rule down only when its old
      version had alerting or metering on. */
  lemma ContentChangeNeedsAlertOrMeter(o: DataRule, n: DataRule)
    requires n.enabled
    ensures RemovedFor(o, n) <==> RuleContentChanged(o, n) && (o.alertEnabled || o.meterEnabled)
  {
  }

  /** With unique ids on both sides, a rule whose only change is its sampled-record
      retention makes the diff throw exactly when its lane, condition or threshold
      value is null; otherwise it is kept, and the resize map sends its id to the
      new size. */
  lemma SamplingOnlyChangeResizesWithoutTeardown(olds: seq<DataRule>, news: seq<DataRule>, i: int, j: int)
    requires UniqueDataIds(olds) && UniqueDataIds(news)
    requires 0 <= i < |olds| && 0 <= j < |news|
    requires olds[i].enabled && news[j].enabled
    requires news[j] == olds[i].(samplingRecordsToRetain := news[j].samplingRecordsToRetain)
    requires news[j].samplingRecordsToRetain != olds[i].samplingRecordsToRetain
    ensures DataRuleFails(olds[i], news) <==>
              olds[i].lane.None? || olds[i].condition.None? || olds[i].thresholdValue.None?
    ensures olds[i].id !in DataRemovals(olds, news)
    ensures var resizes := PutAll(map[], ResizeEntries(olds, news));
            olds[i].id in resizes && resizes[olds[i].id] == news[j].samplingRecordsToRetain
  {
    SamplingResizeValue(olds, news, i, j);
    if DataRuleFails(olds[i], news) {
      var k :| 0 <= k < |news| && DataPairFails(olds[i], news[k]);
      assert k == j;
    }
    if olds[i].lane.None? || olds[i].condition.None? || olds[i].thresholdValue.None? {
      assert DataPairFails(olds[i], news[j]);
    }
  }

  /** Diffing a snapshot list against itself tears nothing down and resizes nothing. */
  lemma UnchangedDataRulesTearNothingDown(rules: seq<DataRule>)
    requires UniqueDataIds(rules)
    ensures DataRemovals(rules, rules) == {}
    ensures ResizeEntries(rules, rules) == []
  {
    forall i | 0 <= i < |rules|
      ensures !DataRuleRemoved(rules[i], rules)
    {
      assert rules[i].id == rules[i].id;
      forall t | 0 <= t < |rules| && rules[t].id == rules[i].id
        ensures !RemovedFor(rules[i], rules[t])
      {
        assert t == i;
      }
    }
    if ResizeEntries(rules, rules) != [] {
      var e := ResizeEntries(rules, rules)[0];
      ResizeEntriesMembers(rules, rules, e);
    }
  }

  /** An old metric rule whose id is gone removes the alert of its metric id. */
  lemma MissingMetricRuleRemovesAlert(olds: seq<MetricRule>, news: seq<MetricRule>, i: int)
    requires 0 <= i < |olds| && forall j :: 0 <= j < |news| ==> news[j].id != olds[i].id
    ensures olds[i].metricId in MetricRemovals(olds, news)
  {
  }

  /** Diffing a metric rule list against itself removes no alert. */
  lemma UnchangedMetricRulesRemoveNoAlert(rules: seq<MetricRule>)
    requires UniqueMetricIds(rules)
    ensures MetricRemovals(rules, rules) == {}
  {
    forall i | 0 <= i < |rules|
      ensures !MetricRuleRemoved(rules[i], rules)
    {
      assert rules[i].id == rules[i].id;
      forall t | 0 <= t < |rules| && rules[t].id == rules[i].id
        ensures !MetricRemovedFor(rules[i], rules[t])
      {
        assert t == i;
      }
    }
  }

  // ---------------------------------------------------------------------------
  // Resizing

  /** The resize entry a matched old/new pair contributes: the new rule's id and retention size. */
  predicate ResizedBy(o: DataRule, n: DataRule, e: (string, int)) {
    o.id == n.id && HasSamplingSizeChanged(o, n) && e == (n.id, n.samplingRecordsToRetain)
  }

  lemma {:induction false} PairResizesMembers(o: DataRule, news: seq<DataRule>, e: (string, int))
    ensures e in PairResizes(o, news) <==> exists j :: 0 <= j < |news| && ResizedBy(o, news[j], e)
    decreases |news|
  {
    if news != [] {
      var m := |news| - 1;
      var prefix := news[..m];
      PairResizesMembers(o, prefix, e);
      if e in PairResizes(o, news) && e !in PairResizes(o, prefix) {
        assert ResizedBy(o, news[m], e);
      }
      if j :| 0 <= j < |news| && ResizedBy(o, news[j], e) {
        if j < m {
          assert prefix[j] == news[j];
        }
      }
    }
  }

  /** Some same-id pair of the two lists contributes the entry. */
  predicate ResizedIn(olds: seq<DataRule>, news: seq<DataRule>, e: (string, int)) {
    exists i, j :: 0 <= i < |olds| && 0 <= j < |news| && ResizedBy(olds[i], news[j], e)
  }

  predicate PairResized(o: DataRule, news: seq<DataRule>, e: (string, int)) {
    exists j :: 0 <= j < |news| && ResizedBy(o, news[j], e)
  }

  lemma ResizedInStep(olds: seq<DataRule>, news: seq<DataRule>, e: (string, int))
    requires olds != []
    ensures ResizedIn(olds, news, e) <==>
              ResizedIn(olds[..|olds| - 1], news, e) || PairResized(olds[|olds| - 1], news, e)
  {
    var m := |olds| - 1;
    var prefix := olds[..m];
    if ResizedIn(prefix, news, e) {
      var i, j :| 0 <= i < |prefix| && 0 <= j < |news| && ResizedBy(prefix[i], news[j], e);
      assert prefix[i] == olds[i];
    }
    if ResizedIn(olds, news, e) && !PairResized(olds[m], news, e) {
      var i, j :| 0 <= i < |olds| && 0 <= j < |news| && ResizedBy(olds[i], news[j], e);
      assert i < m && prefix[i] == olds[i];
    }
  }

  /** The resize entries are exactly the pairs of same-id rules whose new version is
      enabled with a different retention size, each carrying the new size. */
  lemma {:induction false} ResizeEntriesMembers(olds: seq<DataRule>, news: seq<DataRule>, e: (string, int))
    ensures e in ResizeEntries(olds, news) <==>
              exists i, j :: 0 <= i < |olds| && 0 <= j < |news| && ResizedBy(olds[i], news[j], e)
    decreases |olds|
  {
    if olds != [] {
      var m := |olds| - 1;
      ResizeEntriesMembers(olds[..m], news, e);
      PairResizesMembers(olds[m], news, e);
      ResizedInStep(olds, news, e);
      assert ResizeEntries(olds, news) == ResizeEntries(olds[..m], news) + PairResizes(olds[m], news);
      assert e in ResizeEntries(olds, news) <==> ResizedIn(olds, news, e);
    }
  }

  lemma {:induction false} PutAllKeys(m: map<string, int>, entries: seq<(string, int)>, k: string)
    ensures k in PutAll(m, entries) <==> k in m || exists i :: 0 <= i < |entries| && entries[i].0 == k
    decreases |entries|
  {
    if entries != [] {
      var n := |entries| - 1;
      var prefix := entries[..n];
      PutAllKeys(m, prefix, k);
      if i :| 0 <= i < n && prefix[i].0 == k {
        assert entries[i].0 == k;
      }
      if i :| 0 <= i < |entries| && entries[i].0 == k {
        if i < n {
          assert prefix[i].0 == k;
        }
      }
    }
  }

  /** When every entry for a key carries the same value, the map holds that value. */
  lemma {:induction false} PutAllUniformValue(m: map<string, int>, entries: seq<(string, int)>, k: string, v: int)
    requires (k, v) in entries
    requires forall w :: (k, w) in entries ==> w == v
    ensures k in PutAll(m, entries) && PutAll(m, entries)[k] == v
    decreases |entries|
  {
    var n := |entries| - 1;
    assert entries == entries[..n] + [entries[n]];
    if entries[n].0 != k {
      assert (k, v) in entries[..n];
      PutAllUniformValue(m, entries[..n], k, v);
    }
  }

  /** The resize map's keys are the ids of same-id pairs whose new version is enabled
      with a changed retention size, whether or not the rule is also torn down. */
  lemma SamplingResizeKeys(olds: seq<DataRule>, news: seq<DataRule>, k: string)
    ensures k in PutAll(map[], ResizeEntries(olds, news)) <==>
              exists i, j :: 0 <= i < |olds| && 0 <= j < |news| && olds[i].id == news[j].id &&
                             news[j].id == k && HasSamplingSizeChanged(olds[i], news[j])
  {
    var entries := ResizeEntries(olds, news);
    PutAllKeys(map[], entries, k);
    if t :| 0 <= t < |entries| && entries[t].0 == k {
      ResizeEntriesMembers(olds, news, entries[t]);
    }
    if i, j :| 0 <= i < |olds| && 0 <= j < |news| && olds[i].id == news[j].id &&
               news[j].id == k && HasSamplingSizeChanged(olds[i], news[j]) {
      var e := (k, news[j].samplingRecordsToRetain);
      ResizeEntriesMembers(olds, news, e);
      var t :| 0 <= t < |entries| && entries[t] == e;
      assert entries[t].0 == k;
    }
  }

  /** With unique new ids, a resized rule is mapped to its new retention size. */
  lemma SamplingResizeValue(olds: seq<DataRule>, news: seq<DataRule>, i: int, j: int)
    requires UniqueDataIds(news)
    requires 0 <= i < |olds| && 0 <= j < |news| && olds[i].id == news[j].id
    requires HasSamplingSizeChanged(olds[i], news[j])
    ensures var resizes := PutAll(map[], ResizeEntries(olds, news));
            news[j].id in resizes && resizes[news[j].id] == news[j].samplingRecordsToRetain
  {
    var k, v := news[j].id, news[j].samplingRecordsToRetain;
    var entries := ResizeEntries(olds, news);
    ResizeEntriesMembers(olds, news, (k, v));
    forall w | (k, w) in entries
      ensures w == v
    {
      ResizeEntriesMembers(olds, news, (k, w));
    }
    PutAllUniformValue(map[], entries, k, v);
  }

  // ---------------------------------------------------------------------------
  // Lane index

  /** Every rule of the new list is indexed under its observer lane with its full
      multiplicity, and under no other lane. */
  lemma {:induction false} RulesOnLaneCount(rules: seq<DataRule>, observerLane: NullableString -> string,
                                             lane: string, r: DataRule)
    ensures multiset(RulesOnLane(rules, observerLane, lane))[r] ==
            if observerLane(r.lane) == lane then multiset(rules)[r] else 0
    decreases |rules|
  {
    if rules != [] {
      var n := |rules| - 1;
      RulesOnLaneCount(rules[..n], observerLane, lane, r);
      assert rules == rules[..n] + [rules[n]];
    }
  }

  /** The index lists keep the order of the snapshot list: each is a subsequence of it. */
  lemma {:induction false} RulesOnLaneInOrder(rules: seq<DataRule>, observerLane: NullableString -> string, lane: string)
    ensures IsSubsequence(RulesOnLane(rules, observerLane, lane), rules)
    decreases |rules|
  {
    if rules != [] {
      var n := |rules| - 1;
      assert rules[..n] + [rules[n]] == rules;
      var before := RulesOnLane(rules[..n], observerLane, lane);
      RulesOnLaneInOrder(rules[..n], observerLane, lane);
      SubsequenceExtend(before, rules[..n], rules[n]);
      if observerLane(rules[n].lane) != lane {
        assert RulesOnLane(rules, observerLane, lane) == before + [] == before;
      }
    }
  }

  /** `xs` is obtained from `ys` by deleting elements. */
  predicate IsSubsequence<T(==)>(xs: seq<T>, ys: seq<T>)
    decreases |ys|
  {
    if xs == [] then true
    else if ys == [] then false
    else if xs[|xs| - 1] == ys[|ys| - 1] then IsSubsequence(xs[..|xs| - 1], ys[..|ys| - 1])
    else IsSubsequence(xs, ys[..|ys| - 1])
  }

  lemma SubsequenceExtend<T>(xs: seq<T>, ys: seq<T>, y: T)
    requires IsSubsequence(xs, ys)
    ensures IsSubsequence(xs, ys + [y]) && IsSubsequence(xs + [y], ys + [y])
  {
    assert (ys + [y])[..|ys|] == ys;
    assert (xs + [y])[..|xs|] == xs;
    if xs != [] && xs[|xs| - 1] == y {
      SubsequenceDropLast(xs, ys);
    }
  }

  lemma {:induction false} SubsequenceDropLast<T>(xs: seq<T>, ys: seq<T>)
    requires xs != [] && IsSubsequence(xs, ys)
    ensures IsSubsequence(xs[..|xs| - 1], ys)
    decreases |ys|, 0
  {
    if ys != [] {
      if xs[|xs| - 1] == ys[|ys| - 1] {
        SubsequenceWeaken(xs[..|xs| - 1], ys[..|ys| - 1], ys[|ys| - 1]);
        assert ys[..|ys| - 1] + [ys[|ys| - 1]] == ys;
      } else {
        SubsequenceDropLast(xs, ys[..|ys| - 1]);
        SubsequenceWeaken(xs[..|xs| - 1], ys[..|ys| - 1], ys[|ys| - 1]);
        assert ys[..|ys| - 1] + [ys[|ys| - 1]] == ys;
      }
    }
  }

  lemma {:induction false} SubsequenceWeaken<T>(xs: seq<T>, ys: seq<T>, y: T)
    requires IsSubsequence(xs, ys)
    ensures IsSubsequence(xs, ys + [y])
    decreases |ys|, 1
  {
    assert (ys + [y])[..|ys|] == ys;
    if xs != [] && xs[|xs| - 1] == y {
      SubsequenceDropLast(xs, ys);
    }
  }

  // ---------------------------------------------------------------------------
  // Worked examples

  /** Diffing a rule with alerting against its copy whose lane moves from L to M
      succeeds and tears the rule down. */
  method LaneChangeExample(o: DataRule) returns (r: Result<(set<string>, map<string, int>), LoadError>)
    requires o.id == "r1" && o.enabled && o.alertEnabled && o.lane == Some("L")
    requires o.condition.Some? && o.thresholdValue.Some?
    ensures r.Success? && "r1" in r.value.0
  {
    var n := o.(lane := Some("M"));
    r := DetectDataRuleChanges(Some([o]), Some([n]), {}, map[]);
    assert [n][0] == n && [o][0] == o;
    assert !DataRuleFails(o, [n]);
    assert RuleContentChanged(o, n);
    assert DataRuleRemoved([o][0], [n]);
  }

  /** Diffing a rule against its copy whose retention size alone goes from 10 to 50
      succeeds, tears nothing down and resizes the rule to 50. */
  method SamplingChangeExample(o: DataRule) returns (r: Result<(set<string>, map<string, int>), LoadError>)
    requires o.id == "r1" && o.enabled && o.samplingRecordsToRetain == 10
    requires o.lane.Some? && o.condition.Some? && o.thresholdValue.Some?
    ensures r == Success(({}, map["r1" := 50]))
  {
    var n := o.(samplingRecordsToRetain := 50);
    r := DetectDataRuleChanges(Some([o]), Some([n]), {}, map[]);
    SamplingOnlyChangeResizesWithoutTeardown([o], [n], 0, 0);
    assert [o][0] == o && [n][0] == n;
    assert !DataDiffFails([o], [n]);
    assert DataRemovals([o], [n]) == {};
    var resizes := PutAll(map[], ResizeEntries([o], [n]));
    forall k ensures k in resizes <==> k == "r1" {
      SamplingResizeKeys([o], [n], k);
    }
    assert resizes == map["r1" := 50];
    assert r.Success? && r.value.0 == {} && r.value.1 == resizes;
  }

  /** A rule that only the new snapshot has is not torn down and is indexed under
      its observer lane. */
  lemma NewRuleExample(olds: seq<DataRule>, news: seq<DataRule>, j: int, observerLane: NullableString -> string)
    requires 0 <= j < |news| && forall i :: 0 <= i < |olds| ==> olds[i].id != news[j].id
    ensures news[j].id !in DataRemovals(olds, news)
    ensures news[j] in RulesOnLane(news, observerLane, observerLane(news[j].lane))
  {
    RulesOnLaneCount(news, observerLane, observerLane(news[j].lane), news[j]);
    assert news[j] in multiset(news);
  }
}
