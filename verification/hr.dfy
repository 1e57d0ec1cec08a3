/** The HR analytics dashboard: accepted reports counted per faculty member
    and per remark, and turned into the bar and pie charts' data. */
module HRDashboard {
  import opened Lists
  import opened Js
  import opened Records

  /** The bar chart groups a report under its faculty member's name, or under
      "Unknown" when there is none. */
  function FacultyLabel(r: Report): (group: string)
    ensures group != ""
    ensures r.faculty.Some? && Truthy(r.faculty.value.name) ==> group == r.faculty.value.name.value
    ensures (r.faculty.None? || !Truthy(r.faculty.value.name)) ==> group == "Unknown"
  {
    OrDefault(if r.faculty.Some? then r.faculty.value.name else None, "Unknown")
  }

  /** The pie chart groups a report under its remarks, or under "No Reason". */
  function RemarkLabel(r: Report): (group: string)
    ensures group != ""
    ensures Truthy(r.remarks) ==> group == r.remarks.value
    ensures !Truthy(r.remarks) ==> group == "No Reason"
  {
    OrDefault(r.remarks, "No Reason")
  }

  /** The sum of the counts of `keys`. */
  function SumCounts(counts: map<string, nat>, keys: seq<string>): nat
    requires forall k :: k in keys ==> k in counts
  {
    if keys == [] then 0 else SumCounts(counts, keys[..|keys| - 1]) + counts[keys[|keys| - 1]]
  }

  /** Changing the count of a key not listed leaves the sum alone. */
  lemma {:induction false} SumIgnoresOthers(counts: map<string, nat>, keys: seq<string>, name: string, v: nat)
    requires forall k :: k in keys ==> k in counts
    requires name !in keys
    ensures SumCounts(counts[name := v], keys) == SumCounts(counts, keys)
  {
    if keys != [] {
      SumIgnoresOthers(counts, keys[..|keys| - 1], name, v);
    }
  }

  /** Incrementing the count of a listed key adds one to the sum. */
  lemma {:induction false} SumIncrement(counts: map<string, nat>, keys: seq<string>, name: string)
    requires forall k :: k in keys ==> k in counts
    requires Distinct(keys) && name in keys
    ensures SumCounts(counts[name := counts[name] + 1], keys) == SumCounts(counts, keys) + 1
  {
    var init := keys[..|keys| - 1];
    var last := keys[|keys| - 1];
    assert keys == init + [last];
    if last == name {
      assert name !in init;
      SumIgnoresOthers(counts, init, name, counts[name] + 1);
    } else {
      SumIncrement(counts, init, name);
    }
  }

  /** `counts` and `keys` are the tally of `seen`: the keys are the distinct
      labels in order of first appearance, each counted exactly, and the
      counts add up to the number of labels. */
  ghost predicate Tallied(counts: map<string, nat>, keys: seq<string>, seen: seq<string>) {
    && keys == Dedup(seen)
    && (forall k :: k in counts <==> k in seen)
    && (forall k :: k in counts ==> counts[k] == multiset(seen)[k])
    && (forall k :: k in keys ==> k in counts)
    && SumCounts(counts, keys) == |seen|
  }

  /** Counting one more label keeps every count exact. */
  lemma CountsStep(counts: map<string, nat>, seen: seq<string>, name: string)
    requires forall k :: k in counts <==> k in seen
    requires forall k :: k in counts ==> counts[k] == multiset(seen)[k]
    ensures var next := counts[name := if name in counts then counts[name] + 1 else 1];
      && (forall k :: k in next <==> k in seen + [name])
      && (forall k :: k in next ==> next[k] == multiset(seen + [name])[k])
  {
    assert multiset(seen + [name]) == multiset(seen) + multiset{name};
    if name !in counts {
      assert multiset(seen)[name] == 0;
    }
  }

  /** Counting a label seen before increments its count. */
  lemma TallyRepeat(counts: map<string, nat>, keys: seq<string>, seen: seq<string>, name: string)
    requires Tallied(counts, keys, seen) && name in counts
    ensures Tallied(counts[name := counts[name] + 1], keys, seen + [name])
  {
    DedupAppend(seen, name);
    CountsStep(counts, seen, name);
    SumIncrement(counts, keys, name);
  }

  /** Counting a new label gives it the count one and appends it to the keys. */
  lemma TallyFresh(counts: map<string, nat>, keys: seq<string>, seen: seq<string>, name: string)
    requires Tallied(counts, keys, seen) && name !in counts
    ensures Tallied(counts[name := 1], keys + [name], seen + [name])
  {
    DedupAppend(seen, name);
    CountsStep(counts, seen, name);
    SumIgnoresOthers(counts, keys, name, 1);
    var keys' := keys + [name];
    assert keys'[..|keys'| - 1] == keys;
  }

  /** Counting `labels[i]` extends a tally of `labels[..i]` to `labels[..i + 1]`. */
  lemma TallyStep(counts: map<string, nat>, keys: seq<string>, labels: seq<string>, i: nat)
    requires i < |labels| && Tallied(counts, keys, labels[..i])
    ensures labels[i] in counts ==> Tallied(counts[labels[i] := counts[labels[i]] + 1], keys, labels[..i + 1])
    ensures labels[i] !in counts ==> Tallied(counts[labels[i] := 1], keys + [labels[i]], labels[..i + 1])
  {
    assert labels[..i + 1] == labels[..i] + [labels[i]];
    if labels[i] in counts {
      TallyRepeat(counts, keys, labels[..i], labels[i]);
    } else {
      TallyFresh(counts, keys, labels[..i], labels[i]);
    }
  }

  /** Every label of a tally is counted at least once. */
  lemma TalliedCountsPositive(counts: map<string, nat>, keys: seq<string>, seen: seq<string>)
    requires Tallied(counts, keys, seen)
    ensures forall k :: k in counts ==> counts[k] >= 1
  {
  }

  /** The reduce `acc[name] = (acc[name] || 0) + 1` over `labels`, with the
      object's keys kept in insertion order: each label is counted, the keys
      are the distinct labels in order of first appearance, every count is at
      least one, and the counts add up to the number of labels. */
  method Tally(labels: seq<string>) returns (counts: map<string, nat>, keys: seq<string>)
    ensures keys == Dedup(labels)
    ensures forall k :: k in counts <==> k in labels
    ensures forall k :: k in counts ==> counts[k] == multiset(labels)[k] && counts[k] >= 1
    ensures forall k :: k in keys ==> k in counts
    ensures SumCounts(counts, keys) == |labels|
  {
    counts := map[];
    keys := [];
    var i := 0;
    while i < |labels|
      invariant 0 <= i <= |labels|
      invariant Tallied(counts, keys, labels[..i])
    {
      var name := labels[i];
      TallyStep(counts, keys, labels, i);
      if name in counts {
        counts := counts[name := counts[name] + 1];
      } else {
        counts := counts[name := 1];
        keys := keys + [name];
      }
      i := i + 1;
    }
    assert labels[..i] == labels;
    TalliedCountsPositive(counts, keys, labels);
  }

  /** One bar or pie slice. The bar chart's entries carry the number under
      the key `count`; the pie chart's carry it under `value`. */
  datatype Slice = Slice(name: string, count: nat)

  /** `Object.keys(counts).map(key => ({ name: key, count: counts[key] }))`,
      and the same with `value` for the pie chart. */
  function ToChart(counts: map<string, nat>, keys: seq<string>): (r: seq<Slice>)
    requires forall k :: k in keys ==> k in counts
    ensures |r| == |keys|
    ensures forall i :: 0 <= i < |keys| ==> r[i] == Slice(keys[i], counts[keys[i]])
  {
    seq(|keys|, i requires 0 <= i < |keys| => Slice(keys[i], counts[keys[i]]))
  }

  /** The total the slices of a chart stand for. */
  function ChartTotal(slices: seq<Slice>): nat {
    if slices == [] then 0 else ChartTotal(slices[..|slices| - 1]) + slices[|slices| - 1].count
  }

  /** The slice names, in chart order. */
  function Names(slices: seq<Slice>): seq<string> {
    Map(slices, (s: Slice) => s.name)
  }

  /** A chart's slices add up to the sum of the counts it was built from. */
  lemma {:induction false} ChartTotalIsSum(counts: map<string, nat>, keys: seq<string>)
    requires forall k :: k in keys ==> k in counts
    ensures ChartTotal(ToChart(counts, keys)) == SumCounts(counts, keys)
  {
    if keys != [] {
      var init := keys[..|keys| - 1];
      assert ToChart(counts, keys)[..|keys| - 1] == ToChart(counts, init);
      ChartTotalIsSum(counts, init);
    }
  }

  /** The chart of a tally: one slice per distinct label, in order of first
      appearance, each counting that label's occurrences (so at least one),
      and all of them together counting every label once. */
  method ChartOf(labels: seq<string>) returns (chart: seq<Slice>)
    ensures Names(chart) == Dedup(labels)
    ensures forall s :: s in chart ==> s.count == multiset(labels)[s.name] && s.count >= 1
    ensures ChartTotal(chart) == |labels|
  {
    var counts, keys := Tally(labels);
    chart := ToChart(counts, keys);
    ChartTotalIsSum(counts, keys);
    assert Names(chart) == keys;
  }

  /** What `fetchAnalytics` derives from the accepted reports. */
  method Analytics(reports: seq<Report>) returns (total: nat, facultyData: seq<Slice>, remarkData: seq<Slice>)
    ensures total == |reports|
    ensures Names(facultyData) == Dedup(Map(reports, FacultyLabel))
    ensures Names(remarkData) == Dedup(Map(reports, RemarkLabel))
    ensures forall s :: s in facultyData ==> s.count == multiset(Map(reports, FacultyLabel))[s.name] && s.count >= 1
    ensures forall s :: s in remarkData ==> s.count == multiset(Map(reports, RemarkLabel))[s.name] && s.count >= 1
    ensures ChartTotal(facultyData) == total && ChartTotal(remarkData) == total
  {
    total := |reports|;
    facultyData := ChartOf(Map(reports, FacultyLabel));
    remarkData := ChartOf(Map(reports, RemarkLabel));
  }

  /** The pie chart's palette. */
  const Colours: seq<string> := ["#800000", "#FFD700", "#B8860B", "#4a4a4a", "#D1D5DB"]

  /** Slice `i` is coloured `COLORS[i % COLORS.length]`. */
  function SliceColour(i: nat): (c: string)
    ensures c in Colours
  {
    Colours[i % |Colours|]
  }

  /** The palette repeats every five slices, and neighbouring slices never
      share a colour. */
  lemma ColourCycle(i: nat)
    ensures SliceColour(i + 5) == SliceColour(i)
    ensures SliceColour(i) != SliceColour(i + 1)
  {
    assert (i + 5) % 5 == i % 5;
    assert (i + 1) % 5 == if i % 5 == 4 then 0 else i % 5 + 1;
  }

  class HRDashboardPage {
    var facultyData: seq<Slice>
    var remarkData: seq<Slice>
    var totalReports: nat
    var selectedSemester: string

    constructor ()
      ensures facultyData == [] && remarkData == [] && totalReports == 0
      ensures selectedSemester == "1st Sem 2025-2026"
    {
      facultyData := [];
      remarkData := [];
      totalReports := 0;
      selectedSemester := "1st Sem 2025-2026";
    }

    /** The analytics request: accepted reports of the selected semester. */
    function Query(): (q: Request)
      reads this
      ensures q.url == ApiBase + "/admin/reports"
      ensures q.params.Keys == {"status", "semester"}
      ensures q.params["status"] == "Accepted" && q.params["semester"] == selectedSemester
    {
      Request(ApiBase + "/admin/reports", map["status" := "Accepted", "semester" := selectedSemester])
    }

    /** `fetchAnalytics` once the request has settled: loaded reports replace
        all three figures; a failure changes nothing. */
    method FetchAnalytics(outcome: Fetch<seq<Report>>)
      modifies this
      ensures outcome.Loaded? ==> totalReports == |outcome.data|
      ensures outcome.Loaded? ==> ChartTotal(facultyData) == totalReports && ChartTotal(remarkData) == totalReports
      ensures outcome.Loaded? ==> Names(facultyData) == Dedup(Map(outcome.data, FacultyLabel))
      ensures outcome.Loaded? ==> Names(remarkData) == Dedup(Map(outcome.data, RemarkLabel))
      ensures outcome.Loaded? ==> forall s :: s in facultyData ==>
        s.count == multiset(Map(outcome.data, FacultyLabel))[s.name] && s.count >= 1
      ensures outcome.Loaded? ==> forall s :: s in remarkData ==>
        s.count == multiset(Map(outcome.data, RemarkLabel))[s.name] && s.count >= 1
      ensures outcome.Failed? ==>
        facultyData == old(facultyData) && remarkData == old(remarkData) && totalReports == old(totalReports)
      ensures selectedSemester == old(selectedSemester)
    {
      if outcome.Loaded? {
        var total, byFaculty, byRemark := Analytics(outcome.data);
        totalReports := total;
        facultyData := byFaculty;
        remarkData := byRemark;
      }
    }

    /** The semester dropdown only records the choice: the analytics are
        fetched once, when the page mounts, so the figures stay those of the
        semester they were fetched for. */
    method SelectSemester(semester: string)
      modifies this
      ensures selectedSemester == semester
      ensures facultyData == old(facultyData) && remarkData == old(remarkData) && totalReports == old(totalReports)
    {
      selectedSemester := semester;
    }
  }
}
