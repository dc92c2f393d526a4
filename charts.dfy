/** The per-class charts of the class page: raw points (the operation is
    ignored) per bimester and senso as stacked bars, per month and senso as
    lines in chronological order, and per senso as a zero-filled radar. */
module Charts {
  import opened Base
  import opened Folds
  import opened Domain
  import Sorting

  // ---------------------------------------------------------------------
  // Bars

  /** An entry of the bar chart's data: `{ bimestre, [senso]: points }`. */
  datatype BarEntry = BarEntry(bimestre: nat, values: map<string, int>)

  function BarEntries(acc: map<nat, map<string, int>>, keys: seq<nat>): (r: seq<BarEntry>)
    requires forall i :: 0 <= i < |keys| ==> keys[i] in acc
    ensures |r| == |keys|
    ensures forall i :: 0 <= i < |keys| ==> r[i].bimestre == keys[i] && r[i].values == acc[keys[i]]
  {
    seq(|keys|, i requires 0 <= i < |keys| => BarEntry(keys[i], acc[keys[i]]))
  }

  /** Lines 28-38: group the raw points by bimester and senso and take
      `Object.values`, which lists the bimesters in ascending order. A row
      holds only the sensos its bimester has. */
  method BarChartData(data: seq<Pontuacao>) returns (entries: seq<BarEntry>)
    ensures var keys := BimestreKeys(data);
      && |entries| == |keys|
      && forall i :: 0 <= i < |keys| ==>
           entries[i].bimestre == keys[i]
           && Accumulates(entries[i].values, Select(data, Bimestre, keys[i]), SensoOf, RawPoints)
  {
    var acc := NestedGroupSums(data, Bimestre, SensoOf, RawPoints);
    var keys := BimestreKeys(data);
    assert forall i :: 0 <= i < |keys| ==> keys[i] in KeysOf(data, Bimestre);
    entries := BarEntries(acc, keys);
  }

  /** A stacked bar is as tall as the raw points of its bimester. */
  lemma StackedBarIsBimesterTotal(entry: BarEntry, data: seq<Pontuacao>, sensos: seq<string>)
    requires Accumulates(entry.values, Select(data, Bimestre, entry.bimestre), SensoOf, RawPoints)
    requires Distinct(sensos) && entry.values.Keys <= set s | s in sensos
    ensures SumAlong(sensos, entry.values) == KeySum(data, Bimestre, RawPoints, entry.bimestre)
  {
    AccumulatedValuesAddUp(sensos, entry.values, Select(data, Bimestre, entry.bimestre), SensoOf, RawPoints);
  }

  // ---------------------------------------------------------------------
  // Lines

  /** An entry of the line chart's data: `{ date: "M/YYYY", [senso]: points }`. */
  datatype LineEntry = LineEntry(date: MonthKey, values: map<string, int>)

  function DateOf(e: LineEntry): MonthKey { e.date }
  function EntryIndex(e: LineEntry): int { MonthIndex(e.date) }

  /** `new Date(yearA, monthA - 1) - new Date(yearB, monthB - 1)` on entries. */
  function ByDate(a: LineEntry, b: LineEntry): JsNum
  {
    Chronologically(a.date, b.date)
  }

  function LineEntries(acc: map<MonthKey, map<string, int>>, months: seq<MonthKey>): (r: seq<LineEntry>)
    requires forall i :: 0 <= i < |months| ==> months[i] in acc
    ensures Sorting.Project(r, DateOf) == months
    ensures forall i :: 0 <= i < |r| ==> r[i].date in acc && r[i].values == acc[r[i].date]
  {
    seq(|months|, i requires 0 <= i < |months| => LineEntry(months[i], acc[months[i]]))
  }

  /** Lines 65-86: group the raw points by month and senso, take
      `Object.values` (months in the order first seen), then sort the
      entries chronologically: each month with a transaction once, in
      chronological order, with its sums per senso. */
  method LineChartData(data: seq<Pontuacao>) returns (sorted: seq<LineEntry>)
    ensures multiset(Sorting.Project(sorted, DateOf)) == multiset(FirstSeen(data, MonthOf))
    ensures Distinct(Sorting.Project(sorted, DateOf))
    ensures forall i :: 0 <= i < |sorted| ==> sorted[i].date in KeysOf(data, MonthOf)
    ensures Sorting.SortedByKey(sorted, EntryIndex)
    ensures forall i :: 0 <= i < |sorted| ==>
      Accumulates(sorted[i].values, Select(data, MonthOf, sorted[i].date), SensoOf, RawPoints)
  {
    var acc := NestedGroupSums(data, MonthOf, SensoOf, RawPoints);
    var months := FirstSeen(data, MonthOf);
    assert forall i :: 0 <= i < |months| ==> months[i] in KeysOf(data, MonthOf);
    var entries := LineEntries(acc, months);
    sorted := Sorting.SortBy(entries, ByDate);
    LineDataFacts(entries, sorted, months);
    SortedEntriesHoldSums(data, acc, entries, sorted);
  }

  /** Sorting moves whole entries: each still holds its month's sums. */
  lemma SortedEntriesHoldSums(data: seq<Pontuacao>, acc: map<MonthKey, map<string, int>>, entries: seq<LineEntry>, sorted: seq<LineEntry>)
    requires NestedAccumulates(acc, data, MonthOf, SensoOf, RawPoints)
    requires forall i :: 0 <= i < |entries| ==> entries[i].date in acc && entries[i].values == acc[entries[i].date]
    requires multiset(sorted) == multiset(entries)
    ensures forall i :: 0 <= i < |sorted| ==>
      sorted[i].date in KeysOf(data, MonthOf)
      && Accumulates(sorted[i].values, Select(data, MonthOf, sorted[i].date), SensoOf, RawPoints)
  {
    forall i | 0 <= i < |sorted|
      ensures sorted[i].date in KeysOf(data, MonthOf)
      ensures Accumulates(sorted[i].values, Select(data, MonthOf, sorted[i].date), SensoOf, RawPoints)
    {
      assert sorted[i] in multiset(entries);
      var j :| 0 <= j < |entries| && entries[j] == sorted[i];
    }
  }

  lemma LineDataFacts(entries: seq<LineEntry>, sorted: seq<LineEntry>, months: seq<MonthKey>)
    requires Distinct(months) && Sorting.Project(entries, DateOf) == months
    requires sorted == Sorting.SortBy(entries, ByDate)
    ensures multiset(Sorting.Project(sorted, DateOf)) == multiset(months)
    ensures Distinct(Sorting.Project(sorted, DateOf))
    ensures Sorting.SortedByKey(sorted, EntryIndex)
  {
    Sorting.SortByProjects(entries, ByDate, DateOf);
    DistinctPermutation(months, Sorting.Project(sorted, DateOf));
    assert Sorting.OrdersByKey(ByDate, EntryIndex);
    Sorting.SortByKeySorts(entries, ByDate, EntryIndex);
  }

  // ---------------------------------------------------------------------
  // Radar

  /** A point of the radar: `{ senso, pontos }`. */
  datatype RadarPoint = RadarPoint(senso: string, pontos: int)

  function Pontos(p: RadarPoint): int { p.pontos }

  /** Lines 123-133: raw points per senso, read for the five sensos with
      `|| 0`: every senso is present, a senso with no transaction at 0. */
  method RadarChartData(data: seq<Pontuacao>) returns (points: seq<RadarPoint>)
    ensures |points| == |Sensos|
    ensures forall i :: 0 <= i < |Sensos| ==>
      points[i] == RadarPoint(Sensos[i], KeySum(data, SensoOf, RawPoints, Sensos[i]))
  {
    var pontosPorSenso := GroupSums(data, SensoOf, RawPoints);
    forall s | s !in pontosPorSenso
      ensures KeySum(data, SensoOf, RawPoints, s) == 0
    {
      AbsentKeySumsToZero(data, SensoOf, RawPoints, s);
    }
    points := seq(|Sensos|, i requires 0 <= i < |Sensos| =>
      RadarPoint(Sensos[i], if Sensos[i] in pontosPorSenso && pontosPorSenso[Sensos[i]] != 0 then pontosPorSenso[Sensos[i]] else 0));
  }

  function RadarTotal(points: seq<RadarPoint>): int
  {
    if points == [] then 0 else RadarTotal(points[..|points| - 1]) + points[|points| - 1].pontos
  }

  /** The radar's points add up to the raw points of the transactions whose
      senso is one of the five; when every transaction names one of them,
      to all the raw points. */
  lemma RadarCoversListedSensos(data: seq<Pontuacao>, points: seq<RadarPoint>)
    requires |points| == |Sensos|
    requires forall i :: 0 <= i < |Sensos| ==>
      points[i] == RadarPoint(Sensos[i], KeySum(data, SensoOf, RawPoints, Sensos[i]))
    ensures RadarTotal(points) == SumListed(data, SensoOf, Sensos, RawPoints)
    ensures (forall p :: p in data ==> p.senso in Sensos) ==> RadarTotal(points) == Sum(data, RawPoints)
  {
    RadarTotalIsSumKeys(data, points, Sensos);
    SensosAreFiveDistinct();
    SumKeysIsSumListed(Sensos, data, SensoOf, RawPoints);
    if forall p :: p in data ==> p.senso in Sensos {
      SumListedCoversAll(data, SensoOf, Sensos, RawPoints);
    }
  }

  lemma {:induction false} RadarTotalIsSumKeys(data: seq<Pontuacao>, points: seq<RadarPoint>, sensos: seq<string>)
    requires |points| == |sensos|
    requires forall i :: 0 <= i < |sensos| ==> points[i].pontos == KeySum(data, SensoOf, RawPoints, sensos[i])
    ensures RadarTotal(points) == SumKeys(sensos, data, SensoOf, RawPoints)
  {
    if points != [] {
      var n := |points| - 1;
      RadarTotalIsSumKeys(data, points[..n], sensos[..n]);
      SumKeysAppend(sensos[..n], sensos[n], data, SensoOf, RawPoints);
      assert sensos[..n] + [sensos[n]] == sensos;
    }
  }
}
