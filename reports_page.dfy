/** The general report page: applied transactions of the current year
    aggregated per class (total and monthly buckets) and per senso, every
    registered class shown even with no points, the per-class monthly
    series in chronological order, the most and least scored senso, and
    the transaction table. */
module ReportsPage {
  import opened Base
  import opened Folds
  import opened Domain
  import Text
  import Paging
  import Sorting
  import Table

  /** Rows of the transaction table per page. */
  const ItemsPerPage := 5

  /** An entry of `GET public/pontuacao`: a registered class. */
  datatype RegisteredTurma = RegisteredTurma(id: int, nome: string)

  /** `turmasPontuacao[idTurma]`: a class's name, signed total and monthly buckets. */
  datatype ClassScore = ClassScore(nome: string, total: int, meses: map<MonthKey, int>)

  /** An entry of `sensoArray`. */
  datatype SensoTotal = SensoTotal(senso: string, total: int)

  function Total(s: SensoTotal): int { s.total }
  function NegTotal(s: SensoTotal): int { -s.total }

  // ---------------------------------------------------------------------
  // Loading

  /** `pontuacaoData.filter((p) => p.aplicado)`: pending and annulled
      transactions never reach the report. */
  function AppliedOnly(data: seq<Pontuacao>): (r: seq<Pontuacao>)
    ensures forall i :: 0 <= i < |r| ==> r[i].aplicado
    ensures forall p :: p in r <==> p in data && p.aplicado
  {
    Select(data, IsApplied, true)
  }

  /** One more fetched transaction extends the report's list exactly when
      it is applied. */
  lemma OnlyAppliedCount(data: seq<Pontuacao>, p: Pontuacao)
    ensures p.aplicado ==> AppliedOnly(data + [p]) == AppliedOnly(data) + [p]
    ensures !p.aplicado ==> AppliedOnly(data + [p]) == AppliedOnly(data)
  {
    SelectSnoc(data, p, IsApplied, true);
  }

  // ---------------------------------------------------------------------
  // Aggregation

  /** `nome` is the `nomeTurma` of the first transaction of class `id`. */
  ghost predicate NamedAfterFirst(ps: seq<Pontuacao>, id: int, nome: string)
  {
    exists j :: 0 <= j < |ps| && ps[j].idTurma == id && ps[j].nomeTurma == nome
      && forall k :: 0 <= k < j ==> ps[k].idTurma != id
  }

  /** `entry` is what the aggregation loop holds for class `id` after `ps`:
      its signed total, its monthly buckets, and the name its first
      transaction carried. */
  ghost predicate ScoreOf(entry: ClassScore, ps: seq<Pontuacao>, id: int)
  {
    && entry.total == KeySum(ps, TurmaId, SignedBySum, id)
    && Accumulates(entry.meses, Select(ps, TurmaId, id), MonthOf, SignedBySum)
    && NamedAfterFirst(ps, id, entry.nome)
  }

  /** `turmas` is what the aggregation loop holds after `ps`: one entry per
      class with a transaction, each as `ScoreOf` says. */
  ghost predicate ScoresOf(turmas: map<int, ClassScore>, ps: seq<Pontuacao>)
  {
    && turmas.Keys == KeysOf(ps, TurmaId)
    && forall id :: id in turmas ==> ScoreOf(turmas[id], ps, id)
  }

  /** What one iteration of the loop does to the entry of the transaction's class. */
  function EntryStep(turmas: map<int, ClassScore>, p: Pontuacao): ClassScore
  {
    var entry := if p.idTurma in turmas then turmas[p.idTurma] else ClassScore(p.nomeTurma, 0, map[]);
    ClassScore(entry.nome, entry.total + SignedBySum(p), AddTo(entry.meses, MonthOf(p), SignedBySum(p)))
  }

  function ScoreStep(turmas: map<int, ClassScore>, p: Pontuacao): map<int, ClassScore>
  {
    turmas[p.idTurma := EntryStep(turmas, p)]
  }

  lemma NamedAfterFirstSnoc(ps: seq<Pontuacao>, p: Pontuacao, id: int, nome: string)
    requires NamedAfterFirst(ps, id, nome)
    ensures NamedAfterFirst(ps + [p], id, nome)
  {
    var j :| 0 <= j < |ps| && ps[j].idTurma == id && ps[j].nomeTurma == nome
      && forall k :: 0 <= k < j ==> ps[k].idTurma != id;
    assert (ps + [p])[j] == ps[j];
    assert forall k :: 0 <= k < j ==> (ps + [p])[k] == ps[k];
  }

  /** A class the transaction does not touch keeps a correct entry. */
  lemma OtherEntryStep(entry: ClassScore, ps: seq<Pontuacao>, p: Pontuacao, id: int)
    requires ScoreOf(entry, ps, id) && id != p.idTurma
    ensures ScoreOf(entry, ps + [p], id)
  {
    SelectSnoc(ps, p, TurmaId, id);
    NamedAfterFirstSnoc(ps, p, id, entry.nome);
  }

  /** A class seen for the first time starts at zero with no months, under
      the name its first transaction carries. */
  lemma FreshEntry(ps: seq<Pontuacao>, p: Pontuacao)
    requires p.idTurma !in KeysOf(ps, TurmaId)
    ensures KeySum(ps, TurmaId, SignedBySum, p.idTurma) == 0
    ensures Accumulates(map[], Select(ps, TurmaId, p.idTurma), MonthOf, SignedBySum)
    ensures NamedAfterFirst(ps + [p], p.idTurma, p.nomeTurma)
  {
    var id := p.idTurma;
    var ps' := ps + [p];
    AbsentKeySumsToZero(ps, TurmaId, SignedBySum, id);
    assert forall k :: 0 <= k < |ps| ==> ps'[k] == ps[k] && ps[k] in ps;
    assert ps'[|ps|] == p;
  }

  /** The transaction's own class gets a correct entry. */
  lemma OwnEntryStep(turmas: map<int, ClassScore>, ps: seq<Pontuacao>, p: Pontuacao)
    requires ScoresOf(turmas, ps)
    ensures ScoreOf(EntryStep(turmas, p), ps + [p], p.idTurma)
  {
    var id := p.idTurma;
    var entry := if id in turmas then turmas[id] else ClassScore(p.nomeTurma, 0, map[]);
    assert EntryStep(turmas, p) == ClassScore(entry.nome, entry.total + SignedBySum(p), AddTo(entry.meses, MonthOf(p), SignedBySum(p)));
    if id in turmas {
      assert ScoreOf(entry, ps, id);
      NamedAfterFirstSnoc(ps, p, id, entry.nome);
    } else {
      FreshEntry(ps, p);
    }
    AddToEntry(entry, ps, p);
  }

  /** The transaction adds its signed points to its class's total and to
      the bucket of its month. */
  lemma AddToEntry(entry: ClassScore, ps: seq<Pontuacao>, p: Pontuacao)
    requires entry.total == KeySum(ps, TurmaId, SignedBySum, p.idTurma)
    requires Accumulates(entry.meses, Select(ps, TurmaId, p.idTurma), MonthOf, SignedBySum)
    requires NamedAfterFirst(ps + [p], p.idTurma, entry.nome)
    ensures ScoreOf(ClassScore(entry.nome, entry.total + SignedBySum(p), AddTo(entry.meses, MonthOf(p), SignedBySum(p))), ps + [p], p.idTurma)
  {
    var id := p.idTurma;
    SelectSnoc(ps, p, TurmaId, id);
    KeySumSnoc(ps, p, TurmaId, SignedBySum, id);
    GroupStep(entry.meses, Select(ps, TurmaId, id), p, MonthOf, SignedBySum);
  }

  lemma ScoreStepKeepsScores(turmas: map<int, ClassScore>, ps: seq<Pontuacao>, p: Pontuacao)
    requires ScoresOf(turmas, ps)
    ensures ScoresOf(ScoreStep(turmas, p), ps + [p])
  {
    var t' := ScoreStep(turmas, p);
    KeysOfSnoc(ps, p, TurmaId);
    assert t'.Keys == KeysOf(ps + [p], TurmaId);
    forall id | id in t'
      ensures ScoreOf(t'[id], ps + [p], id)
    {
      if id == p.idTurma {
        OwnEntryStep(turmas, ps, p);
      } else {
        assert t'[id] == turmas[id];
        OtherEntryStep(turmas[id], ps, p, id);
      }
    }
  }

  /** The body of the `pontuacoes.forEach` loop for one transaction `p`. */
  method RecordTransaction(turmas: map<int, ClassScore>, sensos: map<string, int>, p: Pontuacao)
    returns (turmas': map<int, ClassScore>, sensos': map<string, int>)
    ensures turmas' == ScoreStep(turmas, p)
    ensures sensos' == AddTo(sensos, SensoOf(p), SignedBySum(p))
  {
    turmas', sensos' := turmas, sensos;
    var delta := if p.operacao == "SUM" then p.pontos else -p.pontos;
    if p.idTurma !in turmas' {
      turmas' := turmas'[p.idTurma := ClassScore(p.nomeTurma, 0, map[])];
    }
    var entry := turmas'[p.idTurma];
    var bucket := if p.createdMonth in entry.meses then entry.meses[p.createdMonth] else 0;
    turmas' := turmas'[p.idTurma := ClassScore(entry.nome, entry.total + delta, entry.meses[p.createdMonth := bucket + delta])];
    if p.senso !in sensos' {
      sensos' := sensos'[p.senso := 0];
    }
    sensos' := sensos'[p.senso := sensos'[p.senso] + delta];
  }

  /** The `pontuacoes.forEach` loop (signed by "SUM" versus anything else):
      per class its total and monthly buckets, per senso its total. */
  method AccumulateScores(ps: seq<Pontuacao>) returns (turmas: map<int, ClassScore>, sensos: map<string, int>)
    ensures ScoresOf(turmas, ps)
    ensures Accumulates(sensos, ps, SensoOf, SignedBySum)
  {
    turmas, sensos := map[], map[];
    var i := 0;
    while i < |ps|
      invariant 0 <= i <= |ps|
      invariant ScoresOf(turmas, ps[..i])
      invariant Accumulates(sensos, ps[..i], SensoOf, SignedBySum)
    {
      assert ps[..i + 1] == ps[..i] + [ps[i]];
      ScoreStepKeepsScores(turmas, ps[..i], ps[i]);
      GroupStep(sensos, ps[..i], ps[i], SensoOf, SignedBySum);
      turmas, sensos := RecordTransaction(turmas, sensos, ps[i]);
      i := i + 1;
    }
    assert ps[..i] == ps;
  }

  /** The ids among the first `n` registry entries. */
  function RegistryIds(registry: seq<RegisteredTurma>, n: int): set<int>
  {
    set j | 0 <= j < |registry| && j < n :: registry[j].id
  }

  /** `nome` is the name of the first of the first `n` registry entries with id `id`. */
  ghost predicate FirstRegistered(registry: seq<RegisteredTurma>, n: int, id: int, nome: string)
  {
    exists j :: 0 <= j < |registry| && j < n && registry[j].id == id && registry[j].nome == nome
      && forall k :: 0 <= k < j ==> registry[k].id != id
  }

  /** What the registry loop holds after its first `n` entries. */
  ghost predicate Filled(filled: map<int, ClassScore>, turmas: map<int, ClassScore>, registry: seq<RegisteredTurma>, n: int)
  {
    && filled.Keys == turmas.Keys + RegistryIds(registry, n)
    && (forall id :: id in turmas ==> filled[id] == turmas[id])
    && forall id :: id in filled && id !in turmas ==>
      filled[id].total == 0 && filled[id].meses == map[] && FirstRegistered(registry, n, id, filled[id].nome)
  }

  /** `if (!turmasPontuacao[turma.id]) turmasPontuacao[turma.id] = { nome, total: 0, meses: {} }`. */
  function Register(filled: map<int, ClassScore>, t: RegisteredTurma): map<int, ClassScore>
  {
    if t.id in filled then filled else filled[t.id := ClassScore(t.nome, 0, map[])]
  }

  /** One registry entry more keeps the loop's invariant. */
  lemma RegisterStep(filled: map<int, ClassScore>, turmas: map<int, ClassScore>, registry: seq<RegisteredTurma>, i: int)
    requires 0 <= i < |registry| && Filled(filled, turmas, registry, i)
    ensures Filled(Register(filled, registry[i]), turmas, registry, i + 1)
  {
    var t := registry[i];
    RegistryIdsStep(registry, i);
    var filled' := Register(filled, t);
    forall id | id in filled' && id !in turmas
      ensures FirstRegistered(registry, i + 1, id, filled'[id].nome)
    {
      if id in filled {
        FirstRegisteredStays(registry, i, id, filled[id].nome);
      } else {
        FirstRegisteredAt(registry, i);
      }
    }
  }

  lemma RegistryIdsStep(registry: seq<RegisteredTurma>, i: int)
    requires 0 <= i < |registry|
    ensures RegistryIds(registry, i + 1) == RegistryIds(registry, i) + {registry[i].id}
  {
  }

  lemma FirstRegisteredStays(registry: seq<RegisteredTurma>, n: int, id: int, nome: string)
    requires FirstRegistered(registry, n, id, nome)
    ensures FirstRegistered(registry, n + 1, id, nome)
  {
    var j :| 0 <= j < |registry| && j < n && registry[j].id == id && registry[j].nome == nome
      && forall k :: 0 <= k < j ==> registry[k].id != id;
    assert j < n + 1;
  }

  lemma FirstRegisteredAt(registry: seq<RegisteredTurma>, i: int)
    requires 0 <= i < |registry| && registry[i].id !in RegistryIds(registry, i)
    ensures FirstRegistered(registry, i + 1, registry[i].id, registry[i].nome)
  {
    assert forall k :: 0 <= k < i ==> registry[k].id in RegistryIds(registry, i);
  }

  /** The `turmas.forEach` loop: every registered class gets an entry, a
      class already scored keeps its own, a new one starts at zero with no
      months under its first registered name. */
  method FillRegistry(turmas: map<int, ClassScore>, registry: seq<RegisteredTurma>) returns (filled: map<int, ClassScore>)
    ensures filled.Keys == turmas.Keys + RegistryIds(registry, |registry|)
    ensures forall id :: id in turmas ==> filled[id] == turmas[id]
    ensures forall id :: id in filled && id !in turmas ==>
      filled[id].total == 0 && filled[id].meses == map[] && FirstRegistered(registry, |registry|, id, filled[id].nome)
  {
    filled := turmas;
    var i := 0;
    assert RegistryIds(registry, 0) == {};
    while i < |registry|
      invariant 0 <= i <= |registry|
      invariant Filled(filled, turmas, registry, i)
    {
      RegisterStep(filled, turmas, registry, i);
      filled := Register(filled, registry[i]);
      i := i + 1;
    }
  }

  /** The metrics the page computes from the fetched data: `turmas` holds
      one entry per class that has an applied transaction or is registered,
      with its signed total and monthly buckets over the applied
      transactions; `sensos` holds the signed total per senso. */
  ghost predicate MetricsOf(turmas: map<int, ClassScore>, sensos: map<string, int>, data: seq<Pontuacao>, registry: seq<RegisteredTurma>)
  {
    var ps := AppliedOnly(data);
    && turmas.Keys == KeysOf(ps, TurmaId) + RegistryIds(registry, |registry|)
    && (forall id :: id in turmas ==>
          && turmas[id].total == KeySum(ps, TurmaId, SignedBySum, id)
          && Accumulates(turmas[id].meses, Select(ps, TurmaId, id), MonthOf, SignedBySum))
    && Accumulates(sensos, ps, SensoOf, SignedBySum)
  }

  /** Lines 44 and 69-102 together: filter the applied transactions,
      aggregate them, then zero-fill the registered classes. */
  method ComputeMetrics(data: seq<Pontuacao>, registry: seq<RegisteredTurma>) returns (turmas: map<int, ClassScore>, sensos: map<string, int>)
    ensures MetricsOf(turmas, sensos, data, registry)
    ensures forall id :: id in turmas && id in KeysOf(AppliedOnly(data), TurmaId) ==>
      NamedAfterFirst(AppliedOnly(data), id, turmas[id].nome)
    ensures forall id :: id in turmas && id !in KeysOf(AppliedOnly(data), TurmaId) ==>
      turmas[id].total == 0 && FirstRegistered(registry, |registry|, id, turmas[id].nome)
  {
    var ps := AppliedOnly(data);
    var scored;
    scored, sensos := AccumulateScores(ps);
    turmas := FillRegistry(scored, registry);
    forall id | id in turmas && id !in scored
      ensures turmas[id].total == KeySum(ps, TurmaId, SignedBySum, id)
      ensures Accumulates(turmas[id].meses, Select(ps, TurmaId, id), MonthOf, SignedBySum)
    {
      AbsentKeySumsToZero(ps, TurmaId, SignedBySum, id);
    }
  }

  /** A class's monthly buckets, read along any list of its months, add up
      to its total: the line chart and the bar chart agree. */
  lemma MonthBucketsAddUpToTotal(turmas: map<int, ClassScore>, sensos: map<string, int>, data: seq<Pontuacao>,
                                 registry: seq<RegisteredTurma>, id: int, months: seq<MonthKey>)
    requires MetricsOf(turmas, sensos, data, registry)
    requires id in turmas
    requires Distinct(months) && turmas[id].meses.Keys <= set m | m in months
    ensures SumAlong(months, turmas[id].meses) == turmas[id].total
  {
    var ps := AppliedOnly(data);
    AccumulatedValuesAddUp(months, turmas[id].meses, Select(ps, TurmaId, id), MonthOf, SignedBySum);
  }

  /** The class totals as a dictionary. */
  function Totals(turmas: map<int, ClassScore>): map<int, int>
  {
    map id | id in turmas :: turmas[id].total
  }

  /** The senso totals and the class totals add up to the same grand total:
      the radar chart and the bar chart show the same points. */
  lemma SensoTotalsMatchClassTotals(turmas: map<int, ClassScore>, sensos: map<string, int>, data: seq<Pontuacao>,
                                    registry: seq<RegisteredTurma>, sensoKeys: seq<string>, classIds: seq<int>)
    requires MetricsOf(turmas, sensos, data, registry)
    requires Distinct(sensoKeys) && sensos.Keys <= set s | s in sensoKeys
    requires Distinct(classIds) && turmas.Keys <= set id | id in classIds
    ensures SumAlong(sensoKeys, sensos) == SumAlong(classIds, Totals(turmas))
  {
    var ps := AppliedOnly(data);
    AccumulatedValuesAddUp(sensoKeys, sensos, ps, SensoOf, SignedBySum);
    SumAlongMatchesSumKeys(classIds, Totals(turmas), ps, TurmaId, SignedBySum);
    GroupsReconcile(classIds, ps, TurmaId, SignedBySum);
  }

  // ---------------------------------------------------------------------
  // Monthly series

  /** A point of a class's line: a month and its bucket. */
  datatype MonthPoint = MonthPoint(date: MonthKey, pontos: int)

  function Dates(points: seq<MonthPoint>): seq<MonthKey>
  {
    seq(|points|, i requires 0 <= i < |points| => points[i].date)
  }

  /** Lines 124-133: the class's months sorted chronologically, each with
      its bucket. `keys` is `Object.keys(t.meses)`: every month of the
      buckets, each once. */
  function LineSeries(meses: map<MonthKey, int>, keys: seq<MonthKey>): (r: seq<MonthPoint>)
    requires Distinct(keys)
    requires forall m :: m in keys <==> m in meses
    ensures multiset(Dates(r)) == multiset(keys)
    ensures Distinct(Dates(r))
    ensures forall m :: m in meses ==> m in Dates(r)
    ensures Sorting.SortedByKey(Dates(r), MonthIndex)
    ensures forall i :: 0 <= i < |r| ==> r[i].date in meses && r[i].pontos == meses[r[i].date]
  {
    SortedMonths(meses, keys);
    PointsAt(meses, Sorting.SortBy(keys, Chronologically))
  }

  /** Each month of `months` paired with its bucket, in the given order. */
  function PointsAt(meses: map<MonthKey, int>, months: seq<MonthKey>): (r: seq<MonthPoint>)
    requires forall i :: 0 <= i < |months| ==> months[i] in meses
    ensures Dates(r) == months
    ensures forall i :: 0 <= i < |r| ==> r[i].date in meses && r[i].pontos == meses[r[i].date]
  {
    var r := seq(|months|, i requires 0 <= i < |months| => MonthPoint(months[i], meses[months[i]]));
    assert Dates(r) == months;
    r
  }

  /** The chronological sort of `Object.keys` keeps every month, each once,
      and orders them by month. */
  lemma SortedMonths(meses: map<MonthKey, int>, keys: seq<MonthKey>)
    requires Distinct(keys)
    requires forall m :: m in keys <==> m in meses
    ensures var sorted := Sorting.SortBy(keys, Chronologically);
      && multiset(sorted) == multiset(keys)
      && Sorting.SortedByKey(sorted, MonthIndex)
      && Distinct(sorted)
      && (forall m :: m in meses ==> m in sorted)
      && (forall i :: 0 <= i < |sorted| ==> sorted[i] in meses)
  {
    var sorted := Sorting.SortBy(keys, Chronologically);
    ChronologicallyOrdersByMonth();
    Sorting.SortByKeySorts(keys, Chronologically, MonthIndex);
    DistinctPermutation(keys, sorted);
    forall m | m in meses
      ensures m in sorted
    {
      assert m in multiset(keys);
    }
    forall i | 0 <= i < |sorted|
      ensures sorted[i] in meses
    {
      assert sorted[i] in multiset(keys);
    }
  }

  // ---------------------------------------------------------------------
  // Summary

  /** Sorts by the key, descending, and takes the first entry. */
  method FirstByDescending(a: array<SensoTotal>, key: SensoTotal -> int) returns (first: Option<SensoTotal>)
    modifies a
    ensures multiset(a[..]) == old(multiset(a[..]))
    ensures first.None? <==> a.Length == 0
    ensures first.Some? ==> first.value in old(a[..]) && forall s :: s in old(a[..]) ==> key(s) <= key(first.value)
  {
    Sorting.SortDescending(a, key);
    if a.Length == 0 {
      return None;
    }
    first := Some(a[0]);
    assert a[0] in multiset(old(a[..]));
    forall s | s in old(a[..])
      ensures key(s) <= key(a[0])
    {
      assert s in multiset(a[..]);
      var i :| 0 <= i < a.Length && a[i] == s;
      assert key(a[..][i]) <= key(a[..][0]);
    }
  }

  /** Lines 138-139: sort the senso entries by total descending and take
      the first, then ascending and take the first. With no senso the first
      entry is `undefined` and reading its `.senso` throws while rendering;
      `None` stands for that. */
  method MostAndLeastScored(sensoArray: array<SensoTotal>) returns (most: Option<SensoTotal>, least: Option<SensoTotal>)
    modifies sensoArray
    ensures multiset(sensoArray[..]) == old(multiset(sensoArray[..]))
    ensures most.None? <==> sensoArray.Length == 0
    ensures least.None? <==> sensoArray.Length == 0
    ensures most.Some? ==> most.value in sensoArray[..] && forall s :: s in sensoArray[..] ==> s.total <= most.value.total
    ensures least.Some? ==> least.value in sensoArray[..] && forall s :: s in sensoArray[..] ==> least.value.total <= s.total
  {
    ghost var before := sensoArray[..];
    most := FirstByDescending(sensoArray, Total);
    ghost var middle := sensoArray[..];
    least := FirstByDescending(sensoArray, NegTotal);
    forall s | s in sensoArray[..]
      ensures s in before && s in middle
    {
      assert s in multiset(sensoArray[..]);
    }
    forall s | s in before
      ensures s in sensoArray[..]
    {
      assert s in multiset(before);
    }
    forall s | s in middle
      ensures s in sensoArray[..]
    {
      assert s in multiset(middle);
    }
  }

  /** Lines 105-108: `Object.entries(sensoPontuacao)` as `{ senso, total }`
      records, one per senso of the totals. `order` is the order the
      entries come in: the order the sensos were first added. */
  function SensoEntries(sensos: map<string, int>, order: seq<string>): (r: seq<SensoTotal>)
    requires Distinct(order)
    requires forall s :: s in order <==> s in sensos
    ensures |r| == |order|
    ensures forall e :: e in r ==> e.senso in sensos && e.total == sensos[e.senso]
    ensures forall s :: s in sensos ==> SensoTotal(s, sensos[s]) in r
    ensures forall i, j :: 0 <= i < j < |r| ==> r[i].senso != r[j].senso
  {
    var r := seq(|order|, i requires 0 <= i < |order| => SensoTotal(order[i], sensos[order[i]]));
    assert forall s :: s in sensos ==> exists i :: 0 <= i < |order| && order[i] == s && r[i] == SensoTotal(s, sensos[s]);
    r
  }

  /** The summary cards of the page: the entries of the computed senso
      totals, sorted as on lines 138-139. The most scored senso has the
      largest total of all sensos and the least scored the smallest; with
      no senso there is neither. */
  method SensoSummary(sensos: map<string, int>, order: seq<string>) returns (most: Option<SensoTotal>, least: Option<SensoTotal>)
    requires Distinct(order)
    requires forall s :: s in order <==> s in sensos
    ensures most.None? <==> sensos.Keys == {}
    ensures least.None? <==> sensos.Keys == {}
    ensures most.Some? ==> most.value.senso in sensos && most.value.total == sensos[most.value.senso]
    ensures most.Some? ==> forall s :: s in sensos ==> sensos[s] <= most.value.total
    ensures least.Some? ==> least.value.senso in sensos && least.value.total == sensos[least.value.senso]
    ensures least.Some? ==> forall s :: s in sensos ==> least.value.total <= sensos[s]
  {
    var entries := SensoEntries(sensos, order);
    var sensoArray := new SensoTotal[|entries|](i requires 0 <= i < |entries| => entries[i]);
    assert sensoArray[..] == entries;
    most, least := MostAndLeastScored(sensoArray);
    if order != [] {
      assert order[0] in sensos;
    }
    forall s | s in sensos
      ensures SensoTotal(s, sensos[s]) in sensoArray[..]
    {
      assert SensoTotal(s, sensos[s]) in multiset(entries);
    }
    forall e | e in sensoArray[..]
      ensures e in entries
    {
      assert e in multiset(sensoArray[..]);
    }
  }

  // ---------------------------------------------------------------------
  // Transaction table

  /** `p.nomeTurma.toLowerCase().includes(searchTerm.toLowerCase())`. */
  function SearchRows(ps: seq<Pontuacao>, term: string): (r: seq<Pontuacao>)
    ensures forall p :: p in r <==> p in ps && Text.MatchesSearch(p.nomeTurma, term)
    ensures forall p :: multiset(r)[p] == if Text.MatchesSearch(p.nomeTurma, term) then multiset(ps)[p] else 0
  {
    Text.SearchFilterCounts(ps, NomeTurma, term);
    Text.SearchFilter(ps, NomeTurma, term)
  }

  /** The table gets neither a search handler nor a page handler, so the
      search term stays "" and the page stays 1: the table always shows the
      first five applied transactions. */
  function VisibleRows(ps: seq<Pontuacao>): (r: seq<Pontuacao>)
    ensures r == ps[..Paging.Min(ItemsPerPage, |ps|)]
  {
    Text.EmptySearchKeepsAll(ps, NomeTurma);
    Paging.PageSlice(SearchRows(ps, ""), 1, ItemsPerPage)
  }

  const Headers: seq<string> :=
    ["Turma", "Bimestre", "Senso", "Regra", "Operacao", "Pontos", "Registrado Em", "Criado Por", "Detalhes"]

  /** The row object of lines 203-213, as written: the date and the author
      are stored under `data` and `criadoPor`, not under the keys the
      headers read. */
  function ReportRow(p: Pontuacao): (r: map<string, CellValue>)
    ensures "data" in r && r["data"] == DateCell(p.createdMonth)
    ensures "criadoPor" in r && r["criadoPor"] == TextCell(p.criadoPor)
    ensures "registrado_em" !in r && "criado_por" !in r
  {
    map["turma" := TextCell(p.nomeTurma), "bimestre" := NumberCell(p.bimestre), "regra" := TextCell(p.regra),
        "senso" := TextCell(p.senso), "operacao" := TextCell(OperationLabel(p.operacao)), "pontos" := NumberCell(p.pontos),
        "data" := DateCell(p.createdMonth), "criadoPor" := TextCell(p.criadoPor), "detalhes" := LinkCell(p.idTurma)]
  }

  /** As written, the "Registrado Em" and "Criado Por" columns read the keys
      `registrado_em` and `criado_por`, which the rows do not carry (they
      carry `data` and `criadoPor`): both columns are blank on every row. */
  lemma DateAndAuthorColumnsBlank(p: Pontuacao)
    ensures Table.Cell(ReportRow(p), "Registrado Em").None?
    ensures Table.Cell(ReportRow(p), "Criado Por").None?
  {
    HeaderKeys();
  }

  /** The row keyed the way the headers read it: a field for every column. */
  function ReportRowCorrected(p: Pontuacao): (r: map<string, CellValue>)
    ensures forall h :: h in Headers ==> Table.CellKey(h) in r
  {
    HeaderKeys();
    map["turma" := TextCell(p.nomeTurma), "bimestre" := NumberCell(p.bimestre), "regra" := TextCell(p.regra),
        "senso" := TextCell(p.senso), "operacao" := TextCell(OperationLabel(p.operacao)), "pontos" := NumberCell(p.pontos),
        "registrado_em" := DateCell(p.createdMonth), "criado_por" := TextCell(p.criadoPor),
        "detalhes" := LinkCell(p.idTurma)]
  }

  /** With the corrected keys every column of every row shows a value, and
      the date and author columns show the transaction's own. */
  lemma EveryColumnFilled(p: Pontuacao)
    ensures forall h :: h in Headers ==> Table.Cell(ReportRowCorrected(p), h).Some?
    ensures Table.Cell(ReportRowCorrected(p), "Registrado Em") == Some(DateCell(p.createdMonth))
    ensures Table.Cell(ReportRowCorrected(p), "Criado Por") == Some(TextCell(p.criadoPor))
  {
    HeaderKeys();
  }

  /** The field each column reads. */
  lemma HeaderKeys()
    ensures Table.CellKey("Turma") == "turma"
    ensures Table.CellKey("Bimestre") == "bimestre"
    ensures Table.CellKey("Senso") == "senso"
    ensures Table.CellKey("Regra") == "regra"
    ensures Table.CellKey("Operacao") == "operacao"
    ensures Table.CellKey("Pontos") == "pontos"
    ensures Table.CellKey("Registrado Em") == "registrado_em"
    ensures Table.CellKey("Criado Por") == "criado_por"
    ensures Table.CellKey("Detalhes") == "detalhes"
  {
    Table.ClassColumnKeys();
    Table.RuleColumnKeys();
    Table.PointsColumnKeys();
    Table.RecordColumnKeys();
  }
}
