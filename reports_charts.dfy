/** The general report's charts: one bar per class, the evolution matrix
    (one row per bimester key, one column per class, 0 where a class has
    no value), and one radar point per senso. */
module ReportsCharts {
  import Base
  import opened Folds
  import Sorting

  /** An element of `turmasArray`: a class's name, total and per-bimester
      points. `keys` is `Object.keys(bimestres)`: each key once. */
  datatype ClassSeries = ClassSeries(nome: string, total: int, bimestres: map<string, int>, keys: seq<string>)

  /** `Object.keys` lists every key of the dictionary, each once. */
  ghost predicate KeysListed(t: ClassSeries)
  {
    Distinct(t.keys) && forall k :: k in t.keys <==> k in t.bimestres
  }

  // ---------------------------------------------------------------------
  // Bars and radar

  datatype BarPoint = BarPoint(name: string, pontuacao: int)

  /** Lines 21-24: one bar per class, in input order. */
  function TurmaBars(turmasArray: seq<ClassSeries>): (r: seq<BarPoint>)
    ensures |r| == |turmasArray|
    ensures forall i :: 0 <= i < |r| ==> r[i].name == turmasArray[i].nome && r[i].pontuacao == turmasArray[i].total
  {
    seq(|turmasArray|, i requires 0 <= i < |turmasArray| => BarPoint(turmasArray[i].nome, turmasArray[i].total))
  }

  datatype SensoEntry = SensoEntry(senso: string, total: int)
  datatype RadarPoint = RadarPoint(senso: string, pontuacao: int)

  /** Lines 104-107: one radar point per senso entry, in input order. */
  function RadarSenso(sensoArray: seq<SensoEntry>): (r: seq<RadarPoint>)
    ensures |r| == |sensoArray|
    ensures forall i :: 0 <= i < |r| ==> r[i].senso == sensoArray[i].senso && r[i].pontuacao == sensoArray[i].total
  {
    seq(|sensoArray|, i requires 0 <= i < |sensoArray| => RadarPoint(sensoArray[i].senso, sensoArray[i].total))
  }

  // ---------------------------------------------------------------------
  // Evolution matrix

  /** The bimester keys of the first `n` classes. */
  ghost function KeysUpTo(classes: seq<ClassSeries>, n: nat): set<string>
    requires n <= |classes|
  {
    if n == 0 then {} else KeysUpTo(classes, n - 1) + classes[n - 1].bimestres.Keys
  }

  lemma {:induction false} KeysUpToHolds(classes: seq<ClassSeries>, n: nat, k: string)
    requires n <= |classes|
    ensures k in KeysUpTo(classes, n) <==> exists a :: 0 <= a < n && k in classes[a].bimestres
  {
    if n > 0 {
      KeysUpToHolds(classes, n - 1, k);
    }
  }

  /** Lines 53-58: the union of every class's bimester keys, as a `Set`
      keeps it: each key once, in the order first added. */
  method UniqueBimesters(classes: seq<ClassSeries>) returns (unique: seq<string>)
    requires forall i :: 0 <= i < |classes| ==> KeysListed(classes[i])
    ensures Distinct(unique)
    ensures forall k :: k in unique <==> exists a :: 0 <= a < |classes| && k in classes[a].bimestres
  {
    unique := [];
    var i := 0;
    while i < |classes|
      invariant 0 <= i <= |classes|
      invariant Distinct(unique)
      invariant forall k :: k in unique <==> k in KeysUpTo(classes, i)
    {
      var keys := classes[i].keys;
      var j := 0;
      while j < |keys|
        invariant 0 <= j <= |keys|
        invariant Distinct(unique)
        invariant forall k :: k in unique <==> k in KeysUpTo(classes, i) || k in keys[..j]
      {
        assert keys[..j + 1] == keys[..j] + [keys[j]];
        if keys[j] !in unique {
          unique := unique + [keys[j]];
        }
        j := j + 1;
      }
      assert keys[..j] == keys;
      i := i + 1;
    }
    forall k
      ensures k in unique <==> exists a :: 0 <= a < |classes| && k in classes[a].bimestres
    {
      KeysUpToHolds(classes, |classes|, k);
    }
  }

  /** `turma.bimestres[bimestre] || 0`. */
  function ValueAt(t: ClassSeries, k: string): int
  {
    if k in t.bimestres && t.bimestres[k] != 0 then t.bimestres[k] else 0
  }

  /** The entry of key `k` after the classes `classes` have written their
      values: every class name, the later class winning on a repeated name. */
  function Column(classes: seq<ClassSeries>, k: string): map<string, int>
  {
    if classes == [] then map[]
    else Column(classes[..|classes| - 1], k)[classes[|classes| - 1].nome := ValueAt(classes[|classes| - 1], k)]
  }

  /** Every class has a value in every row: its own, or 0 if it has none
      for that key; a class whose name no later class repeats shows its
      own value. */
  lemma {:induction false} ColumnIsDense(classes: seq<ClassSeries>, k: string)
    ensures forall n :: n in Column(classes, k) <==> exists i :: 0 <= i < |classes| && classes[i].nome == n
    ensures forall i :: 0 <= i < |classes| && (forall j :: i < j < |classes| ==> classes[j].nome != classes[i].nome) ==>
      Column(classes, k)[classes[i].nome] == (if k in classes[i].bimestres then classes[i].bimestres[k] else 0)
  {
    if classes != [] {
      var init := classes[..|classes| - 1];
      ColumnIsDense(init, k);
      assert forall i :: 0 <= i < |init| ==> classes[i] == init[i];
    }
  }

  /** A row of the evolution chart: `{ name: key, [turma.nome]: value }`. */
  datatype EvolutionRow = EvolutionRow(name: string, values: map<string, int>)

  function RowName(r: EvolutionRow): string { r.name }

  /** Lines 68-74 for one key: the `turmasArray.forEach` filling its entry. */
  method FillEntry(classes: seq<ClassSeries>, k: string) returns (row: EvolutionRow)
    ensures row.name == k && row.values == Column(classes, k)
  {
    var entry := map[];
    var j := 0;
    while j < |classes|
      invariant 0 <= j <= |classes|
      invariant entry == Column(classes[..j], k)
    {
      assert classes[..j + 1][..j] == classes[..j];
      entry := entry[classes[j].nome := ValueAt(classes[j], k)];
      j := j + 1;
    }
    assert classes[..j] == classes;
    row := EvolutionRow(k, entry);
  }

  /** Lines 67-74: the entries, one per key, in the keys' order. */
  method BuildRows(classes: seq<ClassSeries>, keys: seq<string>) returns (rows: seq<EvolutionRow>)
    ensures Sorting.Project(rows, RowName) == keys
    ensures forall i :: 0 <= i < |rows| ==> rows[i].values == Column(classes, rows[i].name)
  {
    rows := [];
    var i := 0;
    while i < |keys|
      invariant 0 <= i <= |keys|
      invariant Sorting.Project(rows, RowName) == keys[..i]
      invariant forall r :: 0 <= r < |rows| ==> rows[r].values == Column(classes, rows[r].name)
    {
      var row := FillEntry(classes, keys[i]);
      Sorting.ProjectAppend(rows, row, RowName);
      assert keys[..i + 1] == keys[..i] + [keys[i]];
      rows := rows + [row];
      i := i + 1;
    }
    assert keys[..i] == keys;
  }

  /** Lines 53-74: one row per distinct bimester key of any class, each key
      once, every row dense over the classes. `order` stands for the
      comparator of lines 61-65, whose order is not modelled: the rows
      come in some order of the keys. */
  method EvolutionData(classes: seq<ClassSeries>, order: (string, string) -> Base.JsNum) returns (rows: seq<EvolutionRow>)
    requires forall i :: 0 <= i < |classes| ==> KeysListed(classes[i])
    ensures Distinct(Sorting.Project(rows, RowName))
    ensures forall k :: k in Sorting.Project(rows, RowName) <==> exists a :: 0 <= a < |classes| && k in classes[a].bimestres
    ensures forall i :: 0 <= i < |rows| ==> rows[i].values == Column(classes, rows[i].name)
  {
    var unique := UniqueBimesters(classes);
    var ordered := Sorting.SortBy(unique, order);
    DistinctPermutation(unique, ordered);
    assert forall k :: k in ordered <==> k in multiset(unique);
    assert forall k :: k in ordered <==> k in unique;
    rows := BuildRows(classes, ordered);
  }
}
