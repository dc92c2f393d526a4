/** The per-class report charts: points per bimester and senso as bars and
    as lines, and points per senso as a radar. Points are signed by "SUB"
    (a subtraction is negative, any other operation positive). */
module ReportCharts {
  import opened Base
  import opened Folds
  import opened Domain
  import Numerals
  import Sorting

  /** `allSensos` of the bar chart: the five sensos, in the bars' order. */
  const BarSensos: seq<string> := ["Limpeza", "Utilização", "Autodisciplina", "Saúde", "Ordenação"]

  lemma BarSensosAreTheSensos()
    ensures Distinct(BarSensos)
    ensures forall s :: s in BarSensos <==> s in Sensos
  {
  }

  // ---------------------------------------------------------------------
  // Bars

  /** `acc[bimestre]` of the bar chart, senso by senso. */
  type BarRow = map<string, JsNum>

  /** A bimester's bar row after its transactions `ys`: the five sensos
      always present, each with its signed sum; any other senso present
      only if a transaction carries it, and then NaN, because
      `undefined += n` is NaN and stays NaN. */
  ghost predicate BarRowOf(row: BarRow, ys: seq<Pontuacao>)
  {
    RowOver(row, ys, set s | s in BarSensos)
  }

  /** `BarRowOf` for a row zero-filled over the sensos `known`. */
  ghost predicate RowOver(row: BarRow, ys: seq<Pontuacao>, known: set<string>)
  {
    && row.Keys == known + KeysOf(ys, SensoOf)
    && forall s :: s in row ==>
         row[s] == if s in known then Num(KeySum(ys, SensoOf, SignedBySub, s)) else NaN
  }

  /** The bar chart's dictionary after `xs`: a row per bimester that has a
      transaction, each as `BarRowOf` says. */
  ghost predicate BarRowsOf(acc: map<nat, BarRow>, xs: seq<Pontuacao>)
  {
    && acc.Keys == KeysOf(xs, Bimestre)
    && forall b :: b in acc ==> BarRowOf(acc[b], Select(xs, Bimestre, b))
  }

  /** Every senso of the bar chart at 0. */
  function ZeroFilled(): BarRow
  {
    map s | s in BarSensos :: Num(0)
  }

  /** `allSensos.forEach((s) => { acc[bimestre][s] = 0 })`. */
  method ZeroRow() returns (row: BarRow)
    ensures row == ZeroFilled()
  {
    row := map[];
    var i := 0;
    while i < |BarSensos|
      invariant 0 <= i <= |BarSensos|
      invariant row == map s | s in BarSensos[..i] :: Num(0)
    {
      assert BarSensos[..i + 1] == BarSensos[..i] + [BarSensos[i]];
      row := row[BarSensos[i] := Num(0)];
      i := i + 1;
    }
    assert BarSensos[..i] == BarSensos;
  }

  /** A fresh bimester row is the row of no transaction. */
  lemma ZeroFilledIsEmptyRow()
    ensures BarRowOf(ZeroFilled(), [])
  {
    forall s | s in ZeroFilled() ensures ZeroFilled()[s] == Num(KeySum([], SensoOf, SignedBySub, s)) {
    }
  }

  /** `acc[bimestre][senso] += pontosCorrigidos`. */
  function Bump(row: BarRow, s: string, v: int): BarRow
  {
    row[s := (if s in row then row[s] else NaN).Plus(v)]
  }

  /** What one transaction does to the bar chart's dictionary. */
  function BarStep(acc: map<nat, BarRow>, p: Pontuacao): map<nat, BarRow>
  {
    var row := if p.bimestre in acc then acc[p.bimestre] else ZeroFilled();
    acc[p.bimestre := Bump(row, SensoOf(p), SignedBySub(p))]
  }

  lemma BarRowStep(row: BarRow, ys: seq<Pontuacao>, p: Pontuacao)
    requires BarRowOf(row, ys)
    ensures BarRowOf(Bump(row, SensoOf(p), SignedBySub(p)), ys + [p])
  {
    RowOverStep(row, ys, p, set s | s in BarSensos);
  }

  /** One more transaction adds its signed points to its senso's cell,
      which turns or stays NaN when the senso is not a known one. */
  lemma RowOverStep(row: BarRow, ys: seq<Pontuacao>, p: Pontuacao, known: set<string>)
    requires RowOver(row, ys, known)
    ensures RowOver(Bump(row, SensoOf(p), SignedBySub(p)), ys + [p], known)
  {
    KeysOfSnoc(ys, p, SensoOf);
    var row' := Bump(row, SensoOf(p), SignedBySub(p));
    assert row'.Keys == row.Keys + {SensoOf(p)};
    forall s | s in row'
      ensures row'[s] == if s in known then Num(KeySum(ys + [p], SensoOf, SignedBySub, s)) else NaN
    {
      CellStep(row, ys, p, known, s);
    }
  }

  /** One cell of `RowOverStep`. */
  lemma CellStep(row: BarRow, ys: seq<Pontuacao>, p: Pontuacao, known: set<string>, s: string)
    requires RowOver(row, ys, known) && s in Bump(row, SensoOf(p), SignedBySub(p))
    ensures Bump(row, SensoOf(p), SignedBySub(p))[s] ==
      if s in known then Num(KeySum(ys + [p], SensoOf, SignedBySub, s)) else NaN
  {
    KeySumSnoc(ys, p, SensoOf, SignedBySub, s);
    if s != SensoOf(p) {
      assert Bump(row, SensoOf(p), SignedBySub(p))[s] == row[s];
    }
  }

  lemma OwnBarRowStep(acc: map<nat, BarRow>, xs: seq<Pontuacao>, p: Pontuacao)
    requires BarRowsOf(acc, xs)
    ensures BarRowOf(BarStep(acc, p)[p.bimestre], Select(xs + [p], Bimestre, p.bimestre))
  {
    var b := p.bimestre;
    var row := if b in acc then acc[b] else ZeroFilled();
    if b !in acc {
      AbsentKeySumsToZero(xs, Bimestre, SignedBySub, b);
      ZeroFilledIsEmptyRow();
    }
    SelectSnoc(xs, p, Bimestre, b);
    BarRowStep(row, Select(xs, Bimestre, b), p);
  }

  lemma BarRowsStep(acc: map<nat, BarRow>, xs: seq<Pontuacao>, p: Pontuacao)
    requires BarRowsOf(acc, xs)
    ensures BarRowsOf(BarStep(acc, p), xs + [p])
  {
    var acc' := BarStep(acc, p);
    KeysOfSnoc(xs, p, Bimestre);
    assert acc'.Keys == KeysOf(xs + [p], Bimestre);
    forall b | b in acc'
      ensures BarRowOf(acc'[b], Select(xs + [p], Bimestre, b))
    {
      if b == p.bimestre {
        OwnBarRowStep(acc, xs, p);
      } else {
        OtherBarRowKept(acc, xs, p, b);
      }
    }
  }

  lemma OtherBarRowKept(acc: map<nat, BarRow>, xs: seq<Pontuacao>, p: Pontuacao, b: nat)
    requires BarRowsOf(acc, xs) && b in acc && b != p.bimestre
    ensures BarRowOf(BarStep(acc, p)[b], Select(xs + [p], Bimestre, b))
  {
    SelectSnoc(xs, p, Bimestre, b);
  }

  /** The loop of `BarRows` reading transaction `i`. */
  lemma BarRowsAt(acc: map<nat, BarRow>, data: seq<Pontuacao>, i: int)
    requires 0 <= i < |data| && BarRowsOf(acc, data[..i])
    ensures BarRowsOf(BarStep(acc, data[i]), data[..i + 1])
  {
    assert data[..i + 1] == data[..i] + [data[i]];
    BarRowsStep(acc, data[..i], data[i]);
  }

  /** The body of the bar chart's `reduce` for one transaction. */
  method RecordBar(acc: map<nat, BarRow>, p: Pontuacao) returns (acc': map<nat, BarRow>)
    ensures acc' == BarStep(acc, p)
  {
    acc' := acc;
    var pontosCorrigidos := if p.operacao == "SUB" then -p.pontos else p.pontos;
    if p.bimestre !in acc' {
      var zero := ZeroRow();
      acc' := acc'[p.bimestre := zero];
    }
    var row := acc'[p.bimestre];
    acc' := acc'[p.bimestre := Bump(row, p.senso, pontosCorrigidos)];
  }

  /** Lines 40-61: the `data.reduce` of the bar chart. */
  method BarRows(data: seq<Pontuacao>) returns (acc: map<nat, BarRow>)
    ensures BarRowsOf(acc, data)
  {
    acc := map[];
    var i := 0;
    while i < |data|
      invariant 0 <= i <= |data|
      invariant BarRowsOf(acc, data[..i])
    {
      BarRowsAt(acc, data, i);
      acc := RecordBar(acc, data[i]);
      i := i + 1;
    }
    assert data[..i] == data;
  }

  /** An entry of the bar chart's data: `name` is `${bimestre}`. */
  datatype BarEntry = BarEntry(name: string, values: BarRow)

  /** `Object.values(acc)`: the rows in ascending bimester order. */
  method BarChartData(data: seq<Pontuacao>) returns (entries: seq<BarEntry>)
    ensures var keys := BimestreKeys(data);
      && |entries| == |keys|
      && forall i :: 0 <= i < |keys| ==>
           entries[i].name == Numerals.DecimalString(keys[i])
           && BarRowOf(entries[i].values, Select(data, Bimestre, keys[i]))
  {
    var acc := BarRows(data);
    var keys := BimestreKeys(data);
    assert forall i :: 0 <= i < |keys| ==> keys[i] in acc;
    entries := seq(|keys|, i requires 0 <= i < |keys| && keys[i] in acc => BarEntry(Numerals.DecimalString(keys[i]), acc[keys[i]]));
    forall i | 0 <= i < |keys|
      ensures BarRowOf(entries[i].values, Select(data, Bimestre, keys[i]))
    {
      BarRowAt(acc, data, keys[i]);
    }
  }

  /** The row `BarRows` built for bimester `b`. */
  lemma BarRowAt(acc: map<nat, BarRow>, data: seq<Pontuacao>, b: nat)
    requires BarRowsOf(acc, data) && b in acc
    ensures BarRowOf(acc[b], Select(data, Bimestre, b))
  {
  }

  /** When every transaction names one of the five sensos, no bar is NaN
      and each bar is its senso's signed sum in that bimester. */
  lemma KnownSensosGiveNumbers(row: BarRow, ys: seq<Pontuacao>)
    requires BarRowOf(row, ys)
    requires forall y :: y in ys ==> y.senso in BarSensos
    ensures row.Keys == set s | s in BarSensos
    ensures forall s :: s in row ==> row[s] == Num(KeySum(ys, SensoOf, SignedBySub, s))
  {
  }

  /** A transaction whose senso is not one of the five turns its bar NaN. */
  lemma UnknownSensoIsNaN(row: BarRow, ys: seq<Pontuacao>, y: Pontuacao)
    requires BarRowOf(row, ys)
    requires y in ys && y.senso !in BarSensos
    ensures y.senso in row && row[y.senso].NaN?
  {
  }

  // ---------------------------------------------------------------------
  // Lines

  /** An entry of the line chart's data: `date` is `${bimestre}`. */
  datatype LineEntry = LineEntry(date: string, values: map<string, int>)

  /** `parseInt(a.date.split(" ")[1]) - parseInt(b.date.split(" ")[1])`. */
  function ByBimesterWord(a: LineEntry, b: LineEntry): JsNum
  {
    Minus(Numerals.NumberAfterSpace(a.date), Numerals.NumberAfterSpace(b.date))
  }

  /** The labels are bare numbers: `split(" ")[1]` is undefined, the
      comparator is always NaN, and the sort leaves the rows as they are. */
  lemma BimesterSortKeepsOrder(entries: seq<LineEntry>)
    requires forall i :: 0 <= i < |entries| ==> ' ' !in entries[i].date
    ensures Sorting.SortBy(entries, ByBimesterWord) == entries
  {
    forall a, b | a in entries && b in entries
      ensures ByBimesterWord(a, b).NaN?
    {
      var i :| 0 <= i < |entries| && entries[i] == a;
    }
    Sorting.NaNComparatorKeepsOrder(entries, ByBimesterWord);
  }

  /** Lines 85-105: group by bimester and senso, take the rows in
      `Object.values` order (ascending bimester), then sort them by the
      number after the first space of their label; the rows come out in
      ascending bimester order. */
  method LineChartData(data: seq<Pontuacao>) returns (sorted: seq<LineEntry>)
    ensures var keys := BimestreKeys(data);
      && |sorted| == |keys|
      && forall i :: 0 <= i < |keys| ==>
           sorted[i].date == Numerals.DecimalString(keys[i])
           && Accumulates(sorted[i].values, Select(data, Bimestre, keys[i]), SensoOf, SignedBySub)
  {
    var acc := NestedGroupSums(data, Bimestre, SensoOf, SignedBySub);
    var keys := BimestreKeys(data);
    assert forall i :: 0 <= i < |keys| ==> keys[i] in KeysOf(data, Bimestre);
    var entries := LineEntries(acc, keys);
    BimesterSortKeepsOrder(entries);
    sorted := Sorting.SortBy(entries, ByBimesterWord);
  }

  /** `Object.values(acc)` of the line chart, each row labelled `${bimestre}`. */
  function LineEntries(acc: map<nat, map<string, int>>, keys: seq<nat>): (r: seq<LineEntry>)
    requires forall i :: 0 <= i < |keys| ==> keys[i] in acc
    ensures |r| == |keys|
    ensures forall i :: 0 <= i < |keys| ==> r[i].date == Numerals.DecimalString(keys[i]) && r[i].values == acc[keys[i]]
    ensures forall i :: 0 <= i < |r| ==> ' ' !in r[i].date
  {
    Numerals.NoDecimalHasSpace();
    seq(|keys|, i requires 0 <= i < |keys| => LineEntry(Numerals.DecimalString(keys[i]), acc[keys[i]]))
  }

  // ---------------------------------------------------------------------
  // Radar

  /** A point of the radar: `pontosPorSenso[senso]`, undefined for a
      senso with no transaction. */
  datatype RadarPoint = RadarPoint(senso: string, pontos: Option<int>)

  /** Lines 140-151: the signed sum per senso, read for the five sensos in
      the radar's order. */
  method RadarChartData(data: seq<Pontuacao>) returns (points: seq<RadarPoint>)
    ensures |points| == |Sensos|
    ensures forall i :: 0 <= i < |Sensos| ==>
      && points[i].senso == Sensos[i]
      && (points[i].pontos.Some? <==> Sensos[i] in KeysOf(data, SensoOf))
      && (points[i].pontos.Some? ==> points[i].pontos.value == KeySum(data, SensoOf, SignedBySub, Sensos[i]))
  {
    var pontosPorSenso := GroupSums(data, SensoOf, SignedBySub);
    points := seq(|Sensos|, i requires 0 <= i < |Sensos| =>
      RadarPoint(Sensos[i], if Sensos[i] in pontosPorSenso then Some(pontosPorSenso[Sensos[i]]) else None));
  }
}
