/** The point transaction ("pontuação") as the API delivers it, and the
    three sign rules the aggregation variants apply to it. */
module Domain {
  import opened Base
  import opened Folds
  import Sorting

  /** The `"M/YYYY"` bucket of a transaction's `createdAt`: month 1 to 12
      and year, as `new Date(createdAt)` reports them in local time. */
  datatype MonthKey = MonthKey(month: int, year: int)

  /** Months counted from year 0: `new Date(year, month - 1)` orders months
      as this index does. */
  function MonthIndex(m: MonthKey): int { m.year * 12 + (m.month - 1) }

  /** `new Date(yearA, monthA - 1) - new Date(yearB, monthB - 1)`, in sign. */
  function Chronologically(a: MonthKey, b: MonthKey): (r: JsNum)
    ensures r.Num?
    ensures r.n < 0 <==> MonthIndex(a) < MonthIndex(b)
    ensures r.n == 0 <==> MonthIndex(a) == MonthIndex(b)
  {
    Num(MonthIndex(a) - MonthIndex(b))
  }

  /** The `"M/YYYY"` comparator is a consistent chronological order. */
  lemma ChronologicallyOrdersByMonth()
    ensures Sorting.OrdersByKey(Chronologically, MonthIndex)
  {
  }

  /** The nested `turma` object of a transaction. */
  datatype TurmaRef = TurmaRef(id: int, nome: string)

  /** One point transaction. `senso` is `regra.senso.descricao`, `regra`
      is `regra.descricao`, `descricao` is the motivation typed by the
      evaluator, `criadoPor` is `criadoPor.username`. */
  datatype Pontuacao = Pontuacao(
    contador: int,
    idTurma: int,
    nomeTurma: string,
    turma: TurmaRef,
    bimestre: nat,
    regra: string,
    senso: string,
    descricao: string,
    operacao: string,
    pontos: int,
    aplicado: bool,
    anulado: bool,
    createdMonth: MonthKey,
    criadoPor: string)

  function TurmaId(p: Pontuacao): int { p.idTurma }
  function NomeTurma(p: Pontuacao): string { p.nomeTurma }
  function TurmaNome(p: Pontuacao): string { p.turma.nome }
  function Bimestre(p: Pontuacao): nat { p.bimestre }
  function SensoOf(p: Pontuacao): string { p.senso }
  function MonthOf(p: Pontuacao): MonthKey { p.createdMonth }
  function IsApplied(p: Pontuacao): bool { p.aplicado }

  function NatValue(n: nat): int { n }

  /** `a - b` on array-index keys. */
  function NumericOrder(a: nat, b: nat): JsNum { Num(a - b) }

  /** `Object.keys` / `Object.values` order of an object keyed by bimestre:
      keys that are array indices come out in ascending order, each once. */
  function BimestreKeys(xs: seq<Pontuacao>): (r: seq<nat>)
    ensures Distinct(r)
    ensures (set b | b in r) == KeysOf(xs, Bimestre)
    ensures forall i, j :: 0 <= i < j < |r| ==> r[i] < r[j]
  {
    var seen := FirstSeen(xs, Bimestre);
    SortedIndexKeys(seen);
    Sorting.SortBy(seen, NumericOrder)
  }

  lemma SortedIndexKeys(seen: seq<nat>)
    requires Distinct(seen)
    ensures var r := Sorting.SortBy(seen, NumericOrder);
      && Distinct(r)
      && (forall b :: b in r <==> b in seen)
      && forall i, j :: 0 <= i < j < |r| ==> r[i] < r[j]
  {
    var r := Sorting.SortBy(seen, NumericOrder);
    DistinctPermutation(seen, r);
    SortedKeysAreTheKeys(seen);
    SortedKeysAscend(r, seen);
  }

  lemma SortedKeysAreTheKeys(seen: seq<nat>)
    ensures forall b :: b in Sorting.SortBy(seen, NumericOrder) <==> b in seen
  {
    var r := Sorting.SortBy(seen, NumericOrder);
    forall b ensures b in r <==> b in seen {
      assert b in r <==> b in multiset(r);
    }
  }

  lemma SortedKeysAscend(r: seq<nat>, seen: seq<nat>)
    requires r == Sorting.SortBy(seen, NumericOrder) && Distinct(r)
    ensures forall i, j :: 0 <= i < j < |r| ==> r[i] < r[j]
  {
    NumericOrderOrders();
    Sorting.SortByKeySorts(seen, NumericOrder, NatValue);
    forall i, j | 0 <= i < j < |r| ensures r[i] < r[j] {
      assert NatValue(r[i]) <= NatValue(r[j]);
    }
  }

  lemma NumericOrderOrders()
    ensures Sorting.OrdersByKey(NumericOrder, NatValue)
  {
  }

  /** The unsigned contribution summed by app/components/Charts.js. */
  function RawPoints(p: Pontuacao): int { p.pontos }

  /** `operacao === "SUM" ? pontos : -pontos` (app/reports/page.js). */
  function SignedBySum(p: Pontuacao): (r: int)
    ensures r == p.pontos || r == -p.pontos
    ensures p.operacao == "SUM" ==> r == p.pontos
    ensures p.operacao == "SUB" ==> r == -p.pontos
  {
    if p.operacao == "SUM" then p.pontos else -p.pontos
  }

  /** `operacao === "SUB" ? -pontos : pontos` (app/components/ReportCharts.js). */
  function SignedBySub(p: Pontuacao): (r: int)
    ensures r == p.pontos || r == -p.pontos
    ensures p.operacao == "SUM" ==> r == p.pontos
    ensures p.operacao == "SUB" ==> r == -p.pontos
  {
    if p.operacao == "SUB" then -p.pontos else p.pontos
  }

  /** The five sensos of the 5S method, in the order the radar charts draw them. */
  const Sensos: seq<string> := ["Limpeza", "Saúde", "Utilização", "Ordenação", "Autodisciplina"]

  lemma SensosAreFiveDistinct()
    ensures |Sensos| == 5 && Distinct(Sensos)
  {
  }

  /** The sign rules agree on the two operations the API knows, and split
      on anything else: the reports page counts an unknown operation as a
      subtraction, ReportCharts as an addition, Charts ignores the sign. */
  lemma SignRulesCompared(p: Pontuacao)
    ensures p.operacao == "SUM" ==> SignedBySum(p) == SignedBySub(p) == RawPoints(p)
    ensures p.operacao == "SUB" ==> SignedBySum(p) == SignedBySub(p) == -RawPoints(p)
    ensures p.operacao != "SUM" && p.operacao != "SUB" ==>
      SignedBySum(p) == -RawPoints(p) && SignedBySub(p) == RawPoints(p)
  {
  }

  /** A table cell's value: text, a number, a date as
      `format(createdAt, "dd/MM/yyyy")` or with the time of day as
      `"dd/MM/yyyy HH:mm:ss"` (only month and year are modelled), or the
      link to a class's report. */
  datatype CellValue =
    | TextCell(s: string)
    | NumberCell(n: int)
    | DateCell(month: MonthKey)
    | TimestampCell(month: MonthKey)
    | LinkCell(idTurma: int)

  /** `operacao === "SUM" ? "Adição" : "Subtração"`. */
  function OperationLabel(operacao: string): (r: string)
    ensures r == "Adição" <==> operacao == "SUM"
    ensures r == "Subtração" <==> operacao != "SUM"
  {
    if operacao == "SUM" then "Adição" else "Subtração"
  }

  /** `aplicado ? "Aplicado" : anulado ? "Anulado" : "Pendente"`: an applied
      transaction reads "Aplicado" even when it is also annulled. */
  function StatusLabel(aplicado: bool, anulado: bool): (r: string)
    ensures r == "Aplicado" <==> aplicado
    ensures r == "Anulado" <==> !aplicado && anulado
    ensures r == "Pendente" <==> !aplicado && !anulado
  {
    if aplicado then "Aplicado" else if anulado then "Anulado" else "Pendente"
  }

  /** `bimestre === 4 ? "Extra" : bimestre + 1`: bimesters are stored from
      0, and 4 is the extra bimester. */
  function BimestreCell(b: nat): (r: CellValue)
    ensures r == TextCell("Extra") <==> b == 4
    ensures r.NumberCell? <==> b != 4
    ensures r.NumberCell? ==> 1 <= r.n && r.n - 1 == b
  {
    if b == 4 then TextCell("Extra") else NumberCell(b + 1)
  }

  /** Two different bimesters never share a label. */
  lemma BimestreCellsDiffer(a: nat, b: nat)
    requires a != b
    ensures BimestreCell(a) != BimestreCell(b)
  {
  }
}
