/** The generic table component: header row, body (or a single "Nenhum
    dado" row), cell lookup by a key derived from the header, and the
    previous/next pager. */
module Table {
  import opened Base
  import Text

  /** One character of `header.toLowerCase().replace(/ /g, "_")`. */
  function KeyChar(c: char): char
  {
    if c == ' ' then '_' else Text.LowerChar(c)
  }

  /** `header.toLowerCase().replace(/ /g, "_")`: the row field a column reads. */
  function CellKey(header: string): (r: string)
    ensures |r| == |header|
    ensures forall i :: 0 <= i < |r| ==> r[i] != ' '
  {
    seq(|header|, i requires 0 <= i < |header| => KeyChar(header[i]))
  }

  /** Deriving a key from a key changes nothing. */
  lemma CellKeyIsIdempotent(header: string)
    ensures CellKey(CellKey(header)) == CellKey(header)
  {
  }

  /** The validation page's first column reads the field its rows carry. */
  lemma NomeDaTurmaKey()
    ensures CellKey("Nome da Turma") == "nome_da_turma"
  {
  }

  /** The fields the dashboard's columns read: class and link columns. */
  lemma ClassColumnKeys()
    ensures CellKey("Turma") == "turma"
    ensures CellKey("Senso") == "senso"
    ensures CellKey("Detalhes") == "detalhes"
  {
  }

  /** The fields the dashboard's columns read: rule columns. */
  lemma RuleColumnKeys()
    ensures CellKey("Bimestre") == "bimestre"
    ensures CellKey("Regra") == "regra"
    ensures CellKey("Motivacao") == "motivacao"
  {
  }

  /** The fields the dashboard's columns read: points columns. */
  lemma PointsColumnKeys()
    ensures CellKey("Operacao") == "operacao"
    ensures CellKey("Pontos") == "pontos"
    ensures CellKey("Status") == "status"
  {
  }

  /** The fields the dashboard's columns read: record columns. */
  lemma RecordColumnKeys()
    ensures CellKey("Registrado Em") == "registrado_em"
    ensures CellKey("Registrado Por") == "registrado_por"
    ensures CellKey("Criado Por") == "criado_por"
  {
  }

  /** `row[key]`: a header whose key the row lacks shows `undefined`, an
      empty cell. */
  function Cell<V>(row: map<string, V>, header: string): (r: Option<V>)
    ensures r.Some? <==> CellKey(header) in row
  {
    var k := CellKey(header);
    if k in row then Some(row[k]) else None
  }

  /** The header cells: one per header, then "Ações" when there are actions. */
  function HeaderRow(headers: seq<string>, actionCount: Option<nat>): (r: seq<string>)
    ensures |r| >= |headers| && r[..|headers|] == headers
    ensures |r| > |headers| <==> actionCount.Some? && actionCount.value > 0
    ensures |r| > |headers| ==> r[|headers|..] == ["Ações"]
  {
    headers + (if actionCount.Some? && actionCount.value > 0 then ["Ações"] else [])
  }

  /** `headers.length + (actions && actions.length > 0 ? 1 : 0)`: the
      "Nenhum dado" cell spans the whole header row. */
  function ColSpan(headers: seq<string>, actionCount: Option<nat>): (r: nat)
    ensures r == |HeaderRow(headers, actionCount)|
    ensures r == |headers| + 1 <==> actionCount.Some? && actionCount.value > 0
  {
    |headers| + (if actionCount.Some? && actionCount.value > 0 then 1 else 0)
  }

  /** The last cell of a data row when the table has actions: one button
      per action, each calling `action.onClick(row)` with the row itself. */
  datatype ActionsCell<V> = ActionsCell(buttons: nat, target: map<string, V>)

  datatype BodyRow<V> =
    | NoData(colSpan: nat)
    | DataRow(cells: seq<Option<V>>, actions: Option<ActionsCell<V>>)

  /** The number of cells a body row draws. */
  function Width<V>(row: BodyRow<V>): nat
  {
    match row
    case NoData(_) => 1
    case DataRow(cells, actions) => |cells| + (if actions.Some? then 1 else 0)
  }

  /** The table body: exactly one "Nenhum dado" row for empty data,
      otherwise one row per data item with one cell per header, followed
      by the actions cell when there are actions, so that every data row
      is as wide as the header row. */
  function Body<V>(headers: seq<string>, data: seq<map<string, V>>, actionCount: Option<nat>): (r: seq<BodyRow<V>>)
    ensures |data| == 0 ==> r == [NoData(|HeaderRow(headers, actionCount)|)]
    ensures |data| > 0 ==> |r| == |data|
    ensures forall i :: 0 <= i < |data| ==>
      (r[i].DataRow? && |r[i].cells| == |headers| &&
       forall j :: 0 <= j < |headers| ==> r[i].cells[j] == Cell(data[i], headers[j]))
    ensures forall i :: 0 <= i < |data| ==>
      r[i].DataRow? && Width(r[i]) == |HeaderRow(headers, actionCount)|
    ensures forall i :: 0 <= i < |data| ==>
      r[i].DataRow? && (r[i].actions.Some? <==> actionCount.Some? && actionCount.value > 0)
    ensures forall i :: 0 <= i < |data| ==>
      r[i].DataRow? && (r[i].actions.Some? ==>
        r[i].actions.value.buttons == actionCount.value && r[i].actions.value.target == data[i])
  {
    if |data| == 0 then
      [NoData(ColSpan(headers, actionCount))]
    else
      var withActions := actionCount.Some? && actionCount.value > 0;
      seq(|data|, i requires 0 <= i < |data| =>
        DataRow(seq(|headers|, j requires 0 <= j < |headers| => Cell(data[i], headers[j])),
                if withActions then Some(ActionsCell(actionCount.value, data[i])) else None))
  }

  /** "Anterior": disabled on page 1, otherwise asks for the page before. */
  function PreviousButton(page: int): (r: Option<int>)
    ensures r.None? <==> page == 1
    ensures r.Some? ==> r.value + 1 == page
  {
    if page == 1 then None else Some(page - 1)
  }

  /** "Próxima": disabled on the last page, otherwise asks for the page after. */
  function NextButton(page: int, totalPages: int): (r: Option<int>)
    ensures r.None? <==> page == totalPages
    ensures r.Some? ==> r.value == page + 1
  {
    if page == totalPages then None else Some(page + 1)
  }

  /** Between page 1 and a page count of at least 1, the enabled buttons
      only ask for pages that exist. */
  lemma PagerStaysInRange(page: int, totalPages: int)
    requires 1 <= page <= totalPages
    ensures PreviousButton(page).Some? ==> 1 <= PreviousButton(page).value <= totalPages
    ensures NextButton(page, totalPages).Some? ==> 1 <= NextButton(page, totalPages).value <= totalPages
  {
  }
}
