/** The validation page: four tabs of point transactions (pending, applied,
    annulled, all), the actions each tab offers on a row, the search box
    and pager of its table, and the requests its buttons send. */
module ValidatePage {
  import opened Base
  import opened Domain
  import Text
  import Paging
  import Table

  const ItemsPerPage := 10

  /** The tab labels, in the order the tab bar shows them. */
  const Tabs: seq<string> := ["Pendentes", "Aplicados", "Anulados", "Todos os Pontos"]

  /** `tabs.find((tab) => tab.label === activeTab)?.endpoint`. */
  function Endpoint(tab: string): (r: Option<string>)
    ensures r.Some? <==> tab in Tabs
  {
    if tab == "Pendentes" then Some("pontuacao/pontosDoAnoCorrenteParaValidar")
    else if tab == "Aplicados" then Some("pontuacao/pontosDoAnoCorrenteAplicados")
    else if tab == "Anulados" then Some("pontuacao/pontosDoAnoCorrenteAnulados")
    else if tab == "Todos os Pontos" then Some("pontuacao/pontosDoAnoCorrente")
    else None
  }

  // ---------------------------------------------------------------------
  // Actions per tab

  datatype Action = Deletar | Aplicar | Anular

  /** `getActions(tab)`: the row buttons a tab offers, which are the
      lifecycle moves the interface allows. A pending transaction can be
      deleted, applied or annulled; an applied one only annulled; an
      annulled one only applied; the "all" tab offers nothing. */
  function GetActions(tab: string): (r: seq<Action>)
    ensures Deletar in r <==> tab == "Pendentes"
    ensures Aplicar in r <==> tab == "Pendentes" || tab == "Anulados"
    ensures Anular in r <==> tab == "Pendentes" || tab == "Aplicados"
    ensures forall i, j :: 0 <= i < j < |r| ==> r[i] != r[j]
  {
    match tab
    case "Pendentes" => [Deletar, Aplicar, Anular]
    case "Aplicados" => [Anular]
    case "Anulados" => [Aplicar]
    case _ => []
  }

  /** Every tab but "Todos os Pontos" offers at least one action, and no
      action puts a transaction back into the state it came from. */
  lemma ActionsMoveOut(tab: string)
    ensures tab in Tabs && tab != "Todos os Pontos" <==> |GetActions(tab)| > 0
    ensures tab == "Aplicados" ==> Aplicar !in GetActions(tab)
    ensures tab == "Anulados" ==> Anular !in GetActions(tab)
  {
  }

  // ---------------------------------------------------------------------
  // Rows

  const Headers: seq<string> :=
    ["Nome da Turma", "Bimestre", "Regra", "Motivacao", "Operacao", "Pontos", "Status", "Registrado Em", "Registrado Por"]

  /** The row object built for a transaction: a field for every column,
      and the two hidden fields the row buttons send back. */
  function Row(p: Pontuacao): (r: map<string, CellValue>)
    ensures forall h :: h in Headers ==> Table.CellKey(h) in r
    ensures "id_turma" in r && "contador" in r
  {
    HeaderKeys();
    map["nome_da_turma" := TextCell(p.turma.nome), "bimestre" := BimestreCell(p.bimestre),
        "contador" := NumberCell(p.contador), "id_turma" := NumberCell(p.turma.id),
        "regra" := TextCell(p.regra), "motivacao" := TextCell(p.descricao),
        "operacao" := TextCell(OperationLabel(p.operacao)), "pontos" := NumberCell(p.pontos),
        "status" := TextCell(StatusLabel(p.aplicado, p.anulado)),
        "registrado_em" := TimestampCell(p.createdMonth), "registrado_por" := TextCell(p.criadoPor)]
  }

  /** Every column finds its field in the row: the class name, the
      bimester, operation and status labels, and the author. */
  lemma EveryHeaderHasCell(p: Pontuacao)
    ensures forall h :: h in Headers ==> Table.Cell(Row(p), h).Some?
    ensures Table.Cell(Row(p), "Nome da Turma") == Some(TextCell(p.turma.nome))
    ensures Table.Cell(Row(p), "Bimestre") == Some(BimestreCell(p.bimestre))
    ensures Table.Cell(Row(p), "Status") == Some(TextCell(StatusLabel(p.aplicado, p.anulado)))
    ensures Table.Cell(Row(p), "Registrado Por") == Some(TextCell(p.criadoPor))
  {
    HeaderKeys();
  }

  /** The field each column reads. */
  lemma HeaderKeys()
    ensures Table.CellKey("Nome da Turma") == "nome_da_turma"
    ensures Table.CellKey("Bimestre") == "bimestre"
    ensures Table.CellKey("Regra") == "regra"
    ensures Table.CellKey("Motivacao") == "motivacao"
    ensures Table.CellKey("Operacao") == "operacao"
    ensures Table.CellKey("Pontos") == "pontos"
    ensures Table.CellKey("Status") == "status"
    ensures Table.CellKey("Registrado Em") == "registrado_em"
    ensures Table.CellKey("Registrado Por") == "registrado_por"
  {
    Table.NomeDaTurmaKey();
    Table.RuleColumnKeys();
    Table.PointsColumnKeys();
    Table.RecordColumnKeys();
  }

  /** `.map((p) => ({ ... }))`: one row per transaction, in order. */
  function RowsOf(ps: seq<Pontuacao>): (r: seq<map<string, CellValue>>)
    ensures |r| == |ps|
    ensures forall i :: 0 <= i < |ps| ==> r[i] == Row(ps[i])
  {
    seq(|ps|, i requires 0 <= i < |ps| => Row(ps[i]))
  }

  /** A row button sends `{ id_turma, contador }` of the row it sits on:
      the transaction's `turma.id` and `contador`. */
  datatype PointKey = PointKey(idTurma: int, contador: int)

  function KeyOfRow(p: Pontuacao): (r: PointKey)
    ensures Row(p)["id_turma"] == NumberCell(r.idTurma) && Row(p)["contador"] == NumberCell(r.contador)
  {
    PointKey(p.turma.id, p.contador)
  }

  /** The apply-all payload: `{ contador, id_turma: idTurma }` per loaded
      transaction. */
  function ApplyAllPayload(points: seq<Pontuacao>): (r: seq<PointKey>)
    ensures |r| == |points|
    ensures forall i :: 0 <= i < |r| ==> r[i].contador == points[i].contador && r[i].idTurma == points[i].idTurma
  {
    seq(|points|, i requires 0 <= i < |points| => PointKey(points[i].idTurma, points[i].contador))
  }

  /** A POST: its endpoint and its body, one key or a list of keys. */
  datatype Body = One(key: PointKey) | Many(keys: seq<PointKey>)
  datatype Request = Request(endpoint: string, body: Body)

  // ---------------------------------------------------------------------
  // The page

  class ValidationPage {
    var activeTab: string
    var messages: Messages
    var pointsData: seq<Pontuacao>
    var currentPage: int
    var searchTerm: string
    var deleteModalOpen: bool
    var deletingPoint: Option<PointKey>

    /** The page number never drops below 1, and the delete dialog is open
        only with a transaction chosen. */
    ghost predicate Valid()
      reads this
    {
      && currentPage >= 1
      && (deleteModalOpen ==> deletingPoint.Some?)
      && activeTab in Tabs
    }

    constructor()
      ensures Valid()
      ensures activeTab == "Pendentes" && messages == NoMessages && pointsData == []
      ensures currentPage == 1 && searchTerm == "" && !deleteModalOpen && deletingPoint == None
    {
      activeTab := "Pendentes";
      messages := NoMessages;
      pointsData := [];
      currentPage := 1;
      searchTerm := "";
      deleteModalOpen := false;
      deletingPoint := None;
    }

    /** `filteredPoints`: the loaded transactions whose class name contains
        the search term, ignoring case, in load order. */
    function FilteredPoints(): (r: seq<Pontuacao>)
      reads this
      ensures forall p :: p in r <==> p in pointsData && Text.MatchesSearch(p.turma.nome, searchTerm)
      ensures forall p :: multiset(r)[p] == if Text.MatchesSearch(p.turma.nome, searchTerm) then multiset(pointsData)[p] else 0
    {
      Text.SearchFilterCounts(pointsData, TurmaNome, searchTerm);
      Text.SearchFilter(pointsData, TurmaNome, searchTerm)
    }

    /** The page count handed to the table: never less than 1. */
    function TotalPages(): (r: nat)
      reads this
      ensures r >= 1
      ensures r * ItemsPerPage >= |FilteredPoints()|
    {
      Paging.ClampedPageCount(|FilteredPoints()|, ItemsPerPage)
    }

    /** The table's rows: the filtered transactions of the current page,
        at most ten, each turned into its row. */
    function Rows(): (r: seq<map<string, CellValue>>)
      reads this
      requires Valid()
      ensures |r| <= ItemsPerPage
      ensures |r| == if (currentPage - 1) * ItemsPerPage >= |FilteredPoints()| then 0
        else Paging.Min(ItemsPerPage, |FilteredPoints()| - (currentPage - 1) * ItemsPerPage)
      ensures forall i :: 0 <= i < |r| ==>
        (currentPage - 1) * ItemsPerPage + i < |FilteredPoints()|
        && r[i] == Row(FilteredPoints()[(currentPage - 1) * ItemsPerPage + i])
    {
      RowsOf(Paging.PageSlice(FilteredPoints(), currentPage, ItemsPerPage))
    }

    /** The "Aplicar todos" button appears only on the pending tab: the
        one tab whose rows can still be deleted, and whose rows can all be
        applied. */
    function ShowsApplyAll(): (r: bool)
      reads this
      ensures r <==> Deletar in GetActions(activeTab)
      ensures r ==> Aplicar in GetActions(activeTab) && Endpoint(activeTab).Some?
    {
      activeTab == "Pendentes"
    }

    /** `handleTabChange`: a new tab starts on page 1. The tab bar calls it
        only with the label of one of its buttons, so the active tab always
        has an endpoint to fetch from. */
    method TabChange(tab: string)
      requires Valid()
      requires tab in Tabs
      modifies this
      ensures Valid()
      ensures activeTab == tab && currentPage == 1 && Endpoint(activeTab).Some?
      ensures messages == old(messages) && pointsData == old(pointsData) && searchTerm == old(searchTerm)
      ensures deleteModalOpen == old(deleteModalOpen) && deletingPoint == old(deletingPoint)
    {
      activeTab := tab;
      currentPage := 1;
    }

    /** The table's `onSearch`: a new search term starts on page 1. */
    method Search(value: string)
      requires Valid()
      modifies this
      ensures Valid()
      ensures searchTerm == value && currentPage == 1
      ensures activeTab == old(activeTab) && messages == old(messages) && pointsData == old(pointsData)
      ensures deleteModalOpen == old(deleteModalOpen) && deletingPoint == old(deletingPoint)
    {
      currentPage := 1;
      searchTerm := value;
    }

    /** "Anterior" of the pager: the page before, unless on page 1. */
    method PreviousPage()
      requires Valid()
      modifies this
      ensures Valid()
      ensures currentPage == if old(currentPage) == 1 then 1 else old(currentPage) - 1
      ensures activeTab == old(activeTab) && messages == old(messages) && pointsData == old(pointsData)
      ensures searchTerm == old(searchTerm)
      ensures deleteModalOpen == old(deleteModalOpen) && deletingPoint == old(deletingPoint)
    {
      var target := Table.PreviousButton(currentPage);
      if target.Some? {
        currentPage := target.value;
      }
    }

    /** "Próxima" of the pager: the page after, unless on the last page. */
    method NextPage()
      requires Valid()
      modifies this
      ensures Valid()
      ensures currentPage == if old(currentPage) == old(TotalPages()) then old(currentPage) else old(currentPage) + 1
      ensures activeTab == old(activeTab) && messages == old(messages) && pointsData == old(pointsData)
      ensures searchTerm == old(searchTerm)
      ensures deleteModalOpen == old(deleteModalOpen) && deletingPoint == old(deletingPoint)
    {
      var target := Table.NextButton(currentPage, TotalPages());
      if target.Some? {
        currentPage := target.value;
      }
    }

    /** `fetchPoints`: the answer replaces the loaded transactions; a
        failure shows only an error. */
    method Fetched(outcome: PostOutcome<seq<Pontuacao>>)
      requires Valid()
      modifies this
      ensures Valid()
      ensures outcome.Answered? ==> pointsData == outcome.response && messages == old(messages)
      ensures outcome.Threw? ==>
        pointsData == old(pointsData) && messages == ErrorOnly("Erro ao carregar dados: " + outcome.reason)
      ensures activeTab == old(activeTab) && currentPage == old(currentPage) && searchTerm == old(searchTerm)
      ensures deleteModalOpen == old(deleteModalOpen) && deletingPoint == old(deletingPoint)
    {
      match outcome
      case Answered(data) => pointsData := data;
      case Threw(reason) => messages := ErrorOnly("Erro ao carregar dados: " + reason);
    }

    /** `handleDelete`: choose the row and open the confirmation dialog. */
    method HandleDelete(row: Pontuacao)
      requires Valid()
      modifies this
      ensures Valid()
      ensures deletingPoint == Some(KeyOfRow(row)) && deleteModalOpen
      ensures activeTab == old(activeTab) && messages == old(messages) && pointsData == old(pointsData)
      ensures currentPage == old(currentPage) && searchTerm == old(searchTerm)
    {
      deletingPoint := Some(KeyOfRow(row));
      deleteModalOpen := true;
    }

    /** What a POST's outcome does to the banners and the dialog: success
        closes the dialog and forgets the chosen row; failure keeps both. */
    method Settle(outcome: PostOutcome<()>, success: string, failure: string)
      requires Valid()
      modifies this
      ensures Valid()
      ensures outcome.Answered? ==> messages == SuccessOnly(success) && !deleteModalOpen && deletingPoint == None
      ensures outcome.Threw? ==> messages == ErrorOnly(failure + outcome.reason)
      ensures outcome.Threw? ==> deleteModalOpen == old(deleteModalOpen) && deletingPoint == old(deletingPoint)
      ensures activeTab == old(activeTab) && pointsData == old(pointsData)
      ensures currentPage == old(currentPage) && searchTerm == old(searchTerm)
    {
      match outcome
      case Answered(_) =>
        messages := SuccessOnly(success);
        deleteModalOpen := false;
        deletingPoint := None;
      case Threw(reason) =>
        messages := ErrorOnly(failure + reason);
    }

    /** `deletePoints`, the dialog's "Confirmar": without a token only an
        error and no request; otherwise one request for the chosen row. */
    method DeletePoints(hasToken: bool, outcome: PostOutcome<()>) returns (sent: Option<Request>)
      requires Valid() && deleteModalOpen
      modifies this
      ensures Valid()
      ensures !hasToken ==> sent == None && messages == ErrorOnly(MissingTokenText)
      ensures hasToken ==> sent == Some(Request("pontuacao/deletarPontuacao", One(old(deletingPoint).value)))
      ensures hasToken && outcome.Answered? ==>
        messages == SuccessOnly("Pontuação deletada com sucesso") && !deleteModalOpen && deletingPoint == None
      ensures hasToken && outcome.Threw? ==> messages == ErrorOnly("Erro ao deletar pontuacao: " + outcome.reason)
      ensures !(hasToken && outcome.Answered?) ==> deleteModalOpen == old(deleteModalOpen) && deletingPoint == old(deletingPoint)
      ensures activeTab == old(activeTab) && pointsData == old(pointsData)
      ensures currentPage == old(currentPage) && searchTerm == old(searchTerm)
    {
      if !hasToken {
        messages := ErrorOnly(MissingTokenText);
        return None;
      }
      sent := Some(Request("pontuacao/deletarPontuacao", One(deletingPoint.value)));
      Settle(outcome, "Pontuação deletada com sucesso", "Erro ao deletar pontuacao: ");
    }

    /** `handleApplyAll`: one key per loaded transaction, in load order. */
    method ApplyAll(hasToken: bool, outcome: PostOutcome<()>) returns (sent: Option<Request>)
      requires Valid()
      modifies this
      ensures Valid()
      ensures !hasToken ==> sent == None && messages == ErrorOnly(MissingTokenText)
      ensures hasToken ==> sent == Some(Request("manager/aprovarTodas", Many(ApplyAllPayload(old(pointsData)))))
      ensures hasToken && outcome.Answered? ==> messages == SuccessOnly("Pontuações aplicadas com sucesso")
      ensures hasToken && outcome.Threw? ==> messages == ErrorOnly("Erro ao aplicar pontuacao: " + outcome.reason)
      ensures hasToken && outcome.Answered? ==> !deleteModalOpen && deletingPoint == None
      ensures !(hasToken && outcome.Answered?) ==> deleteModalOpen == old(deleteModalOpen) && deletingPoint == old(deletingPoint)
      ensures activeTab == old(activeTab) && pointsData == old(pointsData)
      ensures currentPage == old(currentPage) && searchTerm == old(searchTerm)
    {
      if !hasToken {
        messages := ErrorOnly(MissingTokenText);
        return None;
      }
      sent := Some(Request("manager/aprovarTodas", Many(ApplyAllPayload(pointsData))));
      Settle(outcome, "Pontuações aplicadas com sucesso", "Erro ao aplicar pontuacao: ");
    }

    /** `handleApply` and `handleAnnul` on a row: one request for that row. */
    method ApplyOrAnnul(action: Action, row: Pontuacao, hasToken: bool, outcome: PostOutcome<()>) returns (sent: Option<Request>)
      requires Valid() && action != Deletar
      modifies this
      ensures Valid()
      ensures !hasToken ==> sent == None && messages == ErrorOnly(MissingTokenText)
      ensures hasToken ==> sent == Some(Request(if action == Aplicar then "manager/aprovar" else "manager/cancelar", One(KeyOfRow(row))))
      ensures hasToken && outcome.Answered? ==>
                messages == SuccessOnly(if action == Aplicar then "Pontuação aplicada com sucesso" else "Pontuação anulada com sucesso")
      ensures hasToken && outcome.Threw? ==>
                messages == ErrorOnly((if action == Aplicar then "Erro ao aplicar pontuacao: " else "Erro ao anular pontuacao: ") + outcome.reason)
      ensures hasToken && outcome.Answered? ==> !deleteModalOpen && deletingPoint == None
      ensures !(hasToken && outcome.Answered?) ==> deleteModalOpen == old(deleteModalOpen) && deletingPoint == old(deletingPoint)
      ensures activeTab == old(activeTab) && pointsData == old(pointsData)
      ensures currentPage == old(currentPage) && searchTerm == old(searchTerm)
    {
      if !hasToken {
        messages := ErrorOnly(MissingTokenText);
        return None;
      }
      if action == Aplicar {
        sent := Some(Request("manager/aprovar", One(KeyOfRow(row))));
        Settle(outcome, "Pontuação aplicada com sucesso", "Erro ao aplicar pontuacao: ");
      } else {
        sent := Some(Request("manager/cancelar", One(KeyOfRow(row))));
        Settle(outcome, "Pontuação anulada com sucesso", "Erro ao anular pontuacao: ");
      }
    }
  }

  /** The rows shown on a page are exactly the filtered transactions at
      that page's positions; after a search or a tab change the table
      shows the first ten matches. */
  lemma FirstPageAfterReset(page: ValidationPage)
    requires page.Valid() && page.currentPage == 1
    ensures |page.Rows()| == Paging.Min(ItemsPerPage, |page.FilteredPoints()|)
    ensures forall i :: 0 <= i < |page.Rows()| ==> page.Rows()[i] == Row(page.FilteredPoints()[i])
  {
  }
}
