/** The system-points page: a one-field form that asks the server to launch
    the automatic points of a bimester, and a searchable, paged table of
    the current year's transactions. */
module SystemPointsPage {
  import opened Base
  import opened Domain
  import Text
  import Paging
  import Table
  import Role

  const ItemsPerPage := 10

  const Headers: seq<string> :=
    ["Turma", "Bimestre", "Senso", "Regra", "Operacao", "Pontos", "Status", "Registrado Em", "Criado Por", "Detalhes"]

  /** The row object built for a transaction: a field for every column. */
  function Row(p: Pontuacao): (r: map<string, CellValue>)
    ensures forall h :: h in Headers ==> Table.CellKey(h) in r
  {
    HeaderKeys();
    map["turma" := TextCell(p.nomeTurma), "bimestre" := BimestreCell(p.bimestre),
        "regra" := TextCell(p.regra), "senso" := TextCell(p.senso),
        "operacao" := TextCell(OperationLabel(p.operacao)), "pontos" := NumberCell(p.pontos),
        "status" := TextCell(StatusLabel(p.aplicado, p.anulado)), "data" := DateCell(p.createdMonth),
        "criado_por" := TextCell(p.criadoPor), "registrado_em" := TimestampCell(p.createdMonth),
        "detalhes" := LinkCell(p.idTurma)]
  }

  /** Every column finds its field: the status shows the applied >
      annulled > pending precedence and bimester 4 shows "Extra". */
  lemma EveryHeaderHasCell(p: Pontuacao)
    ensures forall h :: h in Headers ==> Table.Cell(Row(p), h).Some?
    ensures Table.Cell(Row(p), "Status") == Some(TextCell(StatusLabel(p.aplicado, p.anulado)))
    ensures p.bimestre == 4 ==> Table.Cell(Row(p), "Bimestre") == Some(TextCell("Extra"))
    ensures Table.Cell(Row(p), "Registrado Em") == Some(TimestampCell(p.createdMonth))
  {
    HeaderKeys();
  }

  /** The field each column reads. */
  lemma HeaderKeys()
    ensures Table.CellKey("Turma") == "turma"
    ensures Table.CellKey("Bimestre") == "bimestre"
    ensures Table.CellKey("Senso") == "senso"
    ensures Table.CellKey("Regra") == "regra"
    ensures Table.CellKey("Operacao") == "operacao"
    ensures Table.CellKey("Pontos") == "pontos"
    ensures Table.CellKey("Status") == "status"
    ensures Table.CellKey("Registrado Em") == "registrado_em"
    ensures Table.CellKey("Criado Por") == "criado_por"
    ensures Table.CellKey("Detalhes") == "detalhes"
  {
    Table.ClassColumnKeys();
    Table.RuleColumnKeys();
    Table.PointsColumnKeys();
    Table.RecordColumnKeys();
  }

  /** `.map((p) => ({ ... }))`: one row per transaction, in order. */
  function RowsOf(ps: seq<Pontuacao>): (r: seq<map<string, CellValue>>)
    ensures |r| == |ps|
    ensures forall i :: 0 <= i < |ps| ==> r[i] == Row(ps[i])
  {
    seq(|ps|, i requires 0 <= i < |ps| => Row(ps[i]))
  }

  const NoneEligibleText := "Nenhuma turma elegível para pontuações de sistema"
  const LaunchedText := "Pontuação lançada com sucesso"

  /** The banner after the server answered: `response?.length === 0`
      singles out the empty list; any other answer, including one with no
      length, counts as a success. `length` is the answer's length, if it
      has one. */
  function ResultMessage(length: Option<nat>): (r: Messages)
    ensures r.error.None? && r.success.Some?
    ensures r.success.value == NoneEligibleText <==> length == Some(0)
    ensures r.success.value == LaunchedText <==> length != Some(0)
  {
    if length == Some(0) then SuccessOnly(NoneEligibleText) else SuccessOnly(LaunchedText)
  }

  /** The page is shown to a logged-in administrator or evaluator only. */
  function Shown(user: Option<Role.User>): (r: bool)
    ensures r ==> user.Some?
    ensures user.Some? ==>
      (r <==> exists role :: role in user.value.roles && (role in Role.AdminRoles || role in Role.AvalRoles))
  {
    if user.Some? then
      Role.StaffAreAdminsAndEvaluators(user.value);
      Role.IsStaff(user)
    else false
  }

  class SystemPoints {
    var todasPontuacoes: seq<Pontuacao>
    var messages: Messages
    var searchTerm: string
    var currentPage: int
    var formData: map<string, FieldValue>
    var loading: bool
    var error: Option<string>

    ghost predicate Valid()
      reads this
    {
      currentPage >= 1
    }

    constructor()
      ensures Valid()
      ensures todasPontuacoes == [] && messages == NoMessages && searchTerm == "" && currentPage == 1
      ensures formData == map["bimestre" := NumberValue(0)] && loading && error == None
    {
      todasPontuacoes := [];
      messages := NoMessages;
      searchTerm := "";
      currentPage := 1;
      formData := map["bimestre" := NumberValue(0)];
      loading := true;
      error := None;
    }

    /** `filteredData`: the transactions whose `nomeTurma` contains the
        search term, ignoring case. */
    function FilteredData(): (r: seq<Pontuacao>)
      reads this
      ensures forall p :: p in r <==> p in todasPontuacoes && Text.MatchesSearch(p.nomeTurma, searchTerm)
      ensures forall p :: multiset(r)[p] == if Text.MatchesSearch(p.nomeTurma, searchTerm) then multiset(todasPontuacoes)[p] else 0
    {
      Text.SearchFilterCounts(todasPontuacoes, NomeTurma, searchTerm);
      Text.SearchFilter(todasPontuacoes, NomeTurma, searchTerm)
    }

    function TotalPages(): (r: nat)
      reads this
      ensures r >= 1
      ensures r * ItemsPerPage >= |FilteredData()|
    {
      Paging.ClampedPageCount(|FilteredData()|, ItemsPerPage)
    }

    /** The rows of the current page: at most ten, in filtered order. */
    function Rows(): (r: seq<map<string, CellValue>>)
      reads this
      requires Valid()
      ensures |r| <= ItemsPerPage
      ensures |r| == if (currentPage - 1) * ItemsPerPage >= |FilteredData()| then 0
        else Paging.Min(ItemsPerPage, |FilteredData()| - (currentPage - 1) * ItemsPerPage)
      ensures forall i :: 0 <= i < |r| ==>
        (currentPage - 1) * ItemsPerPage + i < |FilteredData()|
        && r[i] == Row(FilteredData()[(currentPage - 1) * ItemsPerPage + i])
    {
      RowsOf(Paging.PageSlice(FilteredData(), currentPage, ItemsPerPage))
    }

    /** `fetchData`: a response that is not `ok` sets the error and its body
        is still read; a failure sets the error to its message. Either way
        loading ends. */
    method Fetched(ok: bool, outcome: PostOutcome<seq<Pontuacao>>)
      requires Valid()
      modifies this
      ensures Valid()
      ensures !loading
      ensures outcome.Answered? ==> todasPontuacoes == outcome.response
      ensures outcome.Answered? ==> error == if ok then old(error) else Some("Erro ao buscar os dados.")
      ensures outcome.Threw? ==> todasPontuacoes == old(todasPontuacoes) && error == Some(outcome.reason)
      ensures messages == old(messages) && searchTerm == old(searchTerm) && currentPage == old(currentPage)
      ensures formData == old(formData)
    {
      if !ok {
        error := Some("Erro ao buscar os dados.");
      }
      match outcome {
        case Answered(data) => todasPontuacoes := data;
        case Threw(reason) => error := Some(reason);
      }
      loading := false;
    }

    /** `handleInputChange`: only the named field changes, to the text. */
    method InputChange(name: string, value: string)
      requires Valid()
      modifies this
      ensures Valid()
      ensures formData == old(formData)[name := TextValue(value)]
      ensures todasPontuacoes == old(todasPontuacoes) && messages == old(messages)
      ensures searchTerm == old(searchTerm) && currentPage == old(currentPage)
      ensures loading == old(loading) && error == old(error)
    {
      formData := formData[name := TextValue(value)];
    }

    /** `handleSubmit`: without a token, only an error and no request.
        Otherwise the request carries the bimester and nothing else; an
        answer picks the banner by its length and resets the form to
        bimester 0; a failure shows the reason and keeps the form. */
    method HandleSubmit(hasToken: bool, outcome: PostOutcome<Option<nat>>) returns (sent: Option<map<string, FieldValue>>)
      requires Valid()
      modifies this
      ensures Valid()
      ensures !hasToken ==> sent == None && messages == ErrorOnly(MissingTokenText) && formData == old(formData)
      ensures hasToken ==> sent.Some? && sent.value.Keys == {"bimestre"}
      ensures hasToken ==> sent == Some(map["bimestre" := Field(old(formData), "bimestre")])
      ensures hasToken && outcome.Answered? ==>
                messages == ResultMessage(outcome.response) && formData == map["bimestre" := NumberValue(0)]
      ensures hasToken && outcome.Threw? ==>
                messages == ErrorOnly("Erro ao enviar pontuação: " + outcome.reason) && formData == old(formData)
      ensures todasPontuacoes == old(todasPontuacoes) && searchTerm == old(searchTerm) && currentPage == old(currentPage)
      ensures loading == old(loading) && error == old(error)
    {
      if !hasToken {
        messages := ErrorOnly(MissingTokenText);
        return None;
      }
      sent := Some(map["bimestre" := Field(formData, "bimestre")]);
      match outcome
      case Answered(length) =>
        messages := ResultMessage(length);
        formData := map["bimestre" := NumberValue(0)];
      case Threw(reason) =>
        messages := ErrorOnly("Erro ao enviar pontuação: " + reason);
    }

    /** The table's `onSearch`: a new term starts on page 1. */
    method Search(value: string)
      requires Valid()
      modifies this
      ensures Valid()
      ensures searchTerm == value && currentPage == 1
      ensures todasPontuacoes == old(todasPontuacoes) && messages == old(messages) && formData == old(formData)
      ensures loading == old(loading) && error == old(error)
    {
      currentPage := 1;
      searchTerm := value;
    }

    /** "Anterior" of the pager. */
    method PreviousPage()
      requires Valid()
      modifies this
      ensures Valid()
      ensures currentPage == if old(currentPage) == 1 then 1 else old(currentPage) - 1
      ensures todasPontuacoes == old(todasPontuacoes) && messages == old(messages) && formData == old(formData)
      ensures searchTerm == old(searchTerm) && loading == old(loading) && error == old(error)
    {
      var target := Table.PreviousButton(currentPage);
      if target.Some? {
        currentPage := target.value;
      }
    }

    /** "Próxima" of the pager. */
    method NextPage()
      requires Valid()
      modifies this
      ensures Valid()
      ensures currentPage == if old(currentPage) == old(TotalPages()) then old(currentPage) else old(currentPage) + 1
      ensures todasPontuacoes == old(todasPontuacoes) && messages == old(messages) && formData == old(formData)
      ensures searchTerm == old(searchTerm) && loading == old(loading) && error == old(error)
    {
      var target := Table.NextButton(currentPage, TotalPages());
      if target.Some? {
        currentPage := target.value;
      }
    }
  }
}
