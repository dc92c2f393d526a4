/** The class management page: a searchable, paged list of classes, a
    dialog to add or edit one, and the open academic years it offers. */
module GroupsPage {
  import opened Base
  import Text
  import Paging
  import Table

  const ItemsPerPage := 10

  /** An academic year as the API lists it. */
  datatype AnoLetivo = AnoLetivo(id: int, anoLetivo: string, status: string)

  /** A class as the API lists it; `anoLetivo` may be missing. */
  datatype Turma = Turma(id: int, nome: string, descricao: string, anoLetivo: Option<AnoLetivo>)

  /** The year field of the form: the empty choice or a year's id. */
  datatype YearChoice = NoYear | YearId(id: int)

  /** The dialog's form. */
  datatype Form = Form(nome: string, descricao: string, anoLetivoId: YearChoice)

  const EmptyForm := Form("", "", NoYear)

  /** The test `fetchYears` keeps a year by. */
  predicate IsOpen(y: AnoLetivo)
  {
    y.status == "Aberto"
  }

  /** `data.filter((year) => year.status === "Aberto")`: the open years,
      in the order the API listed them. */
  function OpenYears(data: seq<AnoLetivo>): (r: seq<AnoLetivo>)
    ensures |r| <= |data|
    ensures forall y :: y in r ==> y in data && y.status == "Aberto"
    ensures forall y :: y in data && y.status == "Aberto" ==> y in r
  {
    Filter(data, IsOpen)
  }

  /** The open years keep their order and their multiplicity. */
  lemma OpenYearsKeepOrder(a: seq<AnoLetivo>, b: seq<AnoLetivo>)
    ensures OpenYears(a + b) == OpenYears(a) + OpenYears(b)
    ensures |b| == 1 ==> OpenYears(b) == if b[0].status == "Aberto" then b else []
    ensures forall y :: multiset(OpenYears(a))[y] == if y.status == "Aberto" then multiset(a)[y] else 0
  {
    FilterAppend(a, b, IsOpen);
    FilterCounts(a, IsOpen);
    if |b| == 1 {
      assert b == [b[0]];
      FilterOne(b[0], IsOpen);
    }
  }

  /** A class matches the search when its name or its description
      contains the term, ignoring case. */
  predicate Matches(t: Turma, term: string)
  {
    Text.MatchesSearch(t.nome, term) || Text.MatchesSearch(t.descricao, term)
  }

  function MatchesTerm(term: string): Turma -> bool
  {
    t => Matches(t, term)
  }

  /** The filtering effect of lines 66-74: the matching classes, in order. */
  function FilterTurmas(turmas: seq<Turma>, term: string): (r: seq<Turma>)
    ensures |r| <= |turmas|
    ensures forall t :: t in r ==> t in turmas && Matches(t, term)
    ensures forall t :: t in turmas && Matches(t, term) ==> t in r
  {
    Filter(turmas, MatchesTerm(term))
  }

  /** The matching classes keep their order and their multiplicity. */
  lemma FilterTurmasKeepsOrder(a: seq<Turma>, b: seq<Turma>, term: string)
    ensures FilterTurmas(a + b, term) == FilterTurmas(a, term) + FilterTurmas(b, term)
    ensures |b| == 1 ==> FilterTurmas(b, term) == if Matches(b[0], term) then b else []
    ensures forall t :: multiset(FilterTurmas(a, term))[t] == if Matches(t, term) then multiset(a)[t] else 0
  {
    FilterAppend(a, b, MatchesTerm(term));
    FilterCounts(a, MatchesTerm(term));
    if |b| == 1 {
      assert b == [b[0]];
      FilterOne(b[0], MatchesTerm(term));
    }
  }

  /** An empty search keeps every class, in order. */
  lemma EmptySearchKeepsAll(turmas: seq<Turma>)
    ensures FilterTurmas(turmas, "") == turmas
  {
    forall t | t in turmas
      ensures MatchesTerm("")(t)
    {
      Text.MatchesTrivially(t.nome);
    }
    FilterKeepsAll(turmas, MatchesTerm(""));
  }

  /** `handleEdit`'s form: the class's name and description, and
      `anoLetivo?.id || ""` for the year (a missing year, or id 0, leaves
      the empty choice). */
  function EditForm(t: Turma): (r: Form)
    ensures r.nome == t.nome && r.descricao == t.descricao
    ensures r.anoLetivoId.YearId? <==> t.anoLetivo.Some? && t.anoLetivo.value.id != 0
    ensures r.anoLetivoId.YearId? ==> r.anoLetivoId.id == t.anoLetivo.value.id
  {
    Form(t.nome, t.descricao,
         if t.anoLetivo.Some? && t.anoLetivo.value.id != 0 then YearId(t.anoLetivo.value.id) else NoYear)
  }

  /** `turmas.map((t) => (t.id === response.id ? response : t))`. */
  function ReplaceById(turmas: seq<Turma>, response: Turma): (r: seq<Turma>)
    ensures |r| == |turmas|
    ensures forall i :: 0 <= i < |r| ==> r[i] == if turmas[i].id == response.id then response else turmas[i]
  {
    seq(|turmas|, i requires 0 <= i < |turmas| => if turmas[i].id == response.id then response else turmas[i])
  }

  predicate DistinctIds(turmas: seq<Turma>)
  {
    forall i, j :: 0 <= i < j < |turmas| ==> turmas[i].id != turmas[j].id
  }

  /** Saving an edit: when ids are unique and the saved class is listed,
      exactly its element is replaced and the ids stay unique; when it is
      not listed (any more), the list is unchanged and the edit is not
      shown. */
  lemma ReplaceByIdIsUpsert(turmas: seq<Turma>, response: Turma)
    requires DistinctIds(turmas)
    ensures forall i :: 0 <= i < |turmas| && turmas[i].id == response.id ==> ReplaceById(turmas, response) == turmas[i := response]
    ensures (forall t :: t in turmas ==> t.id != response.id) ==> ReplaceById(turmas, response) == turmas
    ensures DistinctIds(ReplaceById(turmas, response))
  {
  }

  /** Saving a new class: appended at the end; ids stay unique when the
      server hands out a fresh one. */
  lemma AppendKeepsIds(turmas: seq<Turma>, response: Turma)
    requires DistinctIds(turmas) && forall t :: t in turmas ==> t.id != response.id
    ensures DistinctIds(turmas + [response])
    ensures (turmas + [response])[..|turmas|] == turmas
  {
  }

  /** The body of the save request. `id` is `editingTurma?.id || null`. */
  datatype SavePayload = SavePayload(id: Option<int>, nome: string, descricao: string, anoLetivoId: YearChoice)

  class GroupManagement {
    var turmas: seq<Turma>
    var filteredTurmas: seq<Turma>
    var search: string
    var page: int
    var modalOpen: bool
    var editingTurma: Option<Turma>
    var formData: Form
    var errorMessage: Option<string>
    var years: seq<AnoLetivo>

    /** What the filtering effect keeps true after every render: the
        filtered list is the filter of the list, and the page is at least 1. */
    ghost predicate Valid()
      reads this
    {
      filteredTurmas == FilterTurmas(turmas, search) && page >= 1
    }

    constructor()
      ensures Valid()
      ensures turmas == [] && search == "" && page == 1 && !modalOpen && editingTurma == None
      ensures formData == EmptyForm && errorMessage == None && years == []
    {
      turmas := [];
      filteredTurmas := [];
      search := "";
      page := 1;
      modalOpen := false;
      editingTurma := None;
      formData := EmptyForm;
      errorMessage := None;
      years := [];
    }

    /** The effect on `[search, turmas]`: filter again and go to page 1. */
    method Refilter()
      modifies this
      ensures Valid() && page == 1
      ensures turmas == old(turmas) && search == old(search) && modalOpen == old(modalOpen)
      ensures editingTurma == old(editingTurma) && formData == old(formData)
      ensures errorMessage == old(errorMessage) && years == old(years)
    {
      filteredTurmas := FilterTurmas(turmas, search);
      page := 1;
    }

    /** The table's `onSearch`, followed by the filtering effect. */
    method SetSearch(value: string)
      requires Valid()
      modifies this
      ensures Valid() && search == value && page == 1
      ensures forall t :: t in filteredTurmas <==> t in turmas && Matches(t, value)
      ensures turmas == old(turmas) && modalOpen == old(modalOpen) && editingTurma == old(editingTurma)
      ensures formData == old(formData) && errorMessage == old(errorMessage) && years == old(years)
    {
      search := value;
      Refilter();
    }

    /** The fetched classes, or the error of the fetch. */
    method TurmasFetched(outcome: PostOutcome<seq<Turma>>)
      requires Valid()
      modifies this
      ensures Valid()
      ensures outcome.Answered? ==> turmas == outcome.response && page == 1 && errorMessage == old(errorMessage)
      ensures outcome.Threw? ==> turmas == old(turmas) && page == old(page)
      ensures outcome.Threw? ==> errorMessage == Some("Erro ao buscar turmas: " + outcome.reason)
      ensures search == old(search) && modalOpen == old(modalOpen) && editingTurma == old(editingTurma)
      ensures formData == old(formData) && years == old(years)
    {
      match outcome {
        case Answered(data) =>
          turmas := data;
          Refilter();
        case Threw(reason) =>
          errorMessage := Some("Erro ao buscar turmas: " + reason);
      }
    }

    /** The fetched academic years: only the open ones are offered. */
    method YearsFetched(outcome: PostOutcome<seq<AnoLetivo>>)
      requires Valid()
      modifies this
      ensures Valid()
      ensures outcome.Answered? ==> years == OpenYears(outcome.response) && errorMessage == old(errorMessage)
      ensures outcome.Threw? ==> years == old(years) && errorMessage == Some("Erro ao buscar anos letivos: " + outcome.reason)
      ensures turmas == old(turmas) && search == old(search) && page == old(page) && modalOpen == old(modalOpen)
      ensures editingTurma == old(editingTurma) && formData == old(formData)
    {
      match outcome {
        case Answered(data) => years := OpenYears(data);
        case Threw(reason) => errorMessage := Some("Erro ao buscar anos letivos: " + reason);
      }
    }

    /** "Adicionar Turma": an empty form for a new class. */
    method AddClicked()
      requires Valid()
      modifies this
      ensures Valid()
      ensures editingTurma == None && formData == EmptyForm && modalOpen
      ensures turmas == old(turmas) && search == old(search) && page == old(page)
      ensures errorMessage == old(errorMessage) && years == old(years)
    {
      editingTurma := None;
      formData := EmptyForm;
      modalOpen := true;
    }

    /** `handleEdit`: the form filled from the class, the dialog open. */
    method HandleEdit(t: Turma)
      requires Valid()
      modifies this
      ensures Valid()
      ensures editingTurma == Some(t) && formData == EditForm(t) && modalOpen
      ensures turmas == old(turmas) && search == old(search) && page == old(page)
      ensures errorMessage == old(errorMessage) && years == old(years)
    {
      editingTurma := Some(t);
      formData := EditForm(t);
      modalOpen := true;
    }

    /** `handleSave`: the request carries the edited class's id (or null)
        and the form; the answer replaces the edited class, or is appended
        for a new one, and the list is filtered again from page 1; a
        failure only shows its reason. */
    method HandleSave(outcome: PostOutcome<Turma>) returns (sent: SavePayload)
      requires Valid()
      modifies this
      ensures Valid()
      ensures sent.nome == old(formData).nome && sent.descricao == old(formData).descricao
      ensures sent.anoLetivoId == old(formData).anoLetivoId
      ensures sent.id.Some? <==> old(editingTurma).Some? && old(editingTurma).value.id != 0
      ensures sent.id.Some? ==> sent.id.value == old(editingTurma).value.id
      ensures outcome.Answered? && old(editingTurma).Some? ==> turmas == ReplaceById(old(turmas), outcome.response)
      ensures outcome.Answered? && old(editingTurma).None? ==> turmas == old(turmas) + [outcome.response]
      ensures outcome.Answered? ==> !modalOpen && editingTurma == None && page == 1 && errorMessage == old(errorMessage)
      ensures outcome.Threw? ==> turmas == old(turmas) && modalOpen == old(modalOpen) && editingTurma == old(editingTurma)
      ensures outcome.Threw? ==> page == old(page) && errorMessage == Some("Erro ao salvar turma: " + outcome.reason)
      ensures search == old(search) && formData == old(formData) && years == old(years)
    {
      var id := if editingTurma.Some? && editingTurma.value.id != 0 then Some(editingTurma.value.id) else None;
      sent := SavePayload(id, formData.nome, formData.descricao, formData.anoLetivoId);
      match outcome {
        case Answered(response) =>
          if editingTurma.Some? {
            turmas := ReplaceById(turmas, response);
          } else {
            turmas := turmas + [response];
          }
          modalOpen := false;
          editingTurma := None;
          Refilter();
        case Threw(reason) =>
          errorMessage := Some("Erro ao salvar turma: " + reason);
      }
    }

    /** `Math.ceil(filteredTurmas.length / itemsPerPage)`, as written: no
        lower bound, so an empty list has 0 pages. */
    function TotalPagesAsWritten(): (r: nat)
      reads this
      ensures r * ItemsPerPage >= |filteredTurmas|
      ensures r == 0 <==> filteredTurmas == []
    {
      Paging.CeilDiv(|filteredTurmas|, ItemsPerPage)
    }

    /** The page count clamped to at least 1, as the other pages do. */
    function TotalPages(): (r: nat)
      reads this
      ensures r >= 1
      ensures r * ItemsPerPage >= |filteredTurmas|
      ensures filteredTurmas != [] ==> r == TotalPagesAsWritten()
    {
      Paging.ClampedPageCount(|filteredTurmas|, ItemsPerPage)
    }

    /** `currentPageData`: the classes of the current page, at most ten. */
    function CurrentPageData(): (r: seq<Turma>)
      reads this
      requires Valid()
      ensures |r| <= ItemsPerPage
      ensures |r| == if (page - 1) * ItemsPerPage >= |filteredTurmas| then 0
        else Paging.Min(ItemsPerPage, |filteredTurmas| - (page - 1) * ItemsPerPage)
      ensures forall i :: 0 <= i < |r| ==>
        (page - 1) * ItemsPerPage + i < |filteredTurmas| && r[i] == filteredTurmas[(page - 1) * ItemsPerPage + i]
    {
      Paging.PageSlice(filteredTurmas, page, ItemsPerPage)
    }

    /** "Próxima" of the corrected pager: it steps against the clamped page
        count. The page as written hands the table the unclamped count;
        the two agree whenever some class matches, and differ only on an
        empty result, where the written pager moves on to an empty page 2
        (see `EmptyListNextEnabled`). */
    method NextPage()
      requires Valid()
      modifies this
      ensures Valid()
      ensures page == if old(page) == old(TotalPages()) then old(page) else old(page) + 1
      ensures filteredTurmas != [] ==>
        page == if old(page) == old(TotalPagesAsWritten()) then old(page) else old(page) + 1
      ensures turmas == old(turmas) && search == old(search) && modalOpen == old(modalOpen)
      ensures editingTurma == old(editingTurma) && formData == old(formData)
      ensures errorMessage == old(errorMessage) && years == old(years)
    {
      var target := Table.NextButton(page, TotalPages());
      if target.Some? {
        page := target.value;
      }
    }

    /** "Anterior". */
    method PreviousPage()
      requires Valid()
      modifies this
      ensures Valid()
      ensures page == if old(page) == 1 then 1 else old(page) - 1
      ensures turmas == old(turmas) && search == old(search) && modalOpen == old(modalOpen)
      ensures editingTurma == old(editingTurma) && formData == old(formData)
      ensures errorMessage == old(errorMessage) && years == old(years)
    {
      var target := Table.PreviousButton(page);
      if target.Some? {
        page := target.value;
      }
    }
  }

  /** As written, a search that matches nothing reads "Página 1 de 0" and
      leaves "Próxima" enabled: it asks for page 2, which is as empty. */
  lemma EmptyListNextEnabled(filtered: seq<Turma>)
    requires filtered == []
    ensures Paging.CeilDiv(|filtered|, ItemsPerPage) == 0
    ensures Table.NextButton(1, Paging.CeilDiv(|filtered|, ItemsPerPage)) == Some(2)
    ensures Paging.PageSlice(filtered, 2, ItemsPerPage) == []
  {
  }

  /** With the page count clamped, an empty list is one page and both
      pager buttons are disabled; the enabled buttons only ask for pages
      that exist. */
  lemma ClampedPagerStaysInRange(n: nat, page: int)
    requires 1 <= page <= Paging.ClampedPageCount(n, ItemsPerPage)
    ensures n == 0 ==> Table.NextButton(page, Paging.ClampedPageCount(n, ItemsPerPage)).None?
    ensures n == 0 ==> Table.PreviousButton(page).None?
    ensures Table.NextButton(page, Paging.ClampedPageCount(n, ItemsPerPage)).Some? ==>
      Table.NextButton(page, Paging.ClampedPageCount(n, ItemsPerPage)).value <= Paging.ClampedPageCount(n, ItemsPerPage)
  {
    Table.PagerStaysInRange(page, Paging.ClampedPageCount(n, ItemsPerPage));
  }
}
