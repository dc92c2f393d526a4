/** The point-launching page: the rules the user may apply, grouped by
    senso into tabs (the first tab opened), the form of the open tab, and
    the request that launches a transaction. */
module PointsPage {
  import opened Base
  import opened Folds
  import Role
  import PontuacaoForm

  type Regra = PontuacaoForm.Regra

  const NoSensoKey := "Sem Senso"
  const LoadErrorPrefix := "Erro ao carregar regras: "
  const SubmitErrorPrefix := "Erro ao enviar pontuação: "
  const LaunchedText := "Pontuação lançada com sucesso"

  /** `rule.senso?.descricao || "Sem Senso"`: the senso's description, or
      "Sem Senso" when the rule has none or it is empty. Never empty. */
  function GroupKey(r: Regra): (k: string)
    ensures k != ""
    ensures r.senso.Some? && r.senso.value != "" ==> k == r.senso.value
    ensures r.senso.None? || r.senso == Some("") ==> k == NoSensoKey
  {
    if r.senso.Some? && r.senso.value != "" then r.senso.value else NoSensoKey
  }

  /** The dictionary the reducer builds: one entry per senso some rule
      carries, holding that senso's rules in input order. */
  ghost predicate Grouped(grouped: map<string, seq<Regra>>, data: seq<Regra>)
  {
    && grouped.Keys == KeysOf(data, GroupKey)
    && forall k :: k in grouped ==> grouped[k] == Select(data, GroupKey, k)
  }

  /** One rule into the dictionary: `if (!acc[senso]) acc[senso] = [];
      acc[senso].push(rule)`. */
  function AddRule(grouped: map<string, seq<Regra>>, x: Regra): map<string, seq<Regra>>
  {
    var k := GroupKey(x);
    grouped[k := (if k in grouped then grouped[k] else []) + [x]]
  }

  /** The order of `Object.keys`: a key joins the end the first time. */
  function AddKey(keys: seq<string>, k: string): seq<string>
  {
    if k in keys then keys else keys + [k]
  }

  /** One step of the reducer keeps the dictionary in line with the rules
      read so far. */
  lemma {:induction false} GroupStep(grouped: map<string, seq<Regra>>, seen: seq<Regra>, x: Regra)
    requires Grouped(grouped, seen)
    ensures Grouped(AddRule(grouped, x), seen + [x])
  {
    var k := GroupKey(x);
    var grouped' := AddRule(grouped, x);
    KeysOfSnoc(seen, x, GroupKey);
    if k !in grouped {
      AbsentKeySumsToZero(seen, GroupKey, One, k);
    }
    forall k' | k' in grouped' ensures grouped'[k'] == Select(seen + [x], GroupKey, k') {
      SelectSnoc(seen, x, GroupKey, k');
    }
  }

  /** One step keeps the key order that of first appearance. */
  lemma KeyOrderStep(keys: seq<string>, seen: seq<Regra>, x: Regra)
    requires keys == FirstSeen(seen, GroupKey)
    ensures AddKey(keys, GroupKey(x)) == FirstSeen(seen + [x], GroupKey)
  {
    assert (seen + [x])[..|seen|] == seen;
  }

  function One(r: Regra): int { 1 }

  /** `data.reduce((acc, rule) => { ...; acc[senso].push(rule); ... }, {})`,
      with the order in which the keys entered the dictionary. */
  method GroupRules(data: seq<Regra>) returns (grouped: map<string, seq<Regra>>, keys: seq<string>)
    ensures Grouped(grouped, data)
    ensures keys == FirstSeen(data, GroupKey)
    ensures Distinct(keys) && (set k | k in keys) == grouped.Keys
  {
    grouped := map[];
    keys := [];
    var i := 0;
    while i < |data|
      invariant 0 <= i <= |data|
      invariant Grouped(grouped, data[..i])
      invariant keys == FirstSeen(data[..i], GroupKey)
    {
      ReadOneMore(grouped, keys, data, i);
      grouped, keys := AddRule(grouped, data[i]), AddKey(keys, GroupKey(data[i]));
      i := i + 1;
    }
    assert data[..i] == data;
  }

  /** The loop of `GroupRules` reading rule `i`. */
  lemma ReadOneMore(grouped: map<string, seq<Regra>>, keys: seq<string>, data: seq<Regra>, i: int)
    requires 0 <= i < |data|
    requires Grouped(grouped, data[..i]) && keys == FirstSeen(data[..i], GroupKey)
    ensures Grouped(AddRule(grouped, data[i]), data[..i + 1])
    ensures AddKey(keys, GroupKey(data[i])) == FirstSeen(data[..i + 1], GroupKey)
  {
    assert data[..i + 1] == data[..i] + [data[i]];
    GroupStep(grouped, data[..i], data[i]);
    KeyOrderStep(keys, data[..i], data[i]);
  }

  /** Every rule is in the group of its own senso, and in no other. */
  lemma EveryRuleInOneGroup(grouped: map<string, seq<Regra>>, data: seq<Regra>)
    requires Grouped(grouped, data)
    ensures forall x :: x in data ==> GroupKey(x) in grouped && x in grouped[GroupKey(x)]
    ensures forall x, k :: k in grouped && x in grouped[k] ==> x in data && k == GroupKey(x)
  {
    forall x, k | k in grouped && x in grouped[k] ensures x in data && k == GroupKey(x) {
      var i :| 0 <= i < |grouped[k]| && grouped[k][i] == x;
    }
  }

  /** Total size of the groups listed, 0 for a key the dictionary lacks. */
  function SizesAlong(ks: seq<string>, grouped: map<string, seq<Regra>>): int
  {
    if ks == [] then 0 else (if ks[0] in grouped then |grouped[ks[0]]| else 0) + SizesAlong(ks[1..], grouped)
  }

  lemma {:induction false} SumOfOnes(s: seq<Regra>)
    ensures Sum(s, One) == |s|
  {
    if s != [] {
      SumOfOnes(s[..|s| - 1]);
    }
  }

  lemma {:induction false} SizesAreKeySums(ks: seq<string>, grouped: map<string, seq<Regra>>, data: seq<Regra>)
    requires Grouped(grouped, data)
    ensures SizesAlong(ks, grouped) == SumKeys(ks, data, GroupKey, One)
  {
    if ks != [] {
      SizesAreKeySums(ks[1..], grouped, data);
      var k := ks[0];
      if k in grouped {
        SumOfOnes(Select(data, GroupKey, k));
      } else {
        AbsentKeySumsToZero(data, GroupKey, One, k);
      }
    }
  }

  /** The tabs' groups together hold exactly as many rules as came in. */
  lemma GroupSizesAddUp(grouped: map<string, seq<Regra>>, keys: seq<string>, data: seq<Regra>)
    requires Grouped(grouped, data) && keys == FirstSeen(data, GroupKey)
    ensures SizesAlong(keys, grouped) == |data|
  {
    SizesAreKeySums(keys, grouped, data);
    GroupsReconcile(keys, data, GroupKey, One);
    SumOfOnes(data);
  }

  /** `dataToSend`: the form's class and rule under the server's names,
      and five fields copied as they are. The operation and the bounds of
      the form are not sent. */
  const PayloadNames: set<string> := {"id_turma", "id_regra", "pontos", "motivacao", "matriculaAluno", "bimestre", "turno"}

  function Payload(form: map<string, FieldValue>): (r: map<string, FieldValue>)
    ensures r.Keys == PayloadNames
    ensures r["id_turma"] == Field(form, "idTurma") && r["id_regra"] == Field(form, "idRegra")
    ensures forall n :: n in {"pontos", "motivacao", "matriculaAluno", "bimestre", "turno"} ==> r[n] == Field(form, n)
    ensures "operacao" !in r && "valorMinimo" !in r && "valorMaximo" !in r
  {
    map["id_turma" := Field(form, "idTurma"), "id_regra" := Field(form, "idRegra"),
        "pontos" := Field(form, "pontos"), "motivacao" := Field(form, "motivacao"),
        "matriculaAluno" := Field(form, "matriculaAluno"), "bimestre" := Field(form, "bimestre"),
        "turno" := Field(form, "turno")]
  }

  /** The request after a rule choice carries the chosen id, the class
      chosen before it, and bimester 4 exactly for an extra rule. */
  lemma PayloadAfterRuleChange(form: map<string, FieldValue>, regraId: string, sel: Option<Regra>)
    ensures var sent := Payload(PontuacaoForm.Spread(form, PontuacaoForm.RuleFields(regraId, sel)));
            && sent["id_regra"] == TextValue(regraId)
            && sent["id_turma"] == Field(form, "idTurma")
            && (sent["bimestre"] == NumberValue(4) <==>
                  sel.Some? && sel.value.tipoRegra.Some? && sel.value.tipoRegra.value.bimestreExtra)
  {
  }

  /** What the route renders. */
  datatype Screen = Spinner | NotAuthorized | Page

  /** The spinner until the user is known, then the page for an
      administrator or evaluator and "not authorised" for anyone else. */
  function ScreenFor(isReady: bool, user: Option<Role.User>): (r: Screen)
    ensures r == Spinner <==> !isReady
    ensures r == Page <==> isReady && Role.IsStaff(user)
    ensures isReady && user.None? ==> r == NotAuthorized
  {
    if !isReady then Spinner
    else if user.None? then NotAuthorized
    else if !Role.IsFromCategory(user.value, "Admin") && !Role.IsFromCategory(user.value, "Aval") then NotAuthorized
    else Page
  }

  /** A message box is drawn when its state is a non-empty text. */
  function Drawn(m: Option<string>): (r: bool)
    ensures r <==> m.Some? && m.value != ""
  {
    m.Some? && m.value != ""
  }

  /** The green box as written: drawn when there is a success message,
      but showing the error message. */
  function SuccessBoxAsWritten(errorMessage: Option<string>, successMessage: Option<string>): (r: Option<Option<string>>)
    ensures r.Some? <==> Drawn(successMessage)
    ensures r.Some? ==> r.value == errorMessage
  {
    if Drawn(successMessage) then Some(errorMessage) else None
  }

  /** The green box showing its own message. */
  function SuccessBox(successMessage: Option<string>): (r: Option<Option<string>>)
    ensures r.Some? <==> Drawn(successMessage)
    ensures r.Some? ==> r.value == successMessage
  {
    if Drawn(successMessage) then Some(successMessage) else None
  }

  /** After a launch that succeeds, the green box as written says nothing
      on a page without an earlier error, and repeats the earlier error
      (for instance a failed launch) when there was one: the success text
      never appears. */
  lemma SuccessBoxShowsError(reason: string)
    ensures SuccessBoxAsWritten(None, Some(LaunchedText)) == Some(None)
    ensures SuccessBoxAsWritten(Some(SubmitErrorPrefix + reason), Some(LaunchedText))
              == Some(Some(SubmitErrorPrefix + reason))
    ensures SuccessBoxAsWritten(Some(SubmitErrorPrefix + reason), Some(LaunchedText)) != Some(Some(LaunchedText))
  {
    assert (SubmitErrorPrefix + reason)[0] == 'E';
  }

  /** With the box showing its own message, a successful launch always
      reads "Pontuação lançada com sucesso", whatever error came before. */
  lemma SuccessBoxShowsLaunch()
    ensures SuccessBox(Some(LaunchedText)) == Some(Some(LaunchedText))
  {
  }

  class PointsPageState {
    var groupedRules: map<string, seq<Regra>>
    /** `Object.keys(groupedRules)`: the tabs, in insertion order. */
    var tabs: seq<string>
    var activeTab: Option<string>
    var errorMessage: Option<string>
    var successMessage: Option<string>

    ghost predicate Valid()
      reads this
    {
      Distinct(tabs) && (set k | k in tabs) == groupedRules.Keys
    }

    constructor()
      ensures Valid()
      ensures groupedRules == map[] && tabs == [] && activeTab == None
      ensures errorMessage == None && successMessage == None
    {
      groupedRules := map[];
      tabs := [];
      activeTab := None;
      errorMessage := None;
      successMessage := None;
    }

    /** `fetchRules`: the rules are grouped and the first group's tab is
        opened; a failure shows the reason. */
    method RulesFetched(outcome: PostOutcome<seq<Regra>>)
      requires Valid()
      modifies this
      ensures Valid()
      ensures outcome.Answered? ==> Grouped(groupedRules, outcome.response)
      ensures outcome.Answered? ==> tabs == FirstSeen(outcome.response, GroupKey)
      ensures outcome.Answered? && outcome.response != [] ==> activeTab == Some(GroupKey(outcome.response[0]))
      ensures outcome.Answered? && outcome.response == [] ==> activeTab == old(activeTab) && tabs == []
      ensures outcome.Answered? ==> errorMessage == old(errorMessage)
      ensures outcome.Threw? ==> errorMessage == Some(LoadErrorPrefix + outcome.reason)
      ensures outcome.Threw? ==> groupedRules == old(groupedRules) && tabs == old(tabs) && activeTab == old(activeTab)
      ensures successMessage == old(successMessage)
    {
      match outcome {
        case Answered(data) =>
          var grouped, keys := GroupRules(data);
          groupedRules, tabs := grouped, keys;
          if |keys| > 0 {
            FirstSeenStartsWithFirst(data, GroupKey);
            activeTab := Some(keys[0]);
          }
        case Threw(reason) =>
          errorMessage := Some(LoadErrorPrefix + reason);
      }
    }

    /** A click on a tab opens it. */
    method TabChange(tab: string)
      requires Valid()
      modifies this
      ensures Valid()
      ensures activeTab == Some(tab)
      ensures groupedRules == old(groupedRules) && tabs == old(tabs)
      ensures errorMessage == old(errorMessage) && successMessage == old(successMessage)
    {
      activeTab := Some(tab);
    }

    /** The form of the open tab, drawn only when a tab is open, and its
        `regrasDisponiveis={groupedRules[activeTab]}` prop: `None` is
        `undefined`, what the form receives when the open tab has no group.
        A tab from the tab bar always has one; a later fetch that answers no
        rule keeps the tab open over an empty grouping. */
    function FormRules(): (r: Option<Option<seq<Regra>>>)
      reads this
      ensures r.Some? <==> activeTab.Some? && activeTab.value != ""
      ensures r.Some? ==> (r.value.Some? <==> activeTab.value in groupedRules)
      ensures r.Some? && r.value.Some? ==> r.value.value == groupedRules[activeTab.value]
      ensures Valid() && r.Some? && activeTab.value in tabs ==> r.value.Some?
    {
      if activeTab.Some? && activeTab.value != "" then
        Some(if activeTab.value in groupedRules then Some(groupedRules[activeTab.value]) else None)
      else None
    }

    /** `handleSubmit(formData)`: without a token, only an error and no
        request; otherwise the payload goes out, and the answer sets the
        success message while a failure sets the error. Neither clears the
        other message. */
    method HandleSubmit(hasToken: bool, form: map<string, FieldValue>, outcome: PostOutcome<()>)
      returns (sent: Option<map<string, FieldValue>>)
      requires Valid()
      modifies this
      ensures Valid()
      ensures !hasToken ==> sent == None && errorMessage == Some(MissingTokenText) && successMessage == old(successMessage)
      ensures hasToken ==> sent == Some(Payload(form))
      ensures hasToken && outcome.Answered? ==>
                successMessage == Some(LaunchedText) && errorMessage == old(errorMessage)
      ensures hasToken && outcome.Threw? ==>
                errorMessage == Some(SubmitErrorPrefix + outcome.reason) && successMessage == old(successMessage)
      ensures groupedRules == old(groupedRules) && tabs == old(tabs) && activeTab == old(activeTab)
    {
      if !hasToken {
        errorMessage := Some(MissingTokenText);
        return None;
      }
      sent := Some(Payload(form));
      match outcome {
        case Answered(_) => successMessage := Some(LaunchedText);
        case Threw(reason) => errorMessage := Some(SubmitErrorPrefix + reason);
      }
    }

    /** The green box of the corrected page (see `SuccessBox`): drawn when
        and only when the page as written draws it, but showing the
        success message. */
    function SuccessBoxDrawn(): (r: Option<Option<string>>)
      reads this
      ensures r.Some? <==> SuccessBoxAsWritten(errorMessage, successMessage).Some?
      ensures r.Some? ==> r.value == successMessage && r.value.Some?
    {
      SuccessBox(successMessage)
    }
  }
}
