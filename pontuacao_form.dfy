/** The point-launching form: choosing a rule rewrites the form record
    (fixed points, the forced extra bimester, the allowed range), typing in
    a field changes that field alone, and the rule's type decides which
    fields are on screen. */
module PontuacaoForm {
  import opened Base
  import opened Domain
  import Numerals

  /** The behaviour flags of a rule's type. */
  datatype TipoRegra = TipoRegra(fixo: bool, bimestreExtra: bool, frequencia: int, porTurno: bool, temAluno: bool)

  /** A scoring rule as `regras/permitidas` returns it. `senso` is the
      description of the rule's senso, `None` when the rule has no senso;
      `operacao` is "" when absent; the bounds are `None` when absent. */
  datatype Regra = Regra(
    id: int,
    descricao: string,
    senso: Option<string>,
    operacao: string,
    tipoRegra: Option<TipoRegra>,
    valorMinimo: Option<int>,
    valorMaximo: Option<int>)

  /** `v || d` on a number that may be absent: 0 and absence are falsy. */
  function OrDefault(v: Option<int>, d: int): (r: int)
    ensures v.Some? && v.value != 0 ==> r == v.value
    ensures v.None? || v == Some(0) ==> r == d
  {
    if v.Some? && v.value != 0 then v.value else d
  }

  /** JavaScript truthiness of a form value. */
  predicate Truthy(v: FieldValue)
  {
    match v
    case NumberValue(n) => n != 0
    case TextValue(s) => s != ""
    case Missing => false
  }

  /** `regras.find((regra) => regra.id === parseInt(regraId))`: the first
      rule whose id is the number; none for NaN, which equals nothing. */
  function FindRegra(regras: seq<Regra>, id: JsNum): (r: Option<Regra>)
    ensures r.Some? <==> exists i :: 0 <= i < |regras| && id == Num(regras[i].id)
    ensures r.Some? ==> exists i :: 0 <= i < |regras| && regras[i] == r.value && id == Num(r.value.id)
                                    && forall j :: 0 <= j < i ==> id != Num(regras[j].id)
  {
    if regras == [] then None
    else if id == Num(regras[0].id) then Some(regras[0])
    else
      var rest := FindRegra(regras[1..], id);
      if rest.Some? then
        var i :| 0 < i + 1 <= |regras[1..]| && regras[1..][i] == rest.value && id == Num(rest.value.id)
                 && forall j :: 0 <= j < i ==> id != Num(regras[1..][j].id);
        assert regras[i + 1] == rest.value;
        rest
      else rest
  }

  /** Each option of the rule selector carries its rule's id as text, and
      reading that text back finds a rule with that id. */
  lemma OptionValueFindsItsRule(regras: seq<Regra>, i: int)
    requires 0 <= i < |regras| && regras[i].id >= 0
    ensures var sel := FindRegra(regras, Numerals.ParseIntAnyRadix(Numerals.DecimalString(regras[i].id)));
            sel.Some? && sel.value.id == regras[i].id
  {
    Numerals.AnyRadixReadsDecimal(regras[i].id);
  }

  /** The names `handleRegraChange` writes. */
  const RuleFieldNames: set<string> := {"idRegra", "operacao", "pontos", "bimestre", "valorMinimo", "valorMaximo"}

  /** The fields a rule choice writes into the form: the chosen id as
      typed, the rule's operation, its minimum as fixed points (or "" to
      be typed in), bimester 4 for an extra rule (else 0), and the range
      with 0 and 500 standing in for absent bounds. Without a rule, all of
      them fall back to "" or 0. */
  function RuleFields(regraId: string, sel: Option<Regra>): (r: map<string, FieldValue>)
    ensures r.Keys == RuleFieldNames
    ensures r["idRegra"] == TextValue(regraId)
    ensures r["operacao"] == TextValue(if sel.Some? then sel.value.operacao else "")
    ensures r["bimestre"] == NumberValue(4) <==> sel.Some? && sel.value.tipoRegra.Some? && sel.value.tipoRegra.value.bimestreExtra
    ensures r["bimestre"] == NumberValue(0) <==> !(sel.Some? && sel.value.tipoRegra.Some? && sel.value.tipoRegra.value.bimestreExtra)
    ensures sel.Some? && sel.value.tipoRegra.Some? && sel.value.tipoRegra.value.fixo ==>
              r["pontos"] == if sel.value.valorMinimo.Some? then NumberValue(sel.value.valorMinimo.value) else Missing
    ensures !(sel.Some? && sel.value.tipoRegra.Some? && sel.value.tipoRegra.value.fixo) ==> r["pontos"] == TextValue("")
    ensures r["valorMinimo"] == NumberValue(if sel.Some? then OrDefault(sel.value.valorMinimo, 0) else 0)
    ensures r["valorMaximo"] == NumberValue(if sel.Some? then OrDefault(sel.value.valorMaximo, 500) else 500)
    ensures Truthy(r["valorMaximo"])
  {
    var tipo := if sel.Some? then sel.value.tipoRegra else None;
    var fixo := tipo.Some? && tipo.value.fixo;
    var extra := tipo.Some? && tipo.value.bimestreExtra;
    map["idRegra" := TextValue(regraId),
        "operacao" := TextValue(if sel.Some? then sel.value.operacao else ""),
        "pontos" := if fixo then (if sel.value.valorMinimo.Some? then NumberValue(sel.value.valorMinimo.value) else Missing)
                    else TextValue(""),
        "bimestre" := NumberValue(if extra then 4 else 0),
        "valorMinimo" := NumberValue(if sel.Some? then OrDefault(sel.value.valorMinimo, 0) else 0),
        "valorMaximo" := NumberValue(if sel.Some? then OrDefault(sel.value.valorMaximo, 500) else 500)]
  }

  /** `{ ...form, ...fields }`: the fields win, the rest of the form stays. */
  function Spread(form: map<string, FieldValue>, fields: map<string, FieldValue>): (r: map<string, FieldValue>)
    ensures r.Keys == form.Keys + fields.Keys
    ensures forall k :: k in fields ==> r[k] == fields[k]
    ensures forall k :: k in form && k !in fields ==> r[k] == form[k]
  {
    map k | k in form.Keys + fields.Keys :: if k in fields then fields[k] else form[k]
  }

  /** What the form shows for a rule type and operation. */
  datatype Layout = Layout(
    banner: Option<string>,
    turnoSelect: bool,
    bimestreShown: bool,
    bimestreLocked: bool,
    fixedPoints: bool,
    matriculaShown: bool)

  /** The bimester selector: `tipoRegra?.frequencia !== 0 ||
      tipoRegra?.bimestreExtra`. With no rule type `undefined !== 0`
      holds, so it is shown before any rule is chosen. */
  predicate ShowsBimestre(tipo: Option<TipoRegra>)
  {
    tipo.None? || tipo.value.frequencia != 0 || tipo.value.bimestreExtra
  }

  /** The screen for a rule type: the operation banner when an operation is
      set ("adição" for "SUM", "subtração" otherwise), the shift selector in
      place of the class selector for per-shift rules, the bimester
      selector by `ShowsBimestre` (locked for extra rules), fixed points in
      place of the points input, and the student field for rules about a
      student. */
  function LayoutOf(tipo: Option<TipoRegra>, operacao: Option<string>): (r: Layout)
    ensures r.banner.Some? <==> operacao.Some? && operacao.value != ""
    ensures r.banner == Some("Operação de adição") <==> operacao == Some("SUM")
    ensures r.turnoSelect <==> tipo.Some? && tipo.value.porTurno
    ensures r.bimestreShown <==> ShowsBimestre(tipo)
    ensures tipo.None? ==> r.bimestreShown && !r.bimestreLocked && !r.fixedPoints && !r.matriculaShown && !r.turnoSelect
    ensures r.bimestreLocked <==> tipo.Some? && tipo.value.bimestreExtra
    ensures r.bimestreLocked ==> r.bimestreShown
    ensures r.fixedPoints <==> tipo.Some? && tipo.value.fixo
    ensures r.matriculaShown <==> tipo.Some? && tipo.value.temAluno
  {
    Layout(
      if operacao.Some? && operacao.value != "" then
        Some(if operacao.value == "SUM" then "Operação de adição" else "Operação de subtração")
      else None,
      tipo.Some? && tipo.value.porTurno,
      ShowsBimestre(tipo),
      tipo.Some? && tipo.value.bimestreExtra,
      tipo.Some? && tipo.value.fixo,
      tipo.Some? && tipo.value.temAluno)
  }

  /** The points input's bounds: `formData.valorMinimo || 0` and
      `formData.valorMaximo || 100`. */
  function PontosRange(form: map<string, FieldValue>): (r: (FieldValue, FieldValue))
    ensures !Truthy(Field(form, "valorMinimo")) ==> r.0 == NumberValue(0)
    ensures Truthy(Field(form, "valorMinimo")) ==> r.0 == form["valorMinimo"]
    ensures !Truthy(Field(form, "valorMaximo")) ==> r.1 == NumberValue(100)
    ensures Truthy(Field(form, "valorMaximo")) ==> r.1 == form["valorMaximo"]
  {
    var lo := Field(form, "valorMinimo");
    var hi := Field(form, "valorMaximo");
    (if Truthy(lo) then lo else NumberValue(0), if Truthy(hi) then hi else NumberValue(100))
  }

  const InitialForm: map<string, FieldValue> :=
    map["idTurma" := TextValue(""), "idRegra" := TextValue(""), "pontos" := TextValue(""),
        "operacao" := TextValue(""), "motivacao" := TextValue(""), "matriculaAluno" := TextValue(""),
        "bimestre" := NumberValue(0), "turno" := TextValue("")]

  class FormState {
    var regras: seq<Regra>
    var operacao: Option<string>
    var turmas: seq<TurmaRef>
    var formData: map<string, FieldValue>
    var tipoRegra: Option<TipoRegra>

    /** The form as it opens with the rules of one tab. */
    constructor(regrasDisponiveis: seq<Regra>)
      ensures regras == regrasDisponiveis && operacao == None && turmas == []
      ensures formData == InitialForm && tipoRegra == None
    {
      regras := regrasDisponiveis;
      operacao := None;
      turmas := [];
      formData := InitialForm;
      tipoRegra := None;
    }

    /** What is on screen now: the banner once an operation is set, the
        bimester selector locked for an extra rule, the points fixed for a
        fixed rule. */
    function Screen(): (r: Layout)
      reads this
      ensures r.banner.Some? <==> operacao.Some? && operacao.value != ""
      ensures r.bimestreLocked <==> tipoRegra.Some? && tipoRegra.value.bimestreExtra
      ensures r.fixedPoints <==> tipoRegra.Some? && tipoRegra.value.fixo
      ensures tipoRegra.None? ==> r.bimestreShown && !r.fixedPoints
    {
      LayoutOf(tipoRegra, operacao)
    }

    /** `fetchTurmas`: the class list replaces the old one. On a failure
        the handler calls a `setError` the component never declares, so no
        message appears and the list stays as it was. */
    method TurmasFetched(outcome: PostOutcome<seq<TurmaRef>>)
      modifies this
      ensures outcome.Answered? ==> turmas == outcome.response
      ensures outcome.Threw? ==> turmas == old(turmas)
      ensures regras == old(regras) && operacao == old(operacao)
      ensures formData == old(formData) && tipoRegra == old(tipoRegra)
    {
      if outcome.Answered? {
        turmas := outcome.response;
      }
    }

    /** `handleRegraChange(regraId)`: the rule whose id is `parseInt(regraId)`
        sets the rule type and the operation, and its fields are spread
        over the form; an id no rule has clears both. */
    method HandleRegraChange(regraId: string)
      modifies this
      ensures var sel := FindRegra(old(regras), Numerals.ParseIntAnyRadix(regraId));
              && tipoRegra == (if sel.Some? then sel.value.tipoRegra else None)
              && operacao == Some(if sel.Some? then sel.value.operacao else "")
              && formData == Spread(old(formData), RuleFields(regraId, sel))
      ensures regras == old(regras) && turmas == old(turmas)
    {
      var sel := FindRegra(regras, Numerals.ParseIntAnyRadix(regraId));
      tipoRegra := if sel.Some? then sel.value.tipoRegra else None;
      operacao := Some(if sel.Some? then sel.value.operacao else "");
      formData := Spread(formData, RuleFields(regraId, sel));
    }

    /** `handleInputChange`: the named field takes the typed text; nothing
        else changes. */
    method HandleInputChange(name: string, value: string)
      modifies this
      ensures formData == old(formData)[name := TextValue(value)]
      ensures forall k :: k in old(formData) && k != name ==> formData[k] == old(formData)[k]
      ensures regras == old(regras) && operacao == old(operacao) && turmas == old(turmas)
      ensures tipoRegra == old(tipoRegra)
    {
      formData := formData[name := TextValue(value)];
    }
  }

  /** Choosing an id no rule carries (or one that is not a number) leaves
      the form with no rule type, no operation, points to be typed in and
      bimester 0; the class, reason, student and shift fields are kept. */
  lemma UnknownRuleClears(form: map<string, FieldValue>, regras: seq<Regra>, regraId: string)
    requires forall i :: 0 <= i < |regras| ==> Numerals.ParseIntAnyRadix(regraId) != Num(regras[i].id)
    ensures FindRegra(regras, Numerals.ParseIntAnyRadix(regraId)).None?
    ensures var after := Spread(form, RuleFields(regraId, None));
            && after["pontos"] == TextValue("") && after["bimestre"] == NumberValue(0)
            && after["operacao"] == TextValue("")
            && LayoutOf(None, Some("")).banner.None?
            && forall k :: k in form && k !in RuleFieldNames ==> after[k] == form[k]
  {
  }

  /** An extra-bimester rule puts bimester 4 in the form and shows the
      selector locked; a rule with no frequency that is not extra hides the
      selector and leaves bimester 0. */
  lemma ExtraRuleLocksBimester(form: map<string, FieldValue>, regraId: string, r: Regra)
    requires r.tipoRegra.Some?
    ensures r.tipoRegra.value.bimestreExtra ==>
              Spread(form, RuleFields(regraId, Some(r)))["bimestre"] == NumberValue(4)
              && LayoutOf(r.tipoRegra, Some(r.operacao)).bimestreShown
              && LayoutOf(r.tipoRegra, Some(r.operacao)).bimestreLocked
    ensures !r.tipoRegra.value.bimestreExtra && r.tipoRegra.value.frequencia == 0 ==>
              Spread(form, RuleFields(regraId, Some(r)))["bimestre"] == NumberValue(0)
              && !LayoutOf(r.tipoRegra, Some(r.operacao)).bimestreShown
  {
  }

  /** Once a rule has been chosen the points input's upper bound is the
      rule's own (when non-zero) or 500: the 100 fallback of the input is
      only seen before any choice. */
  lemma RangeAfterRuleChange(form: map<string, FieldValue>, regraId: string, sel: Option<Regra>)
    ensures var after := Spread(form, RuleFields(regraId, sel));
            PontosRange(after).1 == NumberValue(if sel.Some? then OrDefault(sel.value.valorMaximo, 500) else 500)
    ensures PontosRange(InitialForm).1 == NumberValue(100) && PontosRange(InitialForm).0 == NumberValue(0)
  {
  }
}
