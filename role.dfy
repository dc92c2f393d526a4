/** Role gating: each role string the back end issues belongs to one
    category ("Admin", "Aval" for evaluators, "General" for students);
    pages test a user's roles against categories or against one role. */
module Role {
  import opened Base
  import Text

  /** The logged-in user as the pages see it: the role strings it holds. */
  datatype User = User(roles: seq<string>)

  const AdminRoles: seq<string> := ["ROLE_SISTEMA", "ROLE_ADMINISTRADOR"]

  const AvalRoles: seq<string> :=
    ["ROLE_AVAL", "ROLE_BIBLIOTECARIO", "ROLE_APOIO_ACADEMICO", "ROLE_ASSESSORIA_PEDAGOGICA",
     "ROLE_ASSISTENCIA_ESTUDANTIL", "ROLE_ASSESSORIA_LABORATORIO", "ROLE_COORDENADOR_CURSO",
     "ROLE_COEXPEIN", "ROLE_DOCENTE"]

  /** `Roles[role]`: the category of a known role, `undefined` otherwise. */
  function Category(role: string): (r: Option<string>)
    ensures r == Some("Admin") <==> role in AdminRoles
    ensures r == Some("Aval") <==> role in AvalRoles
    ensures r == Some("General") <==> role == "ROLE_ALUNO"
    ensures r.None? <==> role !in AdminRoles && role !in AvalRoles && role != "ROLE_ALUNO"
  {
    match role
    case "ROLE_ALUNO" => Some("General")
    case "ROLE_AVAL" => Some("Aval")
    case "ROLE_SISTEMA" => Some("Admin")
    case "ROLE_ADMINISTRADOR" => Some("Admin")
    case "ROLE_BIBLIOTECARIO" => Some("Aval")
    case "ROLE_APOIO_ACADEMICO" => Some("Aval")
    case "ROLE_ASSESSORIA_PEDAGOGICA" => Some("Aval")
    case "ROLE_ASSISTENCIA_ESTUDANTIL" => Some("Aval")
    case "ROLE_ASSESSORIA_LABORATORIO" => Some("Aval")
    case "ROLE_COORDENADOR_CURSO" => Some("Aval")
    case "ROLE_COEXPEIN" => Some("Aval")
    case "ROLE_DOCENTE" => Some("Aval")
    case _ => None
  }

  /** The table names twelve roles: two administrators, nine evaluators
      and the student. */
  lemma RolesTable()
    ensures |AdminRoles| == 2 && |AvalRoles| == 9
    ensures forall r :: r in AdminRoles ==> r !in AvalRoles && r != "ROLE_ALUNO"
    ensures "ROLE_ALUNO" !in AvalRoles
  {
  }

  /** `canAccessPage(role, allowedCategories)`: the role's category is one
      of the allowed ones. */
  function CanAccessPage(role: string, allowedCategories: seq<string>): (r: bool)
    ensures r <==> Category(role).Some? && Category(role).value in allowedCategories
  {
    match Category(role)
    case None => false
    case Some(category) => category in allowedCategories
  }

  /** A role the table does not know is never granted, whatever the list
      of categories. */
  lemma UnknownRoleNeverGranted(role: string, allowedCategories: seq<string>)
    requires role !in AdminRoles && role !in AvalRoles && role != "ROLE_ALUNO"
    ensures !CanAccessPage(role, allowedCategories)
  {
  }

  /** `user.roles.some((role) => Roles[role] === category)`. */
  function AnyOfCategory(roles: seq<string>, category: string): (r: bool)
    ensures r <==> exists i :: 0 <= i < |roles| && Category(roles[i]) == Some(category)
  {
    if roles == [] then false
    else Category(roles[0]) == Some(category) || AnyOfCategory(roles[1..], category)
  }

  /** `isFromCategory(user, category)`. */
  function IsFromCategory(user: User, category: string): (r: bool)
    ensures r <==> exists role :: role in user.roles && Category(role) == Some(category)
  {
    AnyOfCategory(user.roles, category)
  }

  /** A user with no roles belongs to no category, and holding more roles
      never takes a category away. */
  lemma IsFromCategoryMonotone(user: User, more: User, category: string)
    requires forall role :: role in user.roles ==> role in more.roles
    ensures IsFromCategory(User([]), category) == false
    ensures IsFromCategory(user, category) ==> IsFromCategory(more, category)
  {
  }

  /** The gate of the point-launching pages: a logged-in user with an
      administrator or evaluator role; a student alone is turned away. */
  predicate IsStaff(user: Option<User>)
  {
    user.Some? && (IsFromCategory(user.value, "Admin") || IsFromCategory(user.value, "Aval"))
  }

  lemma StaffAreAdminsAndEvaluators(user: User)
    ensures IsStaff(Some(user)) <==> exists role :: role in user.roles && (role in AdminRoles || role in AvalRoles)
    ensures (forall role :: role in user.roles ==> role == "ROLE_ALUNO") ==> !IsStaff(Some(user))
    ensures !IsStaff(None)
  {
    if exists role :: role in user.roles && (role in AdminRoles || role in AvalRoles) {
      var role :| role in user.roles && (role in AdminRoles || role in AvalRoles);
      assert Category(role) == Some("Admin") || Category(role) == Some("Aval");
    }
  }

  /** The role string `hasRole` looks for: `ROLE_` and the upper-cased name. */
  function Prefixed(role: string): (r: string)
    ensures |r| == 5 + |role| && r[..5] == "ROLE_"
  {
    "ROLE_" + Text.Upper(role)
  }

  /** `hasRole(user, role)` of utils/role.js. */
  function HasRole(user: User, role: string): (r: bool)
    ensures r <==> Prefixed(role) in user.roles
  {
    Prefixed(role) in user.roles
  }

  /** The case in which the role name is written does not matter. */
  lemma HasRoleIgnoresCase(user: User, role: string)
    ensures HasRole(user, Text.Lower(role)) == HasRole(user, role)
    ensures HasRole(user, Text.Upper(role)) == HasRole(user, role)
  {
    Text.UpperForgetsCase(role);
  }

  /** Holding a role of the table by its prefixed name is what `hasRole`
      finds: "aval" names ROLE_AVAL, an evaluator. */
  lemma HasRoleAval(user: User)
    ensures HasRole(user, "aval") <==> "ROLE_AVAL" in user.roles
    ensures HasRole(user, "aval") ==> IsFromCategory(user, "Aval")
  {
    assert Prefixed("aval") == "ROLE_AVAL";
    if HasRole(user, "aval") {
      assert Category("ROLE_AVAL") == Some("Aval");
    }
  }
}
