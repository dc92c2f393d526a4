/** The default export of app/utils/hasRole.js: the same role test as
    `hasRole` of utils/role.js, kept in its own file. */
module HasRoleUtil {
  import Text
  import Role

  /** `hasRole(user, role)`: the user holds `"ROLE_" + role.toUpperCase()`.
      A user without roles holds none. */
  function HasRole(user: Role.User, role: string): (r: bool)
    ensures r <==> exists i :: 0 <= i < |user.roles| && user.roles[i] == "ROLE_" + Text.Upper(role)
    ensures user.roles == [] ==> !r
  {
    "ROLE_" + Text.Upper(role) in user.roles
  }

  /** Both copies answer alike on every user and role. */
  lemma AgreesWithRoleModule(user: Role.User, role: string)
    ensures HasRole(user, role) == Role.HasRole(user, role)
  {
  }

  /** The answer does not depend on the case of the role name. */
  lemma IgnoresCase(user: Role.User, role: string)
    ensures HasRole(user, Text.Lower(role)) == HasRole(user, role)
    ensures HasRole(user, Text.Upper(role)) == HasRole(user, role)
  {
    Text.UpperForgetsCase(role);
  }
}
