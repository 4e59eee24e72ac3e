/** The role colour helper (`useUserRole`). */
module UserRole {
  import opened Base

  /** `getRoleColor(role)`: 'accent' for admins in any letter case, 'primary' for everyone else. */
  function RoleColor(role: string): (r: string)
    ensures r == "accent" || r == "primary"
    ensures r == "accent" <==> Lower(role) == "admin"
  {
    var lower := Lower(role);
    if lower == "admin" then "accent"
    else if lower == "mod" then "primary"
    else "primary"
  }

  /** The colour depends only on the lower-cased role. */
  lemma RoleColorIgnoresCase(a: string, b: string)
    requires Lower(a) == Lower(b)
    ensures RoleColor(a) == RoleColor(b)
  {
  }
}
