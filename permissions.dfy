/**
 * The role table of lib/permissions.py: three role names, the normalisation of a role
 * string coming from authentication, and the fixed capability record of each role.
 */
module RolePermissions {
  import opened PyValues

  const RoleAdmin: string := "admin"
  const RoleCotizador: string := "cotizador"
  const RoleVendedor: string := "vendedor"

  /** Older deployments called the least privileged role "sales". */
  const LegacySales: string := "sales"

  const AllRoles: set<string> := {RoleAdmin, RoleCotizador, RoleVendedor}

  /** The frozen capability record of a role. */
  datatype Permissions = Permissions(
    canViewCosts: bool,
    canViewMargin: bool,
    canViewBreakdown: bool,
    canExportTech: bool,
    canExportClient: bool,
    canAccessSettings: bool,
    canManageUsers: bool)

  /**
   * `normalize_role`: strips and lower-cases the string, maps "sales" to "vendedor",
   * and sends every name that is not a role (the empty string included) to "vendedor".
   * (Python's `None` behaves as the empty string here, through `role or ""`.)
   */
  function NormalizeRole(role: string): (r: string)
    ensures r in AllRoles
    ensures Lower(Strip(role)) in AllRoles ==> r == Lower(Strip(role))
    ensures Lower(Strip(role)) !in AllRoles ==> r == RoleVendedor
  {
    var r0 := Lower(Strip(role));
    var r1 := if r0 == LegacySales then RoleVendedor else r0;
    if r1 !in AllRoles then RoleVendedor else r1
  }

  /**
   * `permissions_for`: the capability record of the normalised role.  Every role exports for
   * the client; the four cost capabilities go together, as do the two administrative ones,
   * and administration comes only with cost access.
   */
  function PermissionsFor(role: string): (p: Permissions)
    ensures p.canExportClient
    ensures p.canViewCosts == p.canViewMargin == p.canViewBreakdown == p.canExportTech
    ensures p.canAccessSettings == p.canManageUsers
    ensures p.canAccessSettings ==> p.canViewCosts
  {
    var r := NormalizeRole(role);
    if r == RoleAdmin then
      Permissions(
        canViewCosts := true, canViewMargin := true, canViewBreakdown := true,
        canExportTech := true, canExportClient := true,
        canAccessSettings := true, canManageUsers := true)
    else if r == RoleCotizador then
      Permissions(
        canViewCosts := true, canViewMargin := true, canViewBreakdown := true,
        canExportTech := true, canExportClient := true,
        canAccessSettings := false, canManageUsers := false)
    else
      Permissions(
        canViewCosts := false, canViewMargin := false, canViewBreakdown := false,
        canExportTech := false, canExportClient := true,
        canAccessSettings := false, canManageUsers := false)
  }

  /** Every capability of `p` is also a capability of `q`. */
  predicate AtMost(p: Permissions, q: Permissions) {
    && (p.canViewCosts ==> q.canViewCosts)
    && (p.canViewMargin ==> q.canViewMargin)
    && (p.canViewBreakdown ==> q.canViewBreakdown)
    && (p.canExportTech ==> q.canExportTech)
    && (p.canExportClient ==> q.canExportClient)
    && (p.canAccessSettings ==> q.canAccessSettings)
    && (p.canManageUsers ==> q.canManageUsers)
  }

  lemma RoleNamesAreNormal(r: string)
    requires r in AllRoles
    ensures Strip(r) == r && Lower(r) == r
  {
    assert r[0] != ' ' && !IsSpace(r[0]) && !IsSpace(r[|r| - 1]);
    TrimStartNoop(r);
    TrimEndNoop(r);
    LowerOfLowercase(r);
  }

  /** A role name normalises to itself, so normalising is idempotent. */
  lemma NormalizeIdempotent(role: string)
    ensures NormalizeRole(NormalizeRole(role)) == NormalizeRole(role)
  {
    RoleNamesAreNormal(NormalizeRole(role));
  }

  /** Matching ignores surrounding whitespace and letter case. */
  lemma NormalizeIgnoresCaseAndSpace(role: string)
    ensures NormalizeRole(Strip(role)) == NormalizeRole(role)
    ensures NormalizeRole(Lower(role)) == NormalizeRole(role)
  {
    StripIdempotent(role);
    StripLower(role);
    LowerIdempotent(Strip(role));
  }

  /** The legacy name, the empty string and any unknown name all land on the least privileged role. */
  lemma NormalizeFallbacks(role: string)
    ensures NormalizeRole(LegacySales) == RoleVendedor
    ensures NormalizeRole("") == RoleVendedor
    ensures Lower(Strip(role)) !in AllRoles ==> NormalizeRole(role) == RoleVendedor
  {
    LowerOfLowercase(LegacySales);
    assert Strip(LegacySales) == LegacySales by {
      TrimStartNoop(LegacySales);
      TrimEndNoop(LegacySales);
    }
  }

  lemma NormalizeExamples()
    ensures NormalizeRole(" Admin ") == RoleAdmin
    ensures NormalizeRole("COTIZADOR") == RoleCotizador
  {
    var a := " Admin ";
    assert TrimStart(a) == "Admin ";
    assert TrimEnd("Admin ") == "Admin";
    assert Lower("Admin") == RoleAdmin;
    assert Strip("COTIZADOR") == "COTIZADOR" by {
      TrimStartNoop("COTIZADOR");
      TrimEndNoop("COTIZADOR");
    }
    assert Lower("COTIZADOR") == RoleCotizador;
  }

  /** Permissions depend on the role string only through its normal form. */
  lemma PermissionsDependOnlyOnNormalForm(a: string, b: string)
    requires NormalizeRole(a) == NormalizeRole(b)
    ensures PermissionsFor(a) == PermissionsFor(b)
  {
  }

  /** Admin holds all seven capabilities. */
  lemma AdminHasEverything()
    ensures var p := PermissionsFor(RoleAdmin);
      p.canViewCosts && p.canViewMargin && p.canViewBreakdown && p.canExportTech
      && p.canExportClient && p.canAccessSettings && p.canManageUsers
  {
    RoleNamesAreNormal(RoleAdmin);
  }

  /** Cotizador is admin without the settings page and without user management. */
  lemma CotizadorIsAdminWithoutAdministration()
    ensures PermissionsFor(RoleCotizador)
         == PermissionsFor(RoleAdmin).(canAccessSettings := false, canManageUsers := false)
  {
    RoleNamesAreNormal(RoleAdmin);
    RoleNamesAreNormal(RoleCotizador);
  }

  /** Vendedor may only export the client document. */
  lemma VendedorOnlyExportsClient()
    ensures PermissionsFor(RoleVendedor)
         == Permissions(false, false, false, false, true, false, false)
  {
    RoleNamesAreNormal(RoleVendedor);
  }

  /**
   * Privileges grow vendedor <= cotizador <= admin, every role may export for the client,
   * and any role string at all gets at most admin's and at least vendedor's capabilities.
   */
  lemma PrivilegeOrder(role: string)
    ensures AtMost(PermissionsFor(RoleVendedor), PermissionsFor(RoleCotizador))
    ensures AtMost(PermissionsFor(RoleCotizador), PermissionsFor(RoleAdmin))
    ensures AtMost(PermissionsFor(RoleVendedor), PermissionsFor(role))
    ensures AtMost(PermissionsFor(role), PermissionsFor(RoleAdmin))
    ensures PermissionsFor(role).canExportClient
  {
    RoleNamesAreNormal(RoleAdmin);
    RoleNamesAreNormal(RoleCotizador);
    RoleNamesAreNormal(RoleVendedor);
  }

  /** Only a string that normalises to admin or cotizador can see costs, and those are exactly the cost viewers. */
  lemma CostViewersAreAdminAndCotizador(role: string)
    ensures PermissionsFor(role).canViewCosts
        <==> NormalizeRole(role) == RoleAdmin || NormalizeRole(role) == RoleCotizador
  {
  }
}
