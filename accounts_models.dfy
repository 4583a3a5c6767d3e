/**
  accounts/models.py: the custom `User`. `Save` keeps `is_staff` and `rol`
  in step with `is_superuser`; `HasModulePerms` and `HasPerm` hide user and
  group administration from moderators. The framework's own answer for the
  cases the override does not decide is passed in as `heredado`.
*/
module Accounts {
  import opened Common
  import opened Calendar
  import PyText

  const ROL_VECINO: string := "vecino"
  const ROL_MODERADOR: string := "moderador"
  const ROL_ADMIN: string := "administrador"

  /** The flags and role that `save` produces from a superuser flag and the current role. */
  datatype Banderas = Banderas(isStaff: bool, rol: string)

  /**
    The state `save` establishes: a superuser is staff with role
    "administrador"; anyone else is staff exactly when moderator or administrator.
  */
  predicate Sincronizado(isSuperuser: bool, b: Banderas)
  {
    if isSuperuser then b.isStaff && b.rol == ROL_ADMIN
    else (b.isStaff <==> b.rol == ROL_MODERADOR || b.rol == ROL_ADMIN)
  }

  /** The effect of `User.save` on (`is_staff`, `rol`). */
  function Sincronizar(isSuperuser: bool, b: Banderas): (r: Banderas)
    ensures Sincronizado(isSuperuser, r)
    ensures Sincronizado(isSuperuser, b) ==> r == b
    ensures !isSuperuser ==> r.rol == b.rol
  {
    if isSuperuser then Banderas(true, ROL_ADMIN)
    else Banderas(b.rol == ROL_MODERADOR || b.rol == ROL_ADMIN, b.rol)
  }

  /** Saving twice is saving once. */
  lemma SincronizarIdempotente(isSuperuser: bool, b: Banderas)
    ensures Sincronizar(isSuperuser, Sincronizar(isSuperuser, b)) == Sincronizar(isSuperuser, b)
  {
  }

  class User {
    var id: int
    var username: string
    var email: string
    var isActive: bool
    var isSuperuser: bool
    var isStaff: bool
    var rol: string
    var fechaNacimiento: Option<Date>
    /** The stored credential; `set_password`'s hashing is not modelled. */
    var password: string

    /** A new `User()`: the field defaults of the model. */
    constructor (id: int)
      ensures this.id == id && username == "" && email == "" && isActive
      ensures !isSuperuser && !isStaff && rol == ROL_VECINO
      ensures fechaNacimiento.None? && password == ""
    {
      this.id := id;
      username := "";
      email := "";
      isActive := true;
      isSuperuser := false;
      isStaff := false;
      rol := ROL_VECINO;
      fechaNacimiento := None;
      password := "";
    }

    function Flags(): Banderas
      reads this
    {
      Banderas(isStaff, rol)
    }

    /** `User.save`: synchronise `is_staff` and `rol`, then store the row. */
    method Save()
      modifies this`isStaff, this`rol
      ensures Flags() == Sincronizar(isSuperuser, old(Flags()))
      ensures Sincronizado(isSuperuser, Flags())
    {
      if isSuperuser {
        isStaff := true;
        if rol != ROL_ADMIN {
          rol := ROL_ADMIN;
        }
      } else {
        if rol == ROL_MODERADOR || rol == ROL_ADMIN {
          isStaff := true;
        } else {
          isStaff := false;
        }
      }
    }

    /** A staff moderator who is not a superuser: the case both permission overrides restrict. */
    predicate EsModeradorStaff()
      reads this
    {
      !isSuperuser && isStaff && rol == ROL_MODERADOR
    }

    /** `User.has_module_perms(app_label)` */
    function HasModulePerms(appLabel: string, heredado: bool): (r: bool)
      reads this
      ensures isSuperuser ==> r
      ensures EsModeradorStaff() ==> (r <==> appLabel != "accounts" && appLabel != "auth")
      ensures !isSuperuser && !EsModeradorStaff() ==> r == heredado
    {
      if isSuperuser then true
      else if isStaff && rol == ROL_MODERADOR then
        !(appLabel == "accounts" || appLabel == "auth")
      else heredado
    }

    /** `User.has_perm(perm)` with `perm` of the form "app_label.codename". */
    function HasPerm(perm: string, heredado: bool): (r: bool)
      reads this
      ensures isSuperuser ==> r
      ensures EsModeradorStaff() ==>
        (r <==> !PyText.StartsWith(perm, "accounts.") && !PyText.StartsWith(perm, "auth."))
      ensures !isSuperuser && !EsModeradorStaff() ==> r == heredado
    {
      if isSuperuser then true
      else if isStaff && rol == ROL_MODERADOR then
        !(PyText.StartsWith(perm, "accounts.") || PyText.StartsWith(perm, "auth."))
      else heredado
    }
  }

  /** An app label, as Django builds it, contains no dot. */
  predicate SinPunto(s: string)
  {
    forall i :: 0 <= i < |s| ==> s[i] != '.'
  }

  /** "etiqueta.codename" starts with "app." exactly when `etiqueta` is `app`. */
  lemma {:induction false} PrefijoDeEtiqueta(etiqueta: string, codename: string, app: string)
    requires SinPunto(etiqueta) && SinPunto(app)
    ensures PyText.StartsWith(etiqueta + "." + codename, app + ".") <==> etiqueta == app
  {
    var s := etiqueta + "." + codename;
    var p := app + ".";
    if etiqueta == app {
      assert s[..|p|] == p;
    }
    if PyText.StartsWith(s, p) {
      // the first position where one of the two names ends holds a dot in both
      var k := if |etiqueta| < |app| then |etiqueta| else |app|;
      assert s[k] == p[k];
      assert k == |etiqueta| ==> s[k] == '.';
      assert k == |app| ==> p[k] == '.';
      assert |etiqueta| == |app|;
      assert etiqueta == s[..|app|] && app == p[..|app|];
    }
  }

  /**
    For a staff moderator the two overrides agree: a permission
    "etiqueta.codename" is granted exactly when the module `etiqueta` is shown.
  */
  lemma ModuloYPermisoCoinciden(u: User, etiqueta: string, codename: string, h1: bool, h2: bool)
    requires u.EsModeradorStaff() && SinPunto(etiqueta)
    ensures u.HasPerm(etiqueta + "." + codename, h1) == u.HasModulePerms(etiqueta, h2)
  {
    PrefijoDeEtiqueta(etiqueta, codename, "accounts");
    PrefijoDeEtiqueta(etiqueta, codename, "auth");
  }
}
