/**
  accounts/forms.py: the administrator's forms for creating and editing
  users. Both `save` methods turn the chosen role into the staff and
  superuser flags; the edit form derives the role it shows from the user.
*/
module AccountForms {
  import opened Common
  import opened Calendar
  import opened Accounts

  /** `ROL_CHOICES`: the roles the forms offer. */
  const ROLES_FORMULARIO: set<string> := {ROL_VECINO, ROL_MODERADOR, ROL_ADMIN}

  /** `AdminUserCreateForm.clean`: the two passwords, when both given, must match. */
  function LimpiarAlta(password1: Option<string>, password2: Option<string>): (errores: seq<ErrorCampo>)
    ensures errores != [] <==> Truthy(password1) && Truthy(password2) && password1.value != password2.value
    ensures |errores| <= 1 && forall e :: e in errores ==> e.campo == "password2"
  {
    ErrorSiDistintos("password2", "Las contraseñas no coinciden.", password1, password2)
  }

  datatype Permisos = Permisos(isStaff: bool, isSuperuser: bool)

  /** Both `save` methods: reset the flags, then grant them by role. */
  function PermisosDeRol(rol: string): (p: Permisos)
    ensures p.isSuperuser ==> p.isStaff
    ensures p.isStaff <==> rol in {ROL_MODERADOR, ROL_ADMIN, "admin"}
    ensures p.isSuperuser <==> rol in {ROL_ADMIN, "admin"}
  {
    var p := Permisos(false, false);
    if rol == ROL_MODERADOR then p.(isStaff := true)
    else if rol == ROL_ADMIN || rol == "admin" then Permisos(true, true)
    else p
  }

  /** The model fields both forms edit (`Meta.fields`) and the chosen role. */
  datatype DatosUsuario = DatosUsuario(
    username: string,
    email: string,
    fechaNacimiento: Option<Date>,
    isActive: bool,
    rol: string)

  /**
    `AdminUserCreateForm.save`: a new user with the form's fields, the
    password when one was given, and the flags of the chosen role; with
    `commit` the model's own `save` then runs.
  */
  method GuardarAlta(id: int, datos: DatosUsuario, password1: Option<string>, commit: bool) returns (user: User)
    ensures fresh(user) && user.id == id
    ensures user.username == datos.username && user.email == datos.email
    ensures user.fechaNacimiento == datos.fechaNacimiento && user.isActive == datos.isActive
    ensures user.password == if Truthy(password1) then password1.value else ""
    ensures user.isSuperuser == PermisosDeRol(datos.rol).isSuperuser
    ensures !commit ==> user.Flags() == Banderas(PermisosDeRol(datos.rol).isStaff, datos.rol)
    ensures commit ==> user.Flags() == Sincronizar(user.isSuperuser, Banderas(PermisosDeRol(datos.rol).isStaff, datos.rol))
  {
    user := new User(id);
    user.username, user.email := datos.username, datos.email;
    user.fechaNacimiento, user.isActive := datos.fechaNacimiento, datos.isActive;
    if Truthy(password1) {
      user.password := password1.value;
    }
    user.isStaff := false;
    user.isSuperuser := false;
    if datos.rol == ROL_MODERADOR {
      user.isStaff := true;
    } else if datos.rol == ROL_ADMIN || datos.rol == "admin" {
      user.isStaff := true;
      user.isSuperuser := true;
    }
    user.rol := datos.rol;
    if commit {
      user.Save();
    }
  }

  /**
    The form's mapping and the model's `save` agree on every offered role:
    saving through the model keeps the flags and the role the form set. The
    legacy value "admin" is the one the model rewrites, to "administrador".
  */
  lemma FormularioYModeloConcuerdan(rol: string)
    ensures var p := PermisosDeRol(rol);
      rol in ROLES_FORMULARIO ==> Sincronizar(p.isSuperuser, Banderas(p.isStaff, rol)) == Banderas(p.isStaff, rol)
    ensures var p := PermisosDeRol("admin");
      Sincronizar(p.isSuperuser, Banderas(p.isStaff, "admin")) == Banderas(true, ROL_ADMIN)
  {
  }

  /** `AdminUserUpdateForm.__init__`: the role the edit form starts with. */
  function RolInicial(rolActual: string, isSuperuser: bool, isStaff: bool): (r: string)
    ensures r in ROLES_FORMULARIO
    ensures rolActual in ROLES_FORMULARIO ==> r == rolActual
    ensures rolActual !in ROLES_FORMULARIO ==>
      (r == ROL_ADMIN <==> isSuperuser) && (r == ROL_MODERADOR <==> !isSuperuser && isStaff)
  {
    if rolActual in [ROL_VECINO, ROL_MODERADOR, ROL_ADMIN] then rolActual
    else if isSuperuser then ROL_ADMIN
    else if isStaff then ROL_MODERADOR
    else ROL_VECINO
  }

  /** Saving an offered role and opening the edit form again shows that role, with or without `commit`. */
  lemma {:induction false} RolInicialTrasGuardar(rol: string, commit: bool)
    requires rol in ROLES_FORMULARIO
    ensures var p := PermisosDeRol(rol);
      var b := if commit then Sincronizar(p.isSuperuser, Banderas(p.isStaff, rol)) else Banderas(p.isStaff, rol);
      RolInicial(b.rol, p.isSuperuser, b.isStaff) == rol
  {
    FormularioYModeloConcuerdan(rol);
  }

  /**
    Opening the edit form of a saved user and submitting it unchanged keeps
    the user's flags, except for a non-superuser "administrador", whom the
    form promotes to superuser.
  */
  lemma ReeditarConservaPermisos(isSuperuser: bool, isStaff: bool, rol: string)
    requires Sincronizado(isSuperuser, Banderas(isStaff, rol))
    ensures PermisosDeRol(RolInicial(rol, isSuperuser, isStaff)) == Permisos(isStaff, isSuperuser)
      <==> !(rol == ROL_ADMIN && !isSuperuser)
  {
  }

  class AdminUserUpdateForm {
    var instance: User
    var initial: map<string, string>

    /** `__init__`: `initial` as the framework built it, with the derived role added. */
    constructor (instance: User, initial: map<string, string>)
      ensures this.instance == instance
      ensures this.initial == initial["rol" := RolInicial(instance.rol, instance.isSuperuser, instance.isStaff)]
    {
      this.instance := instance;
      this.initial := initial["rol" := RolInicial(instance.rol, instance.isSuperuser, instance.isStaff)];
    }

    /** `AdminUserUpdateForm.save`: the same role mapping as the creation form, on the edited user. */
    method Save(datos: DatosUsuario, commit: bool)
      modifies instance
      ensures instance.id == old(instance.id) && instance.password == old(instance.password)
      ensures instance.username == datos.username && instance.email == datos.email
      ensures instance.fechaNacimiento == datos.fechaNacimiento && instance.isActive == datos.isActive
      ensures instance.isSuperuser == PermisosDeRol(datos.rol).isSuperuser
      ensures !commit ==> instance.Flags() == Banderas(PermisosDeRol(datos.rol).isStaff, datos.rol)
      ensures commit ==>
        instance.Flags() == Sincronizar(instance.isSuperuser, Banderas(PermisosDeRol(datos.rol).isStaff, datos.rol))
    {
      var user := instance;
      user.username, user.email := datos.username, datos.email;
      user.fechaNacimiento, user.isActive := datos.fechaNacimiento, datos.isActive;
      user.isStaff := false;
      user.isSuperuser := false;
      if datos.rol == ROL_MODERADOR {
        user.isStaff := true;
      } else if datos.rol == ROL_ADMIN || datos.rol == "admin" {
        user.isStaff := true;
        user.isSuperuser := true;
      }
      user.rol := datos.rol;
      if commit {
        user.Save();
      }
    }
  }
}
