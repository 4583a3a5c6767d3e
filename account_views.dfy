/**
  accounts/views.py: the access test of the user-administration views.
  A `null` user is the anonymous visitor.
*/
module AccountViews {
  import opened Accounts

  /** `SoloAdministradoresMixin.test_func` */
  function SoloAdministradoresTest(user: User?): (r: bool)
    reads user
    ensures user == null ==> !r
    ensures r ==> user != null && (user.isSuperuser || user.isStaff || user.rol in {ROL_ADMIN, "admin"})
    ensures user != null && (user.isSuperuser || user.isStaff) ==> r
    ensures user != null && user.rol in {ROL_ADMIN, "admin"} ==> r
    ensures user != null && !user.isSuperuser && !user.isStaff && user.rol in {ROL_VECINO, ROL_MODERADOR} ==> !r
  {
    if user == null then false
    else
      var rol := user.rol;
      user.isSuperuser || user.isStaff || rol in [ROL_ADMIN, "admin"]
  }

  /**
    Once `save` has run, the test reduces to the flags: a saved user is
    admitted exactly when staff (the legacy role "admin", which `save`
    leaves on a non-superuser, aside), and that includes every saved moderator.
  */
  lemma AdministradoresTrasGuardar(user: User)
    requires Sincronizado(user.isSuperuser, user.Flags())
    ensures user.rol != "admin" ==> (SoloAdministradoresTest(user) <==> user.isStaff)
    ensures user.rol == ROL_MODERADOR ==> SoloAdministradoresTest(user)
  {
  }
}
