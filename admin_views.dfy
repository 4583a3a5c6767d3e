/**
  accounts/admin_views.py: the access test of the administrator dashboard,
  and how it relates to the other access tests and to `User.save`.
*/
module AdminViews {
  import opened Accounts
  import opened AccountViews

  /** `SoloAdminMixin.test_func`: the role alone decides; the flags play no part. */
  function SoloAdminTest(user: User?): (r: bool)
    reads user
    ensures r <==> user != null && user.rol == ROL_ADMIN
  {
    user != null && user.rol == ROL_ADMIN
  }

  /**
    Stricter than `SoloAdministradoresMixin`: whoever passes here passes
    there, and there are users (such as one with the legacy role "admin")
    admitted there but refused here.
  */
  lemma SoloAdminMasEstricto(user: User?, otro: User)
    requires otro.rol == "admin" || otro.isStaff || otro.isSuperuser
    requires otro.rol != ROL_ADMIN
    ensures SoloAdminTest(user) ==> SoloAdministradoresTest(user)
    ensures SoloAdministradoresTest(otro) && !SoloAdminTest(otro)
  {
  }

  /** Every saved superuser carries the role "administrador", so passes. */
  lemma SuperusuarioGuardadoPasa(user: User)
    requires user.isSuperuser && Sincronizado(user.isSuperuser, user.Flags())
    ensures SoloAdminTest(user)
  {
  }

  /** Among saved users the dashboard admits the administrators, superuser or not, and no moderator. */
  lemma {:induction false} DashboardTrasGuardar(user: User)
    requires Sincronizado(user.isSuperuser, user.Flags())
    ensures SoloAdminTest(user) ==> user.isStaff
    ensures user.rol == ROL_MODERADOR ==> !SoloAdminTest(user) && SoloAdministradoresTest(user)
  {
    AdministradoresTrasGuardar(user);
  }
}
