# eventos-vecinales in Dafny

A Dafny model of the core of *eventos-vecinales*, a Django application
where neighbours publish local events, moderators approve them, and
users claim seats ("cupos") through a checkout page. The model covers:

- the seat ledger (`Inscripcion` rows, at most one per event and user) and
  the capacity properties of `Event` (`cupos_ocupados`, `cupos_disponibles`,
  `esta_lleno`, `es_gratuito`);
- the date classifiers of `Event` (`es_proximo`, `esta_finalizado`,
  `css_clase_tiempo`, `texto_tiempo`, `estado_tiempo`, `estado_tiempo_clase`)
  over Python dates, with `(a - b).days` given by the proleptic Gregorian
  ordinal as Python's `date.toordinal` computes it;
- the registration view `asistir`: age gate, state gate, quantity parsing
  and limiting, the seats the other users leave, and the in-place update or
  creation of the user's ledger row; with `checkout_exito`, the moderator's
  `cambiar_estado_evento` and the default state in `EventCreateView.form_valid`;
- the custom `User`: `save` keeping `is_staff` and `rol` in step with
  `is_superuser`, and the `has_perm`/`has_module_perms` overrides that hide
  user administration from moderators;
- the administrator's user forms (role to flags on `save`, flags to role in
  `__init__`) and the `clean` validators of the event, checkout and user forms;
- the three access tests: `es_admin_o_moderador` (with `DueñoEventoMixin`),
  `SoloAdministradoresMixin` and `SoloAdminMixin`.

Modules, one per source file: `EventModels` (events/models.py),
`EventViews` (events/views.py), `EventForms` (events/forms.py), `Accounts`
(accounts/models.py), `AccountForms` (accounts/forms.py), `AccountViews`
(accounts/views.py), `AdminViews` (accounts/admin_views.py); with
`Calendar` (Python `date` comparison and ordinals), `PyText` (`int()` on
text, `str()` of a natural, `startswith`) and `Common` (`Option`, form
errors, the confirmation check both forms share, Python truthiness of an
optional string). The Python builtins the rows rely on are modelled by
`Calendar.Cmp` (date comparison), `Calendar.Ordinal` (`date.toordinal`),
`PyText.ParseInt` (`int(text)`, including the 4300-digit limit of
`sys.int_info.default_max_str_digits`), `PyText.Decimal` (`str(n)`) and
`PyText.StartsWith` (`str.startswith`).

State that the source changes in place is modelled as classes: `Db` holds
the `events` map and the `inscripciones` ledger (with the unique-together
constraint as `Db.Valid`), and `User` is a class whose `Save` updates its
fields. An anonymous visitor is a `null` user. The clock enters as an
explicit `Reloj`: with `USE_TZ` on, the age checks read the date of
`timezone.now()` (UTC) while the `Event` properties read
`timezone.localdate()`, and `asistir` reads `esta_finalizado` twice, so the
model takes three dates. Redirects, rendered pages and flash messages are
the cases of the `Respuesta` datatype.

Where the code and its intent part ways, the model follows the code:

- `asistir` guards its capacity computation with `cupos_totales is not None`,
  but the field is a `PositiveIntegerField` that is never `None`. For the
  value 0, which the model's own properties read as "no limit", the view
  leaves 0 remaining seats and settles every request on 0 seats
  (`EventViews.SinLimiteNoAdmite`).
- The edit form offers no value for a non-superuser whose role is
  "administrador" other than "administrador" itself, and saving it makes
  that user a superuser (`AccountForms.ReeditarConservaPermisos`).
- `SoloAdministradoresMixin` admits any staff user, so every saved
  moderator reaches the user-administration views, although `has_perm`
  denies moderators every "accounts." permission (`AccountViews.AdministradoresTrasGuardar`,
  `AdminViews.DashboardTrasGuardar`).
- `EventCreateView.form_valid` falls back to "pendiente" when the new
  event has no state, but `estado` is not one of `EventForm`'s fields, so
  the instance always carries the model default "pendiente" and the
  fallback never fires (`EventViews.CrearEvento`).

## Model

| member | source | states |
|---|---|---|
| Calendar.Cmp | events/forms.py:112 | date comparison is three-valued and is 0 exactly on equal dates |
| Calendar.CmpAgreesWithOrdinal | events/models.py:163 | on real dates, `<`, `==` and `>` agree with the order of the day numbers behind `(a - b).days` |
| PyText.ParseInt | events/views.py:323-326 | blank text does not parse; text parses exactly when, stripped, it is a well-formed digit string of at most 4300 digits after at most one sign, whose value it then is, negated after "-" |
| PyText.ParseIntAcepta | events/views.py:323-326 | any whitespace, an optional sign and a well-formed digit string of at most 4300 digits parse to the digits' value with that sign |
| PyText.ParseIntRechazaLargo | events/views.py:323-326 | the same text with more than 4300 digits (underscores not counted) does not parse, so the view falls back to 1 |
| PyText.StripPadded | events/views.py:324 | the stripping `int()` does removes exactly the surrounding whitespace |
| PyText.Decimal | events/models.py:194 | `str(n)` of a natural is a non-empty string of digits |
| PyText.ParseIntDecimal | events/views.py:323-324 | `int(str(n)) == n` for every natural `n` that `str` prints (at most 4300 digits) |
| EventModels.Suma | events/models.py:105-111 | the aggregate is 0 exactly when every row it counts holds 0 seats (no rows gives 0) |
| EventModels.CuposOcupados | events/models.py:105-111 | an event's occupancy is 0 exactly when each of its rows holds 0 seats |
| EventModels.UsadosPorOtros | events/views.py:342-346 | the other users' seats are 0 exactly when each row of the event for another user holds 0 |
| EventModels.CantidadDe | events/views.py:429-439 | the user's seats are 0 exactly when each of the user's rows for the event holds 0 |
| EventModels.OcupadosSeparados | events/views.py:342-346 | an event's occupancy is the other users' seats plus the user's own |
| EventModels.Buscar | events/views.py:335-337 | `.first()` yields the first row of that event and user, `None` exactly when there is none |
| EventModels.CantidadDeEsLaFila | events/models.py:267-268 | under unique-together, the user's seats are the quantity of the found row, 0 without one |
| EventModels.Upsert | events/views.py:381-395 | an existing row gets the new quantity in place; otherwise one row is appended; rows of other (event, user) pairs are untouched |
| EventModels.UpsertUnicas | events/models.py:268 | the upsert keeps the ledger free of duplicate (event, user) rows |
| EventModels.UpsertCantidades | events/views.py:381-395 | after the upsert the user holds exactly the quantity set (not added), the others' seats and other events' occupancy are unchanged |
| EventModels.UpsertEncuentra | events/views.py:381-395 | after the upsert the user's row is found, where it was or at the end, holding the quantity set |
| EventModels.UpsertIdempotente | events/views.py:381-395 | repeating the same upsert leaves the ledger as it is |
| EventModels.CuposDisponibles | events/models.py:113-122 | `None` exactly when capacity is 0; otherwise within [0, capacity], 0 exactly when the event is full, and capacity minus occupancy when positive |
| EventModels.EstaLleno | events/models.py:124-132 | never full with capacity 0; otherwise full exactly when occupancy reaches capacity |
| EventModels.EsGratuito | events/models.py:134-139 | free exactly when the price is missing or not positive |
| EventModels.EsProximo | events/models.py:143-152 | upcoming exactly when the end date, falling back to the start date, exists and is today or later |
| EventModels.EstaFinalizado | events/models.py:200-209 | finished exactly when the end date, falling back to the start date, exists and is before today |
| EventModels.ProximoPorDias | events/models.py:143-209 | on real dates, upcoming means a non-negative and finished a negative number of days until the last day |
| EventModels.ProximoOFinalizado | events/models.py:143-209 | without dates neither upcoming nor finished; with an end date (falling back to the start date) exactly one of the two |
| EventModels.BandaDe | events/models.py:165-174 | the day difference falls in exactly one band: no date, past, today, 1-3, 4-7, later |
| EventModels.CssClaseTiempo | events/models.py:154-174 | the badge class is the class of the band the start date's day difference falls in |
| EventModels.TextoTiempo | events/models.py:176-198 | the badge text is the text of that band, with "Mañana", "En 2 días" or "En 3 días" inside 1-3 days |
| EventModels.CssSigueBanda | events/models.py:154-174 | two events get the same badge class exactly when their day differences fall in the same band |
| EventModels.TextoEnDias | events/models.py:193-194 | the text for 2 and 3 days is "En 2 días" and "En 3 días" |
| EventModels.TextoSigueBanda | events/models.py:176-198 | the badge text follows the same bands, and within 1-3 days also tells each day apart |
| EventModels.EstadoTiempo | events/models.py:211-233 | "finalizado" exactly when finished; otherwise "hoy" exactly on day 0, "pronto" exactly for 1-3 days, "normal" for every other band including no start date |
| EventModels.EstadoTiempoClase | events/models.py:235-246 | every label is a key of the mapping, so the result is its class; the danger class exactly when finished |
| EventModels.Db.constructor | events/models.py:249-268 | an empty database satisfies the ledger's constraints |
| Accounts.Sincronizar | accounts/models.py:42-53 | the flags after `save` are synchronised; a synchronised user is left as is; a non-superuser keeps the role |
| Accounts.SincronizarIdempotente | accounts/models.py:42-53 | saving twice is saving once |
| Accounts.User.constructor | accounts/models.py:19-24 | a new user is an active "vecino" with no flags |
| Accounts.User.Save | accounts/models.py:34-55 | `save` changes only `is_staff` and `rol`: a superuser becomes staff "administrador", anyone else is staff exactly when moderator or administrator |
| Accounts.User.HasModulePerms | accounts/models.py:59-76 | a superuser sees every module; a staff moderator every one but "accounts" and "auth"; anyone else gets the framework's answer |
| Accounts.User.HasPerm | accounts/models.py:78-95 | a superuser has every permission; a staff moderator every one not starting with "accounts." or "auth."; anyone else gets the framework's answer |
| Accounts.PrefijoDeEtiqueta | accounts/models.py:90-91 | "label.codename" starts with "app." exactly when the label is the app |
| Accounts.ModuloYPermisoCoinciden | accounts/models.py:70-93 | for a staff moderator, a permission is granted exactly when its module is shown |
| Common.ErrorSiDistintos | accounts/forms.py:65-66 | the shared confirmation check: one error on the given field exactly when both values are given and differ |
| AccountForms.LimpiarAlta | accounts/forms.py:61-67 | one error, on "password2", exactly when both passwords are given and differ |
| AccountForms.PermisosDeRol | accounts/forms.py:80-87 | staff exactly for "moderador", "administrador" and "admin"; superuser exactly for the last two |
| AccountForms.GuardarAlta | accounts/forms.py:69-95 | the new user gets the form fields, the password only when given, the flags of the role, and the model's synchronisation on commit |
| AccountForms.FormularioYModeloConcuerdan | accounts/forms.py:80-94 | for every offered role the model's `save` keeps what the form set; the legacy "admin" becomes "administrador" |
| AccountForms.RolInicial | accounts/forms.py:130-142 | the initial role is always an offered one: the current role when offered, else by superuser, then staff, then "vecino" |
| AccountForms.RolInicialTrasGuardar | accounts/forms.py:130-159 | saving an offered role and opening the edit form again shows that role |
| AccountForms.ReeditarConservaPermisos | accounts/forms.py:130-159 | resubmitting the edit form of a saved user keeps the flags exactly unless the user is a non-superuser "administrador" |
| AccountForms.AdminUserUpdateForm.constructor | accounts/forms.py:130-142 | `initial` gains the derived role |
| AccountForms.AdminUserUpdateForm.Save | accounts/forms.py:144-163 | the edited user gets the form fields and the flags of the role, the password and id stay, then the model's synchronisation on commit |
| EventForms.NuevaInstancia | events/forms.py:11-27 | the instance a creation form builds carries exactly the form's fields and the model default state "pendiente" |
| EventForms.LimpiarEvento | events/forms.py:107-117 | one error, on "fecha_termino", exactly when both dates are given and the end is before the start |
| EventForms.LimpiarEventoPorDias | events/forms.py:112 | on real dates the error appears exactly when the end lies a negative number of days after the start |
| EventForms.LimpiarCheckout | events/forms.py:154-165 | one error, on "email_confirmacion", exactly when both e-mails are given and differ |
| EventForms.CheckoutValido | events/forms.py:126-165 | a valid checkout has an e-mail equal to its confirmation |
| AccountViews.SoloAdministradoresTest | accounts/views.py:18-29 | anonymous refused; admitted exactly when superuser, staff, or role "administrador"/"admin"; a plain "vecino" or "moderador" refused |
| AccountViews.AdministradoresTrasGuardar | accounts/views.py:25-29 | for a saved user (other than legacy "admin") admission is exactly staff, so every saved moderator is admitted |
| AdminViews.SoloAdminTest | accounts/admin_views.py:17-19 | admitted exactly when authenticated with role "administrador"; flags play no part |
| AdminViews.SoloAdminMasEstricto | accounts/admin_views.py:19 | whoever passes the dashboard test passes the user-administration test, and not the other way round |
| AdminViews.SuperusuarioGuardadoPasa | accounts/admin_views.py:19 | every saved superuser passes |
| AdminViews.DashboardTrasGuardar | accounts/admin_views.py:19 | among saved users, everyone admitted is staff and no moderator is, though moderators pass the user-administration test |
| EventViews.EsAdminOModerador | events/views.py:27-44 | anonymous refused; otherwise admitted exactly when superuser, staff, or role "administrador", "admin" or "moderador" |
| EventViews.PanelEventosYUsuarios | events/views.py:40-44 | the event panel admits exactly the user-administration test's users plus moderators |
| EventViews.DuenoEventoTest | events/views.py:157-164 | anonymous refused; administrators and moderators admitted; anyone else exactly when creator |
| EventViews.Edad | events/views.py:301-306 | the age is the difference of the years, less one exactly when this year's birthday is still to come |
| EventViews.EdadCaracterizada | events/views.py:301-306 | the age reaches n exactly when the birth date is not after the same day n years earlier |
| EventViews.PuedePorEdad | events/views.py:120-145 | any event without age limit; an adults-only event exactly for a user with a birth date at least 18 years back, birthday included |
| EventViews.MayoriaEnElCumpleanos | events/views.py:301-307 | on the eighteenth birthday the age is 18; on the day before it, including across a month or year boundary, it is 17 |
| EventViews.TextoCantidad | events/views.py:322 | the quantity text is the non-empty GET value, else the non-empty POST value, else "1"; never empty |
| EventViews.CantidadPedida | events/views.py:321-332 | the requested quantity lies in 1..5; unparsable text gives 1; a parsed value is limited to 1..5 |
| EventViews.CantidadPedidaDecimal | events/views.py:322-332 | a number typed as at most 4300 digits is read back and limited to 1..5 |
| EventViews.CuposRestantes | events/views.py:347 | the remaining seats lie within capacity, are 0 exactly when the others fill it, and fill it up otherwise |
| EventViews.CantidadAsignada | events/views.py:321-349 | the settled quantity is at most 5, at most the requested one and at most the remaining seats; it is the requested one unless cut down to the remaining seats; 0 exactly when none remain |
| EventViews.CantidadYCupos | events/views.py:321-349 | the view's steps compute the settled quantity and the remaining seats |
| EventViews.Total | events/views.py:408 | a missing price or no seats charge 0; otherwise the price times the seats |
| EventViews.TotalSegunGratuidad | events/views.py:408 | a free event never charges; a paid one charges exactly when seats are taken |
| EventViews.Asistir | events/views.py:276-420 | login, 404, age gate before state gate, invalid form re-shown with quantity, total, seats and registration, finished on the second look, no seats for a new row with 0, else the upsert with the settled quantity; the ledger changes only on success and keeps its constraints |
| EventViews.SinLimiteNoAdmite | events/views.py:339-349 | with capacity 0 the model reports unlimited and never full, yet the view settles on 0 seats |
| EventViews.NoSobreventa | events/views.py:339-395 | after one request the event holds at most max(capacity, others' seats); a ledger within capacity stays within it |
| EventViews.AsistirRepetido | events/views.py:334-395 | sending the same request again settles on the same quantity, finds the row and changes nothing |
| EventViews.CheckoutExito | events/views.py:423-449 | login, 404, no registration; a found row always gives the success page, with the user's seats and their price |
| EventViews.ExitoTrasRegistro | events/views.py:398-449 | after a registration the success page shows the settled quantity and its total |
| EventViews.CambiarEstadoEvento | events/views.py:252-270 | refused users, missing events and states other than the three change nothing; otherwise only that event's state changes, from any state |
| EventViews.EstadoYDisponibilidad | events/views.py:314-319 | after a state change, registration opens exactly for "aprobado" |
| EventViews.CrearEvento | events/views.py:173-182 | the new event is stored under a fresh key, built from the form's fields, owned by the user, always "pendiente" |
| EventViews.EstadoInicial | events/views.py:176-177 | an empty state becomes "pendiente", any other is kept |

## Left out

- I/O of the web layer: templates, rendered context other than the values in `Respuesta`, flash messages, redirects' URLs, `handle_no_permission`.
- The ORM: queries are functions over the `Db` fields; `.first()` takes the ledger in its stored order.
- Concurrency and transactions: `asistir` is one sequential request; two simultaneous requests can overbook in the source, and the model does not show it.
- Password hashing: `set_password` is modelled as storing the text.
- `EmailField` syntax, `CharField` whitespace stripping and the other field-level cleaning of the forms: `CheckoutValido` takes the cleaned values.
- PyText.Decimal: `str(n)` raising `ValueError` past 4300 digits is not modelled; the application prints only 2 and 3 with it, and `ParseIntDecimal` requires the limit.
- `int()` on text: the whitespace modelled is the ASCII set Python strips (space, `\t` to `\r`, `\x1c` to `\x1f`); non-ASCII whitespace and non-ASCII decimal digits, which Python also accepts, are not modelled.
- HTTP methods other than POST behave as GET in the source and are modelled as `Get`.
- `getattr(user, "birth_date")` and `getattr(user, "fecha_nac")`: the `User` model has neither, so only `fecha_nacimiento` is read.
- The listing views (`EventListView`, `MisEventosListView`), `AdminPanelView` counts, `EventUpdateView`/`EventDeleteView` beyond their access test, the user list and create/update views beyond their access test: query plumbing and page rendering.
- Accounts.User.HasModulePerms: the framework's own answer (`super().has_module_perms`) is a parameter, not computed.
- Accounts.User.HasPerm: the framework's own answer (`super().has_perm`) and the `obj` argument are parameters, not computed.
- AccountForms.GuardarAlta: the form's required-field checks are not modelled; the role is any text, a superset of the choices the form offers.
- EventViews.CrearEvento: the form's field-level validation is assumed passed (valid dates and no `clean` error), as the framework calls `form_valid` only then; the form fields the event datatype does not keep (`localidad`, times, `lugar`, `direccion`, `imagen`) are not modelled.
- Migrations, settings, URL routing, the admin registrations and the database scripts: configuration without runtime logic.
