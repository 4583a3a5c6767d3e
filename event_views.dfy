/**
  events/views.py: the access tests of the event views, the age rule, the
  registration ("asistir") workflow over the seat ledger, its success
  page, the moderator's state change and the creation of an event.
  A `null` user is the anonymous visitor; `login_required` and
  `user_passes_test` send that visitor (or a refused user) to the login page.
*/
module EventViews {
  import opened Common
  import opened Calendar
  import opened EventModels
  import opened EventForms
  import opened Accounts
  import AccountViews
  import PyText

  // ---------------------------------------------------------------------
  // Access tests
  // ---------------------------------------------------------------------

  /** `es_admin_o_moderador(user)` */
  function EsAdminOModerador(user: User?): (r: bool)
    reads user
    ensures user == null ==> !r
    ensures user != null ==> (r <==> user.isSuperuser || user.isStaff || user.rol in {ROL_ADMIN, "admin", ROL_MODERADOR})
  {
    if user == null then false
    else
      var rol := user.rol;
      user.isSuperuser || user.isStaff || rol in [ROL_ADMIN, "admin", ROL_MODERADOR]
  }

  /** The event panel admits everyone the user-administration views admit, and also moderators without staff. */
  lemma {:induction false} PanelEventosYUsuarios(user: User?)
    ensures EsAdminOModerador(user) <==>
      AccountViews.SoloAdministradoresTest(user) || (user != null && user.rol == ROL_MODERADOR)
  {
  }

  /** `DueñoEventoMixin.test_func`: administrators and moderators, or the event's creator. */
  function DuenoEventoTest(user: User?, ev: Event): (r: bool)
    reads user
    ensures user == null ==> !r
    ensures EsAdminOModerador(user) ==> r
    ensures user != null && !EsAdminOModerador(user) ==> (r <==> ev.creadoPor == user.id)
  {
    if user == null then false
    else if EsAdminOModerador(user) then true
    else ev.creadoPor == user.id
  }

  // ---------------------------------------------------------------------
  // Age
  // ---------------------------------------------------------------------

  /** `hoy.year - nac.year - ((hoy.month, hoy.day) < (nac.month, nac.day))` */
  function Edad(hoy: Date, nac: Date): (edad: int)
    ensures edad == hoy.year - nac.year || edad == hoy.year - nac.year - 1
    ensures edad == hoy.year - nac.year <==> Ge(hoy, Date(hoy.year, nac.month, nac.day))
  {
    var antesDelCumpleanos := hoy.month < nac.month || (hoy.month == nac.month && hoy.day < nac.day);
    hoy.year - nac.year - (if antesDelCumpleanos then 1 else 0)
  }

  /**
    The age reaches `n` exactly when the birth date is not after the same
    day and month `n` years earlier: the `n`-th birthday itself counts.
  */
  lemma EdadCaracterizada(hoy: Date, nac: Date, n: int)
    ensures Edad(hoy, nac) >= n <==> Ge(Date(hoy.year - n, hoy.month, hoy.day), nac)
  {
  }

  /** The detail view's `puede_inscribirse_por_edad`, with `hoy` the date of `timezone.now()`. */
  function PuedePorEdad(ev: Event, user: User?, hoy: Date): (r: bool)
    reads user
    ensures !ev.soloMayores18 ==> r
    ensures ev.soloMayores18 ==>
      (r <==> user != null && user.fechaNacimiento.Some?
              && Ge(Date(hoy.year - 18, hoy.month, hoy.day), user.fechaNacimiento.value))
  {
    if !ev.soloMayores18 then true
    else if user == null then false
    else match user.fechaNacimiento
      case None => false
      case Some(nac) =>
        EdadCaracterizada(hoy, nac, 18);
        Edad(hoy, nac) >= 18
  }

  /**
    The eighteenth birthday is the first day an adults-only event accepts:
    on it the age is 18, and on the day before it (the previous day of the
    month, the last day of the previous month, or 31 December) it is 17.
  */
  lemma {:induction false} MayoriaEnElCumpleanos(hoy: Date, nac: Date)
    requires ValidDate(hoy) && hoy != Date(MAX_YEAR, 12, 31)
    ensures nac == Date(hoy.year - 18, hoy.month, hoy.day) ==> Edad(hoy, nac) == 18
    ensures var manana := NextDay(hoy);
      nac == Date(manana.year - 18, manana.month, manana.day) ==> Edad(hoy, nac) == 17 && Edad(manana, nac) == 18
  {
  }

  // ---------------------------------------------------------------------
  // The registration workflow
  // ---------------------------------------------------------------------

  /**
    The readings of the clock that one request makes: the date of
    `timezone.now()` for the age check, and the local date behind
    `esta_finalizado` before and after the checkout form is validated.
  */
  datatype Reloj = Reloj(utc: Date, local: Date, localAlGuardar: Date)

  datatype Metodo = Get | Post

  /** The parts of an HTTP request the view reads. */
  datatype Solicitud = Solicitud(
    metodo: Metodo,
    cantidadGet: Option<string>,
    cantidadPost: Option<string>,
    checkout: DatosCheckout)

  /** What a view answers with. */
  datatype Respuesta =
    | RedirigeLogin
    | NoEncontrado
    | SinFechaNacimiento
    | MenorDeEdad
    | NoDisponible
    | Checkout(cantidad: nat, total: int, cuposRestantes: nat, yaInscrito: bool)
    | YaFinalizado
    | SinCupos
    | Registrada
    | SinInscripcion
    | Exito(cantidad: nat, total: int)
    | EstadoNoValido
    | EstadoActualizado(estado: string)
    | EventoCreado(pk: int)

  /** `request.GET.get("cantidad") or request.POST.get("cantidad") or "1"` */
  function TextoCantidad(req: Solicitud): (t: string)
    ensures t != ""
    ensures Truthy(req.cantidadGet) ==> t == req.cantidadGet.value
    ensures !Truthy(req.cantidadGet) && Truthy(req.cantidadPost) ==> t == req.cantidadPost.value
    ensures !Truthy(req.cantidadGet) && !Truthy(req.cantidadPost) ==> t == "1"
  {
    if Truthy(req.cantidadGet) then req.cantidadGet.value
    else if Truthy(req.cantidadPost) then req.cantidadPost.value
    else "1"
  }

  /** The requested quantity: `int()` of the text, 1 when it does not parse, then limited to 1..5. */
  function CantidadPedida(req: Solicitud): (c: int)
    ensures 1 <= c <= 5
    ensures PyText.ParseInt(TextoCantidad(req)).None? ==> c == 1
    ensures var p := PyText.ParseInt(TextoCantidad(req));
      p.Some? ==> c == (if p.value < 1 then 1 else if p.value > 5 then 5 else p.value)
  {
    var p := PyText.ParseInt(TextoCantidad(req));
    var v := if p.Some? then p.value else 1;
    if v < 1 then 1 else if v > 5 then 5 else v
  }

  /** A quantity typed as a plain number is read back as that number, limited to 1..5. */
  lemma {:induction false} CantidadPedidaDecimal(req: Solicitud, n: nat)
    requires TextoCantidad(req) == PyText.Decimal(n) && |PyText.Decimal(n)| <= PyText.MAX_STR_DIGITS
    ensures CantidadPedida(req) == if n < 1 then 1 else if n > 5 then 5 else n
  {
    PyText.ParseIntDecimal(n);
  }

  /** `max(cupos_totales - usados_por_otros, 0)` */
  function CuposRestantes(total: nat, otros: nat): (r: nat)
    ensures r <= total && r + otros >= total
    ensures r == 0 <==> otros >= total
    ensures r > 0 ==> r + otros == total
  {
    if total - otros > 0 then total - otros else 0
  }

  /** The quantity the view settles on: the requested one, cut down to the seats the others leave. */
  function CantidadAsignada(ev: Event, pk: int, rows: seq<Inscripcion>, u: int, req: Solicitud): (c: nat)
    ensures c <= 5 && c <= CantidadPedida(req) && c <= CuposRestantes(ev.cuposTotales, UsadosPorOtros(rows, pk, u))
    ensures c == CantidadPedida(req) || c == CuposRestantes(ev.cuposTotales, UsadosPorOtros(rows, pk, u))
    ensures c < CantidadPedida(req) ==> c == CuposRestantes(ev.cuposTotales, UsadosPorOtros(rows, pk, u))
    ensures c == 0 <==> CuposRestantes(ev.cuposTotales, UsadosPorOtros(rows, pk, u)) == 0
  {
    var restantes := CuposRestantes(ev.cuposTotales, UsadosPorOtros(rows, pk, u));
    var pedida := CantidadPedida(req);
    if pedida > restantes then restantes else pedida
  }

  /** `(evento.precio_entrada or 0) * cantidad` */
  function Total(ev: Event, cantidad: nat): (total: int)
    ensures ev.precioEntrada.None? || cantidad == 0 ==> total == 0
    ensures ev.precioEntrada.Some? ==> total == ev.precioEntrada.value * cantidad
  {
    (if ev.precioEntrada.Some? then ev.precioEntrada.value else 0) * cantidad
  }

  /** A free event never charges; a paid one charges exactly when seats are taken. */
  lemma TotalSegunGratuidad(ev: Event, cantidad: nat)
    ensures EsGratuito(ev) ==> Total(ev, cantidad) <= 0
    ensures !EsGratuito(ev) ==> (Total(ev, cantidad) > 0 <==> cantidad > 0)
  {
  }

  /** The gates a request has passed once the quantity is computed: age, approval and not finished. */
  predicate Abierto(ev: Event, user: User, reloj: Reloj)
    reads user
  {
    PuedePorEdad(ev, user, reloj.utc) && ev.estado == ESTADO_APROBADO && !EstaFinalizado(ev, reloj.local)
  }

  /**
    Lines 321-349 of `asistir`: parse and limit the quantity, then cut it
    down to the seats the other users leave.
  */
  method CantidadYCupos(evento: Event, pk: int, filas: seq<Inscripcion>, u: int, req: Solicitud)
    returns (cantidad: nat, cuposRestantes: nat)
    ensures cantidad == CantidadAsignada(evento, pk, filas, u, req)
    ensures cuposRestantes == CuposRestantes(evento.cuposTotales, UsadosPorOtros(filas, pk, u))
  {
    var pedida: int;
    match PyText.ParseInt(TextoCantidad(req)) {
      case Some(v) => pedida := v;
      case None => pedida := 1;
    }
    if pedida < 1 {
      pedida := 1;
    }
    if pedida > 5 {
      pedida := 5;
    }
    // `cupos_totales` is a PositiveIntegerField, never None: the guard always holds
    var usadosPorOtros := UsadosPorOtros(filas, pk, u);
    cuposRestantes := if evento.cuposTotales - usadosPorOtros > 0 then evento.cuposTotales - usadosPorOtros else 0;
    if pedida > cuposRestantes {
      pedida := cuposRestantes;
    }
    cantidad := pedida;
  }

  /** `asistir(request, pk)` */
  method Asistir(db: Db, user: User?, pk: int, req: Solicitud, reloj: Reloj) returns (r: Respuesta)
    requires db.Valid()
    modifies db`inscripciones
    ensures db.Valid()
    ensures r != Registrada ==> db.inscripciones == old(db.inscripciones)
    ensures user == null <==> r == RedirigeLogin
    ensures user != null ==> (r == NoEncontrado <==> pk !in db.events)
    ensures user != null && pk in db.events ==>
      var ev := db.events[pk];
      && (r == SinFechaNacimiento <==> ev.soloMayores18 && user.fechaNacimiento.None?)
      && (r in {SinFechaNacimiento, MenorDeEdad} <==> !PuedePorEdad(ev, user, reloj.utc))
      && (r == NoDisponible <==>
            PuedePorEdad(ev, user, reloj.utc) && !(ev.estado == ESTADO_APROBADO && !EstaFinalizado(ev, reloj.local)))
    ensures user != null && pk in db.events && Abierto(db.events[pk], user, reloj) ==>
      var ev := db.events[pk];
      var filas := old(db.inscripciones);
      var c := CantidadAsignada(ev, pk, filas, user.id, req);
      var existe := Buscar(filas, pk, user.id).Some?;
      var valido := req.metodo == Post && CheckoutValido(req.checkout);
      && (r.Checkout? <==> !valido)
      && (r.Checkout? ==>
            r == Checkout(c, Total(ev, c), CuposRestantes(ev.cuposTotales, UsadosPorOtros(filas, pk, user.id)), existe))
      && (r == YaFinalizado <==> valido && EstaFinalizado(ev, reloj.localAlGuardar))
      && (r == SinCupos <==> valido && !EstaFinalizado(ev, reloj.localAlGuardar) && !existe && c == 0)
      && (r == Registrada <==> valido && !EstaFinalizado(ev, reloj.localAlGuardar) && (existe || c > 0))
    ensures r == Registrada ==>
      user != null && pk in db.events &&
      db.inscripciones == Upsert(old(db.inscripciones), pk, user.id,
                                 CantidadAsignada(db.events[pk], pk, old(db.inscripciones), user.id, req))
  {
    if user == null {
      return RedirigeLogin;
    }
    if pk !in db.events {
      return NoEncontrado;
    }
    var evento := db.events[pk];

    // age gate, before the state gate
    if evento.soloMayores18 {
      var fechaNac := user.fechaNacimiento;
      if fechaNac.None? {
        return SinFechaNacimiento;
      }
      var hoy := reloj.utc;
      var edad := Edad(hoy, fechaNac.value);
      if edad < 18 {
        return MenorDeEdad;
      }
    }

    if evento.estado != ESTADO_APROBADO || EstaFinalizado(evento, reloj.local) {
      return NoDisponible;
    }

    var filas := db.inscripciones;
    var actual := Buscar(filas, pk, user.id);
    var cantidad, cuposRestantes := CantidadYCupos(evento, pk, filas, user.id, req);

    if req.metodo == Post {
      if !CheckoutValido(req.checkout) {
        return Checkout(cantidad, Total(evento, cantidad), cuposRestantes, actual.Some?);
      }
      // the second look at the clock
      if EstaFinalizado(evento, reloj.localAlGuardar) {
        return YaFinalizado;
      }
      // the seat re-check never rejects: the quantity was already cut down
      assert cantidad <= cuposRestantes;

      if actual.Some? {
        var i := actual.value;
        db.inscripciones := filas[i := filas[i].(cantidad := cantidad)];
      } else {
        if cantidad == 0 {
          return SinCupos;
        }
        db.inscripciones := filas + [Inscripcion(pk, user.id, cantidad)];
      }
      UpsertUnicas(filas, pk, user.id, cantidad);
      return Registrada;
    }

    return Checkout(cantidad, Total(evento, cantidad), cuposRestantes, actual.Some?);
  }

  /**
    When capacity 0 ("sin límite") is configured, the model reports
    unlimited seats and never full, yet the view settles every request on 0
    seats: nobody new can register, and a registered user's seats drop to 0.
  */
  lemma {:induction false} SinLimiteNoAdmite(ev: Event, pk: int, rows: seq<Inscripcion>, u: int, req: Solicitud)
    requires ev.cuposTotales == 0
    ensures CuposDisponibles(ev, pk, rows).None? && !EstaLleno(ev, pk, rows)
    ensures CantidadAsignada(ev, pk, rows, u, req) == 0
  {
  }

  /**
    No overbooking by one request: after the upsert with the settled
    quantity the event holds at most `max(cupos_totales, usados_por_otros)`
    seats, and a ledger within capacity stays within capacity.
  */
  lemma {:induction false} NoSobreventa(ev: Event, pk: int, rows: seq<Inscripcion>, u: int, req: Solicitud)
    requires Unicas(rows)
    ensures var otros := UsadosPorOtros(rows, pk, u);
      var despues := CuposOcupados(Upsert(rows, pk, u, CantidadAsignada(ev, pk, rows, u, req)), pk);
      despues <= (if ev.cuposTotales >= otros then ev.cuposTotales else otros)
    ensures CuposOcupados(rows, pk) <= ev.cuposTotales ==>
      CuposOcupados(Upsert(rows, pk, u, CantidadAsignada(ev, pk, rows, u, req)), pk) <= ev.cuposTotales
  {
    var c := CantidadAsignada(ev, pk, rows, u, req);
    UpsertCantidades(rows, pk, u, c);
    OcupadosSeparados(rows, pk, u);
  }

  /** The settled quantity depends on the ledger only through the other users' seats. */
  lemma AsignadaSoloDeOtros(ev: Event, pk: int, rows1: seq<Inscripcion>, rows2: seq<Inscripcion>, u: int, req: Solicitud)
    requires UsadosPorOtros(rows1, pk, u) == UsadosPorOtros(rows2, pk, u)
    ensures CantidadAsignada(ev, pk, rows1, u, req) == CantidadAsignada(ev, pk, rows2, u, req)
  {
  }

  /**
    Sending the same request again settles on the same quantity, finds the
    row the first one left, and leaves the ledger as it was.
  */
  lemma {:induction false} AsistirRepetido(ev: Event, pk: int, rows: seq<Inscripcion>, u: int, req: Solicitud)
    requires Unicas(rows)
    ensures var c := CantidadAsignada(ev, pk, rows, u, req);
      var despues := Upsert(rows, pk, u, c);
      && CantidadAsignada(ev, pk, despues, u, req) == c
      && Buscar(despues, pk, u).Some?
      && Upsert(despues, pk, u, c) == despues
  {
    var c := CantidadAsignada(ev, pk, rows, u, req);
    UpsertCantidades(rows, pk, u, c);
    AsignadaSoloDeOtros(ev, pk, rows, Upsert(rows, pk, u, c), u, req);
    UpsertEncuentra(rows, pk, u, c);
    UpsertIdempotente(rows, pk, u, c);
  }

  /** A registration with the settled quantity is what the success page then shows, at its price. */
  lemma {:induction false} ExitoTrasRegistro(db: Db, user: User, pk: int, req: Solicitud, filas: seq<Inscripcion>)
    requires db.Valid() && pk in db.events
    requires db.inscripciones == Upsert(filas, pk, user.id, CantidadAsignada(db.events[pk], pk, filas, user.id, req))
    ensures var c := CantidadAsignada(db.events[pk], pk, filas, user.id, req);
      CheckoutExito(db, user, pk) == Exito(c, Total(db.events[pk], c))
  {
    UpsertEncuentra(filas, pk, user.id, CantidadAsignada(db.events[pk], pk, filas, user.id, req));
  }

  /** `checkout_exito(request, pk)`: the user's row for the event and its price. */
  function CheckoutExito(db: Db, user: User?, pk: int): (r: Respuesta)
    requires db.Valid()
    reads db, user
    ensures user == null <==> r == RedirigeLogin
    ensures user != null ==> (r == NoEncontrado <==> pk !in db.events)
    ensures user != null && pk in db.events ==> (r == SinInscripcion <==> Buscar(db.inscripciones, pk, user.id).None?)
    ensures user != null && pk in db.events && Buscar(db.inscripciones, pk, user.id).Some? ==> r.Exito?
    ensures r.Exito? ==>
      (user != null && pk in db.events
       && r.cantidad == CantidadDe(db.inscripciones, pk, user.id) && r.total == Total(db.events[pk], r.cantidad))
  {
    if user == null then RedirigeLogin
    else if pk !in db.events then NoEncontrado
    else match Buscar(db.inscripciones, pk, user.id)
      case None => SinInscripcion
      case Some(i) =>
        CantidadDeEsLaFila(db.inscripciones, pk, user.id);
        var cantidad := db.inscripciones[i].cantidad;
        Exito(cantidad, Total(db.events[pk], cantidad))
  }

  // ---------------------------------------------------------------------
  // Moderation and creation
  // ---------------------------------------------------------------------

  const ESTADOS: set<string> := {ESTADO_PENDIENTE, ESTADO_APROBADO, ESTADO_RECHAZADO}

  /** `cambiar_estado_evento(request, pk, nuevo_estado)`: any state to any of the three, nothing else changes. */
  method CambiarEstadoEvento(db: Db, user: User?, pk: int, nuevoEstado: string) returns (r: Respuesta)
    requires db.Valid()
    modifies db`events
    ensures db.Valid()
    ensures !EsAdminOModerador(user) ==> r == RedirigeLogin && db.events == old(db.events)
    ensures EsAdminOModerador(user) && pk !in old(db.events) ==> r == NoEncontrado && db.events == old(db.events)
    ensures EsAdminOModerador(user) && pk in old(db.events) && nuevoEstado !in ESTADOS ==>
      r == EstadoNoValido && db.events == old(db.events)
    ensures EsAdminOModerador(user) && pk in old(db.events) && nuevoEstado in ESTADOS ==>
      r == EstadoActualizado(nuevoEstado) && db.events == old(db.events)[pk := old(db.events)[pk].(estado := nuevoEstado)]
  {
    if !EsAdminOModerador(user) {
      return RedirigeLogin;
    }
    if pk !in db.events {
      return NoEncontrado;
    }
    var evento := db.events[pk];
    if nuevoEstado !in [ESTADO_PENDIENTE, ESTADO_APROBADO, ESTADO_RECHAZADO] {
      return EstadoNoValido;
    }
    db.events := db.events[pk := evento.(estado := nuevoEstado)];
    return EstadoActualizado(nuevoEstado);
  }

  /** After a state change the registration gate opens exactly for "aprobado". */
  lemma {:induction false} EstadoYDisponibilidad(ev: Event, nuevo: string, user: User, reloj: Reloj)
    requires nuevo in ESTADOS && PuedePorEdad(ev, user, reloj.utc) && !EstaFinalizado(ev, reloj.local)
    ensures Abierto(ev.(estado := nuevo), user, reloj) <==> nuevo == ESTADO_APROBADO
  {
  }

  /**
    `EventCreateView.form_valid` on a valid form: the new event is built
    from the form's fields, belongs to the user and is stored "pendiente".
    Since the form never sets `estado`, the fallback to "pendiente" for an
    empty state never fires.
  */
  method CrearEvento(db: Db, user: User?, datos: DatosEvento) returns (r: Respuesta)
    requires db.Valid()
    requires FechasValidas(NuevaInstancia(datos)) && LimpiarEvento(datos.fechaInicio, datos.fechaTermino) == []
    modifies db`events, db`nextEventId
    ensures db.Valid()
    ensures user == null ==> r == RedirigeLogin && db.events == old(db.events)
    ensures user != null ==>
      r == EventoCreado(old(db.nextEventId)) && r.pk !in old(db.events)
      && db.events == old(db.events)[r.pk := NuevaInstancia(datos).(creadoPor := user.id)]
      && DatosDe(db.events[r.pk]) == datos && db.events[r.pk].estado == ESTADO_PENDIENTE
  {
    if user == null {
      return RedirigeLogin;
    }
    var evento := NuevaInstancia(datos).(creadoPor := user.id);
    evento := evento.(estado := EstadoInicial(evento.estado));
    var pk := db.nextEventId;
    db.events := db.events[pk := evento];
    db.nextEventId := pk + 1;
    return EventoCreado(pk);
  }

  /** `if not form.instance.estado`: the state a new event is stored with. */
  function EstadoInicial(estado: string): (r: string)
    ensures r != ""
    ensures estado != "" ==> r == estado
    ensures estado == "" ==> r == ESTADO_PENDIENTE
  {
    if estado == "" then ESTADO_PENDIENTE else estado
  }
}
