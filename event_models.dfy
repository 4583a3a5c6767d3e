/**
  events/models.py: the `Event` row, the `Inscripcion` ledger (one row per
  event and user, with the number of seats claimed) and the read-only
  properties that `Event` derives from them. The two tables live in `Db`,
  which the views change.
*/
module EventModels {
  import opened Common
  import opened Calendar
  import PyText

  const ESTADO_PENDIENTE: string := "pendiente"
  const ESTADO_APROBADO: string := "aprobado"
  const ESTADO_RECHAZADO: string := "rechazado"

  /** The fields of an event that its logic reads. `cuposTotales == 0` means "no limit". */
  datatype Event = Event(
    titulo: string,
    descripcion: string,
    estado: string,
    creadoPor: int,
    fechaInicio: Option<Date>,
    fechaTermino: Option<Date>,
    cuposTotales: nat,
    soloMayores18: bool,
    precioEntrada: Option<int>)

  /** A `DateField` only ever holds a date Python can represent. */
  predicate FechasValidas(ev: Event)
  {
    (ev.fechaInicio.Some? ==> ValidDate(ev.fechaInicio.value))
    && (ev.fechaTermino.Some? ==> ValidDate(ev.fechaTermino.value))
  }

  /** One ledger row: user `usuario` holds `cantidad` seats of event `event`. */
  datatype Inscripcion = Inscripcion(event: int, usuario: int, cantidad: nat)

  predicate EsDe(x: Inscripcion, e: int, u: int)
  {
    x.event == e && x.usuario == u
  }

  /** `unique_together = ("event", "usuario")` */
  predicate Unicas(rows: seq<Inscripcion>)
  {
    forall i, j :: 0 <= i < j < |rows| ==> !EsDe(rows[j], rows[i].event, rows[i].usuario)
  }

  /** Which ledger rows an aggregate `Sum("cantidad")` adds up. */
  datatype Filtro =
    | DelEvento(e: int)           // evento.inscripciones
    | DeOtros(e: int, u: int)     // evento.inscripciones excluding the row of user u
    | DelUsuario(e: int, u: int)  // the row of user u

  predicate Cuenta(f: Filtro, x: Inscripcion)
  {
    match f
    case DelEvento(e) => x.event == e
    case DeOtros(e, u) => x.event == e && x.usuario != u
    case DelUsuario(e, u) => EsDe(x, e, u)
  }

  function Peso(f: Filtro, x: Inscripcion): nat
  {
    if Cuenta(f, x) then x.cantidad else 0
  }

  /** `qs.aggregate(total=Sum("cantidad"))["total"] or 0` */
  function Suma(rows: seq<Inscripcion>, f: Filtro): (total: nat)
    ensures total == 0 <==> forall i :: 0 <= i < |rows| && Cuenta(f, rows[i]) ==> rows[i].cantidad == 0
  {
    if rows == [] then 0 else Suma(rows[..|rows| - 1], f) + Peso(f, rows[|rows| - 1])
  }

  /** `Event.cupos_ocupados` */
  function CuposOcupados(rows: seq<Inscripcion>, pk: int): (n: nat)
    ensures n == 0 <==> forall i :: 0 <= i < |rows| && rows[i].event == pk ==> rows[i].cantidad == 0
  {
    Suma(rows, DelEvento(pk))
  }

  /** `usados_por_otros` in the checkout view. */
  function UsadosPorOtros(rows: seq<Inscripcion>, pk: int, u: int): (n: nat)
    ensures n == 0 <==> forall i :: 0 <= i < |rows| && rows[i].event == pk && rows[i].usuario != u ==> rows[i].cantidad == 0
  {
    Suma(rows, DeOtros(pk, u))
  }

  /** Seats held by user `u` (the quantity of the row, under uniqueness). */
  function CantidadDe(rows: seq<Inscripcion>, pk: int, u: int): (n: nat)
    ensures n == 0 <==> forall i :: 0 <= i < |rows| && EsDe(rows[i], pk, u) ==> rows[i].cantidad == 0
  {
    Suma(rows, DelUsuario(pk, u))
  }

  lemma {:induction false} SumaAppend(rows: seq<Inscripcion>, x: Inscripcion, f: Filtro)
    ensures Suma(rows + [x], f) == Suma(rows, f) + Peso(f, x)
  {
    assert (rows + [x])[..|rows|] == rows;
  }

  lemma {:induction false} SumaUpdate(rows: seq<Inscripcion>, i: nat, y: Inscripcion, f: Filtro)
    requires i < |rows|
    ensures Suma(rows[i := y], f) + Peso(f, rows[i]) == Suma(rows, f) + Peso(f, y)
    decreases |rows|
  {
    var n := |rows|;
    if i == n - 1 {
      assert rows[i := y][..n - 1] == rows[..n - 1];
    } else {
      assert rows[i := y][..n - 1] == rows[..n - 1][i := y];
      SumaUpdate(rows[..n - 1], i, y, f);
    }
  }

  /** Rows outside a filter do not change its sum. */
  lemma {:induction false} SumaIgnora(rows: seq<Inscripcion>, i: nat, y: Inscripcion, f: Filtro)
    requires i < |rows| && !Cuenta(f, rows[i]) && !Cuenta(f, y)
    ensures Suma(rows[i := y], f) == Suma(rows, f)
  {
    SumaUpdate(rows, i, y, f);
  }

  /** Occupancy splits into the other users' seats and the seats of user `u`. */
  lemma {:induction false} OcupadosSeparados(rows: seq<Inscripcion>, pk: int, u: int)
    ensures CuposOcupados(rows, pk) == UsadosPorOtros(rows, pk, u) + CantidadDe(rows, pk, u)
  {
    if rows != [] {
      OcupadosSeparados(rows[..|rows| - 1], pk, u);
    }
  }

  /** `.filter(event=evento, usuario=user).first()`: the first row of that user for that event. */
  function Buscar(rows: seq<Inscripcion>, pk: int, u: int): (r: Option<nat>)
    ensures r.Some? ==> r.value < |rows| && EsDe(rows[r.value], pk, u)
    ensures r.Some? ==> forall j :: 0 <= j < r.value ==> !EsDe(rows[j], pk, u)
    ensures r.None? ==> forall j :: 0 <= j < |rows| ==> !EsDe(rows[j], pk, u)
  {
    if rows == [] then None
    else if EsDe(rows[0], pk, u) then Some(0)
    else match Buscar(rows[1..], pk, u)
      case None => None
      case Some(i) => Some(i + 1)
  }

  lemma BuscarEsPrimero(rows: seq<Inscripcion>, pk: int, u: int, i: nat)
    requires i < |rows| && EsDe(rows[i], pk, u)
    requires forall j :: 0 <= j < i ==> !EsDe(rows[j], pk, u)
    ensures Buscar(rows, pk, u) == Some(i)
  {
  }

  /** Without any row of that user, user `u` holds no seats; with uniqueness, the found row holds them all. */
  lemma {:induction false} CantidadDeEsLaFila(rows: seq<Inscripcion>, pk: int, u: int)
    requires Unicas(rows)
    ensures Buscar(rows, pk, u).None? ==> CantidadDe(rows, pk, u) == 0
    ensures Buscar(rows, pk, u).Some? ==> CantidadDe(rows, pk, u) == rows[Buscar(rows, pk, u).value].cantidad
    decreases |rows|
  {
    if rows != [] {
      var n := |rows|;
      var p := rows[..n - 1];
      assert Unicas(p);
      CantidadDeEsLaFila(p, pk, u);
      if EsDe(rows[n - 1], pk, u) {
        assert forall j :: 0 <= j < n - 1 ==> !EsDe(p[j], pk, u) by {
          forall j | 0 <= j < n - 1 ensures !EsDe(p[j], pk, u) {
            assert !EsDe(rows[n - 1], rows[j].event, rows[j].usuario);
          }
        }
        assert Buscar(p, pk, u).None?;
        BuscarEsPrimero(rows, pk, u, n - 1);
      } else if Buscar(p, pk, u).Some? {
        BuscarEsPrimero(rows, pk, u, Buscar(p, pk, u).value);
      }
    }
  }

  /**
    "Actualizar o crear inscripción": set the quantity of the user's row
    when there is one, otherwise append a new row.
  */
  function Upsert(rows: seq<Inscripcion>, pk: int, u: int, c: nat): (r: seq<Inscripcion>)
    ensures Buscar(rows, pk, u).Some? ==> |r| == |rows|
    ensures Buscar(rows, pk, u).None? ==> |r| == |rows| + 1 && r[..|rows|] == rows && r[|rows|] == Inscripcion(pk, u, c)
    ensures forall j :: 0 <= j < |rows| && !EsDe(rows[j], pk, u) ==> r[j] == rows[j]
  {
    match Buscar(rows, pk, u)
    case Some(i) => rows[i := rows[i].(cantidad := c)]
    case None => rows + [Inscripcion(pk, u, c)]
  }

  /** The ledger stays free of duplicate (event, user) rows. */
  lemma UpsertUnicas(rows: seq<Inscripcion>, pk: int, u: int, c: nat)
    requires Unicas(rows)
    ensures Unicas(Upsert(rows, pk, u, c))
  {
  }

  /** After the upsert the user holds exactly `c` seats, and nobody else's seats moved. */
  lemma {:induction false} UpsertCantidades(rows: seq<Inscripcion>, pk: int, u: int, c: nat)
    requires Unicas(rows)
    ensures CantidadDe(Upsert(rows, pk, u, c), pk, u) == c
    ensures UsadosPorOtros(Upsert(rows, pk, u, c), pk, u) == UsadosPorOtros(rows, pk, u)
    ensures CuposOcupados(Upsert(rows, pk, u, c), pk) == UsadosPorOtros(rows, pk, u) + c
    ensures forall e :: e != pk ==> CuposOcupados(Upsert(rows, pk, u, c), e) == CuposOcupados(rows, e)
  {
    var r := Upsert(rows, pk, u, c);
    CantidadDeEsLaFila(rows, pk, u);
    OcupadosSeparados(r, pk, u);
    match Buscar(rows, pk, u)
    case Some(i) =>
      var y := rows[i].(cantidad := c);
      SumaUpdate(rows, i, y, DelUsuario(pk, u));
      SumaIgnora(rows, i, y, DeOtros(pk, u));
      forall e | e != pk ensures CuposOcupados(r, e) == CuposOcupados(rows, e) {
        SumaIgnora(rows, i, y, DelEvento(e));
      }
    case None =>
      var x := Inscripcion(pk, u, c);
      SumaAppend(rows, x, DelUsuario(pk, u));
      SumaAppend(rows, x, DeOtros(pk, u));
      forall e | e != pk ensures CuposOcupados(r, e) == CuposOcupados(rows, e) {
        SumaAppend(rows, x, DelEvento(e));
      }
  }

  /** After the upsert the user's row is found where it was (or at the end) and holds `c`. */
  lemma UpsertEncuentra(rows: seq<Inscripcion>, pk: int, u: int, c: nat)
    ensures var r := Upsert(rows, pk, u, c);
      Buscar(r, pk, u) == (if Buscar(rows, pk, u).Some? then Buscar(rows, pk, u) else Some(|rows|))
      && r[Buscar(r, pk, u).value].cantidad == c
  {
    var r := Upsert(rows, pk, u, c);
    match Buscar(rows, pk, u)
    case Some(i) =>
      BuscarEsPrimero(r, pk, u, i);
    case None =>
      BuscarEsPrimero(r, pk, u, |rows|);
  }

  /** Repeating the same upsert changes nothing. */
  lemma {:induction false} UpsertIdempotente(rows: seq<Inscripcion>, pk: int, u: int, c: nat)
    ensures Upsert(Upsert(rows, pk, u, c), pk, u, c) == Upsert(rows, pk, u, c)
  {
    UpsertEncuentra(rows, pk, u, c);
  }

  /** `Event.cupos_disponibles`: `None` ("sin límite") when the capacity is 0. */
  function CuposDisponibles(ev: Event, pk: int, rows: seq<Inscripcion>): (r: Option<nat>)
    ensures r.None? <==> ev.cuposTotales == 0
    ensures r.Some? ==> r.value <= ev.cuposTotales
    ensures r.Some? ==> (r.value == 0 <==> CuposOcupados(rows, pk) >= ev.cuposTotales)
    ensures r.Some? && r.value > 0 ==> r.value + CuposOcupados(rows, pk) == ev.cuposTotales
  {
    if ev.cuposTotales == 0 then None
    else
      var restantes := ev.cuposTotales - CuposOcupados(rows, pk);
      Some(if restantes > 0 then restantes else 0)
  }

  /** `Event.esta_lleno` */
  function EstaLleno(ev: Event, pk: int, rows: seq<Inscripcion>): (r: bool)
    ensures ev.cuposTotales == 0 ==> !r
    ensures ev.cuposTotales > 0 ==> (r <==> CuposOcupados(rows, pk) >= ev.cuposTotales)
  {
    if ev.cuposTotales == 0 then false
    else CuposDisponibles(ev, pk, rows).value <= 0
  }

  /** `Event.es_gratuito`: `not precio or precio <= 0`. */
  function EsGratuito(ev: Event): (r: bool)
    ensures r <==> ev.precioEntrada.None? || ev.precioEntrada.value <= 0
  {
    var precio := ev.precioEntrada;
    !(precio.Some? && precio.value != 0) || precio.value <= 0
  }

  /** `fecha_termino or fecha_inicio` */
  function FechaFin(ev: Event): Option<Date>
  {
    if ev.fechaTermino.Some? then ev.fechaTermino else ev.fechaInicio
  }

  /** `Event.es_proximo`, with `hoy` the local date: the last day is today or later. */
  function EsProximo(ev: Event, hoy: Date): (r: bool)
    ensures r <==> FechaFin(ev).Some? && Ge(FechaFin(ev).value, hoy)
  {
    if ev.fechaTermino.None? && ev.fechaInicio.None? then false
    else Ge(FechaFin(ev).value, hoy)
  }

  /** `Event.esta_finalizado`, with `hoy` the local date: the last day is before today. */
  function EstaFinalizado(ev: Event, hoy: Date): (r: bool)
    ensures r <==> FechaFin(ev).Some? && Lt(FechaFin(ev).value, hoy)
  {
    if ev.fechaTermino.None? && ev.fechaInicio.None? then false
    else Lt(FechaFin(ev).value, hoy)
  }

  /** An event without dates is neither upcoming nor finished; with a date it is exactly one of the two. */
  lemma ProximoOFinalizado(ev: Event, hoy: Date)
    ensures FechaFin(ev).None? ==> !EsProximo(ev, hoy) && !EstaFinalizado(ev, hoy)
    ensures FechaFin(ev).Some? ==> (EsProximo(ev, hoy) <==> !EstaFinalizado(ev, hoy))
  {
  }

  /** On real dates, upcoming and finished are told apart by the days left until the last day. */
  lemma {:induction false} ProximoPorDias(ev: Event, hoy: Date)
    requires FechasValidas(ev) && ValidDate(hoy)
    ensures EsProximo(ev, hoy) <==> FechaFin(ev).Some? && DaysBetween(FechaFin(ev).value, hoy) >= 0
    ensures EstaFinalizado(ev, hoy) <==> FechaFin(ev).Some? && DaysBetween(FechaFin(ev).value, hoy) < 0
  {
    if FechaFin(ev).Some? {
      CmpAgreesWithOrdinal(FechaFin(ev).value, hoy);
    }
  }

  /** `(fecha_inicio - hoy).days`, or `None` without a start date. */
  function DeltaDias(ev: Event, hoy: Date): Option<int>
    requires FechasValidas(ev) && ValidDate(hoy)
  {
    if ev.fechaInicio.None? then None else Some(DaysBetween(ev.fechaInicio.value, hoy))
  }

  /** The bands that the badge and its text tell apart. */
  datatype Banda = SinFecha | Pasado | Hoy | MuyPronto | EstaSemana | MasAdelante

  function BandaDe(delta: Option<int>): (b: Banda)
    ensures b == SinFecha <==> delta.None?
    ensures b == Pasado <==> delta.Some? && delta.value < 0
    ensures b == Hoy <==> delta == Some(0)
    ensures b == MuyPronto <==> delta.Some? && 1 <= delta.value <= 3
    ensures b == EstaSemana <==> delta.Some? && 4 <= delta.value <= 7
    ensures b == MasAdelante <==> delta.Some? && delta.value > 7
  {
    match delta
    case None => SinFecha
    case Some(d) =>
      if d < 0 then Pasado
      else if d == 0 then Hoy
      else if d <= 3 then MuyPronto
      else if d <= 7 then EstaSemana
      else MasAdelante
  }

  /** The badge class of each band. */
  function ClaseDeBanda(b: Banda): string
  {
    match b
    case SinFecha => "badge-tiempo--sin-fecha"
    case Pasado => "badge-tiempo--pasado"
    case Hoy => "badge-tiempo--hoy"
    case MuyPronto => "badge-tiempo--muy-pronto"
    case EstaSemana => "badge-tiempo--esta-semana"
    case MasAdelante => "badge-tiempo--mas-adelante"
  }

  /** The badge text of each band; within "muy pronto" the day count picks one of three. */
  function TextoDeBanda(b: Banda, delta: int): string
  {
    match b
    case SinFecha => "Fecha por definir"
    case Pasado => "Evento pasado"
    case Hoy => "Es hoy"
    case MuyPronto => if delta == 1 then "Mañana" else if delta == 2 then "En 2 días" else "En 3 días"
    case EstaSemana => "Esta semana"
    case MasAdelante => "Próximamente"
  }

  /** `Event.css_clase_tiempo`: the class of the band the start date falls in. */
  function CssClaseTiempo(ev: Event, hoy: Date): (r: string)
    requires FechasValidas(ev) && ValidDate(hoy)
    ensures r == ClaseDeBanda(BandaDe(DeltaDias(ev, hoy)))
  {
    if ev.fechaInicio.None? then "badge-tiempo--sin-fecha"
    else
      var delta := DeltaDias(ev, hoy).value;
      if delta < 0 then "badge-tiempo--pasado"
      else if delta == 0 then "badge-tiempo--hoy"
      else if 1 <= delta <= 3 then "badge-tiempo--muy-pronto"
      else if 4 <= delta <= 7 then "badge-tiempo--esta-semana"
      else "badge-tiempo--mas-adelante"
  }

  /** `Event.texto_tiempo`: the text of the band the start date falls in. */
  function TextoTiempo(ev: Event, hoy: Date): (r: string)
    requires FechasValidas(ev) && ValidDate(hoy)
    ensures var d := DeltaDias(ev, hoy); r == TextoDeBanda(BandaDe(d), if d.Some? then d.value else 0)
  {
    if ev.fechaInicio.None? then "Fecha por definir"
    else
      var delta := DeltaDias(ev, hoy).value;
      if delta < 0 then "Evento pasado"
      else if delta == 0 then "Es hoy"
      else if delta == 1 then "Mañana"
      else if 2 <= delta <= 3 then TextoEnDias(delta); "En " + PyText.Decimal(delta) + " días"
      else if 4 <= delta <= 7 then "Esta semana"
      else "Próximamente"
  }

  /** Two (event, day) pairs get the same badge class exactly when they fall in the same band. */
  lemma CssSigueBanda(e1: Event, h1: Date, e2: Event, h2: Date)
    requires FechasValidas(e1) && ValidDate(h1) && FechasValidas(e2) && ValidDate(h2)
    ensures CssClaseTiempo(e1, h1) == CssClaseTiempo(e2, h2) <==> BandaDe(DeltaDias(e1, h1)) == BandaDe(DeltaDias(e2, h2))
  {
  }

  lemma TextoEnDias(d: int)
    requires 2 <= d <= 3
    ensures "En " + PyText.Decimal(d) + " días" == (if d == 2 then "En 2 días" else "En 3 días")
  {
  }

  /**
    The badge text splits the bands exactly as the class does, except that
    inside "muy pronto" it also tells 1, 2 and 3 days apart.
  */
  lemma TextoSigueBanda(e1: Event, h1: Date, e2: Event, h2: Date)
    requires FechasValidas(e1) && ValidDate(h1) && FechasValidas(e2) && ValidDate(h2)
    ensures TextoTiempo(e1, h1) == TextoTiempo(e2, h2) <==>
      (BandaDe(DeltaDias(e1, h1)) == BandaDe(DeltaDias(e2, h2))
       && (BandaDe(DeltaDias(e1, h1)) == MuyPronto ==> DeltaDias(e1, h1) == DeltaDias(e2, h2)))
  {
    var d1, d2 := DeltaDias(e1, h1), DeltaDias(e2, h2);
    if d1.Some? && 2 <= d1.value <= 3 { TextoEnDias(d1.value); }
    if d2.Some? && 2 <= d2.value <= 3 { TextoEnDias(d2.value); }
  }

  /** `Event.estado_tiempo`: "finalizado" wins over the day bands. */
  function EstadoTiempo(ev: Event, hoy: Date): (r: string)
    requires FechasValidas(ev) && ValidDate(hoy)
    ensures EstaFinalizado(ev, hoy) <==> r == "finalizado"
    ensures !EstaFinalizado(ev, hoy) ==> (r == "hoy" <==> DeltaDias(ev, hoy) == Some(0))
    ensures !EstaFinalizado(ev, hoy) ==> (r == "pronto" <==> BandaDe(DeltaDias(ev, hoy)) == MuyPronto)
    ensures !EstaFinalizado(ev, hoy) ==>
      (r == "normal" <==> BandaDe(DeltaDias(ev, hoy)) in {SinFecha, Pasado, EstaSemana, MasAdelante})
  {
    if EstaFinalizado(ev, hoy) then "finalizado"
    else if ev.fechaInicio.None? then "normal"
    else
      var delta := DeltaDias(ev, hoy).value;
      if delta == 0 then "hoy"
      else if 1 <= delta <= 3 then "pronto"
      else "normal"
  }

  const CLASES_TIEMPO: map<string, string> := map[
    "finalizado" := "border-danger bg-danger-subtle",
    "hoy" := "border-success bg-success-subtle",
    "pronto" := "border-warning bg-warning-subtle",
    "normal" := "border-light bg-body"]

  /** `Event.estado_tiempo_clase`: the mapping covers every label, so its default is never used. */
  function EstadoTiempoClase(ev: Event, hoy: Date): (r: string)
    requires FechasValidas(ev) && ValidDate(hoy)
    ensures EstadoTiempo(ev, hoy) in CLASES_TIEMPO && r == CLASES_TIEMPO[EstadoTiempo(ev, hoy)]
    ensures r == "border-danger bg-danger-subtle" <==> EstaFinalizado(ev, hoy)
  {
    var estado := EstadoTiempo(ev, hoy);
    if estado in CLASES_TIEMPO then CLASES_TIEMPO[estado] else "border-light bg-body"
  }

  /** The two tables the views work on, with the database's constraints as `Valid`. */
  class Db {
    var events: map<int, Event>
    var inscripciones: seq<Inscripcion>
    var nextEventId: int

    ghost predicate Valid()
      reads this
    {
      && Unicas(inscripciones)
      && (forall k :: k in events ==> k < nextEventId && FechasValidas(events[k]))
      && (forall i :: 0 <= i < |inscripciones| ==> inscripciones[i].event in events)
    }

    constructor ()
      ensures Valid() && events == map[] && inscripciones == []
    {
      events := map[];
      inscripciones := [];
      nextEventId := 1;
    }
  }
}
