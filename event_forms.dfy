/**
  events/forms.py: the cross-field checks of `EventForm` and `CheckoutForm`,
  as functions returning the errors that `clean` adds. Both leave the
  cleaned data as they found it, so only the errors are returned.
*/
module EventForms {
  import opened Common
  import opened Calendar
  import opened EventModels

  /** The `EventForm` fields (`Meta.fields`) that the event datatype keeps. */
  datatype DatosEvento = DatosEvento(
    titulo: string,
    descripcion: string,
    fechaInicio: Option<Date>,
    fechaTermino: Option<Date>,
    cuposTotales: nat,
    soloMayores18: bool,
    precioEntrada: Option<int>)

  /** The values an `EventForm` bound to an existing event starts from: its `Meta.fields`. */
  function DatosDe(ev: Event): DatosEvento
  {
    DatosEvento(ev.titulo, ev.descripcion, ev.fechaInicio, ev.fechaTermino, ev.cuposTotales, ev.soloMayores18, ev.precioEntrada)
  }

  /**
    The unsaved instance a creation form builds: the form's fields over the
    model's defaults. `estado` is not among `Meta.fields`, so it holds the
    field's default "pendiente"; the creator is not set yet (0 here).
  */
  function NuevaInstancia(d: DatosEvento): (ev: Event)
    ensures DatosDe(ev) == d
    ensures ev.estado == ESTADO_PENDIENTE
  {
    Event(d.titulo, d.descripcion, ESTADO_PENDIENTE, 0, d.fechaInicio, d.fechaTermino, d.cuposTotales, d.soloMayores18, d.precioEntrada)
  }

  /** `EventForm.clean`: the end date may not come before the start date. */
  function LimpiarEvento(inicio: Option<Date>, termino: Option<Date>): (errores: seq<ErrorCampo>)
    ensures errores != [] <==> inicio.Some? && termino.Some? && Lt(termino.value, inicio.value)
    ensures |errores| <= 1 && forall e :: e in errores ==> e.campo == "fecha_termino"
  {
    if inicio.Some? && termino.Some? && Lt(termino.value, inicio.value) then
      [ErrorCampo("fecha_termino", "La fecha de término no puede ser anterior a la fecha de inicio.")]
    else []
  }

  /** On real dates the check rejects exactly the events that end on an earlier day than they start. */
  lemma LimpiarEventoPorDias(inicio: Date, termino: Date)
    requires ValidDate(inicio) && ValidDate(termino)
    ensures LimpiarEvento(Some(inicio), Some(termino)) != [] <==> DaysBetween(termino, inicio) < 0
  {
    CmpAgreesWithOrdinal(termino, inicio);
  }

  /** `CheckoutForm.clean`: both e-mail fields, when given, must be identical. */
  function LimpiarCheckout(email: Option<string>, confirmacion: Option<string>): (errores: seq<ErrorCampo>)
    ensures errores != [] <==> Truthy(email) && Truthy(confirmacion) && email.value != confirmacion.value
    ensures |errores| <= 1 && forall e :: e in errores ==> e.campo == "email_confirmacion"
  {
    ErrorSiDistintos("email_confirmacion", "Los correos electrónicos no coinciden.", email, confirmacion)
  }

  /** What the buyer submits on the checkout page (`None` for a missing field). */
  datatype DatosCheckout = DatosCheckout(
    nombre: Option<string>,
    email: Option<string>,
    emailConfirmacion: Option<string>,
    telefono: Option<string>)

  /**
    `CheckoutForm.is_valid()`: the required fields are present, the text
    fields respect their `max_length`, and `clean` adds no error. The
    telephone is optional and is never compared with anything.
  */
  function CheckoutValido(d: DatosCheckout): (r: bool)
    ensures r ==> Truthy(d.email) && d.email == d.emailConfirmacion
  {
    && Truthy(d.nombre) && |d.nombre.value| <= 150
    && Truthy(d.email)
    && Truthy(d.emailConfirmacion)
    && (d.telefono.None? || |d.telefono.value| <= 30)
    && LimpiarCheckout(d.email, d.emailConfirmacion) == []
  }
}
