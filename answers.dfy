/**
  The answer set of the client intake wizard and the JavaScript notions of
  "present" that its checks rely on.

  Every field of the form's data record is optional here, because the
  form library starts from a partial record (only the declared defaults are
  set) and each field stays `undefined` until the user touches it.
*/
module Answers {

  datatype Option<+T> = None | Some(value: T)

  /** The identifiers of the form's fields, one per member of the data record. */
  datatype Field =
    | NombreCompleto | Edad | Altura | PesoActual | SeSienteComodaPesandose
    | TieneCondicionMedica | CondicionMedicaDetalle | TomaMedicacion | MedicacionDetalle
    | TieneLesiones | LesionesDetalle | TienePrescripcionMedica
    | Trabaja | AreaTrabajo | HorarioLaboral | DisponibilidadDias | HorariosPreferidos
    | HaHechoEjercicio | TipoEjercicio | FrecuenciaEjercicio
    | Objetivos | ObjetivoOtro | MetaEspecifica
    | HorarioPreferido | LugarPreferido | EjerciciosNoGustan | TipoMedicion
    | SigueAlimentacionEspecifica | TipoAlimentacion | AlimentosNoGustan | TomaSuficienteAgua
    | OtrosDetalles

  /** The answer set: the current value of every field, `None` for `undefined`. */
  datatype FormData = FormData(
    // Datos personales
    nombreCompleto: Option<string>,
    edad: Option<int>,
    altura: Option<int>,
    pesoActual: Option<real>,
    seSienteComodaPesandose: Option<bool>,
    // Salud y antecedentes médicos
    tieneCondicionMedica: Option<bool>,
    condicionMedicaDetalle: Option<string>,
    tomaMedicacion: Option<bool>,
    medicacionDetalle: Option<string>,
    tieneLesiones: Option<bool>,
    lesionesDetalle: Option<string>,
    tienePrescripcionMedica: Option<bool>,
    // Hábitos y estilo de vida
    trabaja: Option<bool>,
    areaTrabajo: Option<string>,
    horarioLaboral: Option<string>,
    disponibilidadDias: Option<seq<string>>,
    horariosPreferidos: Option<string>,
    haHechoEjercicio: Option<bool>,
    tipoEjercicio: Option<string>,
    frecuenciaEjercicio: Option<string>,
    // Objetivos
    objetivos: Option<seq<string>>,
    objetivoOtro: Option<string>,
    metaEspecifica: Option<string>,
    // Preferencias
    horarioPreferido: Option<string>,
    lugarPreferido: Option<string>,
    ejerciciosNoGustan: Option<string>,
    tipoMedicion: Option<string>,
    // Alimentación
    sigueAlimentacionEspecifica: Option<bool>,
    tipoAlimentacion: Option<string>,
    alimentosNoGustan: Option<string>,
    tomaSuficienteAgua: Option<string>,
    // Otros detalles
    otrosDetalles: Option<string>
  )

  /** A string is truthy when it is defined and not empty. */
  predicate TextTruthy(s: Option<string>) {
    s.Some? && s.value != ""
  }

  /** A number is truthy when it is defined and not zero. */
  predicate IntTruthy(n: Option<int>) {
    n.Some? && n.value != 0
  }

  predicate RealTruthy(n: Option<real>) {
    n.Some? && n.value != 0.0
  }

  /** `xs && xs.length > 0`, and the negation of `!xs || xs.length === 0`. */
  predicate NonEmptyList(xs: Option<seq<string>>) {
    xs.Some? && |xs.value| > 0
  }

  /** `field.value || []`: an array is always truthy, so only `undefined` is replaced. */
  function CurrentList(xs: Option<seq<string>>): seq<string> {
    if xs.Some? then xs.value else []
  }

  /** The declared default values: empty lists and every boolean toggle `false`. */
  function Defaults(): FormData
  {
    FormData(
      None, None, None, None, Some(false),
      Some(false), None, Some(false), None,
      Some(false), None, Some(false),
      Some(false), None, None, Some([]), None,
      Some(false), None, None,
      Some([]), None, None,
      None, None, None, None,
      Some(false), None, None, None,
      None)
  }

  /** The options offered by the "disponibilidad" multi-select. */
  const DiasSemana: seq<string> :=
    ["Lunes", "Martes", "Miércoles", "Jueves", "Viernes", "Sábado", "Domingo"]

  /** The options offered by the "objetivos" multi-select. */
  const ObjetivoOptions: seq<string> :=
    ["Pérdida de peso", "Aumentar masa muscular", "Tonificar",
     "Mejorar salud general", "Reducir dolores o molestias", "otro"]
}
