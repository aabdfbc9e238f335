/**
  Full-form validation: the rules checked when the wizard's form is
  submitted, and the error map they produce (field to message).
*/
module Validation {
  import opened Answers

  /** The twelve fields that full-form validation checks. */
  const CheckedFields: set<Field> := {
    NombreCompleto, Edad, Altura, PesoActual, HorariosPreferidos, FrecuenciaEjercicio,
    Objetivos, HorarioPreferido, LugarPreferido, TipoMedicion, TomaSuficienteAgua,
    DisponibilidadDias
  }

  /** The follow-up fields that are shown only when another answer asks for them. */
  const ConditionalFields: set<Field> := {
    CondicionMedicaDetalle, MedicacionDetalle, LesionesDetalle, AreaTrabajo,
    HorarioLaboral, TipoEjercicio, ObjetivoOtro, TipoAlimentacion
  }

  /** The message recorded against a checked field that fails its rule. */
  function Message(f: Field): string
    requires f in CheckedFields
  {
    match f
    case NombreCompleto => "El nombre completo es requerido"
    case Edad => "La edad debe estar entre 16 y 100 años"
    case Altura => "La altura debe estar entre 100 y 250 cm"
    case PesoActual => "El peso debe estar entre 30 y 300 kg"
    case HorariosPreferidos => "Los horarios preferidos son requeridos"
    case FrecuenciaEjercicio => "La frecuencia de ejercicio es requerida"
    case Objetivos => "Selecciona al menos un objetivo"
    case HorarioPreferido => "El horario preferido es requerido"
    case LugarPreferido => "El lugar preferido es requerido"
    case TipoMedicion => "El tipo de medición es requerido"
    case TomaSuficienteAgua => "Esta información es requerida"
    case DisponibilidadDias => "Selecciona al menos un día"
  }

  /** The rule of each field, with JavaScript truthiness: absent, "" and 0 all count as missing. */
  predicate Violates(d: FormData, f: Field) {
    match f
    case NombreCompleto => !TextTruthy(d.nombreCompleto)
    case Edad => !IntTruthy(d.edad) || d.edad.value < 16 || d.edad.value > 100
    case Altura => !IntTruthy(d.altura) || d.altura.value < 100 || d.altura.value > 250
    case PesoActual => RealTruthy(d.pesoActual) && (d.pesoActual.value < 30.0 || d.pesoActual.value > 300.0)
    case HorariosPreferidos => !TextTruthy(d.horariosPreferidos)
    case FrecuenciaEjercicio => !TextTruthy(d.frecuenciaEjercicio)
    case Objetivos => !NonEmptyList(d.objetivos)
    case HorarioPreferido => !TextTruthy(d.horarioPreferido)
    case LugarPreferido => !TextTruthy(d.lugarPreferido)
    case TipoMedicion => !TextTruthy(d.tipoMedicion)
    case TomaSuficienteAgua => !TextTruthy(d.tomaSuficienteAgua)
    case DisponibilidadDias => !NonEmptyList(d.disponibilidadDias)
    case _ => false
  }

  /** One rule's conditional assignment: the field's message is recorded when its value breaks the rule. */
  function Record(errors: map<Field, string>, d: FormData, f: Field): map<Field, string>
    requires f in CheckedFields
  {
    if Violates(d, f) then errors[f := Message(f)] else errors
  }

  /** The order in which `validateForm` applies its rules. */
  const RuleOrder: seq<Field> := [
    NombreCompleto, Edad, Altura, PesoActual, HorariosPreferidos, FrecuenciaEjercicio,
    Objetivos, HorarioPreferido, LugarPreferido, TipoMedicion, TomaSuficienteAgua,
    DisponibilidadDias
  ]

  /** The rules for the fields of `fs` applied one after the other to `errors`. */
  function ApplyRules(d: FormData, fs: seq<Field>, errors: map<Field, string>): map<Field, string>
    requires forall i :: 0 <= i < |fs| ==> fs[i] in CheckedFields
  {
    if fs == [] then errors else ApplyRules(d, fs[1..], Record(errors, d, fs[0]))
  }

  /**
    `validateForm`: the error map, built from the empty map by the twelve
    conditional assignments in the order the component writes them.
  */
  function FormErrors(d: FormData): map<Field, string> {
    ApplyRules(d, RuleOrder, map[])
  }

  /** Every entry of an error map carries the message of its own field. */
  predicate Labelled(errors: map<Field, string>) {
    forall k :: k in errors ==> k in CheckedFields && errors[k] == Message(k)
  }

  /** A recorded rule adds an entry for its own field, and only when the field breaks the rule. */
  lemma RecordEntries(errors: map<Field, string>, d: FormData, f: Field)
    requires f in CheckedFields
    ensures forall k :: k in Record(errors, d, f) <==> k in errors || (k == f && Violates(d, f))
    ensures Labelled(errors) ==> Labelled(Record(errors, d, f))
  {
  }

  /**
    Applying a list of rules keeps what was recorded before and adds an
    entry, labelled with its message, for each listed field whose value
    breaks its rule.
  */
  lemma {:induction false} ApplyRulesEntries(d: FormData, fs: seq<Field>, errors: map<Field, string>)
    requires forall i :: 0 <= i < |fs| ==> fs[i] in CheckedFields
    requires Labelled(errors)
    ensures forall k :: k in ApplyRules(d, fs, errors) <==> k in errors || (k in fs && Violates(d, k))
    ensures Labelled(ApplyRules(d, fs, errors))
  {
    if fs != [] {
      RecordEntries(errors, d, fs[0]);
      ApplyRulesEntries(d, fs[1..], Record(errors, d, fs[0]));
      assert forall k :: k in fs <==> k == fs[0] || k in fs[1..];
    }
  }

  /**
    The error map holds exactly the checked fields whose value breaks their
    rule, each with that rule's message.
  */
  lemma FormErrorsEntries(d: FormData)
    ensures forall f :: f in FormErrors(d) <==> f in CheckedFields && Violates(d, f)
    ensures forall f :: f in FormErrors(d) ==> FormErrors(d)[f] == Message(f)
  {
    ApplyRulesEntries(d, RuleOrder, map[]);
    assert forall f :: f in RuleOrder <==> f in CheckedFields;
  }

  /** Whether one field is an error key, and with which message. */
  lemma ErrorEntry(d: FormData, f: Field)
    ensures f in FormErrors(d) <==> f in CheckedFields && Violates(d, f)
    ensures f in FormErrors(d) ==> FormErrors(d)[f] == Message(f)
  {
    FormErrorsEntries(d);
  }

  /** The age rule: no error exactly when an age in [16, 100] is given (0 counts as absent). */
  lemma EdadRule(d: FormData)
    ensures Edad !in FormErrors(d) <==> d.edad.Some? && 16 <= d.edad.value <= 100
  {
    ErrorEntry(d, Edad);
  }

  /** The age boundaries: 15 and 101 fail, 16 and 100 pass. */
  lemma EdadBoundaries(d: FormData)
    ensures d.edad == Some(15) ==> Edad in FormErrors(d)
    ensures d.edad == Some(16) ==> Edad !in FormErrors(d)
    ensures d.edad == Some(100) ==> Edad !in FormErrors(d)
    ensures d.edad == Some(101) ==> Edad in FormErrors(d)
  {
    EdadRule(d);
  }

  /** The height rule: no error exactly when a height in [100, 250] is given. */
  lemma AlturaRule(d: FormData)
    ensures Altura !in FormErrors(d) <==> d.altura.Some? && 100 <= d.altura.value <= 250
  {
    ErrorEntry(d, Altura);
  }

  /** The height boundaries: 99 and 251 fail, 100 and 250 pass. */
  lemma AlturaBoundaries(d: FormData)
    ensures d.altura == Some(99) ==> Altura in FormErrors(d)
    ensures d.altura == Some(100) ==> Altura !in FormErrors(d)
    ensures d.altura == Some(250) ==> Altura !in FormErrors(d)
    ensures d.altura == Some(251) ==> Altura in FormErrors(d)
  {
    AlturaRule(d);
  }

  /**
    The optional weight: absent or 0 never produces an error; any other
    value produces one exactly when it lies outside [30, 300].
  */
  lemma PesoActualRule(d: FormData)
    ensures d.pesoActual.None? || d.pesoActual == Some(0.0) ==> PesoActual !in FormErrors(d)
    ensures d.pesoActual.Some? && d.pesoActual.value != 0.0 ==>
      (PesoActual in FormErrors(d) <==> d.pesoActual.value < 30.0 || 300.0 < d.pesoActual.value)
  {
    ErrorEntry(d, PesoActual);
  }

  /** The two multi-select questions fail exactly when nothing is selected. */
  lemma ListRules(d: FormData)
    ensures Objetivos in FormErrors(d) <==> d.objetivos.None? || d.objetivos.value == []
    ensures DisponibilidadDias in FormErrors(d) <==> d.disponibilidadDias.None? || d.disponibilidadDias.value == []
  {
    ErrorEntry(d, Objetivos);
    ErrorEntry(d, DisponibilidadDias);
  }

  /** Selecting one element clears the error of a multi-select question. */
  lemma OneSelectionClearsError(d: FormData, xs: seq<string>, x: string)
    ensures Objetivos !in FormErrors(d.(objetivos := Some(xs + [x])))
    ensures DisponibilidadDias !in FormErrors(d.(disponibilidadDias := Some(xs + [x])))
  {
    ErrorEntry(d.(objetivos := Some(xs + [x])), Objetivos);
    ErrorEntry(d.(disponibilidadDias := Some(xs + [x])), DisponibilidadDias);
  }

  /** Only the twelve checked fields can be error keys; no conditional follow-up field ever is. */
  lemma ErrorKeys(d: FormData)
    ensures FormErrors(d).Keys <= CheckedFields
    ensures forall f :: f in ConditionalFields ==> f !in FormErrors(d)
  {
    forall f | f in FormErrors(d) ensures f in CheckedFields {
      ErrorEntry(d, f);
    }
    forall f | f in ConditionalFields ensures f !in FormErrors(d) {
      ErrorEntry(d, f);
    }
  }

  /** The checked values of two answer sets agree. */
  predicate SameCheckedValues(d1: FormData, d2: FormData) {
    && d1.nombreCompleto == d2.nombreCompleto && d1.edad == d2.edad && d1.altura == d2.altura
    && d1.pesoActual == d2.pesoActual && d1.horariosPreferidos == d2.horariosPreferidos
    && d1.frecuenciaEjercicio == d2.frecuenciaEjercicio && d1.objetivos == d2.objetivos
    && d1.horarioPreferido == d2.horarioPreferido && d1.lugarPreferido == d2.lugarPreferido
    && d1.tipoMedicion == d2.tipoMedicion && d1.tomaSuficienteAgua == d2.tomaSuficienteAgua
    && d1.disponibilidadDias == d2.disponibilidadDias
  }

  /**
    The error map depends on the twelve checked values only: switching a
    governing yes/no answer or filling, clearing or leaving stale its
    follow-up field never changes it.
  */
  lemma ErrorsDependOnCheckedValuesOnly(d1: FormData, d2: FormData)
    requires SameCheckedValues(d1, d2)
    ensures FormErrors(d1) == FormErrors(d2)
  {
    forall f ensures (f in FormErrors(d1) <==> f in FormErrors(d2))
      && (f in FormErrors(d1) ==> FormErrors(d1)[f] == FormErrors(d2)[f])
    {
      ErrorEntry(d1, f);
      ErrorEntry(d2, f);
    }
  }

  /**
    Answering "no" to any of the six yes/no questions that reveal a
    follow-up field leaves the error map unchanged, whatever the stale
    follow-up value holds.
  */
  lemma GoverningAnswerOff(d: FormData, detail: Option<string>)
    ensures FormErrors(d.(tieneCondicionMedica := Some(false), condicionMedicaDetalle := detail)) == FormErrors(d)
    ensures FormErrors(d.(tomaMedicacion := Some(false), medicacionDetalle := detail)) == FormErrors(d)
    ensures FormErrors(d.(tieneLesiones := Some(false), lesionesDetalle := detail)) == FormErrors(d)
    ensures FormErrors(d.(trabaja := Some(false), areaTrabajo := detail, horarioLaboral := detail)) == FormErrors(d)
    ensures FormErrors(d.(haHechoEjercicio := Some(false), tipoEjercicio := detail)) == FormErrors(d)
    ensures FormErrors(d.(sigueAlimentacionEspecifica := Some(false), tipoAlimentacion := detail)) == FormErrors(d)
  {
    ErrorsDependOnCheckedValuesOnly(d.(tieneCondicionMedica := Some(false), condicionMedicaDetalle := detail), d);
    ErrorsDependOnCheckedValuesOnly(d.(tomaMedicacion := Some(false), medicacionDetalle := detail), d);
    ErrorsDependOnCheckedValuesOnly(d.(tieneLesiones := Some(false), lesionesDetalle := detail), d);
    ErrorsDependOnCheckedValuesOnly(d.(trabaja := Some(false), areaTrabajo := detail, horarioLaboral := detail), d);
    ErrorsDependOnCheckedValuesOnly(d.(haHechoEjercicio := Some(false), tipoEjercicio := detail), d);
    ErrorsDependOnCheckedValuesOnly(d.(sigueAlimentacionEspecifica := Some(false), tipoAlimentacion := detail), d);
  }
}
