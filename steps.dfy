/**
  Step completeness: whether the wizard's "next" action is enabled on a
  step. The six steps are Datos personales, Salud, Hábitos, Objetivos,
  Preferencias and Hábitos de salud; any other step number counts as
  complete.
*/
module Steps {
  import opened Answers
  import opened Validation
  import MultiSelect

  /** `validateStep`: presence checks only, never the ranges of full-form validation. */
  predicate StepComplete(step: int, d: FormData) {
    if step == 1 then
      TextTruthy(d.nombreCompleto) && IntTruthy(d.edad) && IntTruthy(d.altura)
    else if step == 2 then
      d.tieneCondicionMedica.Some? && d.tomaMedicacion.Some?
      && d.tieneLesiones.Some? && d.tienePrescripcionMedica.Some?
    else if step == 3 then
      d.trabaja.Some? && NonEmptyList(d.disponibilidadDias)
      && TextTruthy(d.horariosPreferidos) && d.haHechoEjercicio.Some?
    else if step == 4 then
      NonEmptyList(d.objetivos)
    else if step == 5 then
      TextTruthy(d.frecuenciaEjercicio) && TextTruthy(d.horarioPreferido)
      && TextTruthy(d.lugarPreferido) && TextTruthy(d.tipoMedicion)
    else if step == 6 then
      d.tomaSuficienteAgua.Some?
    else
      true
  }

  /** The goals step is complete exactly when at least one goal is selected. */
  lemma GoalsStep(d: FormData)
    ensures StepComplete(4, d) <==> d.objetivos.Some? && d.objetivos.value != []
  {
  }

  /** Step numbers outside 1..6 fall through to the default case, which is complete. */
  lemma OtherStepsComplete(step: int, d: FormData)
    requires step < 1 || 6 < step
    ensures StepComplete(step, d)
  {
  }

  /**
    Step completeness ignores the required ranges: an age of 15 completes
    the personal-data step although full-form validation rejects it.
  */
  lemma PresenceIsNotRange(d: FormData)
    requires TextTruthy(d.nombreCompleto) && IntTruthy(d.altura)
    requires d.edad == Some(15)
    ensures StepComplete(1, d)
    ensures Edad in FormErrors(d)
  {
    EdadRule(d);
  }

  /**
    The water question is complete on step 6 once it is defined, even as an
    empty string, while full-form validation requires a non-empty answer.
  */
  lemma WaterDefinedVersusTruthy(d: FormData)
    requires d.tomaSuficienteAgua == Some("")
    ensures StepComplete(6, d)
    ensures TomaSuficienteAgua in FormErrors(d)
  {
    ErrorEntry(d, TomaSuficienteAgua);
  }

  /**
    The declared defaults: step 2 is complete from the start, because its
    yes/no answers default to "no", while steps 1, 3, 4, 5 and 6 are not.
  */
  lemma DefaultsByStep()
    ensures StepComplete(2, Defaults())
    ensures !StepComplete(1, Defaults()) && !StepComplete(3, Defaults()) && !StepComplete(4, Defaults())
    ensures !StepComplete(5, Defaults()) && !StepComplete(6, Defaults())
  {
  }

  /**
    The exercise frequency, asked on step 3, is counted by step 5: changing
    it never changes step 3, and leaving it unanswered blocks step 5.
  */
  lemma FrequencyCountsOnStep5(d: FormData, v: Option<string>)
    ensures StepComplete(3, d.(frecuenciaEjercicio := v)) == StepComplete(3, d)
    ensures !TextTruthy(v) ==> !StepComplete(5, d.(frecuenciaEjercicio := v))
  {
  }

  /** The yes/no answers that steps 2 and 3 require to be defined. */
  predicate FlagsDefined(d: FormData) {
    d.tieneCondicionMedica.Some? && d.tomaMedicacion.Some? && d.tieneLesiones.Some?
    && d.tienePrescripcionMedica.Some? && d.trabaja.Some? && d.haHechoEjercicio.Some?
  }

  /**
    An answer set that passes full-form validation, with its yes/no answers
    defined (as the defaults make them), completes every step.
  */
  lemma ValidFormCompletesEveryStep(d: FormData, step: int)
    requires FormErrors(d) == map[]
    requires FlagsDefined(d)
    ensures StepComplete(step, d)
  {
    ErrorEntry(d, NombreCompleto);
    ErrorEntry(d, Edad);
    ErrorEntry(d, Altura);
    ErrorEntry(d, HorariosPreferidos);
    ErrorEntry(d, DisponibilidadDias);
    ErrorEntry(d, Objetivos);
    ErrorEntry(d, FrecuenciaEjercicio);
    ErrorEntry(d, HorarioPreferido);
    ErrorEntry(d, LugarPreferido);
    ErrorEntry(d, TipoMedicion);
    ErrorEntry(d, TomaSuficienteAgua);
  }

  /**
    With nothing selected the goals step is incomplete and reports its
    error; clicking any goal completes it and clears that error.
  */
  lemma SelectingAGoal(d: FormData, objetivo: string)
    requires d.objetivos.None? || d.objetivos.value == []
    ensures !StepComplete(4, d) && Objetivos in FormErrors(d)
    ensures var d' := d.(objetivos := Some(MultiSelect.Toggle(CurrentList(d.objetivos), objetivo)));
      StepComplete(4, d') && Objetivos !in FormErrors(d')
  {
    ListRules(d);
    var d' := d.(objetivos := Some(MultiSelect.Toggle(CurrentList(d.objetivos), objetivo)));
    assert CurrentList(d.objetivos) == [];
    MultiSelect.ToggleAbsent([], objetivo);
    ListRules(d');
  }
}
