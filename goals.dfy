/** Saving a financial goal: amounts default to 0 and an active goal whose
    current amount has reached its target is saved as completed. */
module Goals {
  import opened Common

  /** `float(field or 0)`: a missing or empty form field counts as 0. */
  function AmountOrZero(field: Option<real>): (x: real)
    ensures field.None? ==> x == 0.0
    ensures field.Some? ==> x == field.value
  {
    field.GetOr(0.0)
  }

  /** The status a goal is saved with; the form's status defaults to "active". */
  function SavedStatus(current: real, target: real, requested: Option<string>): (status: string)
    ensures status == "completed" <==>
      requested.GetOr("active") == "completed" || (requested.GetOr("active") == "active" && current >= target)
    ensures status == "active" <==> requested.GetOr("active") == "active" && current < target
    ensures status != "completed" ==> status == requested.GetOr("active")
  {
    var status := requested.GetOr("active");
    if current >= target && status == "active" then "completed" else status
  }

  /** Saving a goal again with the status it was saved with changes nothing. */
  lemma SavedStatusIdempotent(current: real, target: real, requested: Option<string>)
    ensures SavedStatus(current, target, Some(SavedStatus(current, target, requested)))
         == SavedStatus(current, target, requested)
  {
  }

  /** A completed goal stays completed whatever its amounts: the rule never
      reopens a goal. */
  lemma CompletedIsFinal(current: real, target: real)
    ensures SavedStatus(current, target, Some("completed")) == "completed"
  {
  }

  /** A form with neither amount filled in saves a goal already completed
      (0 has reached a target of 0). */
  lemma EmptyFormCompletes()
    ensures SavedStatus(AmountOrZero(None), AmountOrZero(None), None) == "completed"
  {
  }
}
