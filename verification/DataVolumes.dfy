/** A DataVolume as the importer moves it, and what the operator makes of its phase and conditions. */
module DataVolumes {
  import opened Options
  import opened Text

  datatype Condition = Condition(kind: string, status: string, reason: string, message: string)

  predicate Rejected(c: Condition) {
    Contains(c.reason, "CloneValidationFailed") || Contains(c.message, "CloneValidationFailed")
  }

  predicate Undersized(c: Condition) {
    && c.kind in {"Bound", "Running"} && c.status == "False"
    && (Contains(c.message, "smaller than the source") || Contains(c.message, "too small to contain image"))
  }

  /** `_is_terminal_dv_condition` */
  predicate IsTerminalCondition(conditions: seq<Condition>) {
    if conditions == [] then false
    else if Rejected(conditions[0]) || Undersized(conditions[0]) then true
    else IsTerminalCondition(conditions[1..])
  }

  lemma {:induction false} TerminalIffSome(conditions: seq<Condition>)
    ensures IsTerminalCondition(conditions) <==>
      exists c :: c in conditions &&
        (|| Contains(c.reason, "CloneValidationFailed") || Contains(c.message, "CloneValidationFailed")
         || (&& c.kind in {"Bound", "Running"} && c.status == "False"
             && (Contains(c.message, "smaller than the source") || Contains(c.message, "too small to contain image"))))
  {
    if conditions != [] {
      TerminalIffSome(conditions[1..]);
      assert conditions == [conditions[0]] + conditions[1..];
    }
  }

  /** `uid` tells one DataVolume from the next of the same name; `deleting`: its deletion was requested. */
  datatype DataVolume = DataVolume(uid: nat, phase: string, conditions: seq<Condition>, deleting: bool)
  {
    predicate Succeeded() { phase == "Succeeded" }

    predicate Failed() { !Succeeded() && (phase in {"Failed", "Error"} || IsTerminalCondition(conditions)) }
  }

  datatype Status = Ready | Failed | Deleted | Pending

  /** `_check_datavolume_status`, when the API answers. */
  function StatusOf(dv: Option<DataVolume>): Status {
    match dv
    case None => Deleted
    case Some(dv) => if dv.Succeeded() then Ready else if dv.Failed() then Failed else Pending
  }

  /** A phase of success wins over everything; else a phase of failure or a terminal condition decides. */
  lemma StatusMeans(dv: Option<DataVolume>)
    ensures StatusOf(dv) == Deleted <==> dv == None
    ensures dv.Some? ==> (StatusOf(dv) == Ready <==> dv.value.phase == "Succeeded")
    ensures dv.Some? && dv.value.phase != "Succeeded" ==>
      (StatusOf(dv) == Failed <==> dv.value.phase in {"Failed", "Error"} || IsTerminalCondition(dv.value.conditions))
  {
  }
}
