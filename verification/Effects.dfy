/** Outcomes and number limits shared by every model in this project. */
module Effects {
  /** Beyond this the language's numbers are no longer exact. */
  const MAX_SAFE_INTEGER := 0x1F_FFFF_FFFF_FFFF

  datatype Option<+T> = None | Some(value: T)

  /** How an awaited effect ends. `Threw` is an exception the program can see, so that
      its handlers and `finally` blocks run. `Crashed` is the death of the process: memory is
      lost, files and the chain stay as they are, and no handler runs. */
  datatype Result<+T> = Ok(value: T) | Threw | Crashed {
    predicate IsFailure() {
      !Ok?
    }

    function PropagateFailure<U>(): (r: Result<U>)
      requires !Ok?
      ensures r.Crashed? <==> Crashed?
    {
      if Threw? then Result.Threw else Result.Crashed
    }

    function Extract(): T
      requires Ok?
    {
      value
    }
  }
}
