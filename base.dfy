/** Java's references, exceptions and the collaborators of the INSERT builder
    whose code is not part of this model. */
module Base {

  /** A Java reference that may be `null`. */
  datatype Option<T> = None | Some(value: T)

  /** The unchecked exceptions the INSERT builder can raise. */
  datatype Error = NullPointer | IllegalState

  /** The value a Java method returns, or the exception it throws. */
  datatype Result<T> = Ok(value: T) | Err(error: Error)

  /** Whether a call that returns nothing of interest completed or threw. */
  datatype Outcome = Pass | Fail(error: Error)

  function OutcomeOf<T>(r: Result<T>): (o: Outcome) {
    if r.Ok? then Pass else Fail(r.error)
  }

  /** A SQLite conflict-resolution action (`org.mariotaku.sqliteqb.library.OnConflict`).
      Its members are not part of this model. */
  type OnConflict(==)

  /** `OnConflict.getAction()`: the SQL keyword of an action. Left uninterpreted. */
  const Action: OnConflict -> string

  /** `Utils.toString(array, ',', true)`: the list join used for the column and value
      lists. Its treatment of a null array and of the flag is not part of this model,
      so it is left uninterpreted over a nullable array. */
  const Join: Option<seq<string>> -> string

  predicate EndsWith(s: string, suffix: string) {
    |suffix| <= |s| && s[|s| - |suffix|..] == suffix
  }
}
