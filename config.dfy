/** The options a configuration loader is constructed with, and the check
    that rejects incomplete ones before any file is read. */
module Config {
  import opened Wrappers

  /** A logger is only ever tested for presence here; its identity stands
      for the interface value. */
  datatype Logger = Logger(id: int)

  datatype Options = Options(path: string, typ: string, restartOnChange: bool, logger: Option<Logger>)

  const PathRequired: string := "config: Options.Path is required"
  const TypeRequired: string := "config: Options.Type is required"
  const LoggerRequired: string := "config: Options.Logger is required"

  /** validate: the first missing option, checked as Path, Type, Logger. */
  function Validate(o: Options): (r: Option<string>)
    ensures o.path == "" ==> r == Some(PathRequired)
    ensures o.path != "" && o.typ == "" ==> r == Some(TypeRequired)
    ensures o.path != "" && o.typ != "" && o.logger.None? ==> r == Some(LoggerRequired)
    ensures r.None? <==> o.path != "" && o.typ != "" && o.logger.Some?
  {
    if o.path == "" then Some(PathRequired)
    else if o.typ == "" then Some(TypeRequired)
    else if o.logger.None? then Some(LoggerRequired)
    else None
  }

  /** Every requirement the options break, in the order they are checked. */
  function Violations(o: Options): (v: seq<string>)
    ensures |v| <= 3
  {
    (if o.path == "" then [PathRequired] else [])
    + (if o.typ == "" then [TypeRequired] else [])
    + (if o.logger.None? then [LoggerRequired] else [])
  }

  lemma MessagesDistinct()
    ensures PathRequired != TypeRequired && TypeRequired != LoggerRequired && PathRequired != LoggerRequired
  {
    assert PathRequired[16] == 'P' && TypeRequired[16] == 'T' && LoggerRequired[16] == 'L';
  }

  /** Exactly one error is reported when any requirement is broken, and it
      is the first in checking order; the flag RestartOnChange is never
      looked at. */
  lemma FirstViolationReported(o: Options)
    ensures Validate(o).None? <==> Violations(o) == []
    ensures Validate(o).Some? ==> Validate(o).value == Violations(o)[0]
    ensures Validate(o) == Validate(o.(restartOnChange := !o.restartOnChange))
  {
  }

  /** A missing Path hides every other problem, and a missing Type hides a
      missing Logger. */
  lemma LaterChecksMasked(o: Options)
    ensures o.path == "" ==> Validate(o) == Validate(o.(typ := "", logger := None))
    ensures o.path == "" ==> forall t, l :: Validate(o.(typ := t, logger := l)) == Some(PathRequired)
    ensures o.path != "" && o.typ == "" ==> Validate(o) != Some(LoggerRequired)
  {
    MessagesDistinct();
  }
}
