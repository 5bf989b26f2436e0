/**
 * The interpreter's configuration: four switches, each turned on by name.
 */
module Configuration {
  import opened Prelude

  /** The four switches as a value. */
  datatype Flags = Flags(allowNamedVars: bool, allowUnderflow: bool, allowConstantsEverywhere: bool, extraOperators: bool)

  /** The names `enable` accepts. */
  const NAMES: set<string> := {"allow_named_vars", "allow_underflow", "allow_constants_everywhere", "extra_operators"}

  /** The switch at position `i`, in declaration order. */
  function Flag(f: Flags, i: nat): bool
    requires i < 4
  {
    if i == 0 then f.allowNamedVars
    else if i == 1 then f.allowUnderflow
    else if i == 2 then f.allowConstantsEverywhere
    else f.extraOperators
  }

  /** The switches after `enable(arg)` as the code is written, or `None` for an unknown name. */
  function EnableFlag(f: Flags, arg: string): (r: Option<Flags>)
    ensures r.Some? <==> arg in NAMES
  {
    if arg == "allow_named_vars" then Some(f.(allowNamedVars := true))
    else if arg == "allow_underflow" then Some(f.(allowNamedVars := true))
    else if arg == "allow_constants_everywhere" then Some(f.(allowConstantsEverywhere := true))
    else if arg == "extra_operators" then Some(f.(extraOperators := true))
    else None
  }

  /** The switches after `enable(arg)` as evidently intended: each name turns on its own switch. */
  function EnableFlagIntended(f: Flags, arg: string): (r: Option<Flags>)
    ensures r.Some? <==> arg in NAMES
  {
    if arg == "allow_named_vars" then Some(f.(allowNamedVars := true))
    else if arg == "allow_underflow" then Some(f.(allowUnderflow := true))
    else if arg == "allow_constants_everywhere" then Some(f.(allowConstantsEverywhere := true))
    else if arg == "extra_operators" then Some(f.(extraOperators := true))
    else None
  }

  /** The position of the switch a name is meant to turn on. */
  function Position(arg: string): (i: nat)
    requires arg in NAMES
    ensures i < 4
  {
    if arg == "allow_named_vars" then 0
    else if arg == "allow_underflow" then 1
    else if arg == "allow_constants_everywhere" then 2
    else 3
  }

  class Config {
    var allowNamedVars: bool
    var allowUnderflow: bool
    var allowConstantsEverywhere: bool
    var extraOperators: bool

    function Current(): Flags
      reads this
    {
      Flags(allowNamedVars, allowUnderflow, allowConstantsEverywhere, extraOperators)
    }

    constructor (f: Flags)
      ensures Current() == f
    {
      allowNamedVars := f.allowNamedVars;
      allowUnderflow := f.allowUnderflow;
      allowConstantsEverywhere := f.allowConstantsEverywhere;
      extraOperators := f.extraOperators;
    }

    /** `enable`: turns on the switch `arg` names; an unknown name is an error and changes nothing. */
    method Enable(arg: string) returns (r: Result<(), ()>)
      modifies this
      ensures r.Ok? <==> EnableFlag(old(Current()), arg).Some?
      ensures Current() == if r.Ok? then EnableFlag(old(Current()), arg).value else old(Current())
    {
      if arg == "allow_named_vars" {
        allowNamedVars := true;
      } else if arg == "allow_underflow" {
        allowNamedVars := true;
      } else if arg == "allow_constants_everywhere" {
        allowConstantsEverywhere := true;
      } else if arg == "extra_operators" {
        extraOperators := true;
      } else {
        return Err(());
      }
      return Ok(());
    }
  }
}
