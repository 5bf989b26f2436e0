/**
 * Properties of `enable`: that it turns exactly one switch on and never one
 * off, and that the name `allow_underflow` turns on the wrong switch.
 */
module ConfigProperties {
  import opened Prelude
  import opened Configuration

  /** Each accepted name turns on one switch and leaves the other three as they were. */
  lemma EnablesOne(f: Flags, arg: string)
    requires arg in NAMES
    ensures var g := EnableFlag(f, arg).value;
      exists i :: 0 <= i < 4 && Flag(g, i) && forall j :: 0 <= j < 4 && j != i ==> Flag(g, j) == Flag(f, j)
  {
    var g := EnableFlag(f, arg).value;
    var i := if arg == "allow_named_vars" || arg == "allow_underflow" then 0 else Position(arg);
    assert Flag(g, i) && forall j :: 0 <= j < 4 && j != i ==> Flag(g, j) == Flag(f, j);
  }

  /** `enable` never turns a switch off. */
  lemma NeverClears(f: Flags, arg: string)
    requires EnableFlag(f, arg).Some?
    ensures forall i :: 0 <= i < 4 && Flag(f, i) ==> Flag(EnableFlag(f, arg).value, i)
  {
  }

  /** Enabling the same name twice is enabling it once. */
  lemma Idempotent(f: Flags, arg: string)
    requires EnableFlag(f, arg).Some?
    ensures EnableFlag(EnableFlag(f, arg).value, arg) == EnableFlag(f, arg)
  {
  }

  /** The order in which two names are enabled does not matter. */
  lemma Commutes(f: Flags, a: string, b: string)
    requires a in NAMES && b in NAMES
    ensures EnableFlag(EnableFlag(f, a).value, b) == EnableFlag(EnableFlag(f, b).value, a)
  {
  }

  /** As written, no name turns on `allow_underflow`: `enable` leaves it as it was. */
  lemma UnderflowNeverEnabled(f: Flags, arg: string)
    requires EnableFlag(f, arg).Some?
    ensures EnableFlag(f, arg).value.allowUnderflow == f.allowUnderflow
  {
  }

  /** As written, `allow_underflow` turns on `allow_named_vars` instead, whatever the switches were. */
  lemma UnderflowSetsNamedVars(f: Flags)
    ensures EnableFlag(f, "allow_underflow") == Some(f.(allowNamedVars := true))
  {
  }

  /**
   * The input that shows the discrepancy: from all switches off, the written
   * `enable("allow_underflow")` leaves `allow_underflow` off and turns
   * `allow_named_vars` on, where the intended one does the reverse.
   */
  lemma UnderflowFromAllOff()
    ensures EnableFlag(Flags(false, false, false, false), "allow_underflow") == Some(Flags(true, false, false, false))
    ensures EnableFlagIntended(Flags(false, false, false, false), "allow_underflow") == Some(Flags(false, true, false, false))
  {
  }

  /** As intended, every accepted name turns on its own switch and leaves the others as they were. */
  lemma IntendedOwnFlag(f: Flags, arg: string)
    requires arg in NAMES
    ensures var g := EnableFlagIntended(f, arg).value;
      Flag(g, Position(arg)) && forall j :: 0 <= j < 4 && j != Position(arg) ==> Flag(g, j) == Flag(f, j)
  {
  }

  /** As intended, each of the four switches has a name that turns it on. */
  lemma IntendedReachesAll(f: Flags, i: nat)
    requires i < 4
    ensures exists arg :: arg in NAMES && Flag(EnableFlagIntended(f, arg).value, i)
  {
    var arg := if i == 0 then "allow_named_vars" else if i == 1 then "allow_underflow"
      else if i == 2 then "allow_constants_everywhere" else "extra_operators";
    assert arg in NAMES && Flag(EnableFlagIntended(f, arg).value, i);
  }

  /** The intended version differs from the written one only on `allow_underflow`. */
  lemma IntendedAgrees(f: Flags, arg: string)
    requires arg != "allow_underflow"
    ensures EnableFlagIntended(f, arg) == EnableFlag(f, arg)
  {
  }
}
