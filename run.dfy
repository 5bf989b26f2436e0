/**
 * The evaluator: runs a parsed program over a store from variable indices
 * to unsigned 64-bit values. Additions and subtractions are checked, a
 * variable must be bound before it is read, and each entry into a loop may
 * run its body at most `MAX_ITERATIONS` times.
 */
module Run {
  import opened Prelude
  import opened Parser

  /** The iteration ceiling of one loop entry. */
  const MAX_ITERATIONS: nat := 1024 * 128

  datatype RuntimeError =
    | UnassignedVariable(variable: U64)
    | VariableOverflow(variable: U64)
    | VariableUnderflow(variable: U64)
    | MaxLoopsReached

  type Store = map<U64, U64>

  /**
   * The store after running a statement, or the error it stopped with and
   * the store as it was at that moment (the evaluator updates the store in
   * place, so what earlier statements did is kept).
   */
  datatype Execution = Done(store: Store) | Failed(error: RuntimeError, store: Store)

  /** The variables a statement may assign. */
  function Targets(s: Statement): set<U64> {
    match s
    case S(l, r) => Targets(l) + Targets(r)
    case DeclarePlus(v0, _, _) => {v0}
    case DeclareMin(v0, _, _) => {v0}
    case DeclareConst(v0, _) => {v0}
    case While(_, body) => Targets(body)
  }

  /**
   * Running `s` from `st`. No variable is ever unbound, and after a loop
   * that ends normally its control variable is 0.
   */
  function Exec(s: Statement, st: Store): (r: Execution)
    ensures st.Keys <= r.store.Keys
    ensures s.While? && r.Done? ==> s.cv in r.store && r.store[s.cv] == 0
    decreases s, 1, 0
  {
    match s
    case S(l, r) =>
      (match Exec(l, st)
       case Done(st1) => Exec(r, st1)
       case Failed(e, st1) => Failed(e, st1))
    case DeclarePlus(v0, v1, v2) =>
      if v1 !in st then Failed(UnassignedVariable(v1), st)
      else if v2 !in st then Failed(UnassignedVariable(v2), st)
      else if st[v1] + st[v2] < U64_LIMIT then Done(st[v0 := st[v1] + st[v2]])
      else Failed(VariableOverflow(v0), st)
    case DeclareMin(v0, v1, v2) =>
      if v1 !in st then Failed(UnassignedVariable(v1), st)
      else if v2 !in st then Failed(UnassignedVariable(v2), st)
      else if st[v1] >= st[v2] then Done(st[v0 := st[v1] - st[v2]])
      else Failed(VariableUnderflow(v0), st)
    case DeclareConst(v0, c) => Done(st[v0 := c])
    case While(cv, body) =>
      if cv !in st then Failed(UnassignedVariable(cv), st) else Loop(cv, body, st, 0)
  }

  /**
   * The loop `while xcv != 0 do body od` after `i` runs of its body. It
   * stops when `cv` is 0; otherwise the attempt at run `MAX_ITERATIONS + 1`
   * fails with `MaxLoopsReached`.
   */
  function Loop(cv: U64, body: Statement, st: Store, i: nat): (r: Execution)
    requires cv in st && i <= MAX_ITERATIONS
    ensures st.Keys <= r.store.Keys
    ensures r.Done? ==> r.store[cv] == 0
    decreases While(cv, body), 0, MAX_ITERATIONS - i
  {
    if st[cv] == 0 then Done(st)
    else if i + 1 > MAX_ITERATIONS then Failed(MaxLoopsReached, st)
    else match Exec(body, st)
      case Done(st1) => Loop(cv, body, st1, i + 1)
      case Failed(e, st1) => Failed(e, st1)
  }

  /** One run of the body of a loop whose control variable is not 0. */
  lemma LoopStep(cv: U64, body: Statement, st: Store, i: nat, e: Execution)
    requires cv in st && st[cv] != 0 && i < MAX_ITERATIONS && e == Exec(body, st)
    ensures e.Done? ==> cv in e.store && Loop(cv, body, st, i) == Loop(cv, body, e.store, i + 1)
    ensures e.Failed? ==> Loop(cv, body, st, i) == e
  {
  }

  /** The store of a run that has just returned `r`, as the evaluator reports it. */
  function Reported(r: Result<(), RuntimeError>, vars: Store): Execution {
    if r.Ok? then Done(vars) else Failed(r.error, vars)
  }

  /** What `run` returns: the final store of a run from the empty store, or its error. */
  function RunResult(prog: Statement): Result<Store, RuntimeError> {
    match Exec(prog, map[])
    case Done(st) => Ok(st)
    case Failed(e, _) => Err(e)
  }

  /** The store the evaluator mutates. */
  class State {
    var vars: Store

    constructor ()
      ensures vars == map[]
    {
      vars := map[];
    }

    /** `run_with_state`: runs `prog`, updating `vars` in place. */
    method RunWithState(prog: Statement) returns (r: Result<(), RuntimeError>)
      modifies this
      ensures Reported(r, vars) == Exec(prog, old(vars))
      decreases prog, 1
    {
      match prog {
        case S(left, right) =>
          r := RunWithState(left);
          if r.Err? {
            return;
          }
          r := RunWithState(right);
        case DeclarePlus(v0, v1, v2) =>
          if v1 !in vars {
            return Err(UnassignedVariable(v1));
          }
          if v2 !in vars {
            return Err(UnassignedVariable(v2));
          }
          var sum := vars[v1] as int + vars[v2] as int;
          if sum >= U64_LIMIT {
            return Err(VariableOverflow(v0));
          }
          vars := vars[v0 := sum];
          r := Ok(());
        case DeclareMin(v0, v1, v2) =>
          if v1 !in vars {
            return Err(UnassignedVariable(v1));
          }
          if v2 !in vars {
            return Err(UnassignedVariable(v2));
          }
          if vars[v1] < vars[v2] {
            return Err(VariableUnderflow(v0));
          }
          vars := vars[v0 := vars[v1] - vars[v2]];
          r := Ok(());
        case DeclareConst(v0, c) =>
          vars := vars[v0 := c];
          r := Ok(());
        case While(cv, s) =>
          if cv !in vars {
            return Err(UnassignedVariable(cv));
          }
          r := RunLoop(cv, s);
      }
    }

    /** The `while` arm of `run_with_state`, once `cv` is known to be bound. */
    method RunLoop(cv: U64, s: Statement) returns (r: Result<(), RuntimeError>)
      requires cv in vars
      modifies this
      ensures Reported(r, vars) == Loop(cv, s, old(vars), 0)
      decreases While(cv, s), 0
    {
      var i: nat := 0;
      while vars[cv] != 0
        invariant cv in vars && i <= MAX_ITERATIONS
        invariant Loop(cv, s, vars, i) == Loop(cv, s, old(vars), 0)
        decreases MAX_ITERATIONS - i
      {
        i := i + 1;
        if i > MAX_ITERATIONS {
          return Err(MaxLoopsReached);
        }
        ghost var before := vars;
        r := RunWithState(s);
        LoopStep(cv, s, before, i - 1, Exec(s, before));
        if r.Err? {
          return;
        }
      }
      r := Ok(());
    }
  }

  /** `run`: a run from the empty store. */
  method RunProgram(prog: Statement) returns (r: Result<Store, RuntimeError>)
    ensures r == RunResult(prog)
  {
    var state := new State();
    var res := state.RunWithState(prog);
    if res.Err? {
      return Err(res.error);
    }
    return Ok(state.vars);
  }
}
