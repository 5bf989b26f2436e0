/**
 * Properties of the evaluator: what each statement does to the store, in
 * which order errors are reported, what a run leaves untouched, and how
 * the iteration ceiling bounds a loop.
 */
module RunProperties {
  import opened Prelude
  import opened Parser
  import opened Run

  /** `st2` extends `st` and differs from it at most on the variables `ts`. */
  predicate Frame(st: Store, st2: Store, ts: set<U64>) {
    st.Keys <= st2.Keys <= st.Keys + ts &&
    forall k :: k in st && k !in ts ==> k in st2 && st2[k] == st[k]
  }

  lemma FrameTrans(st1: Store, st2: Store, st3: Store, t1: set<U64>, t2: set<U64>)
    requires Frame(st1, st2, t1) && Frame(st2, st3, t2)
    ensures Frame(st1, st3, t1 + t2)
  {
  }

  /**
   * Whatever its outcome, running `s` changes only variables that `s`
   * assigns, and binds no others.
   */
  lemma {:induction false} ExecFrame(s: Statement, st: Store)
    ensures Frame(st, Exec(s, st).store, Targets(s))
    decreases s, 1
  {
    match s
    case S(l, r) =>
      ExecFrame(l, st);
      var e := Exec(l, st);
      if e.Done? {
        ExecFrame(r, e.store);
        FrameTrans(st, e.store, Exec(r, e.store).store, Targets(l), Targets(r));
      }
    case While(cv, body) =>
      if cv in st {
        LoopFrame(cv, body, st, 0);
      }
    case _ =>
  }

  lemma {:induction false} LoopFrame(cv: U64, body: Statement, st: Store, i: nat)
    requires cv in st && i <= MAX_ITERATIONS
    ensures Frame(st, Loop(cv, body, st, i).store, Targets(body))
    decreases While(cv, body), 0, MAX_ITERATIONS - i
  {
    if st[cv] != 0 && i + 1 <= MAX_ITERATIONS {
      ExecFrame(body, st);
      var e := Exec(body, st);
      if e.Done? {
        LoopFrame(cv, body, e.store, i + 1);
        FrameTrans(st, e.store, Loop(cv, body, e.store, i + 1).store, Targets(body), Targets(body));
        assert Targets(body) + Targets(body) == Targets(body);
      }
    }
  }

  /** A successful `run` binds only variables that the program assigns. */
  lemma RunBindsTargets(prog: Statement)
    ensures RunResult(prog).Ok? ==> RunResult(prog).value.Keys <= Targets(prog)
  {
    ExecFrame(prog, map[]);
  }

  /**
   * `S(l, r)` runs `l` and then `r` on the store `l` left; an error in `l`
   * is the error of the whole and `r` is not run.
   */
  lemma Sequence(l: Statement, r: Statement, st: Store)
    ensures Exec(l, st).Failed? ==> Exec(S(l, r), st) == Exec(l, st)
    ensures Exec(l, st).Done? ==> Exec(S(l, r), st) == Exec(r, Exec(l, st).store)
  {
  }

  /** How a sequence is grouped makes no difference to a run. */
  lemma SequenceAssociative(a: Statement, b: Statement, c: Statement, st: Store)
    ensures Exec(S(S(a, b), c), st) == Exec(S(a, S(b, c)), st)
  {
  }

  /**
   * `xi := xj + xk` needs both operands bound, reporting `xj` first when
   * neither is, and succeeds exactly when the sum fits in 64 bits; an
   * overflow is reported for the target. A failure leaves the store as it was.
   */
  lemma Plus(v0: U64, v1: U64, v2: U64, st: Store)
    ensures var r := Exec(DeclarePlus(v0, v1, v2), st);
      (r.Done? <==> v1 in st && v2 in st && st[v1] + st[v2] < U64_LIMIT) &&
      (r.Done? ==> r.store == st[v0 := st[v1] + st[v2]]) &&
      (r.Failed? ==> r.store == st) &&
      (v1 !in st ==> r.error == UnassignedVariable(v1)) &&
      (v1 in st && v2 !in st ==> r.error == UnassignedVariable(v2)) &&
      (v1 in st && v2 in st && st[v1] + st[v2] >= U64_LIMIT ==> r.error == VariableOverflow(v0))
  {
  }

  /**
   * `xi := xj - xk` needs both operands bound, reporting `xj` first, and
   * succeeds exactly when `xj >= xk`; a negative difference is an underflow
   * of the target, never clamped to 0.
   */
  lemma Minus(v0: U64, v1: U64, v2: U64, st: Store)
    ensures var r := Exec(DeclareMin(v0, v1, v2), st);
      (r.Done? <==> v1 in st && v2 in st && st[v1] >= st[v2]) &&
      (r.Done? ==> r.store == st[v0 := st[v1] - st[v2]]) &&
      (r.Failed? ==> r.store == st) &&
      (v1 !in st ==> r.error == UnassignedVariable(v1)) &&
      (v1 in st && v2 !in st ==> r.error == UnassignedVariable(v2)) &&
      (v1 in st && v2 in st && st[v1] < st[v2] ==> r.error == VariableUnderflow(v0))
  {
  }

  /** `xi := c` always succeeds and binds `xi` to `c`. */
  lemma Const(v0: U64, c: U64, st: Store)
    ensures Exec(DeclareConst(v0, c), st) == Done(st[v0 := c])
  {
  }

  /** A successful assignment changes its target and nothing else. */
  lemma AssignmentTarget(s: Statement, st: Store)
    requires !s.S? && !s.While?
    ensures var r := Exec(s, st);
      r.Done? ==> (s.target in r.store &&
                   forall k :: k != s.target ==> (k in r.store <==> k in st) && (k in st ==> r.store[k] == st[k]))
  {
  }

  /** A loop whose control variable is unbound fails, even if it would not run its body. */
  lemma UnboundLoopVariable(cv: U64, body: Statement, st: Store)
    requires cv !in st
    ensures Exec(While(cv, body), st) == Failed(UnassignedVariable(cv), st)
  {
  }

  /** A loop whose control variable is 0 does nothing. */
  lemma LoopSkipped(cv: U64, body: Statement, st: Store)
    requires cv in st && st[cv] == 0
    ensures Exec(While(cv, body), st) == Done(st)
  {
  }

  /** `k` runs of `body` from `st`, stopping at the first error. */
  function Repeat(body: Statement, st: Store, k: nat): Execution
    decreases k
  {
    if k == 0 then Done(st)
    else match Exec(body, st)
      case Done(st1) => Repeat(body, st1, k - 1)
      case Failed(e, st1) => Failed(e, st1)
  }

  /** The loop's control variable is bound and not 0 after a run. */
  predicate Continues(cv: U64, e: Execution) {
    e.Done? && cv in e.store && e.store[cv] != 0
  }

  /**
   * A loop that ends normally after `i` runs has run its body at most
   * `MAX_ITERATIONS - i` more times.
   */
  lemma {:induction false} LoopRepeats(cv: U64, body: Statement, st: Store, i: nat)
    requires cv in st && i <= MAX_ITERATIONS
    ensures var r := Loop(cv, body, st, i);
      r.Done? ==> exists k :: 0 <= k <= MAX_ITERATIONS - i && Repeat(body, st, k) == r
    decreases MAX_ITERATIONS - i
  {
    var r := Loop(cv, body, st, i);
    if r.Done? {
      if st[cv] == 0 {
        assert Repeat(body, st, 0) == r;
      } else {
        var st1 := Exec(body, st).store;
        LoopRepeats(cv, body, st1, i + 1);
        var k :| 0 <= k <= MAX_ITERATIONS - (i + 1) && Repeat(body, st1, k) == r;
        assert Repeat(body, st, k + 1) == r;
      }
    }
  }

  /**
   * A loop keeps running while its control variable is not 0, and the
   * attempt at run `MAX_ITERATIONS + 1` fails with `MaxLoopsReached`,
   * keeping the store of the last run.
   */
  lemma {:induction false} LoopCeiling(cv: U64, body: Statement, st: Store, i: nat)
    requires cv in st && i <= MAX_ITERATIONS
    requires forall j :: 0 <= j <= MAX_ITERATIONS - i ==> Continues(cv, Repeat(body, st, j))
    ensures Loop(cv, body, st, i) == Failed(MaxLoopsReached, Repeat(body, st, MAX_ITERATIONS - i).store)
    decreases MAX_ITERATIONS - i
  {
    assert Continues(cv, Repeat(body, st, 0));
    if i < MAX_ITERATIONS {
      assert Continues(cv, Repeat(body, st, 1));
      var st1 := Exec(body, st).store;
      forall j | 0 <= j <= MAX_ITERATIONS - (i + 1)
        ensures Continues(cv, Repeat(body, st1, j))
      {
        assert Repeat(body, st, j + 1) == Repeat(body, st1, j);
        assert Continues(cv, Repeat(body, st, j + 1));
      }
      LoopCeiling(cv, body, st1, i + 1);
      assert Repeat(body, st, MAX_ITERATIONS - i) == Repeat(body, st1, MAX_ITERATIONS - (i + 1));
    }
  }

  /** Each entry into a loop that ends normally runs its body at most `MAX_ITERATIONS` times. */
  lemma LoopBounded(cv: U64, body: Statement, st: Store)
    ensures var r := Exec(While(cv, body), st);
      r.Done? ==> exists k :: 0 <= k <= MAX_ITERATIONS && Repeat(body, st, k) == r
  {
    if cv in st {
      LoopRepeats(cv, body, st, 0);
    }
  }

  /**
   * A loop whose control variable stays other than 0 through
   * `MAX_ITERATIONS` runs of its body fails with `MaxLoopsReached`.
   */
  lemma MaxLoops(cv: U64, body: Statement, st: Store)
    requires cv in st
    requires forall j :: 0 <= j <= MAX_ITERATIONS ==> Continues(cv, Repeat(body, st, j))
    ensures Exec(While(cv, body), st) == Failed(MaxLoopsReached, Repeat(body, st, MAX_ITERATIONS).store)
  {
    LoopCeiling(cv, body, st, 0);
  }
}
