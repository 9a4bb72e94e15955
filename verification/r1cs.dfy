/** A rank-1 constraint system builder, in the form the circuit drives it:
    an instance vector whose slot 0 holds the constant One, a witness
    vector, a list of constraints (A, B, C) each read as A * B = C, and a
    mode flag that says whether values are recorded at all. */
module R1cs {
  import opened Wrappers
  import opened Field

  /** Setup records only the topology (for parameter generation); Prove also
      records the value of every variable (for proving). */
  datatype Mode = Setup | Prove

  /** The builder library's error kinds that this system can meet: a missing
      assignment from synthesis, and the failures of the library's own
      setup, proving and verification. */
  datatype SynthesisError =
    AssignmentMissing | MalformedVerifyingKey | PolynomialDegreeTooLarge | UnexpectedIdentity

  /** `One` is the constant 1, which occupies instance slot 0. */
  datatype Variable = One | Instance(index: nat) | Witness(index: nat)

  datatype Term = Term(coeff: Fr, v: Variable)

  type LinearCombination = seq<Term>

  datatype Constraint = Constraint(a: LinearCombination, b: LinearCombination, c: LinearCombination)

  /** The whole state of a builder as a value. A slot is `None` in Setup
      mode and holds the variable's value in Prove mode. */
  datatype Snapshot = Snapshot(
    mode: Mode,
    instances: seq<Option<Fr>>,
    witnesses: seq<Option<Fr>>,
    constraints: seq<Constraint>)

  /** The topology without values: what parameter generation consumes. */
  datatype Shape = Shape(numInstance: nat, numWitness: nat, constraints: seq<Constraint>)

  function ShapeOf(s: Snapshot): Shape {
    Shape(|s.instances|, |s.witnesses|, s.constraints)
  }

  /** A fresh builder: only the constant One is allocated. */
  function Empty(mode: Mode): Snapshot {
    Snapshot(mode, [Some(1)], [], [])
  }

  predicate InScope(s: Snapshot, v: Variable) {
    match v
    case One => true
    case Instance(i) => i < |s.instances|
    case Witness(i) => i < |s.witnesses|
  }

  predicate LcInScope(s: Snapshot, lc: LinearCombination) {
    forall k :: 0 <= k < |lc| ==> InScope(s, lc[k].v)
  }

  predicate ConstraintInScope(s: Snapshot, c: Constraint) {
    LcInScope(s, c.a) && LcInScope(s, c.b) && LcInScope(s, c.c)
  }

  /** Slot 0 is One; every other slot is assigned exactly in Prove mode; every
      constraint names allocated variables only. */
  predicate WellFormed(s: Snapshot) {
    && |s.instances| >= 1
    && s.instances[0] == Some(1)
    && (forall i :: 0 < i < |s.instances| ==> (s.instances[i].Some? <==> s.mode == Prove))
    && (forall i :: 0 <= i < |s.witnesses| ==> (s.witnesses[i].Some? <==> s.mode == Prove))
    && (forall k :: 0 <= k < |s.constraints| ==> ConstraintInScope(s, s.constraints[k]))
  }

  /** `t` is `s` with entries appended and nothing else changed. */
  predicate Extends(s: Snapshot, t: Snapshot) {
    && t.mode == s.mode
    && s.instances <= t.instances
    && s.witnesses <= t.witnesses
    && s.constraints <= t.constraints
  }

  datatype Allocation = Allocation(outcome: Result<Variable, SynthesisError>, state: Snapshot)

  /** Allocating a witness variable. The value closure `f` is called only in
      Prove mode; its failure aborts the allocation and leaves the state as
      it was. */
  function AllocWitness(s: Snapshot, f: () -> Result<Fr, SynthesisError>): (r: Allocation)
    requires WellFormed(s)
    ensures WellFormed(r.state) && Extends(s, r.state)
    ensures s.mode == Setup ==> r.outcome.Success?
    ensures s.mode == Prove ==> (r.outcome.Success? <==> f().Success?)
    ensures r.outcome.Failure? ==> r.state == s && r.outcome.error == f().error
    ensures r.outcome.Success? ==>
      && r.outcome.value == Witness(|s.witnesses|)
      && r.state.instances == s.instances
      && r.state.constraints == s.constraints
      && |r.state.witnesses| == |s.witnesses| + 1
      && r.state.witnesses[|s.witnesses|] == (if s.mode == Setup then None else Some(f().value))
  {
    if s.mode == Setup then
      Allocation(Success(Witness(|s.witnesses|)), s.(witnesses := s.witnesses + [None]))
    else
      match f()
      case Failure(e) => Allocation(Failure(e), s)
      case Success(x) => Allocation(Success(Witness(|s.witnesses|)), s.(witnesses := s.witnesses + [Some(x)]))
  }

  /** Allocating a public-input (instance) variable, with the same rules. */
  function AllocInput(s: Snapshot, f: () -> Result<Fr, SynthesisError>): (r: Allocation)
    requires WellFormed(s)
    ensures WellFormed(r.state) && Extends(s, r.state)
    ensures s.mode == Setup ==> r.outcome.Success?
    ensures s.mode == Prove ==> (r.outcome.Success? <==> f().Success?)
    ensures r.outcome.Failure? ==> r.state == s && r.outcome.error == f().error
    ensures r.outcome.Success? ==>
      && r.outcome.value == Instance(|s.instances|)
      && r.state.witnesses == s.witnesses
      && r.state.constraints == s.constraints
      && |r.state.instances| == |s.instances| + 1
      && r.state.instances[|s.instances|] == (if s.mode == Setup then None else Some(f().value))
  {
    if s.mode == Setup then
      Allocation(Success(Instance(|s.instances|)), s.(instances := s.instances + [None]))
    else
      match f()
      case Failure(e) => Allocation(Failure(e), s)
      case Success(x) => Allocation(Success(Instance(|s.instances|)), s.(instances := s.instances + [Some(x)]))
  }

  /** Registering a constraint appends it; the variables are untouched. */
  function Enforce(s: Snapshot, c: Constraint): (r: Snapshot)
    requires WellFormed(s) && ConstraintInScope(s, c)
    ensures WellFormed(r) && Extends(s, r)
    ensures r.instances == s.instances && r.witnesses == s.witnesses
    ensures |r.constraints| == |s.constraints| + 1 && r.constraints[|s.constraints|] == c
  {
    s.(constraints := s.constraints + [c])
  }

  /** The value a variable has in a Prove-mode builder. */
  function ValueOf(s: Snapshot, v: Variable): Fr
    requires WellFormed(s) && s.mode == Prove && InScope(s, v)
  {
    match v
    case One => 1
    case Instance(i) => s.instances[i].value
    case Witness(i) => s.witnesses[i].value
  }

  /** The value of a linear combination: the sum of its terms modulo r. */
  function Eval(s: Snapshot, lc: LinearCombination): Fr
    requires WellFormed(s) && s.mode == Prove && LcInScope(s, lc)
    decreases |lc|
  {
    if lc == [] then 0
    else Add(Mul(lc[0].coeff, ValueOf(s, lc[0].v)), Eval(s, lc[1..]))
  }

  predicate Holds(s: Snapshot, c: Constraint)
    requires WellFormed(s) && s.mode == Prove && ConstraintInScope(s, c)
  {
    Mul(Eval(s, c.a), Eval(s, c.b)) == Eval(s, c.c)
  }

  /** Every registered constraint holds under the recorded assignment. */
  predicate Satisfied(s: Snapshot)
    requires WellFormed(s) && s.mode == Prove
  {
    forall k :: 0 <= k < |s.constraints| ==> Holds(s, s.constraints[k])
  }

  /** The public inputs a proof is made for: the instance values after One. */
  function PublicValues(s: Snapshot): (r: seq<Fr>)
    requires WellFormed(s) && s.mode == Prove
    ensures |r| == |s.instances| - 1
    ensures forall i :: 0 <= i < |r| ==> Some(r[i]) == s.instances[i + 1]
  {
    seq(|s.instances| - 1, i requires 0 <= i < |s.instances| - 1 => s.instances[i + 1].value)
  }

  /** The builder object the circuit mutates through its reference. */
  class ConstraintSystem {
    const mode: Mode
    var instances: seq<Option<Fr>>
    var witnesses: seq<Option<Fr>>
    var constraints: seq<Constraint>

    function State(): Snapshot
      reads this
    {
      Snapshot(mode, instances, witnesses, constraints)
    }

    ghost predicate Valid()
      reads this
    {
      WellFormed(State())
    }

    constructor (mode: Mode)
      ensures Valid() && State() == Empty(mode)
    {
      this.mode := mode;
      instances := [Some(1)];
      witnesses := [];
      constraints := [];
    }

    method NewWitnessVariable(f: () -> Result<Fr, SynthesisError>) returns (r: Result<Variable, SynthesisError>)
      requires Valid()
      modifies this
      ensures Valid()
      ensures Allocation(r, State()) == AllocWitness(old(State()), f)
    {
      if mode == Setup {
        r := Success(Witness(|witnesses|));
        witnesses := witnesses + [None];
      } else {
        var x := f();
        if x.Failure? {
          r := Failure(x.error);
        } else {
          r := Success(Witness(|witnesses|));
          witnesses := witnesses + [Some(x.value)];
        }
      }
    }

    method NewInputVariable(f: () -> Result<Fr, SynthesisError>) returns (r: Result<Variable, SynthesisError>)
      requires Valid()
      modifies this
      ensures Valid()
      ensures Allocation(r, State()) == AllocInput(old(State()), f)
    {
      if mode == Setup {
        r := Success(Instance(|instances|));
        instances := instances + [None];
      } else {
        var x := f();
        if x.Failure? {
          r := Failure(x.error);
        } else {
          r := Success(Instance(|instances|));
          instances := instances + [Some(x.value)];
        }
      }
    }

    method EnforceConstraint(a: LinearCombination, b: LinearCombination, c: LinearCombination)
      returns (r: Result<(), SynthesisError>)
      requires Valid() && ConstraintInScope(State(), Constraint(a, b, c))
      modifies this
      ensures Valid()
      ensures r == Success(()) && State() == Enforce(old(State()), Constraint(a, b, c))
    {
      constraints := constraints + [Constraint(a, b, c)];
      r := Success(());
    }
  }
}
