/** The demonstration circuit: private witnesses a and b, public input c,
    and the single constraint (a + b) * 1 = c. Each value arrives as an
    optional decimal string and is parsed into Fr by the field library's
    parser, which is a parameter here. */
module SumCircuit {
  import opened Wrappers
  import opened Field
  import opened R1cs

  datatype Circuit = Circuit(a: Option<string>, b: Option<string>, c: Option<string>)

  /** The all-absent circuit used for parameter generation. */
  function ShapeOnly(): Circuit {
    Circuit(None, None, None)
  }

  /** What one value closure yields: the parsed slot, or AssignmentMissing
      when the slot is absent or does not parse. */
  function SlotValue(slot: Option<string>, parse: string -> Option<Fr>): (r: Result<Fr, SynthesisError>)
    ensures r.Success? <==> slot.Some? && parse(slot.value).Some?
    ensures r.Success? ==> parse(slot.value) == Some(r.value)
    ensures r.Failure? ==> r.error == AssignmentMissing
  {
    match slot
    case None => Failure(AssignmentMissing)
    case Some(text) =>
      match parse(text)
      case None => Failure(AssignmentMissing)
      case Some(x) => Success(x)
  }

  /** The closure handed to the builder for one slot. */
  function Source(slot: Option<string>, parse: string -> Option<Fr>): () -> Result<Fr, SynthesisError> {
    () => SlotValue(slot, parse)
  }

  /** (a + b) * One = c, each term with coefficient 1. */
  function SumConstraint(a: Variable, b: Variable, c: Variable): Constraint {
    Constraint([Term(1, a), Term(1, b)], [Term(1, One)], [Term(1, c)])
  }

  datatype Run = Run(outcome: Result<(), SynthesisError>, state: Snapshot)

  /** The effect of synthesis on a builder in state `s`: allocate a, then b,
      then c, stopping at the first failure, then register the constraint. */
  function Synthesize(circuit: Circuit, s: Snapshot, parse: string -> Option<Fr>): (r: Run)
    requires WellFormed(s)
    ensures WellFormed(r.state) && Extends(s, r.state)
    ensures r.outcome.Failure? ==> r.outcome.error == AssignmentMissing
    ensures s.mode == Setup ==> r.outcome.Success?
  {
    var a := AllocWitness(s, Source(circuit.a, parse));
    if a.outcome.Failure? then Run(Failure(a.outcome.error), a.state)
    else
      var b := AllocWitness(a.state, Source(circuit.b, parse));
      if b.outcome.Failure? then Run(Failure(b.outcome.error), b.state)
      else
        var c := AllocInput(b.state, Source(circuit.c, parse));
        if c.outcome.Failure? then Run(Failure(c.outcome.error), c.state)
        else
          Run(Success(()), Enforce(c.state, SumConstraint(a.outcome.value, b.outcome.value, c.outcome.value)))
  }

  /** The circuit's `generate_constraints`, driving a builder object. */
  method GenerateConstraints(circuit: Circuit, cs: ConstraintSystem, parse: string -> Option<Fr>)
    returns (r: Result<(), SynthesisError>)
    requires cs.Valid()
    modifies cs
    ensures cs.Valid()
    ensures Run(r, cs.State()) == Synthesize(circuit, old(cs.State()), parse)
  {
    var a :- cs.NewWitnessVariable(Source(circuit.a, parse));
    var b :- cs.NewWitnessVariable(Source(circuit.b, parse));
    var c :- cs.NewInputVariable(Source(circuit.c, parse));
    r := cs.EnforceConstraint([Term(1, a), Term(1, b)], [Term(1, One)], [Term(1, c)]);
  }

  /** What a slot holds after allocation in the given mode. */
  function Recorded(mode: Mode, value: Result<Fr, SynthesisError>): Option<Fr> {
    if mode == Setup || value.Failure? then None else Some(value.value)
  }

  /** On success synthesis appends exactly two witnesses, one input and the
      one constraint wired to them, whatever the builder held before. */
  lemma AppendsExactly(circuit: Circuit, s: Snapshot, parse: string -> Option<Fr>)
    requires WellFormed(s)
    requires Synthesize(circuit, s, parse).outcome.Success?
    ensures Synthesize(circuit, s, parse).state == s.(
      instances := s.instances + [Recorded(s.mode, SlotValue(circuit.c, parse))],
      witnesses := s.witnesses + [Recorded(s.mode, SlotValue(circuit.a, parse)), Recorded(s.mode, SlotValue(circuit.b, parse))],
      constraints := s.constraints + [SumConstraint(Witness(|s.witnesses|), Witness(|s.witnesses| + 1), Instance(|s.instances|))])
  {
  }

  /** In Setup mode no value is looked at: every circuit, the all-absent one
      included, yields the same successful builder. */
  lemma SetupIgnoresValues(circuit: Circuit, parse: string -> Option<Fr>)
    ensures Synthesize(circuit, Empty(Setup), parse) ==
      Run(Success(()), Snapshot(Setup, [Some(1), None], [None, None], [SumConstraint(Witness(0), Witness(1), Instance(1))]))
  {
  }

  /** A fully parsed assignment yields instance vector [One, c], witness
      vector [a, b] and the one constraint. */
  lemma AssignedSynthesis(circuit: Circuit, parse: string -> Option<Fr>, x: Fr, y: Fr, z: Fr)
    requires SlotValue(circuit.a, parse) == Success(x)
    requires SlotValue(circuit.b, parse) == Success(y)
    requires SlotValue(circuit.c, parse) == Success(z)
    ensures Synthesize(circuit, Empty(Prove), parse) ==
      Run(Success(()), Snapshot(Prove, [Some(1), Some(z)], [Some(x), Some(y)], [SumConstraint(Witness(0), Witness(1), Instance(1))]))
  {
  }

  /** A missing or unparseable slot fails with AssignmentMissing, and
      nothing after it is allocated or registered. */
  lemma MissingAssignmentStops(circuit: Circuit, parse: string -> Option<Fr>)
    ensures SlotValue(circuit.a, parse).Failure? ==>
      Synthesize(circuit, Empty(Prove), parse) == Run(Failure(AssignmentMissing), Empty(Prove))
    ensures SlotValue(circuit.a, parse).Success? && SlotValue(circuit.b, parse).Failure? ==>
      Synthesize(circuit, Empty(Prove), parse) ==
        Run(Failure(AssignmentMissing), Snapshot(Prove, [Some(1)], [Some(SlotValue(circuit.a, parse).value)], []))
    ensures SlotValue(circuit.a, parse).Success? && SlotValue(circuit.b, parse).Success? && SlotValue(circuit.c, parse).Failure? ==>
      Synthesize(circuit, Empty(Prove), parse) ==
        Run(Failure(AssignmentMissing), Snapshot(Prove, [Some(1)],
          [Some(SlotValue(circuit.a, parse).value), Some(SlotValue(circuit.b, parse).value)], []))
  {
  }

  lemma UnitLaws(x: Fr)
    ensures Mul(1, x) == x && Mul(x, 1) == x && Add(x, 0) == x
  {
  }

  /** The three sides of the sum constraint evaluate to a + b, 1 and c. */
  lemma EvalSumConstraint(s: Snapshot, x: Fr, y: Fr, z: Fr)
    requires s == Snapshot(Prove, [Some(1), Some(z)], [Some(x), Some(y)], [SumConstraint(Witness(0), Witness(1), Instance(1))])
    ensures WellFormed(s)
    ensures Eval(s, [Term(1, Witness(0)), Term(1, Witness(1))]) == Add(x, y)
    ensures Eval(s, [Term(1, One)]) == 1
    ensures Eval(s, [Term(1, Instance(1))]) == z
  {
    UnitLaws(x);
    UnitLaws(y);
    UnitLaws(z);
    UnitLaws(1);
    UnitLaws(0);
    var ab: LinearCombination := [Term(1, Witness(0)), Term(1, Witness(1))];
    assert ab[1..] == [Term(1, Witness(1))];
    assert [Term(1, Witness(1))][1..] == [];
    assert Eval(s, [Term(1, Witness(1))]) == y;
    assert Eval(s, ab) == Add(x, y);
    assert [Term(1, One)][1..] == [];
    assert [Term(1, Instance(1))][1..] == [];
  }

  /** A fully parsed assignment satisfies the system exactly when
      a + b = c in Fr. */
  lemma SatisfiedIff(circuit: Circuit, parse: string -> Option<Fr>, x: Fr, y: Fr, z: Fr)
    requires SlotValue(circuit.a, parse) == Success(x)
    requires SlotValue(circuit.b, parse) == Success(y)
    requires SlotValue(circuit.c, parse) == Success(z)
    ensures Satisfied(Synthesize(circuit, Empty(Prove), parse).state) <==> (x + y) % R == z
  {
    AssignedSynthesis(circuit, parse, x, y, z);
    var s := Synthesize(circuit, Empty(Prove), parse).state;
    var k := SumConstraint(Witness(0), Witness(1), Instance(1));
    assert s.constraints == [k];
    EvalSumConstraint(s, x, y, z);
    UnitLaws(Add(x, y));
    assert Holds(s, k) <==> Add(x, y) == z;
  }

  /** The Prove-mode builder of any fully parsed assignment has the same
      topology as the Setup-mode builder of the all-absent circuit, so keys
      generated from the latter fit proofs of the former. */
  lemma ShapeAgreesAcrossModes(circuit: Circuit, parse: string -> Option<Fr>)
    requires SlotValue(circuit.a, parse).Success?
    requires SlotValue(circuit.b, parse).Success?
    requires SlotValue(circuit.c, parse).Success?
    ensures Synthesize(circuit, Empty(Prove), parse).outcome.Success?
    ensures ShapeOf(Synthesize(circuit, Empty(Prove), parse).state) ==
            ShapeOf(Synthesize(ShapeOnly(), Empty(Setup), parse).state)
  {
  }
}
