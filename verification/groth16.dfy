/** The foreign libraries the core calls: the field element parser and
    printer, Groth16 parameter generation, proving, key preparation and
    verification, and the canonical proof codec. Their code is not part of
    this model; each is a deterministic function carried in a `Library`
    value, and what the core relies on them for is stated as predicates
    that lemmas take as hypotheses. */
module Groth16 {
  import opened Wrappers
  import opened Field
  import opened R1cs
  import opened SumCircuit

  type Byte = b: int | 0 <= b < 256

  /** A position in a deterministic random stream: its seed and how much of
      it has been drawn. */
  datatype RngState = RngState(seed: nat, drawn: nat)

  function SeedFromU64(seed: nat): RngState
    requires seed < 0x1_0000_0000_0000_0000
  {
    RngState(seed, 0)
  }

  /** Opaque key and proof material; the numbers stand for curve points. */
  datatype VerifyingKey = VerifyingKey(material: nat)
  datatype ProvingKey = ProvingKey(vk: VerifyingKey, material: nat)
  datatype PreparedVerifyingKey = PreparedVerifyingKey(material: nat)
  datatype Proof = Proof(a: nat, b: nat, c: nat)

  datatype SerializationError = NotEnoughSpace | InvalidData | UnexpectedFlags | IoError

  datatype Keyed = Keyed(key: ProvingKey, rng: RngState)
  datatype Proved = Proved(proof: Proof, rng: RngState)

  datatype Library = Library(
    parseFr: string -> Option<Fr>,
    displayFr: Fr -> string,
    setup: (Shape, RngState) -> Result<Keyed, SynthesisError>,
    prove: (ProvingKey, Snapshot, RngState) -> Result<Proved, SynthesisError>,
    prepare: VerifyingKey -> PreparedVerifyingKey,
    verify: (PreparedVerifyingKey, Proof, seq<Fr>) -> Result<bool, SynthesisError>,
    serialize: Proof -> Result<seq<Byte>, SerializationError>,
    deserialize: seq<Byte> -> Result<Proof, SerializationError>)

  /** Parameter generation: synthesize the circuit on a Setup-mode builder
      and derive keys from the resulting topology. Either step can fail. */
  function Parameters(lib: Library, circuit: Circuit, rng: RngState): Result<Keyed, SynthesisError> {
    var run := Synthesize(circuit, Empty(Setup), lib.parseFr);
    match run.outcome
    case Failure(e) => Failure(e)
    case Success(_) => lib.setup(ShapeOf(run.state), rng)
  }

  method GenerateRandomParameters(lib: Library, circuit: Circuit, rng: RngState)
    returns (r: Result<Keyed, SynthesisError>)
    ensures r == Parameters(lib, circuit, rng)
  {
    var cs := new ConstraintSystem(Setup);
    var synthesized := GenerateConstraints(circuit, cs, lib.parseFr);
    match synthesized {
      case Failure(e) => r := Failure(e);
      case Success(_) => r := lib.setup(ShapeOf(cs.State()), rng);
    }
  }

  /** Proving: synthesize the circuit on a Prove-mode builder and hand the
      filled builder to the prover. Either step can fail. */
  function ProofFor(lib: Library, circuit: Circuit, pk: ProvingKey, rng: RngState): Result<Proved, SynthesisError> {
    var run := Synthesize(circuit, Empty(Prove), lib.parseFr);
    match run.outcome
    case Failure(e) => Failure(e)
    case Success(_) => lib.prove(pk, run.state, rng)
  }

  method CreateRandomProof(lib: Library, circuit: Circuit, pk: ProvingKey, rng: RngState)
    returns (r: Result<Proved, SynthesisError>)
    ensures r == ProofFor(lib, circuit, pk, rng)
  {
    var cs := new ConstraintSystem(Prove);
    var synthesized := GenerateConstraints(circuit, cs, lib.parseFr);
    match synthesized {
      case Failure(e) => r := Failure(e);
      case Success(_) => r := lib.prove(pk, cs.State(), rng);
    }
  }

  /** The topology every key of this model is generated for. */
  function SumShape(): Shape {
    Shape(2, 2, [SumConstraint(Witness(0), Witness(1), Instance(1))])
  }

  /** Synthesis of the all-absent circuit never fails, so parameter
      generation is exactly setup of the sum circuit's topology: two
      instance slots (One and c), two witnesses and the one constraint. */
  lemma ShapeOnlyParameters(lib: Library, rng: RngState)
    ensures Parameters(lib, ShapeOnly(), rng) == lib.setup(SumShape(), rng)
  {
    SetupIgnoresValues(ShapeOnly(), lib.parseFr);
  }

  /** Printing a field element and parsing the text back gives the element. */
  ghost predicate DisplayRoundTrip(lib: Library) {
    forall x: Fr :: lib.parseFr(lib.displayFr(x)) == Some(x)
  }

  /** Every proof serializes, and decoding its bytes gives it back. */
  ghost predicate CodecRoundTrip(lib: Library) {
    forall p: Proof :: lib.serialize(p).Success? && lib.deserialize(lib.serialize(p).value) == Success(p)
  }

  /** Setup of the sum circuit's topology succeeds for every random state. */
  ghost predicate SetupSucceeds(lib: Library) {
    forall rng: RngState :: lib.setup(SumShape(), rng).Success?
  }

  /** Proving with keys generated for a Prove-mode builder's own topology
      succeeds. */
  ghost predicate ProvingSucceeds(lib: Library) {
    forall s: Snapshot, r0: RngState, r1: RngState ::
      WellFormed(s) && s.mode == Prove && lib.setup(ShapeOf(s), r0).Success? ==>
        lib.prove(lib.setup(ShapeOf(s), r0).value.key, s, r1).Success?
  }

  /** Keys generated for the topology of a satisfied Prove-mode builder
      accept the proof made from that builder, for its own public inputs. */
  ghost predicate Complete(lib: Library) {
    forall s: Snapshot, r0: RngState, r1: RngState ::
      WellFormed(s) && s.mode == Prove && Satisfied(s) &&
      lib.setup(ShapeOf(s), r0).Success? &&
      lib.prove(lib.setup(ShapeOf(s), r0).value.key, s, r1).Success? ==>
        lib.verify(lib.prepare(lib.setup(ShapeOf(s), r0).value.key.vk),
                   lib.prove(lib.setup(ShapeOf(s), r0).value.key, s, r1).value.proof,
                   PublicValues(s)) == Success(true)
  }

  /** A proof made from a builder is rejected, as a normal `false`, for
      every other public-input vector of the right length. */
  ghost predicate Sound(lib: Library) {
    forall s: Snapshot, r0: RngState, r1: RngState, xs: seq<Fr> ::
      WellFormed(s) && s.mode == Prove && |xs| == |PublicValues(s)| && xs != PublicValues(s) &&
      lib.setup(ShapeOf(s), r0).Success? &&
      lib.prove(lib.setup(ShapeOf(s), r0).value.key, s, r1).Success? ==>
        lib.verify(lib.prepare(lib.setup(ShapeOf(s), r0).value.key.vk),
                   lib.prove(lib.setup(ShapeOf(s), r0).value.key, s, r1).value.proof,
                   xs) == Success(false)
  }

  /** Verification reports an error, not a verdict, when the number of
      public inputs does not match the topology the keys were made for. */
  ghost predicate ChecksArity(lib: Library) {
    forall m: Shape, r0: RngState, p: Proof, xs: seq<Fr> ::
      |xs| + 1 != m.numInstance && lib.setup(m, r0).Success? ==>
        lib.verify(lib.prepare(lib.setup(m, r0).value.key.vk), p, xs).Failure?
  }
}
