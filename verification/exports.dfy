/** The two operations the module exports to its host: `create_proof`,
    which generates keys from a fixed seed and proves the assignment
    a = 4, b = 2, c = 6, and `verify_zk_proof`, which regenerates the same
    keys and checks a serialized proof against decimal public inputs. */
module Exports {
  import opened Wrappers
  import opened Field
  import opened R1cs
  import opened SumCircuit
  import opened Groth16

  /** The `unwrap` calls that abort the call when they meet an error. */
  datatype PanicSite = SetupUnwrap | PublicInputUnwrap | ProveUnwrap | SerializeUnwrap | VerifyUnwrap

  /** How an exported call ends: a value, an error handed to the host, or
      a panic. */
  datatype Exported<T> = Returned(value: T) | Thrown(message: string) | Panicked(site: PanicSite)

  const DeserializeFailed: string := "Failed to deserialize proof"
  const PublicInputFailed: string := "Failed to parse public input"

  /** The seed both operations generate their keys from. */
  const Seed: nat := 0

  /** The assignment `create_proof` proves: the printed forms of 4, 2, 6. */
  function DemoAssignment(lib: Library): Circuit {
    Circuit(Some(lib.displayFr(4)), Some(lib.displayFr(2)), Some(lib.displayFr(6)))
  }

  /** The public-input vector derived from an assignment: its parsed c
      slot. When synthesis succeeds it is exactly the instance part, after
      One, of the builder the proof is made from. */
  function PublicInputOf(circuit: Circuit, parse: string -> Option<Fr>): (r: Option<seq<Fr>>)
    ensures r.Some? <==> SlotValue(circuit.c, parse).Success?
    ensures r.Some? && Synthesize(circuit, Empty(Prove), parse).outcome.Success? ==>
      r.value == PublicValues(Synthesize(circuit, Empty(Prove), parse).state)
  {
    match circuit.c
    case None => None
    case Some(text) =>
      match parse(text)
      case None => None
      case Some(x) => Some([x])
  }

  /** The entries of `xs` that parse, in their original order; the others
      are dropped. */
  function FilterParsed(xs: seq<string>, parse: string -> Option<Fr>): (r: seq<Fr>)
    ensures |r| <= |xs|
    ensures |r| == |xs| <==> forall i :: 0 <= i < |xs| ==> parse(xs[i]).Some?
  {
    if xs == [] then []
    else
      match parse(xs[0])
      case Some(x) => [x] + FilterParsed(xs[1..], parse)
      case None => FilterParsed(xs[1..], parse)
  }

  /** The positions of the entries of `xs` that parse, in increasing order. */
  function ParsedPositions(xs: seq<string>, parse: string -> Option<Fr>): (ps: seq<nat>)
    ensures forall k :: 0 <= k < |ps| ==> ps[k] < |xs|
  {
    if xs == [] then []
    else
      var tail := ParsedPositions(xs[1..], parse);
      var shifted := seq(|tail|, k requires 0 <= k < |tail| => tail[k] + 1);
      if parse(xs[0]).Some? then [0] + shifted else shifted
  }

  /** The filter keeps exactly the parseable entries, in order: its k-th
      element is the parsed entry at the k-th parseable position, the
      positions increase, and every parseable position is among them. */
  lemma FilterKeepsOrder(xs: seq<string>, parse: string -> Option<Fr>)
    ensures |ParsedPositions(xs, parse)| == |FilterParsed(xs, parse)|
    ensures forall k :: 0 <= k < |FilterParsed(xs, parse)| ==>
      parse(xs[ParsedPositions(xs, parse)[k]]) == Some(FilterParsed(xs, parse)[k])
    ensures forall k, l :: 0 <= k < l < |ParsedPositions(xs, parse)| ==>
      ParsedPositions(xs, parse)[k] < ParsedPositions(xs, parse)[l]
    ensures forall i :: 0 <= i < |xs| && parse(xs[i]).Some? ==> i in ParsedPositions(xs, parse)
  {
    PositionsPick(xs, parse);
    PositionsIncrease(xs, parse);
    PositionsCover(xs, parse);
  }

  lemma {:induction false} PositionsPick(xs: seq<string>, parse: string -> Option<Fr>)
    ensures |ParsedPositions(xs, parse)| == |FilterParsed(xs, parse)|
    ensures forall k :: 0 <= k < |FilterParsed(xs, parse)| ==>
      parse(xs[ParsedPositions(xs, parse)[k]]) == Some(FilterParsed(xs, parse)[k])
  {
    if xs != [] {
      PositionsPick(xs[1..], parse);
      var ps, r := ParsedPositions(xs, parse), FilterParsed(xs, parse);
      var tail, rest := ParsedPositions(xs[1..], parse), FilterParsed(xs[1..], parse);
      var d := if parse(xs[0]).Some? then 1 else 0;
      assert |ps| == |r| == |rest| + d;
      forall k | d <= k < |r|
        ensures parse(xs[ps[k]]) == Some(r[k])
      {
        assert ps[k] == tail[k - d] + 1 && r[k] == rest[k - d];
        assert xs[ps[k]] == xs[1..][tail[k - d]];
      }
    }
  }

  lemma {:induction false} PositionsIncrease(xs: seq<string>, parse: string -> Option<Fr>)
    ensures forall k, l :: 0 <= k < l < |ParsedPositions(xs, parse)| ==>
      ParsedPositions(xs, parse)[k] < ParsedPositions(xs, parse)[l]
  {
    if xs != [] {
      PositionsIncrease(xs[1..], parse);
    }
  }

  lemma {:induction false} PositionsCover(xs: seq<string>, parse: string -> Option<Fr>)
    ensures forall i :: 0 <= i < |xs| && parse(xs[i]).Some? ==> i in ParsedPositions(xs, parse)
  {
    if xs != [] {
      PositionsCover(xs[1..], parse);
      var ps, tail := ParsedPositions(xs, parse), ParsedPositions(xs[1..], parse);
      forall i | 1 <= i < |xs| && parse(xs[i]).Some?
        ensures i in ps
      {
        assert xs[1..][i - 1] == xs[i];
        var k :| 0 <= k < |tail| && tail[k] == i - 1;
        assert ps[k + (|ps| - |tail|)] == i;
      }
    }
  }

  /** `create_proof`, as a value. */
  function CreateProofOutcome(lib: Library): Exported<seq<Byte>> {
    match Parameters(lib, ShapeOnly(), SeedFromU64(Seed))
    case Failure(_) => Panicked(SetupUnwrap)
    case Success(keyed) =>
      var assignment := DemoAssignment(lib);
      match PublicInputOf(assignment, lib.parseFr)
      case None => Panicked(PublicInputUnwrap)
      case Some(_) =>
        match ProofFor(lib, assignment, keyed.key, keyed.rng)
        case Failure(_) => Panicked(ProveUnwrap)
        case Success(proved) =>
          match lib.serialize(proved.proof)
          case Failure(_) => Panicked(SerializeUnwrap)
          case Success(bytes) => Returned(bytes)
  }

  method CreateProof(lib: Library) returns (r: Exported<seq<Byte>>)
    ensures r == CreateProofOutcome(lib)
  {
    var rng := SeedFromU64(Seed);
    var params := GenerateRandomParameters(lib, ShapeOnly(), rng);
    var pk: ProvingKey;
    match params {
      case Failure(_) => return Panicked(SetupUnwrap);
      case Success(keyed) => pk, rng := keyed.key, keyed.rng;
    }
    var assignment := DemoAssignment(lib);
    var publicInput := PublicInputOf(assignment, lib.parseFr);
    if publicInput.None? {
      return Panicked(PublicInputUnwrap);
    }
    var proved := CreateRandomProof(lib, assignment, pk, rng);
    if proved.Failure? {
      return Panicked(ProveUnwrap);
    }
    var proofVec: seq<Byte> := [];
    var written := lib.serialize(proved.value.proof);
    if written.Failure? {
      return Panicked(SerializeUnwrap);
    }
    proofVec := proofVec + written.value;
    assert proofVec == written.value;
    return Returned(proofVec);
  }

  /** `verify_zk_proof`, as a value. `publicInputJs` is `None` when the host
      value is not a list of strings. */
  function VerifyOutcome(lib: Library, proofVec: seq<Byte>, publicInputJs: Option<seq<string>>): Exported<bool> {
    match Parameters(lib, ShapeOnly(), SeedFromU64(Seed))
    case Failure(_) => Panicked(SetupUnwrap)
    case Success(keyed) =>
      var vk := lib.prepare(keyed.key.vk);
      match lib.deserialize(proofVec)
      case Failure(_) => Thrown(DeserializeFailed)
      case Success(proof) =>
        match publicInputJs
        case None => Thrown(PublicInputFailed)
        case Some(texts) =>
          match lib.verify(vk, proof, FilterParsed(texts, lib.parseFr))
          case Failure(_) => Panicked(VerifyUnwrap)
          case Success(verdict) => Returned(verdict)
  }

  method VerifyZkProof(lib: Library, proofVec: seq<Byte>, publicInputJs: Option<seq<string>>)
    returns (r: Exported<bool>)
    ensures r == VerifyOutcome(lib, proofVec, publicInputJs)
  {
    var rng := SeedFromU64(Seed);
    var params := GenerateRandomParameters(lib, ShapeOnly(), rng);
    var vk: PreparedVerifyingKey;
    match params {
      case Failure(_) => return Panicked(SetupUnwrap);
      case Success(keyed) => vk := lib.prepare(keyed.key.vk);
    }
    var proof: Proof;
    match lib.deserialize(proofVec) {
      case Failure(_) => return Thrown(DeserializeFailed);
      case Success(p) => proof := p;
    }
    if publicInputJs.None? {
      return Thrown(PublicInputFailed);
    }
    var publicInput := FilterParsed(publicInputJs.value, lib.parseFr);
    var verdict := lib.verify(vk, proof, publicInput);
    if verdict.Failure? {
      return Panicked(VerifyUnwrap);
    }
    return Returned(verdict.value);
  }

  /** The setup call both operations make: the sum circuit's topology, seed 0. */
  function SetupKeys(lib: Library): Result<Keyed, SynthesisError> {
    lib.setup(SumShape(), SeedFromU64(Seed))
  }

  /** The Prove-mode builder of the demonstration assignment. */
  function DemoState(): Snapshot {
    Snapshot(Prove, [Some(1), Some(6)], [Some(4), Some(2)], [SumConstraint(Witness(0), Witness(1), Instance(1))])
  }

  /** Synthesis cannot make key generation fail, so with a setup that
      succeeds on the sum topology neither operation panics there. */
  lemma SetupNeverPanics(lib: Library, proofVec: seq<Byte>, publicInputJs: Option<seq<string>>)
    requires SetupSucceeds(lib)
    ensures CreateProofOutcome(lib) != Panicked(SetupUnwrap)
    ensures VerifyOutcome(lib, proofVec, publicInputJs) != Panicked(SetupUnwrap)
  {
    ShapeOnlyParameters(lib, SeedFromU64(Seed));
    assert SetupKeys(lib).Success?;
  }

  /** With a parser that reads back printed elements, the demonstration
      assignment synthesizes to a builder that satisfies the constraint, and
      the public-input vector is exactly [6], the builder's instance part. */
  lemma DemoAssignmentSatisfies(lib: Library)
    requires DisplayRoundTrip(lib)
    ensures Synthesize(DemoAssignment(lib), Empty(Prove), lib.parseFr) == Run(Success(()), DemoState())
    ensures Satisfied(DemoState())
    ensures PublicInputOf(DemoAssignment(lib), lib.parseFr) == Some([6])
    ensures PublicValues(DemoState()) == [6]
  {
    var c := DemoAssignment(lib);
    assert lib.parseFr(lib.displayFr(4)) == Some(4);
    assert lib.parseFr(lib.displayFr(2)) == Some(2);
    assert lib.parseFr(lib.displayFr(6)) == Some(6);
    assert SlotValue(c.a, lib.parseFr) == Success(4);
    assert SlotValue(c.b, lib.parseFr) == Success(2);
    assert SlotValue(c.c, lib.parseFr) == Success(6);
    AssignedSynthesis(c, lib.parseFr, 4, 2, 6);
    SatisfiedIff(c, lib.parseFr, 4, 2, 6);
    assert (4 + 2) % R == 6;
    var pv := PublicValues(DemoState());
    assert |pv| == 1 && Some(pv[0]) == Some(6);
  }

  /** `create_proof` proves the demonstration assignment with the keys of
      `SetupKeys`, the ones `verify_zk_proof` prepares, and the stream
      position setup left behind; each error ends in the `unwrap` panic of
      its step. With a printer whose output parses back, the proof is made
      from `DemoState`. */
  lemma CreateProofUsesSetupKeys(lib: Library)
    ensures CreateProofOutcome(lib) ==
      match SetupKeys(lib)
      case Failure(_) => Panicked(SetupUnwrap)
      case Success(keys) =>
        match PublicInputOf(DemoAssignment(lib), lib.parseFr)
        case None => Panicked(PublicInputUnwrap)
        case Some(_) =>
          match ProofFor(lib, DemoAssignment(lib), keys.key, keys.rng)
          case Failure(_) => Panicked(ProveUnwrap)
          case Success(proved) =>
            match lib.serialize(proved.proof)
            case Failure(_) => Panicked(SerializeUnwrap)
            case Success(bytes) => Returned(bytes)
    ensures DisplayRoundTrip(lib) ==>
              CreateProofOutcome(lib) ==
                match SetupKeys(lib)
                case Failure(_) => Panicked(SetupUnwrap)
                case Success(keys) =>
                  match lib.prove(keys.key, DemoState(), keys.rng)
                  case Failure(_) => Panicked(ProveUnwrap)
                  case Success(proved) =>
                    match lib.serialize(proved.proof)
                    case Failure(_) => Panicked(SerializeUnwrap)
                    case Success(bytes) => Returned(bytes)
  {
    ShapeOnlyParameters(lib, SeedFromU64(Seed));
    if DisplayRoundTrip(lib) {
      DemoAssignmentSatisfies(lib);
    }
  }

  /** `verify_zk_proof` checks a decoded proof against the prepared form of
      the same verifying key, with the parseable inputs only. */
  lemma VerifyUsesSetupKeys(lib: Library, proofVec: seq<Byte>, texts: seq<string>, proof: Proof)
    requires lib.deserialize(proofVec) == Success(proof)
    ensures VerifyOutcome(lib, proofVec, Some(texts)) ==
      match SetupKeys(lib)
      case Failure(_) => Panicked(SetupUnwrap)
      case Success(keys) =>
        match lib.verify(lib.prepare(keys.key.vk), proof, FilterParsed(texts, lib.parseFr))
        case Failure(_) => Panicked(VerifyUnwrap)
        case Success(verdict) => Returned(verdict)
  {
    ShapeOnlyParameters(lib, SeedFromU64(Seed));
  }

  /** Once keys exist, a proof decoding failure is reported before the
      public inputs are looked at, whatever they are. */
  lemma DecodeCheckedFirst(lib: Library, proofVec: seq<Byte>, publicInputJs: Option<seq<string>>)
    requires SetupSucceeds(lib)
    requires lib.deserialize(proofVec).Failure?
    ensures VerifyOutcome(lib, proofVec, publicInputJs) == Thrown(DeserializeFailed)
  {
    ShapeOnlyParameters(lib, SeedFromU64(Seed));
    assert SetupKeys(lib).Success?;
  }

  /** A proof that decodes, with a host value that is not a list of
      strings, is reported as a public-input error. */
  lemma MarshalCheckedSecond(lib: Library, proofVec: seq<Byte>)
    requires SetupSucceeds(lib)
    requires lib.deserialize(proofVec).Success?
    ensures VerifyOutcome(lib, proofVec, None) == Thrown(PublicInputFailed)
  {
    ShapeOnlyParameters(lib, SeedFromU64(Seed));
    assert SetupKeys(lib).Success?;
  }

  /** Unparseable public inputs are dropped, not rejected: two input lists
      that parse to the same vector get the same answer. */
  lemma DroppedEntriesIgnored(lib: Library, proofVec: seq<Byte>, xs: seq<string>, ys: seq<string>)
    requires FilterParsed(xs, lib.parseFr) == FilterParsed(ys, lib.parseFr)
    ensures VerifyOutcome(lib, proofVec, Some(xs)) == VerifyOutcome(lib, proofVec, Some(ys))
  {
  }

  /** The library hypotheses under which `create_proof` returns bytes. */
  ghost predicate Cooperates(lib: Library) {
    DisplayRoundTrip(lib) && CodecRoundTrip(lib) && SetupSucceeds(lib) && ProvingSucceeds(lib)
  }

  /** Under those hypotheses `create_proof` returns the serialization of
      the proof of `DemoState` made with the seed-0 keys. */
  lemma CreateProofReturns(lib: Library)
    requires Cooperates(lib)
    ensures SetupKeys(lib).Success?
    ensures lib.prove(SetupKeys(lib).value.key, DemoState(), SetupKeys(lib).value.rng).Success?
    ensures CreateProofOutcome(lib) ==
      Returned(lib.serialize(lib.prove(SetupKeys(lib).value.key, DemoState(), SetupKeys(lib).value.rng).value.proof).value)
  {
    CreateProofUsesSetupKeys(lib);
    var keys := SetupKeys(lib);
    assert keys.Success?;
    assert ShapeOf(DemoState()) == SumShape();
    assert lib.setup(ShapeOf(DemoState()), SeedFromU64(Seed)).Success?;
    assert lib.prove(lib.setup(ShapeOf(DemoState()), SeedFromU64(Seed)).value.key, DemoState(), keys.value.rng).Success?;
    var proof := lib.prove(keys.value.key, DemoState(), keys.value.rng).value.proof;
    assert lib.serialize(proof).Success?;
  }

  /** Completeness of the demonstration: the bytes `create_proof` returns
      verify as `true` against any text that parses to 6. */
  lemma AcceptsOwnProof(lib: Library, text: string)
    requires Cooperates(lib) && Complete(lib)
    requires lib.parseFr(text) == Some(6)
    ensures CreateProofOutcome(lib).Returned?
    ensures VerifyOutcome(lib, CreateProofOutcome(lib).value, Some([text])) == Returned(true)
  {
    CreateProofReturns(lib);
    DemoAssignmentSatisfies(lib);
    var keys := SetupKeys(lib).value;
    var proof := lib.prove(keys.key, DemoState(), keys.rng).value.proof;
    assert lib.deserialize(lib.serialize(proof).value) == Success(proof);
    var bytes := lib.serialize(proof).value;
    VerifyUsesSetupKeys(lib, bytes, [text], proof);
    assert ShapeOf(DemoState()) == SumShape();
    assert FilterParsed([text], lib.parseFr) == [6];
    assert lib.verify(lib.prepare(lib.setup(ShapeOf(DemoState()), SeedFromU64(Seed)).value.key.vk),
                      lib.prove(lib.setup(ShapeOf(DemoState()), SeedFromU64(Seed)).value.key, DemoState(), keys.rng).value.proof,
                      PublicValues(DemoState())) == Success(true);
  }

  /** Soundness of the demonstration: the same bytes verify as `false`
      against any text that parses to a value other than 6. */
  lemma RejectsOtherInput(lib: Library, text: string, x: Fr)
    requires Cooperates(lib) && Sound(lib)
    requires lib.parseFr(text) == Some(x) && x != 6
    ensures CreateProofOutcome(lib).Returned?
    ensures VerifyOutcome(lib, CreateProofOutcome(lib).value, Some([text])) == Returned(false)
  {
    CreateProofReturns(lib);
    DemoAssignmentSatisfies(lib);
    var keys := SetupKeys(lib).value;
    var proof := lib.prove(keys.key, DemoState(), keys.rng).value.proof;
    assert lib.deserialize(lib.serialize(proof).value) == Success(proof);
    var bytes := lib.serialize(proof).value;
    VerifyUsesSetupKeys(lib, bytes, [text], proof);
    assert ShapeOf(DemoState()) == SumShape();
    assert FilterParsed([text], lib.parseFr) == [x];
    assert [x] != PublicValues(DemoState());
    assert lib.verify(lib.prepare(lib.setup(ShapeOf(DemoState()), SeedFromU64(Seed)).value.key.vk),
                      lib.prove(lib.setup(ShapeOf(DemoState()), SeedFromU64(Seed)).value.key, DemoState(), keys.rng).value.proof,
                      [x]) == Success(false);
  }

  /** Because of the filtering, an extra unparseable entry does not turn
      the accepted list [text] into an error: [text, junk] is accepted too. */
  lemma AcceptsWithJunkEntry(lib: Library, text: string, junk: string)
    requires Cooperates(lib) && Complete(lib)
    requires lib.parseFr(text) == Some(6) && lib.parseFr(junk) == None
    ensures CreateProofOutcome(lib).Returned?
    ensures VerifyOutcome(lib, CreateProofOutcome(lib).value, Some([text, junk])) == Returned(true)
  {
    AcceptsOwnProof(lib, text);
    assert [text, junk][1..] == [junk];
    assert FilterParsed([text, junk], lib.parseFr) == FilterParsed([text], lib.parseFr);
    DroppedEntriesIgnored(lib, CreateProofOutcome(lib).value, [text, junk], [text]);
  }

  /** When the verifier checks the input count, a list whose parseable
      entries are not exactly one ends in the `unwrap` panic, not in
      `false`: an all-unparseable list among them. */
  lemma WrongArityPanics(lib: Library, proofVec: seq<Byte>, texts: seq<string>)
    requires SetupSucceeds(lib) && ChecksArity(lib)
    requires lib.deserialize(proofVec).Success?
    requires |FilterParsed(texts, lib.parseFr)| != 1
    ensures VerifyOutcome(lib, proofVec, Some(texts)) == Panicked(VerifyUnwrap)
  {
    VerifyUsesSetupKeys(lib, proofVec, texts, lib.deserialize(proofVec).value);
    assert SetupKeys(lib).Success?;
  }

  /** `create_proof` panics at the `unwrap` of the first step that fails:
      setup, then the public input when the printed 6 does not parse, then
      proving when the printed 4 or 2 does not. */
  lemma CreateProofPanics(lib: Library)
    ensures SetupKeys(lib).Failure? ==> CreateProofOutcome(lib) == Panicked(SetupUnwrap)
    ensures SetupKeys(lib).Success? && lib.parseFr(lib.displayFr(6)).None? ==>
              CreateProofOutcome(lib) == Panicked(PublicInputUnwrap)
    ensures SetupKeys(lib).Success? && lib.parseFr(lib.displayFr(6)).Some? &&
            (lib.parseFr(lib.displayFr(4)).None? || lib.parseFr(lib.displayFr(2)).None?) ==>
              CreateProofOutcome(lib) == Panicked(ProveUnwrap)
  {
    ShapeOnlyParameters(lib, SeedFromU64(Seed));
  }
}
