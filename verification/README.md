# Groth16 sum-circuit web demo, modelled in Dafny

The system proves, in zero knowledge, that the prover knows private field
elements `a` and `b` whose sum is the public value `c`. The proof system is
Groth16 over the BN254 curve. Two operations are exported to a browser host:

- `create_proof` generates keys from a fixed seed, proves the assignment
  `a = 4, b = 2, c = 6` and serializes the proof. The printed 4, 2 and 6
  only need to parse to some value; the code never compares them with the
  originals. When they parse back to themselves (`DisplayRoundTrip`) and
  the library's setup, proving and serialization succeed, it returns the
  serialized proof (`CreateProofReturns`). It panics at line 58 when setup
  fails, at line 67 when the printed 6 does not parse, and at line 69 when
  the printed 4 or 2 does not (`CreateProofPanics`). A failure of the
  library's own proving or serialization panics at line 69 or 72
  (`CreateProofUsesSetupKeys`). The printed form of a field element belongs
  to the library and may not be decimal, so the parser and printer stay
  abstract.
- `verify_zk_proof` regenerates the same keys, decodes the proof, converts
  the host's list of decimal strings into field elements and runs the
  verifier.

This project models the part of `src/lib.rs` that the repository itself
writes, in six modules:

- `Wrappers`: `Option` and `Result`.
- `Field`: the BN254 scalar field `Fr`, integers modulo its prime order `R`.
- `R1cs`: the rank-1 constraint system builder the circuit mutates. It is a
  class `ConstraintSystem` with a mode flag (`Setup` records only the
  topology, `Prove` also records values), an instance vector whose slot 0 is
  the constant One, a witness vector and a constraint list. Each method is
  proved against a pure transition on `Snapshot` values. The module also
  defines the evaluation of linear combinations and `Satisfied`.
- `SumCircuit`: the `Circuit` record of three optional strings and its
  `generate_constraints` as the method `GenerateConstraints`. The method is
  proved against the specification function `Synthesize`.
- `Groth16`: the foreign library calls as fields of a `Library` value. These
  are the field element parser and printer, parameter generation, proving,
  key preparation, verification and the proof codec. Each is an arbitrary
  deterministic function. Setup and proving return a `Result`, because the
  library can fail on its own after synthesis has succeeded. Those failures
  are the `SynthesisError` cases `PolynomialDegreeTooLarge` and
  `UnexpectedIdentity`. The predicates
  `DisplayRoundTrip`, `CodecRoundTrip`, `SetupSucceeds`, `ProvingSucceeds`,
  `Complete`, `Sound` and `ChecksArity` state what the core relies on them
  for. Lemmas take these predicates as hypotheses; they are never assumed
  globally.
- `Exports`: both exported operations. Each is a method proved against a
  specification function (`CreateProofOutcome`, `VerifyOutcome`). Every
  `unwrap` becomes a `Panicked` outcome. Every error handed to the host
  becomes `Thrown` with the source's message.

Behaviours of the code worth noting:

- Public inputs that do not parse are silently dropped (line 96). They are
  not rejected. `DroppedEntriesIgnored` and `AcceptsWithJunkEntry` show the
  consequence: `[text, junk]` is accepted wherever `[text]` is.
- A public-input list of the wrong length is not a typed structural error in
  the code. It surfaces as the verifier's error, which the `unwrap` at
  line 98 turns into a panic (`WrongArityPanics`).
- The public-input vector computed at line 67 is not returned with the
  proof. Only its `unwrap` is observable. `PublicInputOf` and
  `DemoAssignmentSatisfies` show that it equals the instance part of the
  builder the proof is made from.
- Values travel as decimal strings, not as native field elements.

## Model

| member | source | states |
|---|---|---|
| `R1cs.AllocWitness` | src/lib.rs:23-34 | allocating a witness gives variable `Witness(n)` for the next index and appends one slot: `None` in Setup mode, where the value closure is never called and allocation cannot fail; the closure's value in Prove mode. If the closure fails, the error is returned and the builder is unchanged. Well-formedness is kept. |
| `R1cs.AllocInput` | src/lib.rs:35-40 | the same rules for a public input: the result is `Instance(n)` after One and the slot is appended to the instance vector |
| `R1cs.Enforce` | src/lib.rs:42 | registering a constraint appends it as the last constraint and leaves both variable vectors unchanged |
| `R1cs.ConstraintSystem.constructor` | src/lib.rs:22 | a fresh builder holds only the constant One, no witnesses and no constraints |
| `R1cs.ConstraintSystem.NewWitnessVariable` | src/lib.rs:23-34 | the builder's new state and result are those of `AllocWitness` on its old state |
| `R1cs.ConstraintSystem.NewInputVariable` | src/lib.rs:35-40 | the builder's new state and result are those of `AllocInput` on its old state |
| `R1cs.ConstraintSystem.EnforceConstraint` | src/lib.rs:42 | always succeeds, and the new state is that of `Enforce` |
| `SumCircuit.SlotValue` | src/lib.rs:24-27 | a slot yields a value exactly when it is present and its text parses, and the value is the parsed one. Otherwise the error is `AssignmentMissing`. |
| `SumCircuit.Synthesize` | src/lib.rs:22-45 | synthesis only appends to the builder, keeps it well-formed and keeps its mode. It never fails in Setup mode. Its only error is `AssignmentMissing`. |
| `SumCircuit.GenerateConstraints` | src/lib.rs:21-45 | the imperative synthesis leaves the builder object in the state, with the outcome, that `Synthesize` gives |
| `SumCircuit.AppendsExactly` | src/lib.rs:23-42 | on success, synthesis appends exactly two witnesses (a then b), one public input (c) and the single constraint `(a + b) * One = c` wired to them. Nothing else changes. |
| `SumCircuit.SetupIgnoresValues` | src/lib.rs:23-42 | in Setup mode every circuit, the all-absent one included, succeeds with instance `[One, -]`, witnesses `[-, -]` and the one constraint |
| `SumCircuit.AssignedSynthesis` | src/lib.rs:23-42 | a fully parsed assignment yields instance vector `[One, c]`, witness vector `[a, b]` and the one constraint |
| `SumCircuit.MissingAssignmentStops` | src/lib.rs:23-40 | a missing or unparseable slot fails with `AssignmentMissing`, and nothing after it is allocated. A failure at `a` leaves the builder empty. A failure at `b` leaves only `a`. A failure at `c` leaves `a`, `b` and no constraint. |
| `SumCircuit.SatisfiedIff` | src/lib.rs:42 | a fully parsed assignment satisfies the system if and only if `(a + b) mod r == c` |
| `SumCircuit.ShapeAgreesAcrossModes` | src/lib.rs:52-69 | the proving builder of any fully parsed assignment has the same topology as the setup builder of the all-absent circuit |
| `Groth16.GenerateRandomParameters` | src/lib.rs:58 | parameter generation synthesizes on a fresh Setup-mode builder and returns what setup gives for the resulting topology (keys or the library's own error), or returns the synthesis error |
| `Groth16.CreateRandomProof` | src/lib.rs:69 | proving synthesizes on a fresh Prove-mode builder and returns what the prover gives for the filled builder (a proof or the library's own error), or returns the synthesis error |
| `Groth16.ShapeOnlyParameters` | src/lib.rs:52-58 | synthesis of the all-absent circuit never fails, so parameter generation for it is exactly setup on the sum circuit's topology (two instance slots, two witnesses and one constraint), including setup's own errors |
| `Exports.PublicInputOf` | src/lib.rs:67 | the public-input vector exists exactly when `c` parses. When synthesis succeeds it equals the instance values after One of the builder the proof is made from. |
| `Exports.FilterParsed` | src/lib.rs:96 | the converted vector is no longer than the input, and it has the same length exactly when every entry parses |
| `Exports.FilterKeepsOrder` | src/lib.rs:96 | the conversion keeps exactly the parseable entries, in their original order. Its k-th element is the k-th parseable entry, and no parseable entry is missing. |
| `Exports.CreateProof` | src/lib.rs:49-75 | the imperative `create_proof` returns what `CreateProofOutcome` gives. That is, in order: a setup panic, a panic at the public-input unwrap, a panic at the proving unwrap, a panic at the serialization unwrap, or the serialized bytes. |
| `Exports.VerifyZkProof` | src/lib.rs:78-100 | the imperative `verify_zk_proof` returns what `VerifyOutcome` gives. The order is: setup, key preparation, proof decoding, host value conversion, filtering, then the verifier, whose error becomes a panic. |
| `Exports.SetupNeverPanics` | src/lib.rs:79-87 | when setup succeeds on the sum topology, neither operation can panic at the `unwrap` of parameter generation: synthesis adds no failure of its own |
| `Exports.DemoAssignmentSatisfies` | src/lib.rs:61-67 | with a parser that reads back printed elements, the assignment (4, 2, 6) synthesizes to a satisfied builder, and the public-input vector is exactly `[6]` |
| `Exports.CreateProofUsesSetupKeys` | src/lib.rs:50-72 | `create_proof` proves the demonstration assignment with the keys that setup derives from the sum topology and seed 0, the same keys `verify_zk_proof` prepares. It panics at the `unwrap` of the first step that fails: setup, the public input, proving or serialization. With a printer whose output parses back, the proof is made from the demonstration builder, and it panics exactly when setup, proving or serialization fails. |
| `Exports.CreateProofReturns` | src/lib.rs:50-75 | when the printer's output parses back and setup, proving and serialization succeed, `create_proof` returns the serialization of the proof of the demonstration builder |
| `Exports.VerifyUsesSetupKeys` | src/lib.rs:79-98 | `verify_zk_proof` panics when setup fails; otherwise it checks the decoded proof against the prepared form of the same verifying key, using only the parseable inputs |
| `Exports.DecodeCheckedFirst` | src/lib.rs:90-95 | once setup has succeeded, a proof decoding failure gives "Failed to deserialize proof", whatever the public inputs are |
| `Exports.MarshalCheckedSecond` | src/lib.rs:95 | a decodable proof with a host value that is not a list of strings gives "Failed to parse public input" |
| `Exports.DroppedEntriesIgnored` | src/lib.rs:96 | two input lists that parse to the same vector get the same answer |
| `Exports.AcceptsOwnProof` | src/lib.rs:49-99 | under a complete verifier, round-tripping codec and printer, and setup and proving that succeed, the bytes `create_proof` returns verify as `true` against any text that parses to 6 |
| `Exports.RejectsOtherInput` | src/lib.rs:49-99 | under a sound verifier and the same library hypotheses, the same bytes verify as `false` against any text that parses to another value |
| `Exports.AcceptsWithJunkEntry` | src/lib.rs:96-98 | an extra unparseable entry after the accepted text is still accepted |
| `Exports.WrongArityPanics` | src/lib.rs:96-98 | when the verifier checks the input count, a list with other than one parseable entry ends in the verifier-unwrap panic, not in `false` |
| `Exports.CreateProofPanics` | src/lib.rs:58-69 | `create_proof` panics at line 58 when setup fails; after a successful setup, at line 67 when the printed 6 does not parse, and at line 69 when it parses but the printed 4 or 2 does not |

## Left out

- Groth16 parameter generation, proving, key preparation and verification, and the BN254 pairing and curve arithmetic, are foreign library code. They are the abstract fields of `Library`. Completeness, soundness and the input-count check are hypotheses of the lemmas that need them, not facts proved here.
- The library's own setup and proving errors are modelled as the `Failure` results of `setup` and `prove`. When they occur is library behaviour. `SetupSucceeds` and `ProvingSucceeds` are hypotheses of the lemmas that need them, not facts proved here.
- The canonical byte layout of proof serialization is library code. No codec round trip is proved; `CodecRoundTrip` is a hypothesis.
- The seeded random generator is library code. Its state is the abstract `RngState`, which setup and proving pass along.
- Decimal parsing and printing of field elements are library code. They are the parameters `parseFr` and `displayFr`. Whether printed elements parse back is the hypothesis `DisplayRoundTrip`.
- Host bindings are not modelled. The host value of `verify_zk_proof` is an `Option<seq<string>>`, where `None` stands for a value that is not a list of strings. Panics and host errors are outcomes of `Exported`.
- `main.js` and `arkworks_groth16_frontend.js` are browser UI and glue and are not part of this model. `create_json_proof` is imported there but not defined in `src/lib.rs`.
- Inside the builder library, linear combinations are normalised (terms sorted and merged) and the constraints are later turned into matrices. Neither is modelled. The circuit never repeats a variable, so its combinations are already normal.
- `R1cs.ConstraintSystem.EnforceConstraint` requires its variables to be allocated. The library does not check this, but the circuit only passes variables it has just allocated.
- The library's private variable counters are not modelled. After a failed allocation the model leaves the builder unchanged; the builder is discarded after any error.
- The serialization step appends the encoded bytes to an empty vector in one step. A partial write before a serialization error is not modelled, because that error panics.
