/** The scalar field Fr of the BN254 curve: integers modulo the prime order
    of its pairing groups. Every element is kept reduced. */
module Field {

  /** The order r of BN254's scalar field. */
  const R: nat := 21888242871839275222246405745257275088548364400416711633231075557208145285617

  type Fr = x: int | 0 <= x < R

  function Add(x: Fr, y: Fr): Fr
  {
    (x + y) % R
  }

  function Mul(x: Fr, y: Fr): Fr
  {
    (x * y) % R
  }
}
