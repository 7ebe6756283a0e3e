/** Notions the two road generators share. */
module Road {

  /** Which prefab list a spawned piece was copied from. */
  datatype Kind = Straight | Turn

  /** How many times `for (int i = 0; i < n; i++)` runs its body when the
      body does not leave the loop early. */
  function Iterations(n: int): nat
  {
    if n <= 0 then 0 else n
  }
}
