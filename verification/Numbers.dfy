/** Small arithmetic shared by the models. */
module Numbers {

  function MinReal(a: real, b: real): real {
    if a < b then a else b
  }

  function MinNat(a: nat, b: nat): nat {
    if a < b then a else b
  }

  lemma SubsetSize<T>(a: set<T>, b: set<T>)
    requires a <= b
    ensures |a| <= |b|
  {
    assert b == a + (b - a);
  }
}
