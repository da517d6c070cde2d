/** Maps that agree everywhere except at one key. */
module Maps {

  ghost predicate AgreeOff<K(!new), V(!new)>(a: map<K, V>, b: map<K, V>, k: K) {
    forall j :: j != k ==> (j in a <==> j in b) && (j in a ==> a[j] == b[j])
  }

  lemma PutAgrees<K(!new), V(!new)>(a: map<K, V>, b: map<K, V>, k: K, j: K, v: V, w: V)
    requires AgreeOff(a, b, k) && (j != k ==> v == w)
    ensures AgreeOff(a[j := v], b[j := w], k)
  {
  }

  lemma DropAgrees<K(!new), V(!new)>(a: map<K, V>, b: map<K, V>, k: K, j: K)
    requires AgreeOff(a, b, k)
    ensures AgreeOff(a - {j}, b - {j}, k)
  {
  }

  /** Dropping the odd key from one side only keeps the agreement. */
  lemma DropOneSide<K(!new), V(!new)>(a: map<K, V>, b: map<K, V>, k: K)
    requires AgreeOff(a, b, k)
    ensures AgreeOff(a - {k}, b, k) && AgreeOff(a, b - {k}, k)
  {
  }
}
