/** Request ids (rpc/client.go, nextID): a 32-bit counter printed in decimal. */
module RequestIds {
  import opened Digits

  const WRAP := 0x1_0000_0000

  /** The id returned by draw number `p`, counting from one, of a counter that starts at zero. */
  function Draw(p: nat): string {
    Print(p % WRAP, Dec)
  }

  /** Two draws give the same id exactly when they are a multiple of 2^32 apart. */
  lemma DrawsCollide(p: nat, q: nat)
    ensures Draw(p) == Draw(q) <==> p % WRAP == q % WRAP
  {
    if Draw(p) == Draw(q) {
      PrintInjective(p % WRAP, q % WRAP, Dec);
    }
  }

  /** Ids are distinct over any window of at most 2^32 draws. */
  lemma DistinctInWindow(draws: seq<nat>, first: nat)
    requires forall i :: 0 <= i < |draws| ==> first <= draws[i] < first + WRAP
    requires forall i, j :: 0 <= i < j < |draws| ==> draws[i] < draws[j]
    ensures forall i, j :: 0 <= i < j < |draws| ==> Draw(draws[i]) != Draw(draws[j])
  {
    forall i, j | 0 <= i < j < |draws| ensures Draw(draws[i]) != Draw(draws[j]) {
      DrawsCollide(draws[i], draws[j]);
      assert 0 < draws[j] - draws[i] < WRAP;
    }
  }

  /** An id is the decimal form of a 32-bit number, without leading zeros; so it is a valid JSON-RPC id. */
  lemma DrawIsNumber(p: nat)
    ensures (forall i :: 0 <= i < |Draw(p)| ==> '0' <= Draw(p)[i] <= '9') && (|Draw(p)| > 1 ==> Draw(p)[0] != '0')
    ensures Value(Draw(p), Dec) == p % 0x1_0000_0000
    ensures |Draw(p)| > 0 && Draw(p)[0] != '{' && Draw(p)[0] != '['
  {
    PrintedValue(p % WRAP, Dec);
  }
}
