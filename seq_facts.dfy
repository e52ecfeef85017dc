/**
 * Sequence identities the drawing and row-building proofs rely on, stated once so that
 * each caller gets them as a fact instead of rediscovering them by extensionality.
 */
module SeqFacts {
  lemma AppendEmpty<T>(ts: seq<T>)
    ensures ts + [] == ts && [] + ts == ts
  {
  }

  lemma AppendGroups<T>(ts: seq<T>, a: seq<T>, b: seq<T>, c: seq<T>, d: seq<T>)
    ensures ts + a + b + c + d == ts + (a + b + c + d)
  {
  }

  lemma AppendGroups3<T>(ts: seq<T>, a: seq<T>, b: seq<T>, c: seq<T>)
    ensures ts + a + b + c == ts + (a + b + c)
  {
  }

  lemma SplitAt<T>(s: seq<T>, i: nat)
    requires i < |s|
    ensures s == s[..i] + ([s[i]] + s[i + 1..])
  {
  }
}
