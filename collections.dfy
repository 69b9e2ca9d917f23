/** Facts about sequences and sets that the stateful proofs use as single
    steps. */
module Collections {
  /** Concatenation is associative. */
  lemma ConcatAssociative<T>(a: seq<T>, b: seq<T>, c: seq<T>)
    ensures (a + b) + c == a + (b + c)
  {
  }

  /** A prefix one element longer is the prefix with that element appended. */
  lemma TakeOneMore<T>(s: seq<T>, n: nat)
    requires n < |s|
    ensures s[..n + 1] == s[..n] + [s[n]]
  {
  }

  /** Moving one element of `pending` to the part of `all` that is done. */
  lemma DoneOneMore<T>(all: set<T>, pending: set<T>, c: T)
    requires c in pending && pending <= all
    ensures all - (pending - {c}) == (all - pending) + {c}
  {
  }
}
