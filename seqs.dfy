/**
 * Facts about slicing and concatenating sequences of any element type,
 * kept apart so that proofs about records use them without unfolding the
 * functions that render the records.
 */
module Seqs {

  /** The first `i + 1` elements are the first `i` and then element `i`. */
  lemma TakeNext<T>(s: seq<T>, i: nat)
    requires i < |s|
    ensures s[..i + 1] == s[..i] + [s[i]]
  {
  }

  /** Taking all elements gives the sequence itself. */
  lemma TakeAll<T>(s: seq<T>)
    ensures s[..|s|] == s
  {
  }

  /** Head and tail of a sequence with one element appended. */
  lemma SnocHeadTail<T>(s: seq<T>, x: T)
    ensures |s| == 0 ==> s + [x] == [x]
    ensures |s| > 0 ==> (s + [x])[0] == s[0] && (s + [x])[1..] == s[1..] + [x]
  {
  }

  /** A sequence of length one is its only element, and has an empty tail. */
  lemma Single<T>(s: seq<T>)
    requires |s| == 1
    ensures s == [s[0]] && s[1..] == []
  {
  }

  /** Appending nothing changes nothing. */
  lemma AppendEmpty<T>(s: seq<T>)
    ensures s + [] == s
  {
  }

  /** The tail of a pair is its second element. */
  lemma PairTail<T>(x: T, y: T)
    ensures [x, y][1..] == [y]
  {
  }
}
