/**
 * Joining strings with a one-character separator, and its inverse,
 * splitting on that character (the behaviour of Rust's `str::split(char)`,
 * which keeps empty pieces).
 */
module Text {

  /** The parts in order, with `sep` between each two neighbours. */
  function Join(parts: seq<string>, sep: char): string {
    if |parts| == 0 then ""
    else if |parts| == 1 then parts[0]
    else parts[0] + [sep] + Join(parts[1..], sep)
  }

  /** The maximal runs of `s` without `sep`, in order; there is always at least one. */
  function Split(s: string, sep: char): (r: seq<string>)
    ensures |r| >= 1
    ensures forall k :: 0 <= k < |r| ==> sep !in r[k]
    decreases |s|
  {
    if |s| == 0 then [""] else PushFront(s[0], Split(s[1..], sep), sep)
  }

  /** The pieces of `[c] + t`, given the pieces of `t`. */
  function PushFront(c: char, pieces: seq<string>, sep: char): (r: seq<string>)
    requires |pieces| >= 1 && SepFree(pieces, sep)
    ensures |r| >= 1 && SepFree(r, sep)
  {
    if c == sep then [""] + pieces
    else [[c] + pieces[0]] + pieces[1..]
  }

  /** The fused splitting of two piece lists: the last of `a` joins the first of `b`. */
  function Fuse(a: seq<string>, b: seq<string>): seq<string>
    requires |a| >= 1 && |b| >= 1
  {
    a[..|a| - 1] + [a[|a| - 1] + b[0]] + b[1..]
  }

  /** No piece contains the separator. */
  predicate SepFree(parts: seq<string>, sep: char) {
    forall k :: 0 <= k < |parts| ==> sep !in parts[k]
  }

  /** A string without the separator is a single piece. */
  lemma {:induction false} SplitSepFree(s: string, sep: char)
    requires sep !in s
    ensures Split(s, sep) == [s]
    decreases |s|
  {
    if |s| > 0 {
      SplitSepFree(s[1..], sep);
      assert [s[0]] + s[1..] == s;
    }
  }

  /** Fusing keeps every piece free of the separator when the fused piece is. */
  lemma FuseSepFree(a: seq<string>, b: seq<string>, sep: char)
    requires |a| >= 1 && |b| >= 1 && SepFree(a, sep) && SepFree(b, sep) && sep !in a[|a| - 1] + b[0]
    ensures SepFree(Fuse(a, b), sep)
  {
    var m := Fuse(a, b);
    forall k | 0 <= k < |m| ensures sep !in m[k] {
      if k < |a| - 1 {
        assert m[k] == a[k];
      } else if k > |a| - 1 {
        assert m[k] == b[k - |a| + 1];
      }
    }
  }

  /** A piece in front of the left list stays in front of the fused list. */
  lemma FuseCons(x: string, a: seq<string>, b: seq<string>)
    requires |a| >= 1 && |b| >= 1
    ensures Fuse([x] + a, b) == [x] + Fuse(a, b)
  {
    var xa := [x] + a;
    assert xa[..|xa| - 1] == [x] + a[..|a| - 1];
    assert xa[|xa| - 1] == a[|a| - 1];
  }

  /** Fusing a single piece onto a list extends the list's first piece. */
  lemma FuseSingle(x: string, b: seq<string>)
    requires |b| >= 1
    ensures Fuse([x], b) == [x + b[0]] + b[1..]
  {
    assert [x][..0] == [];
  }

  /** The three parts of a fused list: the left list but its last piece, the fused piece, the right list but its first. */
  lemma FuseParts(a: seq<string>, b: seq<string>)
    requires |a| >= 1 && |b| >= 1
    ensures var t := Fuse(a, b);
      |t| == |a| + |b| - 1 && t[..|a| - 1] == a[..|a| - 1] &&
      t[|a| - 1] == a[|a| - 1] + b[0] && t[|a|..] == b[1..]
  {
    var t := Fuse(a, b);
    assert t[..|a| - 1] == a[..|a| - 1];
    assert t[|a|..] == b[1..];
  }

  /** Pushing a character in front commutes with fusing. */
  lemma PushFrontFuse(c: char, a: seq<string>, b: seq<string>, sep: char)
    requires |a| >= 1 && |b| >= 1 && SepFree(a, sep) && SepFree(b, sep) && sep !in a[|a| - 1] + b[0]
    ensures SepFree(Fuse(a, b), sep)
    ensures PushFront(c, Fuse(a, b), sep) == Fuse(PushFront(c, a, sep), b)
  {
    FuseSepFree(a, b, sep);
    if c == sep {
      FuseCons("", a, b);
    } else if |a| == 1 {
      FuseSingle(a[0], b);
      FuseSingle([c] + a[0], b);
      assert ([c] + a[0]) + b[0] == [c] + (a[0] + b[0]);
    } else {
      assert a == [a[0]] + a[1..];
      FuseCons(a[0], a[1..], b);
      FuseCons([c] + a[0], a[1..], b);
    }
  }

  /**
   * Splitting a concatenation: the last piece of `x` and the first piece
   * of `y` fuse into one, the other pieces are kept as they are.
   */
  lemma {:induction false} SplitConcat(x: string, y: string, sep: char)
    ensures Split(x + y, sep) == Fuse(Split(x, sep), Split(y, sep))
    decreases |x|
  {
    var a, b := Split(x, sep), Split(y, sep);
    if |x| == 0 {
      assert x + y == y && a == [""];
      assert "" + b[0] == b[0] && [b[0]] + b[1..] == b;
    } else {
      assert (x + y)[0] == x[0] && (x + y)[1..] == x[1..] + y;
      SplitConcat(x[1..], y, sep);
      var a' := Split(x[1..], sep);
      var f := Fuse(a', b);
      assert sep !in a'[|a'| - 1] + b[0] by {
        var m := Split(x[1..] + y, sep);
        assert m == f && f[|a'| - 1] == a'[|a'| - 1] + b[0];
      }
      PushFrontFuse(x[0], a', b, sep);
    }
  }

  /** A piece followed by the separator becomes the first piece. */
  lemma SplitAfterPiece(p: string, s: string, sep: char)
    requires sep !in p
    ensures Split(p + [sep] + s, sep) == [p] + Split(s, sep)
  {
    SplitSepFree(p, sep);
    SplitConcat(p, [sep] + s, sep);
    assert ([sep] + s)[0] == sep && ([sep] + s)[1..] == s;
    assert Split([sep] + s, sep) == [""] + Split(s, sep);
    assert p + [sep] + s == p + ([sep] + s);
    assert p + "" == p;
    assert Fuse([p], [""] + Split(s, sep)) == [p] + Split(s, sep);
  }

  /** Splitting undoes joining, whenever no part contains the separator. */
  lemma {:induction false} SplitJoin(parts: seq<string>, sep: char)
    requires |parts| >= 1 && SepFree(parts, sep)
    ensures Split(Join(parts, sep), sep) == parts
  {
    if |parts| == 1 {
      SplitSepFree(parts[0], sep);
    } else {
      SplitJoin(parts[1..], sep);
      SplitAfterPiece(parts[0], Join(parts[1..], sep), sep);
    }
  }

  /** Regrouping a concatenation of three strings, given the two partial concatenations. */
  lemma Regroup(a: string, b: string, c: string, ab: string, bc: string)
    requires ab == a + b && bc == b + c
    ensures ab + c == a + bc
  {
  }

  /** Appending to a string that is a prefix followed by a body appends to the body. */
  lemma AppendToBody(content: string, prefix: string, body: string, piece: string, body': string)
    requires content == prefix + body && body' == body + piece
    ensures content + piece == prefix + body'
  {
  }
}
