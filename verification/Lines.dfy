/**
  Cutting a stream at a separator. `Split` behaves like JavaScript's `split` with a
  one-element separator: the last piece is the unfinished one, and there is always a last
  piece. The stream parsers are proved against this function.
 */
module Lines {

  function Split<T(==)>(s: seq<T>, sep: T): (pieces: seq<seq<T>>)
    ensures |pieces| > 0
  {
    if s == [] then [[]]
    else
      var rest := Split(s[1..], sep);
      if s[0] == sep then [[]] + rest else Prepend(s[0], rest)
  }

  /** Puts one element at the front of the first piece. */
  function Prepend<T>(c: T, pieces: seq<seq<T>>): (r: seq<seq<T>>)
    requires |pieces| > 0
    ensures |r| == |pieces|
  {
    [[c] + pieces[0]] + pieces[1..]
  }

  function Join<T>(pieces: seq<seq<T>>, sep: T): seq<T>
    requires |pieces| > 0
  {
    if |pieces| == 1 then pieces[0] else pieces[0] + [sep] + Join(pieces[1..], sep)
  }

  /** The pieces that a separator has closed. */
  function Closed<T>(pieces: seq<seq<T>>): seq<seq<T>>
    requires |pieces| > 0
  {
    pieces[..|pieces| - 1]
  }

  /** The piece still being written. */
  function Tail<T>(pieces: seq<seq<T>>): seq<T>
    requires |pieces| > 0
  {
    pieces[|pieces| - 1]
  }

  function Flatten<T>(chunks: seq<seq<T>>): seq<T> {
    if chunks == [] then [] else chunks[0] + Flatten(chunks[1..])
  }

  /** Splitting loses nothing and leaves no separator inside a piece. */
  lemma {:induction false} SplitThenJoin<T>(s: seq<T>, sep: T)
    ensures Join(Split(s, sep), sep) == s
    ensures forall i :: 0 <= i < |Split(s, sep)| ==> sep !in Split(s, sep)[i]
  {
    if s != [] {
      var rest := Split(s[1..], sep);
      SplitThenJoin(s[1..], sep);
      assert s == [s[0]] + s[1..];
      if s[0] == sep {
        assert ([[]] + rest)[1..] == rest;
      } else {
        var pieces := Prepend(s[0], rest);
        assert pieces[1..] == rest[1..];
        if |rest| > 1 {
          assert Join(pieces, sep) == [s[0]] + (rest[0] + [sep] + Join(rest[1..], sep));
        }
      }
    }
  }

  /** A sequence without separators is its own single piece. */
  lemma {:induction false} SplitOnePiece<T>(s: seq<T>, sep: T)
    requires sep !in s
    ensures Split(s, sep) == [s]
  {
    if s != [] {
      SplitOnePiece(s[1..], sep);
      assert s == [s[0]] + s[1..];
    }
  }

  lemma PrependAppend<T>(c: T, front: seq<seq<T>>, back: seq<seq<T>>)
    requires |front| > 0
    ensures Prepend(c, front + back) == Prepend(c, front) + back
  {
    assert (front + back)[1..] == front[1..] + back;
  }

  /** Cutting the stream anywhere: only the unfinished piece sees what comes after the cut. */
  lemma {:induction false} SplitAppend<T>(a: seq<T>, b: seq<T>, sep: T)
    ensures Split(a + b, sep) == Closed(Split(a, sep)) + Split(Tail(Split(a, sep)) + b, sep)
  {
    if a == [] {
      assert a + b == b && Tail(Split(a, sep)) + b == b;
    } else {
      SplitAppend(a[1..], b, sep);
      assert (a + b)[0] == a[0] && (a + b)[1..] == a[1..] + b;
      SplitAppendStep(a[0], Split(a[1..], sep), b, sep);
    }
  }

  lemma SplitAppendStep<T>(c: T, rest: seq<seq<T>>, b: seq<T>, sep: T)
    requires |rest| > 0
    ensures var after := Closed(rest) + Split(Tail(rest) + b, sep);
            (c == sep ==> [[]] + after == Closed([[]] + rest) + Split(Tail([[]] + rest) + b, sep))
            && (c != sep ==> Prepend(c, after) == Closed(Prepend(c, rest)) + Split(Tail(Prepend(c, rest)) + b, sep))
  {
    var last := Split(Tail(rest) + b, sep);
    if c == sep {
      assert Tail([[]] + rest) == Tail(rest);
      assert Closed([[]] + rest) == [[]] + Closed(rest);
      assert [[]] + (Closed(rest) + last) == ([[]] + Closed(rest)) + last;
    } else if |rest| > 1 {
      assert Tail(Prepend(c, rest)) == Tail(rest);
      assert Closed(Prepend(c, rest)) == Prepend(c, Closed(rest));
      PrependAppend(c, Closed(rest), last);
    } else {
      var joined := Tail(rest) + b;
      assert Tail(Prepend(c, rest)) + b == [c] + joined;
      assert ([c] + joined)[0] == c && ([c] + joined)[1..] == joined;
      assert Closed(rest) == [] && Closed(Prepend(c, rest)) == [];
      assert Closed(rest) + last == last;
      assert Split([c] + joined, sep) == Prepend(c, last);
      assert [] + Prepend(c, last) == Prepend(c, last);
    }
  }

  /** Reading one more element either closes the unfinished piece or extends it. */
  lemma SplitSnoc<T>(a: seq<T>, c: T, sep: T)
    ensures c == sep ==> Split(a + [c], sep) == Split(a, sep) + [[]]
    ensures c != sep ==> Split(a + [c], sep) == Closed(Split(a, sep)) + [Tail(Split(a, sep)) + [c]]
  {
    var pieces := Split(a, sep);
    var tail := Tail(pieces);
    SplitThenJoin(a, sep);
    assert sep !in tail;
    SplitAppend(a, [c], sep);
    if c == sep {
      SplitCloses(tail, sep);
      assert pieces == Closed(pieces) + [tail];
      assert pieces + [[]] == Closed(pieces) + [tail, []];
    } else {
      SplitOnePiece(tail + [c], sep);
    }
  }

  lemma {:induction false} SplitCloses<T>(piece: seq<T>, sep: T)
    requires sep !in piece
    ensures Split(piece + [sep], sep) == [piece, []]
  {
    if piece == [] {
      assert piece + [sep] == [sep];
      assert [sep][1..] == [];
      assert Split([sep], sep) == [[]] + Split([], sep);
    } else {
      SplitCloses(piece[1..], sep);
      assert (piece + [sep])[1..] == piece[1..] + [sep];
      assert piece == [piece[0]] + piece[1..];
    }
  }

  /** Joining pieces that hold no separator and splitting again returns the pieces. */
  lemma {:induction false} JoinThenSplit<T>(pieces: seq<seq<T>>, sep: T)
    requires |pieces| > 0
    requires forall i :: 0 <= i < |pieces| ==> sep !in pieces[i]
    ensures Split(Join(pieces, sep), sep) == pieces
  {
    SplitOnePiece(pieces[0], sep);
    if |pieces| > 1 {
      JoinThenSplit(pieces[1..], sep);
      var closed := pieces[0] + [sep];
      SplitCloses(pieces[0], sep);
      SplitAppend(closed, Join(pieces[1..], sep), sep);
      assert [] + Join(pieces[1..], sep) == Join(pieces[1..], sep);
      assert Closed([pieces[0], []]) == [pieces[0]];
      assert pieces == [pieces[0]] + pieces[1..];
    }
  }

  /** A sequence without separators stays together at the front of the first piece. */
  lemma {:induction false} FirstPiece<T>(a: seq<T>, b: seq<T>, sep: T)
    requires sep !in a
    ensures a <= Split(a + b, sep)[0]
  {
    if a != [] {
      FirstPiece(a[1..], b, sep);
      assert (a + b)[1..] == a[1..] + b;
    }
  }

  /** Every run of leading pieces is what splitting some prefix of the stream gives. */
  lemma SplitPrefix<T>(s: seq<T>, sep: T, count: nat) returns (k: nat)
    requires 0 < count <= |Split(s, sep)|
    ensures k <= |s| && Split(s[..k], sep) == Split(s, sep)[..count]
    ensures |Split(s, sep)[count - 1]| <= k
  {
    var pieces := Split(s, sep);
    SplitThenJoin(s, sep);
    JoinPrefix(pieces, sep, count);
    var front := Join(pieces[..count], sep);
    k := |front|;
    assert s[..k] == front;
    JoinThenSplit(pieces[..count], sep);
  }

  lemma {:induction false} JoinPrefix<T>(pieces: seq<seq<T>>, sep: T, count: nat)
    requires 0 < count <= |pieces|
    ensures Join(pieces[..count], sep) <= Join(pieces, sep)
    ensures |pieces[count - 1]| <= |Join(pieces[..count], sep)|
  {
    if count > 1 {
      JoinPrefix(pieces[1..], sep, count - 1);
      assert pieces[..count][1..] == pieces[1..][..count - 1];
    }
  }

  lemma {:induction false} FlattenOne<T>(a: seq<T>)
    ensures Flatten([a]) == a
  {
    assert Flatten([a]) == a + Flatten([a][1..]);
  }

  lemma FlattenTwo<T>(a: seq<T>, b: seq<T>)
    ensures Flatten([a, b]) == a + b
  {
    FlattenOne(b);
    assert [a, b][1..] == [b];
  }

  /** The slices an index loop looks at when it reads the element at `i`, its current piece starting at `from`. */
  lemma ReadOne<T>(s: seq<T>, from: nat, i: nat)
    requires from <= i < |s|
    ensures s[..i + 1] == s[..i] + [s[i]]
    ensures s[from..i + 1] == s[from..i] + [s[i]]
    ensures s[..i + 1] + s[i + 1..] == s && s[i + 1..i + 1] == []
  {
  }

  lemma ReadAll<T>(s: seq<T>, from: nat)
    requires from <= |s|
    ensures s[..|s|] == s && s[from..|s|] == s[from..]
  {
  }

  /** What was added in two steps is what was added in the first and then in the second. */
  lemma AddedInSteps<T>(a: seq<T>, b: seq<T>, c: seq<T>)
    requires a <= b && b <= c
    ensures c[|a|..] == b[|a|..] + c[|b|..]
  {
    assert c == b + c[|b|..];
  }
}
