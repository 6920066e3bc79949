/**
 * PostgreSQL's conversions between a text array and a delimited string, as the
 * column catalog functions use them with the delimiter ','.
 *
 * `array_to_string(xs, ',')` is `Join`; `string_to_array(s, ',')` is `Split`.
 * PostgreSQL maps the empty string to the EMPTY array, so `Split("")` is `[]`
 * and an array holding one empty string does not survive a round trip.
 */
module ArrayText {

  const DELIMITER: char := ','

  /** `array_to_string(xs, ',')`: the elements, separated by one comma, no spaces. */
  function Join(xs: seq<string>): string
    decreases |xs|
  {
    if |xs| == 0 then ""
    else if |xs| == 1 then xs[0]
    else xs[0] + [DELIMITER] + Join(xs[1..])
  }

  /** The comma-separated fields of a string; a string always has at least one field. */
  function Pieces(s: string): (r: seq<string>)
    ensures |r| >= 1
  {
    if s == "" then [""]
    else
      var rest := Pieces(s[1..]);
      if s[0] == DELIMITER then [""] + rest
      else [[s[0]] + rest[0]] + rest[1..]
  }

  /** `string_to_array(s, ',')`: the empty string gives the empty array. */
  function Split(s: string): seq<string>
  {
    if s == "" then [] else Pieces(s)
  }

  /** No element contains the delimiter. */
  predicate CommaFree(xs: seq<string>)
  {
    forall i :: 0 <= i < |xs| ==> DELIMITER !in xs[i]
  }

  lemma {:induction false} PiecesOfWord(w: string)
    requires DELIMITER !in w
    ensures Pieces(w) == [w]
  {
    if w != "" {
      PiecesOfWord(w[1..]);
      assert [w[0]] + w[1..] == w;
    }
  }

  lemma {:induction false} PiecesAfterWord(w: string, t: string)
    requires DELIMITER !in w
    ensures Pieces(w + [DELIMITER] + t) == [w] + Pieces(t)
  {
    var s := w + [DELIMITER] + t;
    if w == "" {
      assert s[0] == DELIMITER && s[1..] == t;
    } else {
      assert s[0] == w[0];
      assert s[1..] == w[1..] + [DELIMITER] + t;
      PiecesAfterWord(w[1..], t);
      assert [w[0]] + w[1..] == w;
    }
  }

  lemma {:induction false} PiecesOfJoin(xs: seq<string>)
    requires |xs| >= 1 && CommaFree(xs)
    ensures Pieces(Join(xs)) == xs
  {
    if |xs| == 1 {
      PiecesOfWord(xs[0]);
    } else {
      assert CommaFree(xs[1..]) by {
        forall i | 0 <= i < |xs[1..]| ensures DELIMITER !in xs[1..][i] {
          assert xs[1..][i] == xs[i + 1];
        }
      }
      PiecesAfterWord(xs[0], Join(xs[1..]));
      PiecesOfJoin(xs[1..]);
    }
  }

  /**
   * Splitting a joined list on ',' recovers the list when no element holds a
   * comma; the single-empty-element list is the one other exception.
   */
  lemma SplitJoin(xs: seq<string>)
    requires CommaFree(xs) && xs != [""]
    ensures Split(Join(xs)) == xs
  {
    if |xs| >= 1 {
      assert Join(xs) != "" by {
        if |xs| >= 2 {
          assert Join(xs) == xs[0] + [DELIMITER] + Join(xs[1..]);
        }
      }
      PiecesOfJoin(xs);
    }
  }

  lemma {:induction false} JoinPieces(s: string)
    ensures Join(Pieces(s)) == s
  {
    if s != "" {
      var rest := Pieces(s[1..]);
      JoinPieces(s[1..]);
      assert s == [s[0]] + s[1..];
      if s[0] == DELIMITER {
        assert ([""] + rest)[1..] == rest;
      } else {
        var r := [[s[0]] + rest[0]] + rest[1..];
        if |rest| == 1 {
          assert Join(r) == [s[0]] + rest[0];
        } else {
          assert r[1..] == rest[1..];
          assert Join(rest) == rest[0] + [DELIMITER] + Join(rest[1..]);
        }
      }
    }
  }

  /** Joining what was split gives back the string, whatever it holds. */
  lemma JoinSplit(s: string)
    ensures Join(Split(s)) == s
  {
    if s != "" {
      JoinPieces(s);
    }
  }
}
