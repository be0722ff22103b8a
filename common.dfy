/** Small shared vocabulary: optional values, how a Python call ended,
    Python's substring test on strings, and list repetition. */
module Common {

  datatype Option<+T> = None | Some(value: T)

  /** How a call of the program ended: it returned normally, it called
      `sys.exit` (or the builtin `exit`) with the given status, or an
      exception escaped it. */
  datatype Status = Normal | Exit(code: int) | Raise

  /** Python's `needle in hay` on two strings: `needle` occurs as a
      contiguous piece of `hay`; the empty string occurs in every string. */
  predicate Contains(hay: string, needle: string)
    decreases |hay|
  {
    needle <= hay || (|hay| > 0 && Contains(hay[1..], needle))
  }

  /** Reference definition of a substring occurrence at position `i`. */
  ghost predicate OccursAt(hay: string, needle: string, i: int)
  {
    0 <= i && i + |needle| <= |hay| && hay[i..i + |needle|] == needle
  }

  /** The recursive test agrees with the positional definition. */
  lemma {:induction false} ContainsIff(hay: string, needle: string)
    ensures Contains(hay, needle) <==> exists i :: OccursAt(hay, needle, i)
    decreases |hay|
  {
    if needle <= hay {
      assert OccursAt(hay, needle, 0);
    } else if |hay| > 0 {
      ContainsIff(hay[1..], needle);
      if Contains(hay[1..], needle) {
        var i :| OccursAt(hay[1..], needle, i);
        assert hay[i + 1..i + 1 + |needle|] == hay[1..][i..i + |needle|];
        assert OccursAt(hay, needle, i + 1);
      }
      if exists i :: OccursAt(hay, needle, i) {
        var i :| OccursAt(hay, needle, i);
        if i > 0 {
          assert hay[1..][i - 1..i - 1 + |needle|] == hay[i..i + |needle|];
          assert OccursAt(hay[1..], needle, i - 1);
        }
      }
    }
  }

  /** `xs` concatenated with itself `n` times. */
  function Repeat<T>(xs: seq<T>, n: nat): (r: seq<T>)
    ensures |r| == n * |xs|
  {
    if n == 0 then [] else Repeat(xs, n - 1) + xs
  }

  /** A repetition holds exactly the elements of `xs`, unless it is empty. */
  lemma {:induction false} RepeatMembers<T>(xs: seq<T>, n: nat, x: T)
    ensures x in Repeat(xs, n) <==> n > 0 && x in xs
  {
    if n > 0 {
      RepeatMembers(xs, n - 1, x);
    }
  }
}
