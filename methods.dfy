/** The string helpers of the library: an emptiness test and a character
    counter, which the route constructor uses to check its braces. */
module Methods {

  import opened Wrappers

  /** Number of positions of `s` that hold `c` (the specification of `CountChar`). */
  function Occurrences(s: string, c: char): (n: nat)
    ensures n <= |s|
  {
    if s == [] then 0
    else Occurrences(s[..|s| - 1], c) + (if s[|s| - 1] == c then 1 else 0)
  }

  /** The indices of `s` holding `c`: an independent description of the count. */
  ghost function IndicesOf(s: string, c: char): set<nat>
  {
    set i: nat | i < |s| && s[i] == c
  }

  /** `isEmpty`: a `null` sequence (None) or one of length zero. */
  function IsEmpty(sequence: Option<string>): (empty: bool)
    ensures empty <==> sequence == None || sequence == Some([])
    ensures !empty ==> |sequence.value| > 0
  {
    sequence.None? || |sequence.value| == 0
  }

  /** `countChar`: the number of occurrences of `c`, and 0 for a `null` sequence.
      Java's `int` counter cannot overflow: it never exceeds the length of the
      sequence, which is itself an `int`. */
  method CountChar(sequence: Option<string>, c: char) returns (count: nat)
    ensures sequence.None? ==> count == 0
    ensures sequence.Some? ==> count == Occurrences(sequence.value, c)
    ensures sequence.Some? ==> count <= |sequence.value|
  {
    if IsEmpty(sequence) {
      return 0;
    }
    var s := sequence.value;
    count := 0;
    for i := 0 to |s|
      invariant count == Occurrences(s[..i], c)
    {
      assert s[..i + 1][..i] == s[..i];
      if s[i] == c {
        count := count + 1;
      }
    }
    assert s[..|s|] == s;
  }

  /** The recursive count agrees with the number of matching indices. */
  lemma {:induction false} OccurrencesCountsIndices(s: string, c: char)
    ensures Occurrences(s, c) == |IndicesOf(s, c)|
  {
    if s != [] {
      var init := s[..|s| - 1];
      OccurrencesCountsIndices(init, c);
      var last := |s| - 1;
      if s[last] == c {
        assert IndicesOf(s, c) == IndicesOf(init, c) + {last};
        assert last !in IndicesOf(init, c);
      } else {
        assert IndicesOf(s, c) == IndicesOf(init, c);
      }
    } else {
      assert IndicesOf(s, c) == {};
    }
  }

  /** Counting distributes over concatenation. */
  lemma {:induction false} OccurrencesConcat(a: string, b: string, c: char)
    ensures Occurrences(a + b, c) == Occurrences(a, c) + Occurrences(b, c)
  {
    if b == [] {
      assert a + b == a;
    } else {
      var b' := b[..|b| - 1];
      assert (a + b)[..|a + b| - 1] == a + b';
      OccurrencesConcat(a, b', c);
    }
  }

  /** The count is zero exactly when the character does not occur. */
  lemma {:induction false} OccurrencesZeroIffAbsent(s: string, c: char)
    ensures Occurrences(s, c) == 0 <==> c !in s
  {
    if s != [] {
      var init := s[..|s| - 1];
      OccurrencesZeroIffAbsent(init, c);
      assert s == init + [s[|s| - 1]];
      assert c in s <==> c in init || s[|s| - 1] == c;
    }
  }
}
