/** String helpers the order bot relies on: ASCII case folding (Python's
    `str.lower()` restricted to ASCII) and Python's substring test `needle in hay`. */
module Text {

  /** ASCII case folding of one character: 'A'..'Z' become 'a'..'z', every other character is kept. */
  function LowerChar(c: char): (r: char)
    ensures !('A' <= r <= 'Z')
    ensures !('A' <= c <= 'Z') ==> r == c
    ensures 'A' <= c <= 'Z' ==> 'a' <= r <= 'z' && r as int - c as int == 'a' as int - 'A' as int
  {
    if 'A' <= c <= 'Z' then (c as int - 'A' as int + 'a' as int) as char else c
  }

  /** The string with every character folded by LowerChar. */
  function ToLower(s: string): string {
    seq(|s|, i requires 0 <= i < |s| => LowerChar(s[i]))
  }

  /** Folding distributes over concatenation. */
  lemma ToLowerAppend(a: string, b: string)
    ensures ToLower(a + b) == ToLower(a) + ToLower(b)
  {
  }

  /** Reference meaning of a substring: `needle` stands in `hay` starting at index `i`. */
  ghost predicate OccursAt(needle: string, hay: string, i: int) {
    0 <= i && i + |needle| <= |hay| && hay[i..i + |needle|] == needle
  }

  /** Python's `needle in hay` on strings: a contiguous occurrence anywhere, the
      empty needle occurring in every string. No word boundaries are considered. */
  predicate Contains(hay: string, needle: string)
    decreases |hay|
  {
    needle <= hay || (hay != [] && Contains(hay[1..], needle))
  }

  /** Contains agrees with the reference meaning, in both directions. */
  lemma {:induction false} ContainsIff(hay: string, needle: string)
    ensures Contains(hay, needle) <==> exists i :: OccursAt(needle, hay, i)
    decreases |hay|
  {
    if needle <= hay {
      assert OccursAt(needle, hay, 0);
    } else if hay == [] {
      forall i ensures !OccursAt(needle, hay, i) {
      }
    } else {
      ContainsIff(hay[1..], needle);
      forall j | OccursAt(needle, hay[1..], j) ensures OccursAt(needle, hay, j + 1) {
        assert hay[1..][j..j + |needle|] == hay[j + 1..j + 1 + |needle|];
      }
      forall i | OccursAt(needle, hay, i) ensures OccursAt(needle, hay[1..], i - 1) {
        assert i != 0;
        assert hay[1..][i - 1..i - 1 + |needle|] == hay[i..i + |needle|];
      }
    }
  }

  /** A string occurs in every string that has it as an infix. */
  lemma {:induction false} ContainsInfix(front: string, needle: string, back: string)
    ensures Contains(front + needle + back, needle)
    decreases |front|
  {
    if front == [] {
      assert front + needle + back == needle + back;
    } else {
      ContainsInfix(front[1..], needle, back);
      assert (front + needle + back)[1..] == front[1..] + needle + back;
    }
  }

  /** Leading characters other than the needle's first one cannot start an occurrence. */
  lemma {:induction false} SkipToCandidate(hay: string, needle: string, k: nat)
    requires needle != [] && k <= |hay|
    requires needle[0] !in hay[..k]
    ensures Contains(hay, needle) == Contains(hay[k..], needle)
    decreases k
  {
    if k > 0 {
      assert hay[0] == hay[..k][0];
      assert hay[1..][..k - 1] == hay[..k][1..];
      SkipToCandidate(hay[1..], needle, k - 1);
      assert hay[1..][k - 1..] == hay[k..];
    }
  }
}
