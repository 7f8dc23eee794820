/** Keyboard navigation over the four answer letters of a quiz question: the
    up and down arrows move the selection cyclically, and from no selection
    (or anything that is not a letter) both go to "A". */
module Navigation {

  /** The answer letters, in display order. */
  const Letters: seq<string> := ["A", "B", "C", "D"]

  /** The position of the first occurrence of `x` in `s`. */
  function IndexOf(s: seq<string>, x: string): (i: nat)
    requires x in s
    ensures i < |s| && s[i] == x
    ensures forall j :: 0 <= j < i ==> s[j] != x
  {
    if s[0] == x then 0 else 1 + IndexOf(s[1..], x)
  }

  /** The selection after the up arrow: one letter back, "A" wrapping to "D"
      (stated by `Neighbours`). The modulus is positive, so Dafny's `%` agrees
      with the floored remainder of the original. */
  function Up(current: string): (next: string)
    ensures next in Letters
    ensures current !in Letters ==> next == "A"
  {
    if current !in Letters then Letters[0]
    else Letters[(IndexOf(Letters, current) - 1) % |Letters|]
  }

  /** The selection after the down arrow: one letter forward, "D" wrapping to
      "A" (stated by `Neighbours`). */
  function Down(current: string): (next: string)
    ensures next in Letters
    ensures current !in Letters ==> next == "A"
  {
    if current !in Letters then Letters[0]
    else Letters[(IndexOf(Letters, current) + 1) % |Letters|]
  }

  /** The letters are distinct, so a letter's position is where it stands. */
  lemma IndexOfLetter(k: nat)
    requires k < |Letters|
    ensures IndexOf(Letters, Letters[k]) == k
  {
  }

  /** The letter before position `k`, wrapping from the first to the last. */
  function Before(k: nat): nat { if k == 0 then |Letters| - 1 else k - 1 }

  /** The letter after position `k`, wrapping from the last to the first. */
  function After(k: nat): nat { if k + 1 == |Letters| then 0 else k + 1 }

  /** Up moves one letter back, wrapping from "A" to "D"; Down one letter forward, wrapping from "D" to "A". */
  lemma Neighbours(k: nat)
    requires k < |Letters|
    ensures Up(Letters[k]) == Letters[Before(k)]
    ensures Down(Letters[k]) == Letters[After(k)]
  {
    IndexOfLetter(k);
  }

  /** Down undoes Up and Up undoes Down. */
  lemma UpDownInverse(c: string)
    requires c in Letters
    ensures Down(Up(c)) == c && Up(Down(c)) == c
  {
    var k := IndexOf(Letters, c);
    Neighbours(k);
    Neighbours(Before(k));
    Neighbours(After(k));
  }

  /** Four presses of the same arrow come back to the same letter. */
  lemma FullCycle(c: string)
    requires c in Letters
    ensures Down(Down(Down(Down(c)))) == c
    ensures Up(Up(Up(Up(c)))) == c
  {
    var k := IndexOf(Letters, c);
    Neighbours(k);
    Neighbours(After(k));
    Neighbours(After(After(k)));
    Neighbours(After(After(After(k))));
    Neighbours(Before(k));
    Neighbours(Before(Before(k)));
    Neighbours(Before(Before(Before(k))));
  }
}
