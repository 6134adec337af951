/** The navigation bar's avatar text: the user's initials. */
module Navbar {
  import opened Optional
  import opened Strings

  /** `toUpperCase` on one character, for ASCII letters. */
  function Upper(c: char): char {
    if 'a' <= c <= 'z' then (c as int - 32) as char else c
  }

  /** The non-empty segments, in order. */
  function Words(segs: seq<string>): (w: seq<string>)
    ensures |w| <= |segs|
    ensures forall k :: 0 <= k < |w| ==> w[k] != "" && w[k] in segs
    decreases |segs|
  {
    if segs == [] then []
    else (if segs[0] == "" then [] else [segs[0]]) + Words(segs[1..])
  }

  /**
   * `segs.map(n => n[0]).join('')`: the first character of each segment; an
   * empty segment's `n[0]` is undefined and joins as nothing.
   */
  function FirstChars(segs: seq<string>): string
    decreases |segs|
  {
    if segs == [] then ""
    else (if segs[0] == "" then "" else [segs[0][0]]) + FirstChars(segs[1..])
  }

  /** `getInitials(name)`: `U` for a missing or empty name, else the upper-cased initials of its space-separated words. */
  function Initials(name: Option<string>): (r: string)
    ensures name.None? || name == Some("") ==> r == "U"
    ensures name.Some? && name.value != "" ==>
      var w := Words(Split(name.value, " "));
      |r| == |w| && forall k :: 0 <= k < |r| ==> r[k] == Upper(w[k][0])
  {
    if name.None? || name.value == "" then "U"
    else
      var segs := Split(name.value, " ");
      FirstCharsAreWordStarts(segs);
      var first := FirstChars(segs);
      seq(|first|, k requires 0 <= k < |first| => Upper(first[k]))
  }

  /** The first characters are exactly the first characters of the words. */
  lemma {:induction false} FirstCharsAreWordStarts(segs: seq<string>)
    ensures |FirstChars(segs)| == |Words(segs)|
    ensures forall k :: 0 <= k < |Words(segs)| ==> FirstChars(segs)[k] == Words(segs)[k][0]
    decreases |segs|
  {
    if segs != [] {
      FirstCharsAreWordStarts(segs[1..]);
    }
  }

  /** Leading, trailing or repeated spaces add nothing: there are at most as many initials as segments, and none is a space. */
  lemma InitialsBounded(name: string)
    requires name != ""
    ensures |Initials(Some(name))| <= |Split(name, " ")|
    ensures forall k :: 0 <= k < |Initials(Some(name))| ==> Initials(Some(name))[k] != ' '
  {
  }

  /** A string without spaces contains no separator. */
  lemma SpaceFree(word: string)
    requires forall k :: 0 <= k < |word| ==> word[k] != ' '
    ensures Free(word, " ")
  {
    forall i: nat ensures !OccursAt(word, " ", i) {
      if i < |word| {
        assert word[i..i + 1][0] == word[i];
      }
    }
  }

  /** A single word without spaces gives exactly one initial: its first letter, upper-cased. */
  lemma SingleWord(word: string)
    requires word != "" && forall k :: 0 <= k < |word| ==> word[k] != ' '
    ensures Initials(Some(word)) == [Upper(word[0])]
  {
    SpaceFree(word);
    SplitFree(word, " ");
    assert Words([word]) == [word];
  }

  /** Two words separated by one space give their two initials, in order. */
  lemma TwoWords(first: string, last: string)
    requires first != "" && forall k :: 0 <= k < |first| ==> first[k] != ' '
    requires last != "" && forall k :: 0 <= k < |last| ==> last[k] != ' '
    ensures Initials(Some(first + " " + last)) == [Upper(first[0]), Upper(last[0])]
  {
    SpaceFree(first);
    SpaceFree(last);
    SplitPeel(first, " ", last);
    SplitFree(last, " ");
    assert Split(first + " " + last, " ") == [first, last];
    assert Words([first, last]) == [first, last] by {
      assert Words([first, last][1..]) == [last] by {
        assert [first, last][1..] == [last];
        assert Words([last]) == [last];
      }
    }
  }
}
