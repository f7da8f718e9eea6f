/** Counting and replacing patterns in a text, and what a replacement does to the occurrences of other patterns. */
module TextEdits {

  predicate Occurs(text: string, pattern: string, i: int) {
    0 <= i && i + |pattern| <= |text| && text[i..i + |pattern|] == pattern
  }

  ghost predicate Contains(text: string, pattern: string) {
    exists i :: Occurs(text, pattern, i)
  }

  /** `text.count(pattern)`: occurrences from the left that do not overlap. */
  function Count(text: string, pattern: string): nat
    requires pattern != []
  {
    if |text| < |pattern| then 0
    else if text[..|pattern|] == pattern then 1 + Count(text[|pattern|..], pattern)
    else Count(text[1..], pattern)
  }

  /** `text.replace(old, new, 1)` */
  function ReplaceFirst(text: string, old': string, new': string): string
    requires old' != []
  {
    if |text| < |old'| then text
    else if text[..|old'|] == old' then new' + text[|old'|..]
    else [text[0]] + ReplaceFirst(text[1..], old', new')
  }

  ghost predicate Single(text: string, pattern: string) {
    exists i :: OnlyHere(text, pattern, i)
  }

  ghost predicate OnlyHere(text: string, pattern: string, i: int) {
    Occurs(text, pattern, i) && forall j :: Occurs(text, pattern, j) ==> i == j
  }

  /** Laid over `text` with its start at e (which may stick out on either side), the pattern differs somewhere. */
  predicate Differs(pattern: string, text: string, e: int) {
    exists k :: 0 <= k < |pattern| && 0 <= e + k < |text| && pattern[k] != text[e + k]
  }

  /** The pattern cannot overlap the text at all, wherever the text stands. */
  predicate Never(pattern: string, text: string) {
    forall e :: -|pattern| < e < |text| ==> Differs(pattern, text, e)
  }

  /** The pattern stands in the text at d, and cannot overlap it otherwise. */
  predicate OnlyAt(pattern: string, text: string, d: int) {
    Occurs(text, pattern, d) && forall e :: -|pattern| < e < |text| && e != d ==> Differs(pattern, text, e)
  }

  // ---------------------------------------------------------------- counting

  lemma OccursLater(text: string, pattern: string, n: nat, i: int)
    requires n <= |text| && i >= n
    ensures Occurs(text, pattern, i) <==> Occurs(text[n..], pattern, i - n)
  {
    if i + |pattern| <= |text| {
      assert text[n..][i - n..i - n + |pattern|] == text[i..i + |pattern|];
    }
  }

  /** Nothing is counted exactly if nothing occurs. */
  lemma {:induction false} CountNone(text: string, pattern: string)
    requires pattern != []
    ensures Count(text, pattern) == 0 <==> !Contains(text, pattern)
    decreases |text|
  {
    if |text| < |pattern| {
      assert forall i :: !Occurs(text, pattern, i);
    } else {
      hide Occurs;
      StartsHere(text, pattern);
      if text[..|pattern|] != pattern {
        CountNone(text[1..], pattern);
        SomeLater(text, pattern);
      }
    }
  }

  lemma SomeLater(text: string, pattern: string)
    requires text != [] && !Occurs(text, pattern, 0)
    ensures Contains(text, pattern) <==> Contains(text[1..], pattern)
  {
    forall i | i >= 1 ensures Occurs(text, pattern, i) <==> Occurs(text[1..], pattern, i - 1) {
      OccursLater(text, pattern, 1, i);
    }
    if i :| Occurs(text[1..], pattern, i) {
      assert Occurs(text, pattern, i + 1);
    }
  }

  /** A pattern that cannot overlap itself is counted once exactly if it occurs in one place. */
  lemma {:induction false} CountOnce(text: string, pattern: string)
    requires pattern != [] && OnlyAt(pattern, pattern, 0)
    ensures Count(text, pattern) == 1 <==> Single(text, pattern)
    decreases |text|
  {
    hide Occurs, OnlyAt;
    if |text| < |pattern| {
      assert !Contains(text, pattern) by { CountNone(text, pattern); }
    } else if text[..|pattern|] == pattern {
      var rest := text[|pattern|..];
      CountNone(rest, pattern);
      assert Occurs(text, pattern, 0) by { StartsHere(text, pattern); }
      forall i | i >= |pattern| ensures Occurs(text, pattern, i) <==> Occurs(rest, pattern, i - |pattern|) {
        OccursLater(text, pattern, |pattern|, i);
      }
      forall i | Occurs(text, pattern, i) ensures i == 0 || i >= |pattern| {
        Standing(text, pattern, 0, pattern, 0, i);
        OccursFrom(text, pattern, i);
      }
      if Contains(rest, pattern) {
        var i :| Occurs(rest, pattern, i);
        assert i >= 0 by { OccursFrom(rest, pattern, i); }
        assert Occurs(text, pattern, i + |pattern|);
      } else {
        assert OnlyHere(text, pattern, 0);
      }
    } else {
      CountOnce(text[1..], pattern);
      assert !Occurs(text, pattern, 0) by { StartsHere(text, pattern); }
      OneLater(text, pattern);
    }
  }

  lemma StartsHere(text: string, pattern: string)
    ensures Occurs(text, pattern, 0) <==> |pattern| <= |text| && text[..|pattern|] == pattern
  {
  }

  lemma OccursFrom(text: string, pattern: string, i: int)
    requires Occurs(text, pattern, i)
    ensures i >= 0
  {
  }

  lemma OneLater(text: string, pattern: string)
    requires text != [] && !Occurs(text, pattern, 0)
    ensures Single(text, pattern) <==> Single(text[1..], pattern)
  {
    forall i | i >= 1 ensures Occurs(text, pattern, i) <==> Occurs(text[1..], pattern, i - 1) {
      OccursLater(text, pattern, 1, i);
    }
    if i :| OnlyHere(text[1..], pattern, i) {
      assert OnlyHere(text, pattern, i + 1);
    }
    if i :| OnlyHere(text, pattern, i) {
      forall j | Occurs(text[1..], pattern, j) ensures j == i - 1 {
        assert Occurs(text, pattern, j + 1);
      }
      assert OnlyHere(text[1..], pattern, i - 1);
    }
  }

  /** Where both stand in one text, they agree. */
  lemma Agree(text: string, text': string, p: int, pattern: string, i: int)
    requires Occurs(text, text', p) && Occurs(text, pattern, i)
    ensures !Differs(pattern, text', i - p)
  {
    forall k | 0 <= k < |pattern| && 0 <= i - p + k < |text'| ensures pattern[k] == text'[i - p + k] {
      assert text[i..i + |pattern|][k] == text[i + k] && text[p..p + |text'|][i - p + k] == text[i + k];
    }
  }

  /** An occurrence of `pattern` is the one in a standing `text'`, or is clear of it. */
  lemma Standing(text: string, text': string, p: int, pattern: string, d: int, i: int)
    requires Occurs(text, text', p) && OnlyAt(pattern, text', d) && Occurs(text, pattern, i)
    ensures i == p + d || i + |pattern| <= p || i >= p + |text'|
  {
    Agree(text, text', p, pattern, i);
  }

  lemma Clear(text: string, text': string, p: int, pattern: string, i: int)
    requires Occurs(text, text', p) && Never(pattern, text') && Occurs(text, pattern, i)
    ensures i + |pattern| <= p || i >= p + |text'|
  {
    Agree(text, text', p, pattern, i);
  }

  // ---------------------------------------------------------------- replacing

  function Spliced(text: string, p: int, old': string, new': string): string
    requires 0 <= p && p + |old'| <= |text|
  {
    text[..p] + new' + text[p + |old'|..]
  }

  lemma InBounds(text: string, pattern: string, p: int)
    requires Occurs(text, pattern, p)
    ensures 0 <= p && p + |pattern| <= |text|
  {
  }

  lemma {:induction false} ReplacesHere(text: string, old': string, new': string, p: int)
    requires old' != [] && Occurs(text, old', p) && forall j :: Occurs(text, old', j) ==> p <= j
    ensures ReplaceFirst(text, old', new') == Spliced(text, p, old', new')
    decreases p
  {
    hide Occurs;
    InBounds(text, old', p);
    StartsHere(text, old');
    if p > 0 {
      OccursLater(text, old', 1, p);
      forall j | Occurs(text[1..], old', j) ensures p - 1 <= j {
        InBounds(text[1..], old', j);
        OccursLater(text, old', 1, j + 1);
      }
      ReplacesHere(text[1..], old', new', p - 1);
      assert text[1..][..p - 1] == text[1..p] && text[1..][p - 1 + |old'|..] == text[p + |old'|..];
      assert text[..p] == [text[0]] + text[1..p];
    }
  }

  /** Occurrences clear of the replaced part are the same before and after. */
  lemma Carried(text: string, p: int, old': string, new': string, pattern: string, i: int)
    requires 0 <= p && p + |old'| <= |text|
    ensures i + |pattern| <= p ==> (Occurs(text, pattern, i) <==> Occurs(Spliced(text, p, old', new'), pattern, i))
    ensures i >= p + |old'| ==>
              (Occurs(text, pattern, i) <==> Occurs(Spliced(text, p, old', new'), pattern, i - |old'| + |new'|))
  {
    var after := Spliced(text, p, old', new');
    if 0 <= i && i + |pattern| <= p {
      assert after[i..i + |pattern|] == text[i..i + |pattern|];
    }
    if i >= p + |old'| {
      var j := i - |old'| + |new'|;
      if i + |pattern| <= |text| {
        assert after[j..j + |pattern|] == text[i..i + |pattern|];
      }
    }
  }

  lemma SplicedHas(text: string, p: int, old': string, new': string)
    requires 0 <= p && p + |old'| <= |text|
    ensures Occurs(Spliced(text, p, old', new'), new', p)
    ensures |Spliced(text, p, old', new')| == |text| - |old'| + |new'|
  {
  }

  lemma SplicedBack(text: string, p: int, old': string, new': string)
    requires Occurs(text, old', p)
    ensures Spliced(Spliced(text, p, old', new'), p, new', old') == text
  {
    var after := Spliced(text, p, old', new');
    assert after[..p] == text[..p] && after[p + |new'|..] == text[p + |old'|..];
    assert text == text[..p] + old' + text[p + |old'|..];
  }

  lemma Place(text: string, pattern: string) returns (p: int)
    requires Single(text, pattern)
    ensures OnlyHere(text, pattern, p)
  {
    p :| OnlyHere(text, pattern, p);
  }

  /** Where an occurrence clear of the replaced part goes. */
  function Moved(i: int, p: int, length: int, from: nat, to: nat): int {
    if i + length <= p then i else i - from + to
  }

  /** Every occurrence of a pattern that can overlap neither the old nor the new words is moved. */
  lemma Forth(text: string, p: int, old': string, new': string, pattern: string, i: int)
    requires Occurs(text, old', p) && Never(pattern, old') && pattern != [] && Occurs(text, pattern, i)
    ensures 0 <= p && p + |old'| <= |text|
    ensures var j := Moved(i, p, |pattern|, |old'|, |new'|);
            Occurs(Spliced(text, p, old', new'), pattern, j) && Moved(j, p, |pattern|, |new'|, |old'|) == i
  {
    InBounds(text, old', p);
    Clear(text, old', p, pattern, i);
    Carried(text, p, old', new', pattern, i);
  }

  lemma MovedOnly(text: string, p: int, old': string, new': string, pattern: string, i: int)
    requires Occurs(text, old', p) && Never(pattern, old') && Never(pattern, new') && pattern != []
    requires OnlyHere(text, pattern, i)
    ensures 0 <= p && p + |old'| <= |text|
    ensures OnlyHere(Spliced(text, p, old', new'), pattern, Moved(i, p, |pattern|, |old'|, |new'|))
  {
    InBounds(text, old', p);
    var after := Spliced(text, p, old', new');
    SplicedHas(text, p, old', new');
    SplicedBack(text, p, old', new');
    Forth(text, p, old', new', pattern, i);
    hide Occurs, Never, Spliced, Moved;
    forall j | Occurs(after, pattern, j) ensures j == Moved(i, p, |pattern|, |old'|, |new'|) {
      Forth(after, p, new', old', pattern, j);
    }
  }

  /** A pattern that can overlap neither the old nor the new words has its one occurrence before and after, or none. */
  lemma Kept(text: string, p: int, old': string, new': string, pattern: string)
    requires Occurs(text, old', p) && Never(pattern, old') && Never(pattern, new') && pattern != []
    ensures 0 <= p && p + |old'| <= |text|
    ensures var after := Spliced(text, p, old', new');
            && (Contains(text, pattern) <==> Contains(after, pattern))
            && (Single(text, pattern) <==> Single(after, pattern))
  {
    InBounds(text, old', p);
    var after := Spliced(text, p, old', new');
    SplicedHas(text, p, old', new');
    SplicedBack(text, p, old', new');
    hide Occurs, Never, Spliced, OnlyHere;
    if i :| Occurs(text, pattern, i) {
      Forth(text, p, old', new', pattern, i);
    }
    if i :| Occurs(after, pattern, i) {
      Forth(after, p, new', old', pattern, i);
    }
    if i :| OnlyHere(text, pattern, i) {
      MovedOnly(text, p, old', new', pattern, i);
    }
    if i :| OnlyHere(after, pattern, i) {
      MovedOnly(after, p, new', old', pattern, i);
    }
  }

  /** A pattern that stood nowhere but across the old words, and stands in the new ones, stands there alone. */
  lemma Gained(text: string, p: int, old': string, new': string, pattern: string, d: int)
    requires OnlyHere(text, old', p) && OnlyAt(pattern, new', d)
    requires forall i :: Occurs(text, pattern, i) ==> i + |pattern| > p && i < p + |old'|
    ensures OnlyHere(Spliced(text, p, old', new'), pattern, p + d)
  {
    var after := Spliced(text, p, old', new');
    SplicedHas(text, p, old', new');
    assert after[p..p + |new'|] == new';
    assert Occurs(after, pattern, p + d) by {
      assert after[p + d..p + d + |pattern|] == new'[d..d + |pattern|];
    }
    hide Occurs, OnlyAt, Spliced;
    forall j | Occurs(after, pattern, j) ensures j == p + d {
      Standing(after, new', p, pattern, d, j);
      Carried(text, p, old', new', pattern, if j + |pattern| <= p then j else j - |new'| + |old'|);
    }
  }

  /** Old words that cannot overlap the new ones are gone. */
  lemma Lost(text: string, p: int, old': string, new': string)
    requires OnlyHere(text, old', p) && Never(old', new') && old' != []
    ensures !Contains(Spliced(text, p, old', new'), old')
  {
    hide Occurs, Never, Spliced;
    InBounds(text, old', p);
    var after := Spliced(text, p, old', new');
    SplicedHas(text, p, old', new');
    forall j | Occurs(after, old', j) ensures false {
      Clear(after, new', p, old', j);
      Carried(text, p, old', new', old', if j + |old'| <= p then j else j - |new'| + |old'|);
    }
  }

  /** Words that stand once are replaced there; and if the new words stood nowhere but across the old ones, replacing
      them again gives back the text. */
  lemma {:induction false} ReplaceAndBack(text: string, p: int, old': string, new': string)
    requires OnlyHere(text, old', p) && old' != [] && new' != [] && OnlyAt(new', new', 0)
    requires forall i :: Occurs(text, new', i) ==> i + |new'| > p && i < p + |old'|
    ensures 0 <= p && p + |old'| <= |text|
    ensures ReplaceFirst(text, old', new') == Spliced(text, p, old', new')
    ensures OnlyHere(Spliced(text, p, old', new'), new', p)
    ensures ReplaceFirst(ReplaceFirst(text, old', new'), new', old') == text
  {
    hide OnlyAt, Spliced, Occurs, ReplaceFirst;
    InBounds(text, old', p);
    ReplacesHere(text, old', new', p);
    Gained(text, p, old', new', new', 0);
    ReplacesHere(Spliced(text, p, old', new'), new', old', p);
    SplicedBack(text, p, old', new');
  }
}
