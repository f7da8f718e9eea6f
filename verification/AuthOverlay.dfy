/** The text transformation that puts the admin guard on the panel's management routes. */
module AuthOverlay {
  import opened Durable
  import opened TextEdits

  datatype Edit = Edit(before: string, after: string)

  /** The words that are looked for and written.  `guard` is the name that marks a text as guarded. */
  datatype Words = Words(importLine: Edit, anchor: string, marker: string, guard: string, routes: seq<Edit>) {
    /** The marker on a line of its own before the authentication router. */
    function Guarded(): string {
      marker + ['\n'] + anchor
    }

    /** The replacements in order. */
    function Edits(): seq<Edit> {
      [importLine, Edit(anchor, Guarded())] + routes
    }

    /** How the words lie to each other: none can overlap itself or another, except that the guarded anchor contains
        the anchor and the marker, each in one place. */
    ghost predicate Valid() {
      && routes != [] && guard != [] && marker != []
      && (forall i :: 0 <= i < |Edits()| ==> Edits()[i].before != [] && Edits()[i].after != [])
      && (forall i :: 0 <= i < |Edits()| ==>
            OnlyAt(Edits()[i].before, Edits()[i].before, 0) && OnlyAt(Edits()[i].after, Edits()[i].after, 0))
      && (forall i, j :: 0 <= i < |Edits()| && 0 <= j < |Edits()| && i != j ==>
            && Never(Edits()[i].before, Edits()[j].before) && Never(Edits()[i].before, Edits()[j].after)
            && Never(Edits()[i].after, Edits()[j].before) && Never(Edits()[i].after, Edits()[j].after))
      && (forall i :: 0 <= i < |Edits()| && i != 1 ==>
            && Never(Edits()[i].before, Edits()[i].after)
            && Never(marker, Edits()[i].before) && Never(marker, Edits()[i].after))
      && OnlyAt(anchor, Guarded(), |marker| + 1)
      && OnlyAt(marker, Guarded(), 0) && OnlyAt(marker, marker, 0)
      && Contains(marker, guard)
    }
  }

  function Rewrite(text: string, edits: seq<Edit>): string
    requires forall i :: 0 <= i < |edits| ==> edits[i].before != []
  {
    if edits == [] then text
    else
      var last := |edits| - 1;
      ReplaceFirst(Rewrite(text, edits[..last]), edits[last].before, edits[last].after)
  }

  /** The reverse replacements, the last first. */
  function Unwrite(text: string, edits: seq<Edit>): string
    requires forall i :: 0 <= i < |edits| ==> edits[i].after != []
    decreases |edits|
  {
    if edits == [] then text
    else
      var last := |edits| - 1;
      Unwrite(ReplaceFirst(text, edits[last].after, edits[last].before), edits[..last])
  }

  predicate CountsAre(w: Words, text: string, news: nat, olds: nat)
    requires w.Valid()
  {
    forall i :: 0 <= i < |w.routes| ==>
        Count(text, Route(w, i).after) == news && Count(text, Route(w, i).before) == olds
  }

  function Route(w: Words, i: nat): (e: Edit)
    requires w.Valid() && i < |w.routes|
    ensures e == w.routes[i] && e.before != [] && e.after != []
  {
    assert w.routes[i] == w.Edits()[i + 2];
    w.routes[i]
  }

  /** `parses` stands for the syntax check of the whole text. */
  function Patch(w: Words, parses: string -> bool, text: string): Result<(string, bool)>
    requires w.Valid()
  {
    assert w.importLine == w.Edits()[0] && w.anchor == w.Edits()[1].before;
    if !parses(text) then Fail(Hold(OverlaySyntax))
    else if CountsAre(w, text, 1, 0) then
      if Count(text, w.importLine.after) != 1 || Count(text, w.marker) != 1 then Fail(Hold(OverlayPartial))
      else if Count(text, w.anchor) != 1 then Fail(Hold(OverlayAmbiguous))
      else Ok((text, false))
    else if !CountsAre(w, text, 0, 1) then Fail(Hold(OverlayUnknownRoutes))
    else if Count(text, w.importLine.before) != 1 || Count(text, w.importLine.after) != 0
        then Fail(Hold(OverlayUnknownImport))
    else if Count(text, w.anchor) != 1 || Count(text, w.guard) > 0 then Fail(Hold(OverlayAmbiguous))
    else
      var updated := Rewrite(text, w.Edits());
      if !parses(updated) then Fail(Hold(OverlaySyntax)) else Ok((updated, true))
  }

  // ---------------------------------------------------------------- the replacements one by one

  /** The text after the first k replacements. */
  ghost predicate Halfway(w: Words, text: string, k: nat)
    requires w.Valid() && k <= |w.Edits()|
  {
    && (forall j :: k <= j < |w.Edits()| ==> Single(text, w.Edits()[j].before) && !Contains(text, w.Edits()[j].after))
    && (forall j :: 0 <= j < k ==>
        Single(text, w.Edits()[j].after) && (j != 1 ==> !Contains(text, w.Edits()[j].before)))
    && (if k <= 1 then !Contains(text, w.marker) else Single(text, w.marker))
    && Single(text, w.anchor)
  }

  /** What one replacement does to the words of another. */
  lemma OthersStay(w: Words, text: string, k: nat, p: int, j: nat)
    requires w.Valid() && k < |w.Edits()| && j < |w.Edits()| && j != k && OnlyHere(text, w.Edits()[k].before, p)
    ensures 0 <= p && p + |w.Edits()[k].before| <= |text|
    ensures var after, e := Spliced(text, p, w.Edits()[k].before, w.Edits()[k].after), w.Edits()[j];
            && (Single(text, e.before) <==> Single(after, e.before))
            && (Contains(text, e.before) <==> Contains(after, e.before))
            && (Single(text, e.after) <==> Single(after, e.after))
            && (Contains(text, e.after) <==> Contains(after, e.after))
  {
    hide Never, OnlyAt, Occurs;
    Kept(text, p, w.Edits()[k].before, w.Edits()[k].after, w.Edits()[j].before);
    Kept(text, p, w.Edits()[k].before, w.Edits()[k].after, w.Edits()[j].after);
  }

  /** One replacement, and that it can be taken back. */
  lemma OneEdit(w: Words, text: string, k: nat)
    requires w.Valid() && k < |w.Edits()| && Halfway(w, text, k)
    ensures var e := w.Edits()[k];
            var after := ReplaceFirst(text, e.before, e.after);
            Halfway(w, after, k + 1) && ReplaceFirst(after, e.after, e.before) == text
  {
    hide Never, OnlyAt, Occurs, OnlyHere, Spliced, Contains, ReplaceFirst;
    var e := w.Edits()[k];
    var p := Place(text, e.before);
    assert forall i :: !Occurs(text, e.after, i) by { NoPlace(text, e.after); }
    ReplaceAndBack(text, p, e.before, e.after);
    var after := Spliced(text, p, e.before, e.after);
    assert Single(after, e.after);
    forall j | 0 <= j < |w.Edits()| && j != k
      ensures Single(text, w.Edits()[j].before) <==> Single(after, w.Edits()[j].before)
      ensures Contains(text, w.Edits()[j].before) <==> Contains(after, w.Edits()[j].before)
      ensures Single(text, w.Edits()[j].after) <==> Single(after, w.Edits()[j].after)
      ensures Contains(text, w.Edits()[j].after) <==> Contains(after, w.Edits()[j].after)
    {
      OthersStay(w, text, k, p, j);
    }
    if k == 1 {
      assert Single(after, w.anchor) && Single(after, w.marker) by { AnchorGuarded(w, text, p); }
    } else {
      assert !Contains(after, e.before) by { Lost(text, p, e.before, e.after); }
      Kept(text, p, e.before, e.after, w.marker);
      assert w.Edits()[1].before == w.anchor;
    }
  }

  lemma NoPlace(text: string, pattern: string)
    requires !Contains(text, pattern)
    ensures forall i :: !Occurs(text, pattern, i)
  {
  }

  lemma AnchorGuarded(w: Words, text: string, p: int)
    requires w.Valid() && OnlyHere(text, w.anchor, p) && !Contains(text, w.marker)
    ensures 0 <= p && p + |w.anchor| <= |text|
    ensures var after := Spliced(text, p, w.anchor, w.Guarded()); Single(after, w.anchor) && Single(after, w.marker)
  {
    hide Never, OnlyAt, Occurs, Spliced;
    assert w.Edits()[1].before == w.anchor && w.anchor != [];
    InBounds(text, w.anchor, p);
    Gained(text, p, w.anchor, w.Guarded(), w.anchor, |w.marker| + 1);
    Gained(text, p, w.anchor, w.Guarded(), w.marker, 0);
  }

  lemma {:induction false} AllEdits(w: Words, text: string, k: nat)
    requires w.Valid() && Halfway(w, text, 0) && k <= |w.Edits()|
    ensures Halfway(w, Rewrite(text, w.Edits()[..k]), k)
    ensures Unwrite(Rewrite(text, w.Edits()[..k]), w.Edits()[..k]) == text
    decreases k
  {
    hide Halfway, ReplaceFirst;
    if k > 0 {
      AllEdits(w, text, k - 1);
      OneEdit(w, Rewrite(text, w.Edits()[..k - 1]), k - 1);
      assert w.Edits()[..k][..k - 1] == w.Edits()[..k - 1];
    }
  }

  // ---------------------------------------------------------------- the whole transformation

  lemma Counted(w: Words, text: string, j: nat)
    requires w.Valid() && j < |w.Edits()|
    ensures var e := w.Edits()[j];
            && (Count(text, e.before) == 0 <==> !Contains(text, e.before))
            && (Count(text, e.before) == 1 <==> Single(text, e.before))
            && (Count(text, e.after) == 0 <==> !Contains(text, e.after))
            && (Count(text, e.after) == 1 <==> Single(text, e.after))
  {
    hide Count, OnlyAt, Never, Contains, Single;
    CountNone(text, w.Edits()[j].before);
    CountNone(text, w.Edits()[j].after);
    CountOnce(text, w.Edits()[j].before);
    CountOnce(text, w.Edits()[j].after);
  }

  lemma Within(text: string, outer: string, i: int, inner: string, d: int)
    requires Occurs(text, outer, i) && Occurs(outer, inner, d)
    ensures Occurs(text, inner, i + d)
  {
    var here := text[i + d..i + d + |inner|];
    assert forall k :: 0 <= k < |inner| ==> here[k] == text[i..i + |outer|][d + k] == outer[d..d + |inner|][k];
  }

  lemma AnchorHolds(w: Words) returns (d: int)
    requires w.Valid()
    ensures Occurs(w.Guarded(), w.marker, 0) && Occurs(w.marker, w.guard, d)
  {
    assert Contains(w.marker, w.guard);
    d :| Occurs(w.marker, w.guard, d);
  }

  lemma Unguarded(w: Words, text: string)
    requires w.Valid() && Count(text, w.guard) == 0
    ensures !Contains(text, w.marker) && !Contains(text, w.Guarded())
  {
    var d := AnchorHolds(w);
    hide Occurs, Count;
    forall i | Occurs(text, w.marker, i) ensures Occurs(text, w.guard, i + d) {
      Within(text, w.marker, i, w.guard, d);
    }
    forall i | Occurs(text, w.Guarded(), i) ensures Occurs(text, w.marker, i + 0) {
      Within(text, w.Guarded(), i, w.marker, 0);
    }
    CountNone(text, w.guard);
  }

  /** A text that is accepted for a change has every word to be replaced once and none of the new ones. */
  lemma AcceptedIsHalfway(w: Words, parses: string -> bool, text: string)
    requires w.Valid() && Patch(w, parses, text).Ok? && Patch(w, parses, text).value.1
    ensures Halfway(w, text, 0) && Patch(w, parses, text).value.0 == Rewrite(text, w.Edits())
            && parses(Rewrite(text, w.Edits()))
  {
    hide Count, OnlyAt, Never, Occurs, Single, Rewrite;
    Unguarded(w, text);
    assert w.importLine == w.Edits()[0] && w.anchor == w.Edits()[1].before && w.Guarded() == w.Edits()[1].after;
    forall j | 0 <= j < |w.Edits()| ensures Single(text, w.Edits()[j].before) && !Contains(text, w.Edits()[j].after) {
      Counted(w, text, j);
      if j >= 2 {
        assert Route(w, j - 2) == w.Edits()[j];
      }
    }
  }

  lemma RewrittenCounts(w: Words, text: string)
    requires w.Valid() && Halfway(w, text, |w.Edits()|)
    ensures w.importLine.after != [] && w.anchor != []
    ensures CountsAre(w, text, 1, 0) && Count(text, w.importLine.after) == 1 && Count(text, w.marker) == 1
    ensures Count(text, w.anchor) == 1
  {
    hide Count, OnlyAt, Never, Occurs, Single;
    assert w.importLine == w.Edits()[0] && w.anchor == w.Edits()[1].before;
    Counted(w, text, 0);
    Counted(w, text, 1);
    CountOnce(text, w.marker);
    forall i | 0 <= i < |w.routes| ensures Count(text, Route(w, i).after) == 1 && Count(text, Route(w, i).before) == 0 {
      Counted(w, text, i + 2);
      assert w.Edits()[i + 2] == Route(w, i);
    }
  }

  /** Every text the transformation accepts and changes: done again it changes nothing, and the reverse replacements
      give back exactly the text it started from. */
  lemma {:induction false} PatchIsIdempotentAndReversible(w: Words, parses: string -> bool, text: string)
    requires w.Valid() && Patch(w, parses, text).Ok?
    ensures var (updated, changed) := Patch(w, parses, text).value;
            && Patch(w, parses, updated) == Ok((updated, false))
            && (!changed ==> updated == text)
            && (changed ==> updated != text && Unwrite(updated, w.Edits()) == text)
  {
    hide Halfway, Count, Rewrite, Unwrite;
    if Patch(w, parses, text).value.1 {
      AcceptedIsHalfway(w, parses, text);
      AllEdits(w, text, |w.Edits()|);
      assert w.Edits()[..|w.Edits()|] == w.Edits();
      RewrittenCounts(w, Rewrite(text, w.Edits()));
    }
  }

  /** Every word to be replaced stands in one place, and none of the new ones nor the guard's name does. */
  ghost predicate Unpatched(w: Words, text: string) {
    && Single(text, w.importLine.before) && !Contains(text, w.importLine.after)
    && Single(text, w.anchor) && !Contains(text, w.guard)
    && forall i :: 0 <= i < |w.routes| ==> Single(text, w.routes[i].before) && !Contains(text, w.routes[i].after)
  }

  /** Every new word stands in one place, and no route to be replaced does. */
  ghost predicate Patched(w: Words, text: string) {
    && Single(text, w.importLine.after) && Single(text, w.marker) && Single(text, w.anchor)
    && forall i :: 0 <= i < |w.routes| ==> Single(text, w.routes[i].after) && !Contains(text, w.routes[i].before)
  }

  lemma CountsExactly(w: Words, text: string)
    requires w.Valid()
    ensures CountsAre(w, text, 1, 0) <==>
            forall i :: 0 <= i < |w.routes| ==> Single(text, w.routes[i].after) && !Contains(text, w.routes[i].before)
    ensures CountsAre(w, text, 0, 1) <==>
            forall i :: 0 <= i < |w.routes| ==> Single(text, w.routes[i].before) && !Contains(text, w.routes[i].after)
  {
    hide Count, OnlyAt, Never, Occurs, Single, Contains;
    forall i | 0 <= i < |w.routes|
      ensures Count(text, Route(w, i).after) == 1 <==> Single(text, w.routes[i].after)
      ensures Count(text, Route(w, i).after) == 0 <==> !Contains(text, w.routes[i].after)
      ensures Count(text, Route(w, i).before) == 1 <==> Single(text, w.routes[i].before)
      ensures Count(text, Route(w, i).before) == 0 <==> !Contains(text, w.routes[i].before)
    {
      Counted(w, text, i + 2);
      assert w.Edits()[i + 2] == Route(w, i);
    }
  }

  /** A text is accepted and left alone exactly if it is patched, and accepted and changed exactly if it is unpatched
      and both it and the result have a valid syntax; the result then is patched, and the reverse replacements give
      back the text. */
  lemma {:induction false} PatchesExactlyWhen(w: Words, parses: string -> bool, text: string)
    requires w.Valid()
    ensures var r := Patch(w, parses, text);
            && (r.Ok? && !r.value.1 <==> parses(text) && Patched(w, text))
            && (r.Ok? && r.value.1 <==> parses(text) && Unpatched(w, text) && parses(Rewrite(text, w.Edits())))
            && (r.Ok? && !r.value.1 ==> r.value.0 == text)
            && (r.Ok? && r.value.1 ==>
                  r.value.0 == Rewrite(text, w.Edits()) && Patched(w, r.value.0)
                      && Unwrite(r.value.0, w.Edits()) == text)
  {
    hide Count, OnlyAt, Never, Occurs, Single, Contains, Rewrite, Unwrite, CountsAre, Halfway;
    CountsExactly(w, text);
    assert w.importLine == w.Edits()[0] && w.anchor == w.Edits()[1].before;
    Counted(w, text, 0);
    Counted(w, text, 1);
    assert Count(text, w.marker) == 1 <==> Single(text, w.marker) by { CountOnce(text, w.marker); }
    assert Count(text, w.guard) == 0 <==> !Contains(text, w.guard) by { CountNone(text, w.guard); }
    NotBoth(w, text);
    var r := Patch(w, parses, text);
    if r.Ok? && r.value.1 {
      PatchIsIdempotentAndReversible(w, parses, text);
      AcceptedIsHalfway(w, parses, text);
      RewrittenIsPatched(w, text);
    }
  }

  lemma NotBoth(w: Words, text: string)
    requires w.Valid()
    ensures !(Patched(w, text) && Unpatched(w, text))
    ensures CountsAre(w, text, 1, 0) ==> !Unpatched(w, text)
  {
    hide Count, OnlyAt, Never, Occurs;
    CountsExactly(w, text);
    if Unpatched(w, text) {
      var i := 0;
      assert Single(text, w.routes[i].before) ==> Contains(text, w.routes[i].before);
    }
  }

  lemma RewrittenIsPatched(w: Words, text: string)
    requires w.Valid() && Halfway(w, text, 0)
    ensures Patched(w, Rewrite(text, w.Edits()))
  {
    hide Count, OnlyAt, Never, Occurs, Single, Contains, Rewrite, Unwrite;
    AllEdits(w, text, |w.Edits()|);
    assert w.Edits()[..|w.Edits()|] == w.Edits();
    var after := Rewrite(text, w.Edits());
    assert w.importLine == w.Edits()[0];
    forall i | 0 <= i < |w.routes| ensures Single(after, w.routes[i].after) && !Contains(after, w.routes[i].before) {
      assert w.Edits()[i + 2] == w.routes[i];
    }
  }
}
