/** The undo history of the draft: a bounded stack of snapshots, oldest first,
    that never holds the same text twice in a row. These are the values the
    Editor class keeps in its undoStack field. */
module History {

  datatype Option<T> = None | Some(value: T)

  /** UNDO_MAX: the most snapshots the stack keeps. */
  const UndoMax := 25

  function Top(s: seq<string>): string
    requires s != []
  {
    s[|s| - 1]
  }

  predicate NoAdjacentDuplicates(s: seq<string>) {
    forall i :: 0 < i < |s| ==> s[i - 1] != s[i]
  }

  /** The invariant the stack keeps: bounded, and no two equal neighbours. */
  predicate WellFormed(s: seq<string>) {
    |s| <= UndoMax && NoAdjacentDuplicates(s)
  }

  /** pushUndo: a value equal to the top is not pushed again; otherwise it goes
      on top and, past the cap, the oldest snapshot is evicted. */
  function Push(s: seq<string>, v: string): (r: seq<string>)
    ensures r != [] && Top(r) == v
    ensures s != [] && Top(s) == v ==> r == s
    ensures !(s != [] && Top(s) == v) ==> r == (if |s| < UndoMax then s else s[1..]) + [v]
    ensures WellFormed(s) ==> WellFormed(r)
  {
    if s != [] && Top(s) == v then s
    else
      var pushed := s + [v];
      if |pushed| > UndoMax then
        assert pushed[1..] == s[1..] + [v];
        pushed[1..]
      else pushed
  }

  /** What an undo produces: the shortened stack and the draft text it restores. */
  datatype Restore = Restore(stack: seq<string>, draft: string)

  /** doUndo: with fewer than two snapshots there is nothing to go back to;
      otherwise the top (the current text) is dropped and the new top restored. */
  function Undo(s: seq<string>): (r: Option<Restore>)
    ensures r.None? <==> |s| < 2
    ensures r.Some? ==> r.value.stack + [Top(s)] == s && r.value.stack != []
    ensures r.Some? ==> r.value.draft == Top(r.value.stack)
    ensures r.Some? && WellFormed(s) ==> WellFormed(r.value.stack)
  {
    if |s| < 2 then None
    else
      var rest := s[..|s| - 1];
      Some(Restore(rest, Top(rest)))
  }

  /** A run of pushes, one per element of vs, in order. */
  function PushAll(s: seq<string>, vs: seq<string>): seq<string>
    decreases |vs|
  {
    if vs == [] then s else PushAll(Push(s, vs[0]), vs[1..])
  }

  /** For any sequence of pushes the stack stays within 25 entries with no two
      equal neighbours, and the last value pushed is on top. */
  lemma {:induction false} PushAllKeepsWellFormed(s: seq<string>, vs: seq<string>)
    requires WellFormed(s)
    ensures WellFormed(PushAll(s, vs))
    ensures vs != [] ==> PushAll(s, vs) != [] && Top(PushAll(s, vs)) == vs[|vs| - 1]
    decreases |vs|
  {
    if vs != [] {
      PushAllKeepsWellFormed(Push(s, vs[0]), vs[1..]);
      if |vs| > 1 {
        assert vs[1..][|vs[1..]| - 1] == vs[|vs| - 1];
      }
    }
  }

  /** Pushing the same value twice is the same as pushing it once. */
  lemma PushIdempotent(s: seq<string>, v: string)
    ensures Push(Push(s, v), v) == Push(s, v)
  {
  }

  /** Undo is the inverse of a push that changed the top: it gives back the
      previous top as the draft, and the stack before the push (less the
      snapshot evicted if the push went over the cap). */
  lemma PushThenUndo(s: seq<string>, v: string)
    requires WellFormed(s) && s != [] && Top(s) != v
    ensures Undo(Push(s, v)) == Some(Restore(if |s| < UndoMax then s else s[1..], Top(s)))
  {
    var kept := if |s| < UndoMax then s else s[1..];
    assert Push(s, v) == kept + [v];
    assert (kept + [v])[..|kept|] == kept;
  }

  /** Undo on a single snapshot changes nothing; on [a, b] it restores a. */
  lemma UndoSmallStacks(a: string, b: string)
    ensures Undo([a]) == None
    ensures Undo([a, b]) == Some(Restore([a], a))
  {
    assert [a, b][..1] == [a];
  }

  // ---------- undo after a programmatic edit ----------

  /** The Clear handler and insertLive offer the OLD draft to pushUndo and then
      overwrite the draft. When the last input event already pushed that text
      (it always pushes the text it leaves behind), the push is skipped, and an
      undo right after drops the cleared text and restores the snapshot before it. */
  lemma ClearThenUndoLosesText()
    ensures PushAll([], ["", "a"]) == ["", "a"]
    ensures Push(["", "a"], "a") == ["", "a"]
    ensures Undo(Push(["", "a"], "a")) == Some(Restore([""], ""))
  {
    assert Push([], "") == [""];
    assert Push([""], "a") == ["", "a"];
    assert PushAll([], ["", "a"]) == PushAll([""], ["a"]);
    assert PushAll([""], ["a"]) == PushAll(["", "a"], []);
    assert ["", "a"][..1] == [""];
  }

  /** Snapshots for an edit the page makes itself: the text before it and the
      text after it, so that one undo goes back across the edit. */
  function PushEdit(s: seq<string>, before: string, after: string): (r: seq<string>)
    ensures WellFormed(s) ==> WellFormed(r)
    ensures r != [] && Top(r) == after
  {
    Push(Push(s, before), after)
  }

  /** After an edit that changed the text, one undo restores the text before it,
      whatever the stack held. */
  lemma {:induction false} UndoAfterEditRestores(s: seq<string>, before: string, after: string)
    requires |s| <= UndoMax
    requires before != after
    ensures var u := Undo(PushEdit(s, before, after));
      u.Some? && u.value.draft == before
  {
    var mid := Push(s, before);
    assert Top(mid) == before;
    var kept := if |mid| < UndoMax then mid else mid[1..];
    assert kept != [] && Top(kept) == before;
    var r := Push(mid, after);
    assert r == kept + [after];
    assert r[..|r| - 1] == kept;
  }
}
