/** The page's mutable state and the handlers that change it: the draft in
    the vision box, the live buffer and preview of dictated text, and the undo
    stack over the draft. */
module Editor {
  import opened Text
  import opened History
  import opened Transcript

  /** The preview text set when a dictation session starts. */
  const ListeningPreview := "Listening\U{2026}"

  /** Preview values that insertLive refuses to insert. */
  predicate IsPlaceholder(t: string) {
    t == [] || t == EmptyPreview || t == ListeningPreview
  }

  /** The draft after inserting the live text t: the old draft trimmed, a blank
      line, then t; just t when the draft was empty. */
  function Inserted(draft: string, t: string): (r: string)
    ensures |r| >= |t| && r[|r| - |t|..] == t
    ensures draft != [] ==> |r| == |Trim(draft)| + 2 + |t| && r[..|Trim(draft)| + 2] == Trim(draft) + "\n\n"
    ensures draft == [] ==> r == t
  {
    (if draft != [] then Trim(draft) + "\n\n" else "") + t
  }

  /** Inserting non-empty trimmed text always changes the draft. */
  lemma InsertedDiffers(draft: string, t: string)
    requires t != [] && IsTrimmed(t)
    ensures Inserted(draft, t) != draft
  {
    var r := Inserted(draft, t);
    if draft != [] {
      var trimmed := Trim(draft);
      if trimmed != [] {
        assert r == trimmed + "\n\n" + t;
        assert r[0] == trimmed[0] && r[|r| - 1] == t[|t| - 1];
        assert Trim(r) == r;
        assert |Trim(r)| != |Trim(draft)|;
      } else {
        assert r == "\n\n" + t;
        assert r[2] == t[0];
        assert !AllDelims(Whitespace, r);
      }
    }
  }

  /** With snapshots of both the old and the new draft (History.PushEdit), one
      undo after insertLive gives back the draft as it was before the insertion. */
  lemma InsertThenUndoRestores(s: seq<string>, draft: string, t: string)
    requires |s| <= UndoMax
    requires t != [] && IsTrimmed(t)
    ensures var u := History.Undo(PushEdit(s, draft, Inserted(draft, t)));
      u.Some? && u.value.draft == draft
  {
    InsertedDiffers(draft, t);
    UndoAfterEditRestores(s, draft, Inserted(draft, t));
  }

  class Editor {
    /** The vision box (inputText.value). */
    var draft: string
    /** Final dictated text not yet inserted into the draft. */
    var liveBuffer: string
    /** The live preview (liveText.textContent). */
    var liveText: string
    /** Snapshots of the draft, oldest first. */
    var undoStack: seq<string>

    ghost predicate Valid()
      reads this
    {
      WellFormed(undoStack)
    }

    /** Start-up (restore): the draft comes from storage and is the first snapshot. */
    constructor (savedDraft: string, initialPreview: string)
      ensures Valid()
      ensures draft == savedDraft && undoStack == [savedDraft]
      ensures liveBuffer == "" && liveText == initialPreview
    {
      draft := savedDraft;
      liveBuffer := "";
      liveText := initialPreview;
      undoStack := [savedDraft];
    }

    method PushUndo(value: string)
      requires Valid()
      modifies this`undoStack
      ensures Valid()
      ensures undoStack == Push(old(undoStack), value)
    {
      if |undoStack| > 0 && undoStack[|undoStack| - 1] == value {
        return;
      }
      undoStack := undoStack + [value];
      if |undoStack| > UndoMax {
        undoStack := undoStack[1..];
      }
    }

    /** doUndo: reports whether there was anything to go back to. */
    method DoUndo() returns (undone: bool)
      requires Valid()
      modifies this`undoStack, this`draft
      ensures Valid()
      ensures undone <==> |old(undoStack)| >= 2
      ensures var u := History.Undo(old(undoStack));
        if u.Some? then undoStack == u.value.stack && draft == u.value.draft
        else undoStack == old(undoStack) && draft == old(draft)
    {
      if |undoStack| < 2 {
        return false;
      }
      undoStack := undoStack[..|undoStack| - 1];
      draft := undoStack[|undoStack| - 1];
      undone := true;
    }

    /** The input handler: the user's edit is in place, and the NEW text is pushed. */
    method Input(text: string)
      requires Valid()
      modifies this`draft, this`undoStack
      ensures Valid()
      ensures draft == text && undoStack == Push(old(undoStack), text)
    {
      draft := text;
      PushUndo(draft);
    }

    /** Part of startMic: a new session empties the buffer and shows "Listening…". */
    method StartListening()
      modifies this`liveBuffer, this`liveText
      ensures liveBuffer == "" && liveText == ListeningPreview
    {
      liveBuffer := "";
      liveText := ListeningPreview;
    }

    /** rec.onresult: the buffer only grows, by the final text of the pending
        results; the preview is rebuilt from the buffer and this event's
        interim text alone. */
    method OnResult(results: seq<RecognitionResult>, resultIndex: nat)
      modifies this`liveBuffer, this`liveText
      ensures liveBuffer == old(liveBuffer) + FinalText(Pending(results, resultIndex))
      ensures liveText == Preview(liveBuffer, InterimText(Pending(results, resultIndex)))
    {
      var buffer, interimText := Accumulate(results, resultIndex, liveBuffer);
      liveBuffer := buffer;
      liveText := Preview(buffer, interimText);
    }

    /** insertLive: a placeholder preview changes nothing; otherwise the OLD draft
        is offered to the undo stack, the preview text is appended to the draft,
        and the buffer and preview are reset. */
    method InsertLive() returns (inserted: bool)
      requires Valid()
      modifies this
      ensures Valid()
      ensures inserted <==> !IsPlaceholder(Trim(old(liveText)))
      ensures !inserted ==> (draft == old(draft) && undoStack == old(undoStack)
                             && liveBuffer == old(liveBuffer) && liveText == old(liveText))
      ensures inserted ==> (undoStack == Push(old(undoStack), old(draft))
                            && draft == Inserted(old(draft), Trim(old(liveText)))
                            && liveBuffer == "" && liveText == EmptyPreview)
    {
      var t := Trim(liveText);
      if t == [] || t == EmptyPreview || t == ListeningPreview {
        return false;
      }
      PushUndo(draft);
      draft := Inserted(draft, t);
      liveText := EmptyPreview;
      liveBuffer := "";
      inserted := true;
    }

    /** The Clear button: the OLD draft is offered to the undo stack, then the
        draft, buffer and preview are emptied. */
    method Clear()
      requires Valid()
      modifies this
      ensures Valid()
      ensures undoStack == Push(old(undoStack), old(draft))
      ensures draft == "" && liveBuffer == "" && liveText == EmptyPreview
    {
      PushUndo(draft);
      draft := "";
      liveText := EmptyPreview;
      liveBuffer := "";
    }
  }
}
