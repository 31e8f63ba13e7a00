/** The body of the recognition onresult handler: final transcripts are
    appended to the live buffer, interim transcripts make up a preview that is
    rebuilt from scratch on every event. */
module Transcript {
  import opened Text

  /** One entry of event.results: the first alternative's transcript ("" when
      the engine gave none) and whether the engine will revise it. */
  datatype RecognitionResult = RecognitionResult(transcript: string, isFinal: bool)

  /** The placeholder shown when there is nothing to preview (an em dash). */
  const EmptyPreview := "\U{2014}"

  /** What one result adds to the live buffer: a final transcript, trimmed and
      followed by one space, unless it trims to nothing. */
  function FinalPiece(r: RecognitionResult): string {
    if r.isFinal && Trim(r.transcript) != [] then Trim(r.transcript) + " " else ""
  }

  /** What one result adds to the interim preview: a non-final transcript as it is. */
  function InterimPiece(r: RecognitionResult): string {
    if r.isFinal then "" else r.transcript
  }

  /** The pieces that one function assigns to each result, concatenated in index order. */
  function Gather<X>(rs: seq<X>, piece: X -> string): string {
    if rs == [] then "" else piece(rs[0]) + Gather(rs[1..], piece)
  }

  lemma {:induction false} GatherAppend<X>(a: seq<X>, b: seq<X>, piece: X -> string)
    ensures Gather(a + b, piece) == Gather(a, piece) + Gather(b, piece)
    decreases |a|
  {
    if a == [] {
      assert a + b == b;
    } else {
      GatherAppend(a[1..], b, piece);
      assert (a + b)[1..] == a[1..] + b;
    }
  }

  /** All that the results add to the live buffer, in index order. */
  function FinalText(rs: seq<RecognitionResult>): string {
    Gather(rs, FinalPiece)
  }

  /** The interim text of one event, in index order. */
  function InterimText(rs: seq<RecognitionResult>): string {
    Gather(rs, InterimPiece)
  }

  lemma GatherSnoc<X>(rs: seq<X>, x: X, piece: X -> string)
    ensures Gather(rs + [x], piece) == Gather(rs, piece) + piece(x)
  {
    GatherAppend(rs, [x], piece);
    assert Gather([x], piece) == piece(x) + Gather([], piece);
  }

  /** The results an event hands over for processing: those from resultIndex on. */
  function Pending(results: seq<RecognitionResult>, resultIndex: nat): seq<RecognitionResult> {
    if resultIndex <= |results| then results[resultIndex..] else []
  }

  /** One more result adds its two pieces at the end. */
  lemma AccumulateStep(done: seq<RecognitionResult>, res: RecognitionResult,
                       liveBuffer: string, buffer: string, interimText: string)
    requires buffer == liveBuffer + FinalText(done)
    requires interimText == InterimText(done)
    ensures buffer + FinalPiece(res) == liveBuffer + FinalText(done + [res])
    ensures interimText + InterimPiece(res) == InterimText(done + [res])
  {
    GatherSnoc(done, res, FinalPiece);
    GatherSnoc(done, res, InterimPiece);
    AppendAssoc(liveBuffer, FinalText(done), FinalPiece(res));
  }

  lemma AppendAssoc(a: string, b: string, c: string)
    ensures a + b + c == a + (b + c)
  {
  }

  /** The loop of onresult: walks the results from resultIndex to the end,
      extending the live buffer with final text and collecting interim text
      into a fresh variable. */
  method Accumulate(results: seq<RecognitionResult>, resultIndex: nat, liveBuffer: string)
    returns (buffer: string, interimText: string)
    ensures buffer == liveBuffer + FinalText(Pending(results, resultIndex))
    ensures interimText == InterimText(Pending(results, resultIndex))
  {
    buffer := liveBuffer;
    interimText := "";
    var i := resultIndex;
    while i < |results|
      invariant resultIndex <= i
      invariant i > |results| ==> i == resultIndex && buffer == liveBuffer && interimText == ""
      invariant i <= |results| ==> buffer == liveBuffer + FinalText(results[resultIndex..i])
      invariant i <= |results| ==> interimText == InterimText(results[resultIndex..i])
    {
      var res := results[i];
      AccumulateStep(results[resultIndex..i], res, liveBuffer, buffer, interimText);
      assert results[resultIndex..i + 1] == results[resultIndex..i] + [res];
      if res.isFinal {
        var txt := Trim(res.transcript);
        buffer := buffer + (if txt != [] then txt + " " else "");
      } else {
        interimText := interimText + res.transcript;
      }
      i := i + 1;
    }
    if i <= |results| {
      assert results[resultIndex..i] == Pending(results, resultIndex);
    }
  }

  /** The text the live preview shows: the trimmed buffer plus interim text,
      or the placeholder when that is empty. Never empty, never padded. */
  function Preview(buffer: string, interimText: string): (p: string)
    ensures p != [] && IsTrimmed(p)
    ensures Trim(buffer + interimText) == [] ==> p == EmptyPreview
    ensures Trim(buffer + interimText) != [] ==> p == Trim(buffer + interimText)
  {
    var display := Trim(buffer + interimText);
    if display == [] then EmptyPreview else display
  }

  /** Batching invariance: splitting a run of results across events adds the
      same text to the buffer as handing them over in one event. */
  lemma FinalTextAppend(a: seq<RecognitionResult>, b: seq<RecognitionResult>)
    ensures FinalText(a + b) == FinalText(a) + FinalText(b)
  {
    GatherAppend(a, b, FinalPiece);
  }

  /** The buffer gains nothing exactly when every pending result is interim or
      trims to nothing; otherwise what it gains ends in a single space. */
  lemma {:induction false} FinalTextEmptyIff(rs: seq<RecognitionResult>)
    ensures FinalText(rs) == [] <==>
      forall i :: 0 <= i < |rs| ==> !rs[i].isFinal || Trim(rs[i].transcript) == []
    ensures FinalText(rs) != [] ==> FinalText(rs)[|FinalText(rs)| - 1] == ' '
    decreases |rs|
  {
    if rs != [] {
      FinalTextEmptyIff(rs[1..]);
      assert forall i :: 0 < i < |rs| ==> rs[1..][i - 1] == rs[i];
    }
  }

  /** What the handler adds to the buffer is either nothing or starts with a
      non-space character and ends in exactly one space. */
  lemma {:induction false} FinalTextShape(rs: seq<RecognitionResult>)
    ensures FinalText(rs) != [] ==> !IsSpace(FinalText(rs)[0])
    ensures |FinalText(rs)| >= 2 ==> !IsSpace(FinalText(rs)[|FinalText(rs)| - 2])
    decreases |rs|
  {
    if rs != [] {
      var rest := FinalText(rs[1..]);
      FinalTextShape(rs[1..]);
      FinalTextEmptyIff(rs[1..]);
      var piece := FinalPiece(rs[0]);
      var whole := piece + rest;
      assert whole == FinalText(rs);
      if piece != [] {
        var t := Trim(rs[0].transcript);
        assert piece == t + " ";
        assert whole[0] == t[0];
        if rest == [] {
          assert whole[|whole| - 2] == t[|t| - 1];
        } else {
          assert whole[|whole| - 2] == rest[|rest| - 2];
        }
      }
    }
  }
}
