/** Assembling the recognised text from a speech-recognition `result` event:
    the transcripts of the final results from `resultIndex` onward, in order. */
module Transcript {

  /** One entry of the event's `results` list. Only its first alternative
      (`results[i][0]`) is read, so only that alternative's text is kept. */
  datatype RecognitionResult = RecognitionResult(isFinal: bool, transcript: string)

  /** In-order concatenation of the transcripts of the final results in `rs`;
      interim results contribute nothing. */
  function Finals(rs: seq<RecognitionResult>): string
  {
    if rs == [] then ""
    else
      var last := rs[|rs| - 1];
      Finals(rs[..|rs| - 1]) + (if last.isFinal then last.transcript else "")
  }

  /** The text the `result` handler assembles: the finals of `results` at
      indices `resultIndex` up to the end (nothing when `resultIndex` is past
      the end, where the loop does not run). */
  function Assembled(results: seq<RecognitionResult>, resultIndex: nat): string
  {
    if resultIndex < |results| then Finals(results[resultIndex..]) else ""
  }

  /** `Finals` distributes over concatenation: the finals of two batches of
      results are the finals of the first followed by those of the second. */
  lemma {:induction false} FinalsAppend(a: seq<RecognitionResult>, b: seq<RecognitionResult>)
    ensures Finals(a + b) == Finals(a) + Finals(b)
    decreases |b|
  {
    if b == [] {
      assert a + b == a;
    } else {
      var b' := b[..|b| - 1];
      assert (a + b)[..|a + b| - 1] == a + b';
      FinalsAppend(a, b');
    }
  }

  /** The finals are empty exactly when every final result has an empty
      transcript (in particular when no result is final). */
  lemma {:induction false} FinalsEmptyIff(rs: seq<RecognitionResult>)
    ensures Finals(rs) == "" <==>
      forall i :: 0 <= i < |rs| && rs[i].isFinal ==> rs[i].transcript == ""
    decreases |rs|
  {
    if rs != [] {
      var init := rs[..|rs| - 1];
      FinalsEmptyIff(init);
      assert forall i :: 0 <= i < |init| ==> init[i] == rs[i];
    }
  }

  /** A final result with text at or after `resultIndex` makes the assembled
      text non-empty, and its transcript is contained in it. */
  lemma FinalResultIsAssembled(results: seq<RecognitionResult>, resultIndex: nat, j: nat)
    requires resultIndex <= j < |results| && results[j].isFinal
    ensures exists u, v :: Assembled(results, resultIndex) == u + results[j].transcript + v
  {
    var rs := results[resultIndex..];
    var k := j - resultIndex;
    assert rs == rs[..k] + [rs[k]] + rs[k + 1..];
    FinalsAppend(rs[..k] + [rs[k]], rs[k + 1..]);
    FinalsAppend(rs[..k], [rs[k]]);
    assert [rs[k]][..0] == [];
    var u, v := Finals(rs[..k]), Finals(rs[k + 1..]);
    assert Assembled(results, resultIndex) == u + results[j].transcript + v;
  }

  /** The `result` handler's loop: walks the results from `resultIndex` and
      appends the transcript of each final one. */
  method AssembleTranscript(results: seq<RecognitionResult>, resultIndex: nat)
    returns (finalTranscript: string)
    ensures finalTranscript == Assembled(results, resultIndex)
  {
    finalTranscript := "";
    var i := resultIndex;
    while i < |results|
      invariant resultIndex <= i <= |results| || i == resultIndex
      invariant finalTranscript == if i <= |results| then Finals(results[resultIndex..i]) else ""
    {
      assert results[resultIndex..i + 1][..i - resultIndex] == results[resultIndex..i];
      if results[i].isFinal {
        finalTranscript := finalTranscript + results[i].transcript;
      }
      i := i + 1;
    }
    if resultIndex < |results| {
      assert results[resultIndex..i] == results[resultIndex..];
    }
  }
}
