/**
 * The voice-input field (components/MessageInput.tsx): the text in the
 * field, whether the recognizer is listening, and the calls the component
 * makes on the recognizer and on its `onSendMessage` callback, kept as a
 * log of effects.
 */
module VoiceInput {
  import opened Text

  /** `event.results[i]`, reduced to its `isFinal` flag and the transcript of its first alternative. */
  datatype SpeechResult = SpeechResult(isFinal: bool, transcript: string)

  /** The `onresult` event: the results list and the index of the first changed result. */
  datatype RecognitionEvent = RecognitionEvent(resultIndex: nat, results: seq<SpeechResult>)

  /** The results the handler's loop visits: those from `resultIndex` on (none when it is past the end). */
  function Visited(e: RecognitionEvent): (rs: seq<SpeechResult>)
    ensures |rs| == if e.resultIndex <= |e.results| then |e.results| - e.resultIndex else 0
    ensures forall k | 0 <= k < |rs| :: rs[k] == e.results[e.resultIndex + k]
  {
    if e.resultIndex <= |e.results| then e.results[e.resultIndex..] else []
  }

  /** The transcripts of the results whose `isFinal` is `final`, concatenated in index order. */
  function Pieces(rs: seq<SpeechResult>, final: bool): string
  {
    if rs == [] then ""
    else
      var last := rs[|rs| - 1];
      Pieces(rs[..|rs| - 1], final) + (if last.isFinal == final then last.transcript else "")
  }

  /** What `onresult` writes into the field: the final pieces, then the interim pieces. */
  function Transcript(e: RecognitionEvent): string
  {
    Pieces(Visited(e), true) + Pieces(Visited(e), false)
  }

  /** Every transcript, concatenated in index order, whatever its flag. */
  function Joined(rs: seq<SpeechResult>): string
  {
    if rs == [] then "" else Joined(rs[..|rs| - 1]) + rs[|rs| - 1].transcript
  }

  /** Whether every result of `rs` has the flag `final`. */
  predicate AllFlagged(rs: seq<SpeechResult>, final: bool)
  {
    forall k | 0 <= k < |rs| :: rs[k].isFinal == final
  }

  /** Each group keeps index order across a split of the results. */
  lemma {:induction false} PiecesAppend(a: seq<SpeechResult>, b: seq<SpeechResult>, final: bool)
    ensures Pieces(a + b, final) == Pieces(a, final) + Pieces(b, final)
  {
    if b == [] {
      assert a + b == a;
    } else {
      var b' := b[..|b| - 1];
      assert (a + b)[..|a + b| - 1] == a + b';
      assert (a + b)[|a + b| - 1] == b[|b| - 1];
      PiecesAppend(a, b', final);
    }
  }

  /** A group made only of results with the flag is all of their transcripts; the other group is empty. */
  lemma {:induction false} PiecesOfFlagged(rs: seq<SpeechResult>, final: bool)
    requires AllFlagged(rs, final)
    ensures Pieces(rs, final) == Joined(rs)
    ensures Pieces(rs, !final) == ""
  {
    if rs != [] {
      PiecesOfFlagged(rs[..|rs| - 1], final);
    }
  }

  /**
   * When the visited results are finals followed by interims, the field
   * receives every transcript exactly in index order.
   */
  lemma TranscriptOfOrderedResults(e: RecognitionEvent, finals: seq<SpeechResult>, interims: seq<SpeechResult>)
    requires Visited(e) == finals + interims
    requires AllFlagged(finals, true) && AllFlagged(interims, false)
    ensures Transcript(e) == Joined(finals + interims)
  {
    PiecesAppend(finals, interims, true);
    PiecesAppend(finals, interims, false);
    PiecesOfFlagged(finals, true);
    PiecesOfFlagged(interims, false);
    JoinedAppend(finals, interims);
  }

  lemma {:induction false} JoinedAppend(a: seq<SpeechResult>, b: seq<SpeechResult>)
    ensures Joined(a + b) == Joined(a) + Joined(b)
  {
    if b == [] {
      assert a + b == a;
    } else {
      var b' := b[..|b| - 1];
      assert (a + b)[..|a + b| - 1] == a + b';
      JoinedAppend(a, b');
    }
  }

  /**
   * Whatever the order of the flags, the field receives every visited
   * transcript's characters exactly once: the transcript is a rearrangement
   * of their concatenation.
   */
  lemma {:induction false} TranscriptRearrangesPieces(rs: seq<SpeechResult>)
    ensures multiset(Pieces(rs, true) + Pieces(rs, false)) == multiset(Joined(rs))
  {
    if rs != [] {
      TranscriptRearrangesPieces(rs[..|rs| - 1]);
    }
  }

  /** An interim result before a final one is moved after it: "b" is final, "a" is not. */
  lemma InterimMovesAfterFinal()
    ensures Transcript(RecognitionEvent(0, [SpeechResult(false, "a"), SpeechResult(true, "b")])) == "ba"
  {
    var e := RecognitionEvent(0, [SpeechResult(false, "a"), SpeechResult(true, "b")]);
    var rs := Visited(e);
    assert rs == e.results;
    assert rs[..1] == [SpeechResult(false, "a")];
    assert rs[..1][..0] == [];
    assert Pieces(rs[..1], true) == "";
    assert Pieces(rs[..1], false) == "a";
  }

  /** Results before `resultIndex` do not reach the field. */
  lemma TranscriptIgnoresEarlierResults(e: RecognitionEvent, f: RecognitionEvent)
    requires e.resultIndex == f.resultIndex <= |e.results| == |f.results|
    requires e.results[e.resultIndex..] == f.results[f.resultIndex..]
    ensures Transcript(e) == Transcript(f)
  {
  }

  /**
   * The loop of `onresult`: walks the results from `resultIndex`, appending
   * each transcript to the final or the interim text by its flag.
   */
  method AssembleTranscript(e: RecognitionEvent) returns (text: string)
    ensures text == Transcript(e)
  {
    var finalTranscript := "";
    var interimTranscript := "";
    var i := e.resultIndex;
    while i < |e.results|
      invariant e.resultIndex <= |e.results| ==> e.resultIndex <= i <= |e.results|
      invariant e.resultIndex > |e.results| ==> i == e.resultIndex
      invariant i <= |e.results| ==>
        && finalTranscript == Pieces(e.results[e.resultIndex..i], true)
        && interimTranscript == Pieces(e.results[e.resultIndex..i], false)
      invariant i > |e.results| ==> finalTranscript == "" && interimTranscript == ""
    {
      assert e.results[e.resultIndex..i + 1][..i - e.resultIndex] == e.results[e.resultIndex..i];
      if e.results[i].isFinal {
        finalTranscript := finalTranscript + e.results[i].transcript;
      } else {
        interimTranscript := interimTranscript + e.results[i].transcript;
      }
      i := i + 1;
    }
    if e.resultIndex <= |e.results| {
      assert e.results[e.resultIndex..i] == Visited(e);
    }
    text := finalTranscript + interimTranscript;
  }

  /** A call the component makes outside its own state. */
  datatype Effect =
    | StartRecognition      // `recognitionRef.current.start()`
    | StopRecognition       // `recognitionRef.current.stop()`
    | SendMessage(text: string)   // `onSendMessage(text)`

  /** Whether submitting `input` while `isLoading` sends it. */
  predicate SubmitSends(input: string, isLoading: bool)
    ensures SubmitSends(input, isLoading) <==> Trim(input) != [] && !isLoading
  {
    BlankIffTrimmedEmpty(input);
    !IsBlank(input) && !isLoading
  }

  class MessageInput {
    /** Whether the browser offers a speech recognizer; a recognizer exists exactly then. */
    const supported: bool
    var input: string
    var isListening: bool
    var effects: seq<Effect>

    /** Only a supported browser can be listening. */
    ghost predicate Valid()
      reads this
    {
      isListening ==> supported
    }

    constructor (supported: bool)
      ensures Valid()
      ensures this.supported == supported
      ensures input == "" && !isListening && effects == []
    {
      this.supported := supported;
      input := "";
      isListening := false;
      effects := [];
    }

    /** `recognition.onresult`: the field is replaced, never appended to. */
    method OnResult(e: RecognitionEvent)
      requires Valid()
      modifies this`input
      ensures Valid()
      ensures input == Transcript(e)
    {
      input := AssembleTranscript(e);
    }

    /** `recognition.onend`. */
    method OnEnd()
      requires Valid()
      modifies this`isListening
      ensures Valid() && !isListening
    {
      isListening := false;
    }

    /** `recognition.onerror`: the error is only logged. */
    method OnError()
      requires Valid()
      modifies this`isListening
      ensures Valid() && !isListening
    {
      isListening := false;
    }

    /** The field's `onChange`: the typed value replaces the text. */
    method OnChange(value: string)
      requires Valid()
      modifies this`input
      ensures Valid()
      ensures input == value
    {
      input := value;
    }

    /**
     * `handleSubmit`: listening stops first; then non-blank text is sent
     * and the field cleared, unless a reply is loading.
     */
    method HandleSubmit(isLoading: bool)
      requires Valid()
      modifies this`input, this`isListening, this`effects
      ensures Valid() && !isListening
      ensures effects == old(effects)
        + (if old(isListening) then [StopRecognition] else [])
        + (if SubmitSends(old(input), isLoading) then [SendMessage(old(input))] else [])
      ensures input == if SubmitSends(old(input), isLoading) then "" else old(input)
    {
      if isListening {
        effects := effects + [StopRecognition];
        isListening := false;
      }
      if !IsBlank(input) && !isLoading {
        effects := effects + [SendMessage(input)];
        input := "";
      }
    }

    /**
     * `toggleListen`: unsupported, nothing happens; listening, only a stop
     * is requested (the flag falls with `onend`); otherwise the field is
     * cleared and listening starts.
     */
    method ToggleListen()
      requires Valid()
      modifies this`input, this`isListening, this`effects
      ensures Valid()
      ensures !supported ==>
        input == old(input) && isListening == old(isListening) && effects == old(effects)
      ensures supported && old(isListening) ==>
        input == old(input) && isListening && effects == old(effects) + [StopRecognition]
      ensures supported && !old(isListening) ==>
        input == "" && isListening && effects == old(effects) + [StartRecognition]
    {
      if !supported {
        return;
      }
      if isListening {
        effects := effects + [StopRecognition];
      } else {
        input := "";
        effects := effects + [StartRecognition];
        isListening := true;
      }
    }
  }
}
