/**
 * The spinner of the single-file revision (progress_spinner.go). `Next`
 * advances the glyph, records whether the message changed in
 * `updateLoadingMessage`, and calls `write`, which emits the message line
 * when that flag is set and then the new glyph.
 */
module ProgressSpinner {
  import opened Glyphs

  /** A spinner's fields and what it has written so far. */
  datatype SpinnerState = SpinnerState(state: string, loadingMessage: string, updateLoadingMessage: bool,
                                       written: seq<string>)

  /** NewProgressSpinner. */
  const Initial := SpinnerState("|", "", true, [])

  /** One Next with `message`: the new glyph, and the message line only when the message changed. */
  function AfterNext(v: SpinnerState, message: string): (w: SpinnerState)
    ensures w.state == NextGlyph(v.state) && w.loadingMessage == message
    ensures w.updateLoadingMessage <==> message != v.loadingMessage
    ensures v.written <= w.written
    ensures |w.written| == |v.written| + (if message != v.loadingMessage then 2 else 1)
    ensures w.written[|w.written| - 1] == NextGlyph(v.state) + "\r"
  {
    var changed := message != v.loadingMessage;
    SpinnerState(NextGlyph(v.state), message, changed,
                 v.written + StepLines(changed, message, NextGlyph(v.state)))
  }

  /** One Next per message, in order. */
  function Steps(v: SpinnerState, messages: seq<string>): SpinnerState
    decreases |messages|
  {
    if messages == [] then v else Steps(AfterNext(v, messages[0]), messages[1..])
  }

  /**
   * The first Next of a new spinner writes the message line only when the
   * message is not the empty one the spinner starts with, then "/".
   */
  lemma FirstNext(message: string)
    ensures AfterNext(Initial, message).written ==
      (if message != "" then [message + "\n", "/\r"] else ["/\r"])
  {
    var lines := StepLines(message != "", message, "/");
    assert [] + lines == lines;
    assert "/" + "\r" == "/\r";
  }

  /**
   * A new spinner driven by `messages` ends on the glyph `|messages|` steps
   * after "|", and its output begins with what its first Next wrote.
   */
  lemma {:induction false} StepsFromNew(messages: seq<string>)
    requires messages != []
    ensures Steps(Initial, messages).state == Advance("|", |messages|)
    ensures AfterNext(Initial, messages[0]).written <= Steps(Initial, messages).written
  {
    StepsKeep(AfterNext(Initial, messages[0]), messages[1..]);
  }

  /** Steps advances the glyph once per message and only appends to what was written. */
  lemma {:induction false} StepsKeep(v: SpinnerState, messages: seq<string>)
    ensures Steps(v, messages).state == Advance(v.state, |messages|)
    ensures v.written <= Steps(v, messages).written
    decreases |messages|
  {
    if messages != [] {
      StepsKeep(AfterNext(v, messages[0]), messages[1..]);
    }
  }

  class ProgressSpinner {
    var state: string
    var loadingMessage: string
    var updateLoadingMessage: bool
    /** What has been written to the spinner's writer, one string per fmt.Fprint. */
    var written: seq<string>

    /** NewProgressSpinner(writer): the writer starts empty. */
    function State(): SpinnerState
      reads this
    {
      SpinnerState(state, loadingMessage, updateLoadingMessage, written)
    }

    constructor ()
      ensures State() == Initial
    {
      state := "|";
      loadingMessage := "";
      updateLoadingMessage := true;
      written := [];
    }

    /** Next: the advance, the change flag, the stored message, then write. */
    method Next(loadingMessage: string)
      modifies this
      ensures State() == AfterNext(old(State()), loadingMessage)
    {
      var nextState := NextGlyph(state);
      state := nextState;
      if loadingMessage != this.loadingMessage {
        this.loadingMessage := loadingMessage;
        updateLoadingMessage := true;
      } else {
        updateLoadingMessage := false;
      }
      Write();
    }

    /** write: the message line when the flag is set, then always the glyph line. */
    method Write()
      modifies this`written
      ensures written == old(written) + StepLines(updateLoadingMessage, loadingMessage, state)
    {
      if updateLoadingMessage {
        written := written + [loadingMessage + "\n"];
      }
      written := written + [state + "\r"];
    }
  }
}
