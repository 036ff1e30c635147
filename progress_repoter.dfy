/**
 * The progress reporter of serviceCreator/progressRepoter.go (an earlier
 * revision of the same type): a step advances the glyph first, prints the
 * message line when the message changed, then prints the NEW glyph.
 */
module ProgressRepoter {
  import opened Glyphs

  class ProgressReporter {
    var state: string
    var loadingMessage: string
    /** What fmt.Printf has written to standard output, one string per call. */
    var printed: seq<string>

    /** NewProgressReporter. */
    constructor ()
      ensures state == "|" && loadingMessage == "" && printed == []
    {
      state := "|";
      loadingMessage := "";
      printed := [];
    }

    /** Step: the advance, the message line when it changed, then the glyph after advancing. */
    method Step(loadingMessage: string)
      modifies this
      ensures state == NextGlyph(old(state))
      ensures this.loadingMessage == loadingMessage
      ensures printed == old(printed) + StepLines(loadingMessage != old(this.loadingMessage), loadingMessage, state)
    {
      var nextState := NextGlyph(state);
      state := nextState;
      if loadingMessage != this.loadingMessage {
        this.loadingMessage := loadingMessage;
        printed := printed + [this.loadingMessage + "\n"];
      }
      printed := printed + [state + "\r"];
    }
  }
}
