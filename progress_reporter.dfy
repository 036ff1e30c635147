/**
 * The progress reporter of serviceCreator/progressReporter.go: a spinner
 * whose output goes through an injected log function. A step logs the
 * message line when the message changed, then the CURRENT glyph, and only
 * then advances the glyph.
 */
module ProgressReporter {
  import opened Glyphs

  /** A reporter's fields and what it has logged so far. */
  datatype ReporterState = ReporterState(state: string, loadingMessage: string, logged: seq<string>)

  /** One Step with `message` on a reporter in `v`. */
  function AfterStep(v: ReporterState, message: string): (w: ReporterState)
    ensures w.state == NextGlyph(v.state) && w.loadingMessage == message
    ensures v.logged <= w.logged
    ensures |w.logged| == |v.logged| + (if message != v.loadingMessage then 2 else 1)
    ensures w.logged[|w.logged| - 1] == v.state + "\r"
    ensures message != v.loadingMessage ==> w.logged[|v.logged|] == message + "\n"
  {
    ReporterState(NextGlyph(v.state), message, v.logged + StepLines(message != v.loadingMessage, message, v.state))
  }

  /** One Step per message, in order. */
  function Steps(v: ReporterState, messages: seq<string>): ReporterState
    decreases |messages|
  {
    if messages == [] then v else Steps(AfterStep(v, messages[0]), messages[1..])
  }

  class ProgressReporter {
    var state: string
    var loadingMessage: string
    /** Every string handed to the log function, in order. */
    var logged: seq<string>

    function State(): ReporterState
      reads this
    {
      ReporterState(state, loadingMessage, logged)
    }

    /** NewProgressReporterWithLoggerOut (and NewProgressReporter, which passes fmt.Printf). */
    constructor ()
      ensures State() == ReporterState("|", "", [])
    {
      state := "|";
      loadingMessage := "";
      logged := [];
    }

    /** Step: the message line when it changed, the glyph before advancing, then the advance. */
    method Step(loadingMessage: string)
      modifies this
      ensures State() == AfterStep(old(State()), loadingMessage)
    {
      if loadingMessage != this.loadingMessage {
        this.loadingMessage := loadingMessage;
        logged := logged + [this.loadingMessage + "\n"];
      }
      logged := logged + [state + "\r"];
      var nextState := NextGlyph(state);
      state := nextState;
    }
  }

  lemma {:induction false} StepsAppend(v: ReporterState, a: seq<string>, b: seq<string>)
    ensures Steps(v, a + b) == Steps(Steps(v, a), b)
    decreases |a|
  {
    if a != [] {
      assert (a + b)[0] == a[0] && (a + b)[1..] == a[1..] + b;
      StepsAppend(AfterStep(v, a[0]), a[1..], b);
    } else {
      assert a + b == b;
    }
  }

  /** The lines a reporter in `glyph` showing `previous` logs for `messages`, independently of the record. */
  function Trace(glyph: string, previous: string, messages: seq<string>): seq<string>
    decreases |messages|
  {
    if messages == [] then []
    else
      StepLines(messages[0] != previous, messages[0], glyph)
        + Trace(NextGlyph(glyph), messages[0], messages[1..])
  }

  /** The number of times a message differs from the one before it. */
  function Changes(previous: string, messages: seq<string>): nat
    decreases |messages|
  {
    if messages == [] then 0
    else (if messages[0] != previous then 1 else 0) + Changes(messages[0], messages[1..])
  }

  /** After steps over `messages` the glyph has advanced once per message and the last message is stored. */
  lemma {:induction false} StepsAdvance(v: ReporterState, messages: seq<string>)
    ensures Steps(v, messages).state == Advance(v.state, |messages|)
    ensures Steps(v, messages).loadingMessage == if messages == [] then v.loadingMessage else messages[|messages| - 1]
    decreases |messages|
  {
    if messages != [] {
      StepsAdvance(AfterStep(v, messages[0]), messages[1..]);
    }
  }

  /** After steps over `messages` the log has grown by Trace. */
  lemma {:induction false} StepsLog(v: ReporterState, messages: seq<string>)
    ensures Steps(v, messages).logged == v.logged + Trace(v.state, v.loadingMessage, messages)
    decreases |messages|
  {
    if messages != [] {
      var w := AfterStep(v, messages[0]);
      var lines := StepLines(messages[0] != v.loadingMessage, messages[0], v.state);
      StepsLog(w, messages[1..]);
      assert w.logged == v.logged + lines;
      assert Trace(v.state, v.loadingMessage, messages) == lines + Trace(w.state, w.loadingMessage, messages[1..]);
      assert v.logged + lines + Trace(w.state, w.loadingMessage, messages[1..])
          == v.logged + (lines + Trace(w.state, w.loadingMessage, messages[1..]));
    } else {
      assert v.logged + [] == v.logged;
    }
  }

  /** Steps over `messages` log one glyph line per step and one message line per change of message. */
  lemma {:induction false} TraceLength(glyph: string, previous: string, messages: seq<string>)
    ensures |Trace(glyph, previous, messages)| == |messages| + Changes(previous, messages)
    decreases |messages|
  {
    if messages != [] {
      TraceLength(NextGlyph(glyph), messages[0], messages[1..]);
    }
  }

  /** Steps with a message that is already shown log only glyphs, the `k`-th being the glyph `k` steps on. */
  lemma {:induction false} SameMessageLogsGlyphsOnly(glyph: string, message: string, messages: seq<string>, k: nat)
    requires forall i :: 0 <= i < |messages| ==> messages[i] == message
    requires k < |messages|
    ensures |Trace(glyph, message, messages)| == |messages|
    ensures Trace(glyph, message, messages)[k] == Advance(glyph, k) + "\r"
    decreases |messages|
  {
    if k > 0 {
      SameMessageLogsGlyphsOnly(NextGlyph(glyph), message, messages[1..], k - 1);
    } else if |messages| > 1 {
      SameMessageLogsGlyphsOnly(NextGlyph(glyph), message, messages[1..], 0);
    }
  }
}
