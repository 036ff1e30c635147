/**
 * What the three revisions of the progress spinner share: the four-glyph
 * cycle of their `switch` on the current state, and the lines one step
 * emits (the message line, when it is shown, then the glyph line).
 */
module Glyphs {

  /** The glyphs in the order the spinner shows them. */
  const Cycle: seq<string> := ["|", "/", "-", "\\"]

  /**
   * The `switch ps.state` of every revision: each glyph of the cycle is
   * followed by the next one, and any other state (the default arm) by "|".
   */
  function NextGlyph(g: string): (r: string)
    ensures r in Cycle
    ensures g !in Cycle ==> r == "|"
  {
    if g == "|" then "/"
    else if g == "/" then "-"
    else if g == "-" then "\\"
    else "|"
  }

  /** Within the cycle each glyph is followed by the next one, and the last by the first. */
  lemma NextInCycle(k: nat)
    requires k < |Cycle|
    ensures NextGlyph(Cycle[k]) == Cycle[(k + 1) % |Cycle|]
  {
  }

  /** The glyph after `n` steps from `g`. */
  function Advance(g: string, n: nat): string
    decreases n
  {
    if n == 0 then g else Advance(NextGlyph(g), n - 1)
  }

  /** From the `k`-th glyph of the cycle, `n` steps reach the glyph `k + n` modulo four. */
  lemma {:induction false} AdvanceInCycle(k: nat, n: nat)
    requires k < |Cycle|
    ensures Advance(Cycle[k], n) == Cycle[(k + n) % |Cycle|]
    decreases n
  {
    if n > 0 {
      NextInCycle(k);
      if k < 3 {
        AdvanceInCycle(k + 1, n - 1);
      } else {
        AdvanceInCycle(0, n - 1);
        assert (n - 1) % 4 == (3 + n) % 4 by {
          assert 3 + n == (n - 1) + 4;
        }
      }
    }
  }

  /** Four steps from a glyph of the cycle come back to it. */
  lemma FourStepsReturn(g: string)
    requires g in Cycle
    ensures Advance(g, 4) == g
  {
    var k :| 0 <= k < |Cycle| && Cycle[k] == g;
    AdvanceInCycle(k, 4);
  }

  /** A state outside the cycle restarts it: after `n + 1` steps the spinner shows the glyph `n` modulo four. */
  lemma OffCycleRestarts(g: string, n: nat)
    requires g !in Cycle
    ensures Advance(g, n + 1) == Cycle[n % |Cycle|]
  {
    AdvanceInCycle(0, n);
  }

  /**
   * The lines one step writes: `message + "\n"` when the message is shown,
   * then `glyph + "\r"`, which returns the cursor so the next glyph
   * overwrites this one.
   */
  function StepLines(showMessage: bool, message: string, glyph: string): (r: seq<string>)
    ensures |r| == if showMessage then 2 else 1
    ensures r[|r| - 1] == glyph + "\r"
    ensures showMessage ==> r[0] == message + "\n"
  {
    (if showMessage then [message + "\n"] else []) + [glyph + "\r"]
  }
}
