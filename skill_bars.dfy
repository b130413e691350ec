/**
 * Skill bars: before the page is shown each bar's inline width is recorded
 * as its target and reset to "0%"; when the enclosing block scrolls into
 * view, each bar is scheduled to grow to its target, staggered by index.
 */
module SkillBars {
  import opened Wrappers

  /**
   * What a `.skill-progress` element offers the fallback chain. Dataset
   * entries and attributes can be absent (None); style properties read as
   * the empty string when unset.
   */
  datatype Bar = Bar(
    targetWidth: Option<string>,  // data-target-width
    dataWidth: Option<string>,    // data-width
    dataValue: Option<string>,    // data-value
    cssTarget: string,            // inline --target
    progress: Option<string>,     // data-progress
    pct: Option<string>,          // data-pct
    w: Option<string>,            // data-w
    width: string                 // inline width
  )

  /** JavaScript truthiness of a string that may be absent. */
  predicate Truthy(o: Option<string>)
  {
    o.Some? && o.value != ""
  }

  /** The candidates for the target width, in the order the `||` chain tries them. */
  function Candidates(b: Bar): (cs: seq<Option<string>>)
    ensures |cs| == 8 && cs[0] == b.targetWidth && cs[7] == Some(b.width)
  {
    [b.targetWidth, b.dataWidth, b.dataValue, Some(b.cssTarget), b.progress, b.pct, b.w, Some(b.width)]
  }

  /** The position of the first truthy candidate, `|cs|` when there is none. */
  function FirstTruthy(cs: seq<Option<string>>): (k: nat)
    ensures k <= |cs|
    ensures forall j :: 0 <= j < k ==> !Truthy(cs[j])
    ensures k < |cs| ==> Truthy(cs[k])
  {
    if |cs| == 0 then 0
    else if Truthy(cs[0]) then 0
    else
      var k := FirstTruthy(cs[1..]);
      assert forall j :: 1 <= j < |cs| ==> cs[j] == cs[1..][j - 1];
      1 + k
  }

  /** The fallback when no candidate is set. */
  const NoWidth: string := "0%"

  /** The width a bar grows to: the first non-empty candidate, else "0%". */
  function TargetWidth(b: Bar): (t: string)
    ensures t != ""
    ensures var cs := Candidates(b); var k := FirstTruthy(cs);
      (k == |cs| ==> t == NoWidth) && (k < |cs| ==> Some(t) == cs[k])
  {
    var cs := Candidates(b);
    var k := FirstTruthy(cs);
    if k < |cs| then cs[k].value else NoWidth
  }

  /** A bar after `prepSkillBars`: a non-empty inline width is recorded, and the width becomes "0%". */
  function Prepared(b: Bar): (p: Bar)
    ensures p.width == NoWidth
    ensures b.width != "" ==> p.targetWidth == Some(b.width)
    ensures b.width == "" ==> p.targetWidth == b.targetWidth
    ensures p.(targetWidth := b.targetWidth, width := b.width) == b
  {
    b.(targetWidth := if b.width != "" then Some(b.width) else b.targetWidth, width := NoWidth)
  }

  /**
   * Preparation keeps the author's width: a bar with an inline width grows
   * back to exactly that width, and a bar without one grows to the same
   * target it would have had without preparation.
   */
  lemma PreparedTarget(b: Bar)
    ensures b.width != "" ==> TargetWidth(Prepared(b)) == b.width
    ensures b.width == "" ==> TargetWidth(Prepared(b)) == TargetWidth(b)
  {
    var cs, ps := Candidates(b), Candidates(Prepared(b));
    if b.width == "" {
      assert forall j :: 0 <= j < 7 ==> ps[j] == cs[j];
    } else {
      assert FirstTruthy(ps) == 0;
    }
  }

  /** Milliseconds between the starts of two consecutive bars' animations. */
  const StaggerMs: nat := 120

  /** A scheduled width change: bar `bar` gets `width` after `delayMs`. */
  datatype Timeout = Timeout(bar: nat, delayMs: nat, width: string)

  /** The timeouts a reveal schedules for the bars of the revealed block, in document order. */
  method RevealSchedule(bars: seq<Bar>) returns (plan: seq<Timeout>)
    ensures |plan| == |bars|
    ensures forall k :: 0 <= k < |bars| ==> plan[k] == Timeout(k, k * StaggerMs, TargetWidth(bars[k]))
  {
    plan := [];
    var idx := 0;
    while idx < |bars|
      invariant 0 <= idx <= |bars| && |plan| == idx
      invariant forall k :: 0 <= k < idx ==> plan[k] == Timeout(k, k * StaggerMs, TargetWidth(bars[k]))
    {
      plan := plan + [Timeout(idx, idx * StaggerMs, TargetWidth(bars[idx]))];
      idx := idx + 1;
    }
  }

  /** `prepSkillBars`: prepare every bar on the page, in place. */
  method PrepSkillBars(bars: array<Bar>)
    modifies bars
    ensures forall k :: 0 <= k < bars.Length ==> bars[k] == Prepared(old(bars[k]))
  {
    for k := 0 to bars.Length
      invariant forall j :: 0 <= j < k ==> bars[j] == Prepared(old(bars[j]))
      invariant forall j :: k <= j < bars.Length ==> bars[j] == old(bars[j])
    {
      var inline := bars[k].width;
      if inline != "" {
        bars[k] := bars[k].(targetWidth := Some(inline));
      }
      bars[k] := bars[k].(width := NoWidth);
    }
  }

  /** A timeout firing: `bar.style.width = target`. */
  method Fire(bars: array<Bar>, t: Timeout)
    requires t.bar < bars.Length
    modifies bars
    ensures bars[..] == old(bars[..])[t.bar := old(bars[t.bar]).(width := t.width)]
  {
    bars[t.bar] := bars[t.bar].(width := t.width);
  }

  /** A block observed for the scroll reveal, with the skill bars inside it. */
  class RevealBlock {
    /** The `show` class. */
    var shown: bool
    const bars: array<Bar>

    constructor (shown0: bool, bars: array<Bar>)
      ensures shown == shown0 && this.bars == bars
    {
      shown := shown0;
      this.bars := bars;
    }

    /**
     * One intersection entry: a block that is not intersecting is left
     * alone; one that is gets `show` (again, harmlessly) and schedules its bars.
     */
    method OnIntersection(isIntersecting: bool) returns (plan: seq<Timeout>)
      modifies this`shown
      ensures shown == (old(shown) || isIntersecting)
      ensures !isIntersecting ==> plan == []
      ensures isIntersecting ==> |plan| == bars.Length
      ensures isIntersecting ==>
        forall k :: 0 <= k < bars.Length ==> plan[k] == Timeout(k, k * StaggerMs, TargetWidth(bars[k]))
    {
      if !isIntersecting {
        return [];
      }
      shown := true;
      plan := RevealSchedule(bars[..]);
    }
  }
}
