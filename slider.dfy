/**
 * The project slider: a cursor over the `.slider-item` elements with
 * wrap-around navigation from buttons, arrow keys, swipes and an autoplay
 * interval, and the active marker, accessible label and caption it keeps
 * in step with the cursor.
 */
module Slider {
  import opened Wrappers
  import Dom

  /**
   * A JavaScript number as far as the slider uses one: an integer, or NaN,
   * which `x % 0` produces when the slider has no slides.
   */
  datatype JsNum = Num(n: int) | NaN

  function Add(x: JsNum, d: int): JsNum
  {
    if x.NaN? then NaN else Num(x.n + d)
  }

  /** JavaScript's `a % m` for a positive `m`: the remainder takes the sign of the dividend. */
  function JsRem(a: int, m: int): (r: int)
    requires m > 0
    ensures a >= 0 ==> r == a % m
    ensures a < 0 ==> -m < r <= 0
    ensures a < 0 ==> r == (if a % m == 0 then 0 else a % m - m)
  {
    if a >= 0 then a % m
    else
      NegatedRemainder(a, m);
      -((-a) % m)
  }

  /** Truncation and the Euclidean remainder differ by `m` on a negative dividend that `m` does not divide. */
  lemma NegatedRemainder(a: int, m: int)
    requires m > 0 && a < 0
    ensures -((-a) % m) == (if a % m == 0 then 0 else a % m - m)
  {
    var q, s := (-a) / m, (-a) % m;
    assert -a == q * m + s;
    if s == 0 {
      ModUnique(a, m, -q, 0);
    } else {
      assert a == (-q - 1) * m + (m - s);
      ModUnique(a, m, -q - 1, m - s);
    }
  }

  /**
   * `goTo`'s `(i + slides.length) % slides.length`. On every argument that
   * `next` and `prev` pass (no lower than `-len`) it is the mathematical
   * residue of `i` modulo `len`; further below it would go negative.
   */
  function Wrap(i: JsNum, len: nat): (r: JsNum)
    ensures r.NaN? <==> i.NaN? || len == 0
    ensures i.Num? && len > 0 && 0 <= i.n + len ==> r == Num(i.n % len)
    ensures i.Num? && len > 0 && i.n + len < 0 ==> r.Num? && 0 < r.n + len && r.n <= 0
    ensures i.Num? && len > 0 && i.n + len < 0 ==>
      r == Num(if i.n % len == 0 then 0 else i.n % len - len)
  {
    if i.NaN? || len == 0 then NaN
    else
      ModShift(i.n, len);
      Num(JsRem(i.n + len, len))
  }

  /** `a % m` is the one `r` in `[0, m)` with `a == q * m + r` for some `q`. */
  lemma ModUnique(a: int, m: int, q: int, r: int)
    requires m > 0 && 0 <= r < m && a == q * m + r
    ensures a % m == r
  {
    var q', r' := a / m, a % m;
    assert a == q' * m + r';
    assert (q - q') * m == r' - r;
    if q > q' {
      MulAtLeast(q - q', m);
    } else if q < q' {
      MulAtLeast(q' - q, m);
    }
  }

  lemma MulAtLeast(d: int, m: int)
    requires d >= 1 && m > 0
    ensures d * m >= m
  {
    if d > 1 {
      MulAtLeast(d - 1, m);
      assert d * m == (d - 1) * m + m;
    }
  }

  lemma ModShift(a: int, m: int)
    requires m > 0
    ensures (a + m) % m == a % m
  {
    var q := a / m;
    assert a == q * m + a % m;
    assert a + m == (q + 1) * m + a % m;
    ModUnique(a + m, m, q + 1, a % m);
  }

  /** What one navigation event asks for. */
  datatype Move = Stay | Forward | Back

  /** The cursor after a move: `next` is `goTo(index + 1)`, `prev` is `goTo(index - 1)`. */
  function Step(i: JsNum, m: Move, len: nat): (r: JsNum)
    ensures m == Stay ==> r == i
    ensures m != Stay ==> (r.NaN? <==> i.NaN? || len == 0)
    ensures i.Num? && 0 <= i.n < len ==> r.Num? && 0 <= r.n < len
  {
    match m
    case Stay => i
    case Forward => Wrap(Add(i, 1), len)
    case Back => Wrap(Add(i, -1), len)
  }

  /** `next` from the last slide gives the first; `prev` from the first gives the last. */
  lemma StepWrapsAtEnds(len: nat)
    requires len > 0
    ensures Step(Num(len - 1), Forward, len) == Num(0)
    ensures Step(Num(0), Back, len) == Num(len - 1)
  {
  }

  /** `next` moves to the following slide, from the last one back to the first. */
  lemma ForwardStep(i: int, len: nat)
    requires 0 <= i < len
    ensures Step(Num(i), Forward, len) == Num(if i + 1 == len then 0 else i + 1)
  {
    if i + 1 < len {
      ModUnique(i + 1, len, 0, i + 1);
    } else {
      ModUnique(i + 1, len, 1, 0);
    }
  }

  /** `prev` moves to the preceding slide, from the first one round to the last. */
  lemma BackStep(i: int, len: nat)
    requires 0 <= i < len
    ensures Step(Num(i), Back, len) == Num(if i == 0 then len - 1 else i - 1)
  {
    if 0 < i {
      ModUnique(i - 1, len, 0, i - 1);
    } else {
      ModUnique(-1, len, -1, len - 1);
    }
  }

  /** `prev` undoes `next` and `next` undoes `prev`. */
  lemma StepsCancel(i: int, len: nat)
    requires 0 <= i < len
    ensures Step(Step(Num(i), Forward, len), Back, len) == Num(i)
    ensures Step(Step(Num(i), Back, len), Forward, len) == Num(i)
  {
    ForwardStep(i, len);
    BackStep(if i + 1 == len then 0 else i + 1, len);
    BackStep(i, len);
    ForwardStep(if i == 0 then len - 1 else i - 1, len);
  }

  /** The cursor after `k` consecutive `next` calls, as the autoplay interval makes them. */
  function Advance(i: JsNum, k: nat, len: nat): (r: JsNum)
    ensures i.Num? && 0 <= i.n < len ==> r.Num? && 0 <= r.n < len
    ensures len == 0 && 0 < k ==> r.NaN?
  {
    if k == 0 then i else Step(Advance(i, k - 1, len), Forward, len)
  }

  lemma ModSucc(a: nat, m: int)
    requires m > 0
    ensures (a % m + 1) % m == (a + 1) % m
  {
    var q, r := a / m, a % m;
    assert a == q * m + r;
    if r + 1 < m {
      assert a + 1 == q * m + (r + 1);
      ModUnique(a + 1, m, q, r + 1);
      ModUnique(r + 1, m, 0, r + 1);
    } else {
      assert a + 1 == (q + 1) * m + 0;
      ModUnique(a + 1, m, q + 1, 0);
      ModUnique(r + 1, m, 1, 0);
    }
  }

  /** After `k` steps forward from `i` the cursor is at `(i + k) mod len`. */
  lemma {:induction false} AdvanceIsModular(i: nat, k: nat, len: nat)
    requires i < len
    ensures Advance(Num(i), k, len) == Num((i + k) % len)
  {
    if k > 0 {
      AdvanceIsModular(i, k - 1, len);
      ModSucc(i + k - 1, len);
    }
  }

  /** Autoplay cycles: `len` steps forward return to the starting slide. */
  lemma AdvanceFullCycle(i: nat, len: nat)
    requires i < len
    ensures Advance(Num(i), len, len) == Num(i)
  {
    AdvanceIsModular(i, len, len);
    ModUnique(i + len, len, 1, i);
  }

  /** A horizontal swipe navigates only when it travels more than this many pixels. */
  const SwipeThreshold: int := 40

  /** The `touchend` decision on `dx = end - start`: left means next, right means prev. */
  function SwipeMove(dx: int): (m: Move)
    ensures m == Stay <==> -SwipeThreshold <= dx <= SwipeThreshold
    ensures m == Forward <==> dx < -SwipeThreshold
    ensures m == Back <==> dx > SwipeThreshold
  {
    if (if dx < 0 then -dx else dx) > SwipeThreshold then
      (if dx < 0 then Forward else Back)
    else Stay
  }

  /** Mirroring a swipe mirrors the move it makes. */
  lemma SwipeMirrors(dx: int)
    ensures SwipeMove(-dx) == match SwipeMove(dx)
      case Stay => Stay
      case Forward => Back
      case Back => Forward
  {
  }

  /** The `keydown` handler: ArrowRight is next, ArrowLeft is prev, any other key does nothing. */
  function KeyMove(key: string): (m: Move)
    ensures m == Forward <==> key == "ArrowRight"
    ensures m == Back <==> key == "ArrowLeft"
    ensures m == Stay <==> key != "ArrowRight" && key != "ArrowLeft"
  {
    if key == "ArrowRight" then Forward
    else if key == "ArrowLeft" then Back
    else Stay
  }

  /** A caption: the entry of `slideMeta` for one slide. */
  datatype Meta = Meta(title: string, desc: string)

  const SlideMeta: seq<Meta> := [
    Meta("Kazora — Luxury Watches",
         "E-commerce design & build (PHP/MySQL + custom UI). Premium look with focus on product photography."),
    Meta("Mario Platformer",
         "Unity/C# arcade platformer met smooth physics & pixel-art VFX."),
    Meta("Data Visualizer",
         "Interactive data story over language & culture (D3.js).")
  ]

  /** `slideMeta[i]`: defined only for an integer position inside the list. */
  function MetaAt(i: JsNum): (r: Option<Meta>)
    ensures r.Some? <==> i.Num? && 0 <= i.n < |SlideMeta|
    ensures r.Some? ==> r.value == SlideMeta[i.n]
  {
    if i.Num? && 0 <= i.n < |SlideMeta| then Some(SlideMeta[i.n]) else None
  }

  /** The slider's `aria-label`, "Project slider, slide <slide> van <count>". */
  datatype AriaLabel = SliderLabel(slide: JsNum, count: nat)

  class ProjectSlider {
    /** The `is-active` class of each `.slider-item`, in document order. */
    const slides: array<bool>
    /** Whether `#sliderTitle` and `#sliderDesc` exist. */
    const hasTitle: bool
    const hasDesc: bool
    var title: string
    var desc: string
    var ariaLabel: AriaLabel
    var index: JsNum
    /** The `clientX` recorded by the last `touchstart`. */
    var startX: int
    /** `!reduceMotion`: autoplay is allowed at all. */
    const autoplay: bool
    /** The interval handle, `null` when autoplay is stopped. Handles are positive, hence truthy. */
    var timer: Option<nat>
    /** Intervals this slider has created and not yet cleared. */
    var live: set<nat>
    /** The handle the next `setInterval` returns. */
    var nextHandle: nat

    /** The cursor is a slide position, or 0 or NaN when there are no slides. */
    ghost predicate InRange()
      reads this
    {
      (slides.Length > 0 ==> index.Num? && 0 <= index.n < slides.Length) &&
      (slides.Length == 0 ==> index == Num(0) || index == NaN)
    }

    /** The one live interval, if any, is the one `timer` holds; there is none without autoplay. */
    ghost predicate TimerValid()
      reads this
    {
      1 <= nextHandle &&
      live == (if timer.Some? then {timer.value} else {}) &&
      (timer.Some? ==> timer.value < nextHandle) &&
      (!autoplay ==> timer.None?)
    }

    ghost predicate Valid()
      reads this, slides
    {
      InRange() && TimerValid() &&
      (forall k :: 0 <= k < slides.Length ==> (slides[k] <==> index == Num(k))) &&
      ariaLabel == SliderLabel(Add(index, 1), slides.Length)
    }

    /** The caption after `updateMeta(i)`, given the caption before. */
    ghost predicate MetaUpdated(i: JsNum, title0: string, desc0: string)
      reads this`title, this`desc
    {
      match MetaAt(i)
      case None => title == title0 && desc == desc0
      case Some(m) =>
        title == (if hasTitle then m.title else title0) &&
        desc == (if hasDesc then m.desc else desc0)
    }

    /**
     * `DOMContentLoaded`: start at the first slide marked `is-active` (0 when
     * none is), show it, and start autoplay unless reduced motion is preferred.
     */
    constructor (slides: array<bool>, hasTitle: bool, title0: string, hasDesc: bool, desc0: string,
                 reduceMotion: bool)
      modifies slides
      ensures this.slides == slides && this.hasTitle == hasTitle && this.hasDesc == hasDesc && Valid()
      ensures var found := Dom.IndexOfFirst(old(slides[..])); index == Num(if found < 0 then 0 else found)
      ensures MetaUpdated(index, title0, desc0)
      ensures autoplay == !reduceMotion
      ensures startX == 0
      ensures autoplay ==> timer.Some? && |live| == 1
      ensures !autoplay ==> timer.None? && live == {}
    {
      this.slides := slides;
      this.hasTitle := hasTitle;
      this.hasDesc := hasDesc;
      title := title0;
      desc := desc0;
      ariaLabel := SliderLabel(NaN, 0);
      startX := 0;
      autoplay := !reduceMotion;
      timer := None;
      live := {};
      nextHandle := 1;
      new;
      var found := Dom.FindIndex(slides);
      index := Num(if found < 0 then 0 else found);
      SetActive(index);
      StartAutoplay();
    }

    /** `updateMeta(i)`: copy caption `i` into the title and description elements that exist. */
    method UpdateMeta(i: JsNum)
      modifies this`title, this`desc
      ensures MetaUpdated(i, old(title), old(desc))
    {
      var m := MetaAt(i);
      if m.None? {
        return;
      }
      if hasTitle {
        title := m.value.title;
      }
      if hasDesc {
        desc := m.value.desc;
      }
    }

    /** `setActive(i)`: mark exactly slide `i` active, relabel the slider and update the caption. */
    method SetActive(i: JsNum)
      modifies slides, this`ariaLabel, this`title, this`desc
      ensures forall k :: 0 <= k < slides.Length ==> (slides[k] <==> i == Num(k))
      ensures ariaLabel == SliderLabel(Add(i, 1), slides.Length)
      ensures MetaUpdated(i, old(title), old(desc))
    {
      for k := 0 to slides.Length
        invariant forall j :: 0 <= j < k ==> (slides[j] <==> i == Num(j))
        invariant title == old(title) && desc == old(desc)
      {
        slides[k] := i == Num(k);
      }
      ariaLabel := SliderLabel(Add(i, 1), slides.Length);
      UpdateMeta(i);
    }

    /** `goTo(i)`, reached only with `index + 1` and `index - 1`. */
    method GoTo(i: JsNum)
      requires Valid()
      requires slides.Length > 0 ==> i.Num? && 0 <= i.n + slides.Length
      modifies slides, this`index, this`ariaLabel, this`title, this`desc
      ensures Valid()
      ensures index == Wrap(i, slides.Length)
      ensures MetaUpdated(index, old(title), old(desc))
    {
      index := Wrap(i, slides.Length);
      SetActive(index);
    }

    /** `next`, `prev`, or nothing, as one navigation event asks. */
    method Navigate(m: Move)
      requires Valid()
      modifies slides, this`index, this`ariaLabel, this`title, this`desc
      ensures Valid()
      ensures index == Step(old(index), m, slides.Length)
      ensures m == Stay ==> title == old(title) && desc == old(desc) && slides[..] == old(slides[..])
      ensures m != Stay ==> MetaUpdated(index, old(title), old(desc))
    {
      match m
      case Stay =>
      case Forward => GoTo(Add(index, 1));
      case Back => GoTo(Add(index, -1));
    }

    /** The `keydown` handler. */
    method KeyDown(key: string)
      requires Valid()
      modifies slides, this`index, this`ariaLabel, this`title, this`desc
      ensures Valid()
      ensures index == Step(old(index), KeyMove(key), slides.Length)
      ensures KeyMove(key) == Stay ==> title == old(title) && desc == old(desc)
      ensures KeyMove(key) != Stay ==> MetaUpdated(index, old(title), old(desc))
    {
      Navigate(KeyMove(key));
    }

    /** The `touchstart` handler. */
    method TouchStart(x: int)
      modifies this`startX
      ensures startX == x
    {
      startX := x;
    }

    /** The `touchend` handler. */
    method TouchEnd(x: int)
      requires Valid()
      modifies slides, this`index, this`ariaLabel, this`title, this`desc
      ensures Valid()
      ensures index == Step(old(index), SwipeMove(x - startX), slides.Length)
      ensures SwipeMove(x - startX) == Stay ==> title == old(title) && desc == old(desc)
      ensures SwipeMove(x - startX) != Stay ==> MetaUpdated(index, old(title), old(desc))
    {
      Navigate(SwipeMove(x - startX));
    }

    /** `stopAutoplay`, also the `mouseenter` and `focusin` handler: clear the interval if there is one. */
    method StopAutoplay()
      requires TimerValid()
      modifies this`timer, this`live
      ensures TimerValid()
      ensures timer.None? && live == {}
    {
      if timer.Some? {
        live := live - {timer.value};
      }
      timer := None;
    }

    /**
     * `startAutoplay`, also the `mouseleave` and `focusout` handler: without
     * autoplay nothing happens; otherwise the old interval is cleared before
     * a new one is created, so exactly one is live afterwards.
     */
    method StartAutoplay()
      requires TimerValid()
      modifies this`timer, this`live, this`nextHandle
      ensures TimerValid()
      ensures !autoplay ==> timer == old(timer) && live == old(live) && nextHandle == old(nextHandle)
      ensures autoplay ==> timer == Some(old(nextHandle)) && live == {old(nextHandle)}
      ensures |live| <= 1
    {
      if !autoplay {
        return;
      }
      StopAutoplay();
      timer := Some(nextHandle);
      live := live + {nextHandle};
      nextHandle := nextHandle + 1;
    }

    /** A tick of a live autoplay interval calls `next`. */
    method Tick(h: nat)
      requires Valid() && h in live
      modifies slides, this`index, this`ariaLabel, this`title, this`desc
      ensures Valid()
      ensures index == Step(old(index), Forward, slides.Length)
      ensures MetaUpdated(index, old(title), old(desc))
    {
      Navigate(Forward);
    }
  }
}
