/** The banner carousel (src/components/AdBanner.tsx): a slide cursor that a
    timer advances modulo the number of ads, manual selection of a slide, and a
    close button after which the banner renders nothing. */
module AdBanner {
  import opened Wrappers

  /** The slide cursor. In JavaScript `(prev + 1) % 0` is NaN, so with no ads the
      timer turns the cursor into `NotANumber`, which equals no slide position. */
  datatype Cursor = Slide(index: int) | NotANumber

  datatype Banner = Banner(cursor: Cursor, visible: bool)

  /** The cursor points at a slide of a list of `n` ads. */
  predicate InRange(c: Cursor, n: nat) {
    c.Slide? && 0 <= c.index < n
  }

  /** `useState(0)` and `useState(true)`: the first slide, shown, which is a
      slide of every non-empty list of ads. */
  function Init(): (r: Banner)
    ensures r.cursor == Slide(0) && r.visible
    ensures forall n: nat :: n > 0 ==> InRange(r.cursor, n)
  {
    Banner(Slide(0), true)
  }

  /** JavaScript's `%`: the remainder takes the sign of the dividend. */
  function JsRem(a: int, n: int): (r: int)
    requires n > 0
    ensures a >= 0 ==> 0 <= r < n
    ensures a < 0 ==> -n < r <= 0
    ensures a == (if a >= 0 then a / n else -((-a) / n)) * n + r
  {
    if a >= 0 then a % n else -((-a) % n)
  }

  /** One firing of the five-second timer, for a list of `n` ads. The timer keeps
      running after the banner is closed. */
  function Tick(b: Banner, n: nat): (r: Banner)
    ensures r.visible == b.visible
    ensures n == 0 ==> r.cursor == NotANumber
    ensures n > 0 && b.cursor.Slide? && b.cursor.index >= -1 ==> InRange(r.cursor, n)
  {
    match b.cursor
    case NotANumber => b
    case Slide(i) => if n == 0 then Banner(NotANumber, b.visible) else Banner(Slide(JsRem(i + 1, n)), b.visible)
  }

  /** `goToSlide(j)`: the cursor becomes `j` whatever it was. */
  function GoToSlide(b: Banner, j: int): (r: Banner)
    ensures r.cursor == Slide(j) && r.visible == b.visible
  {
    b.(cursor := Slide(j))
  }

  /** `closeBanner()` */
  function Close(b: Banner): (r: Banner)
    ensures !r.visible && r.cursor == b.cursor
  {
    b.(visible := false)
  }

  datatype Event = TimerTick | GoTo(slide: int) | CloseClick

  function Step(b: Banner, n: nat, e: Event): Banner {
    match e
    case TimerTick => Tick(b, n)
    case GoTo(j) => GoToSlide(b, j)
    case CloseClick => Close(b)
  }

  /** The banner after a sequence of events, oldest first. */
  function Run(b: Banner, n: nat, events: seq<Event>): Banner
    decreases |events|
  {
    if |events| == 0 then b else Run(Step(b, n, events[0]), n, events[1..])
  }

  /** The banner after `k` timer ticks. */
  function Ticks(b: Banner, n: nat, k: nat): Banner {
    if k == 0 then b else Tick(Ticks(b, n, k - 1), n)
  }

  /** What is rendered for `n` ads: nothing once closed, otherwise one opacity flag
      per slide. Exactly the slide under the cursor is opaque; a cursor outside
      the list (NaN included) leaves every slide transparent. */
  function Render(b: Banner, n: nat): (r: Option<seq<bool>>)
    ensures r.None? <==> !b.visible
    ensures r.Some? ==> |r.value| == n
    ensures r.Some? && InRange(b.cursor, n) ==>
      r.value[b.cursor.index] && forall p :: 0 <= p < n && r.value[p] ==> p == b.cursor.index
    ensures r.Some? && !InRange(b.cursor, n) ==> forall p :: 0 <= p < n ==> !r.value[p]
  {
    if !b.visible then None else Some(seq(n, p => b.cursor == Slide(p)))
  }

  /** Quotient and remainder are unique. */
  lemma ModUnique(a: int, n: int, q: int, r: int)
    requires n > 0 && 0 <= r < n && a == q * n + r
    ensures a % n == r
  {
    var q', r' := a / n, a % n;
    var d := q' - q;
    assert d * n == r - r' by {
      assert q' * n + r' == q * n + r;
      assert d * n == q' * n - q * n;
    }
    if d >= 1 {
      MulAtLeast(d, n);
    } else if d <= -1 {
      MulAtLeast(-d, n);
    }
  }

  lemma {:induction false} MulAtLeast(d: int, n: int)
    requires d >= 1 && n > 0
    ensures d * n >= n
    decreases d
  {
    if d > 1 {
      MulAtLeast(d - 1, n);
      assert d * n == (d - 1) * n + n;
    }
  }

  lemma ModSucc(a: int, n: int)
    requires a >= 0 && n > 0
    ensures (a % n + 1) % n == (a + 1) % n
  {
    var q, r := a / n, a % n;
    assert a == q * n + r;
    if r + 1 < n {
      ModUnique(a + 1, n, q, r + 1);
      ModUnique(r + 1, n, 0, r + 1);
    } else {
      assert a + 1 == (q + 1) * n + 0;
      ModUnique(a + 1, n, q + 1, 0);
      ModUnique(r + 1, n, 1, 0);
    }
  }

  /** `k` ticks from slide `i` land on slide `(i + k) mod n`. */
  lemma {:induction false} TicksWrap(i: int, v: bool, n: nat, k: nat)
    requires 0 <= i < n
    ensures Ticks(Banner(Slide(i), v), n, k) == Banner(Slide((i + k) % n), v)
  {
    if k > 0 {
      TicksWrap(i, v, n, k - 1);
      ModSucc(i + k - 1, n);
    }
  }

  /** So `n` ticks bring the carousel back to the slide it started on. */
  lemma FullCycle(b: Banner, n: nat)
    requires InRange(b.cursor, n)
    ensures Ticks(b, n, n) == b
  {
    TicksWrap(b.cursor.index, b.visible, n, n);
    ModUnique(b.cursor.index + n, n, 1, b.cursor.index);
  }

  /** A manual selection lasts until the next tick, which continues from it. */
  lemma TickAfterGoTo(b: Banner, n: nat, j: int)
    requires 0 <= j < n
    ensures Tick(GoToSlide(b, j), n).cursor == Slide((j + 1) % n)
  {
  }

  /** Closing is final: whatever events follow, the banner stays hidden and
      renders nothing. */
  lemma {:induction false} ClosedStaysClosed(b: Banner, n: nat, events: seq<Event>)
    requires !b.visible
    ensures !Run(b, n, events).visible
    decreases |events|
    ensures Render(Run(b, n, events), n).None?
  {
    if |events| > 0 {
      ClosedStaysClosed(Step(b, n, events[0]), n, events[1..]);
    }
  }

  /** The freshly mounted banner shows the first slide of any non-empty list. */
  lemma InitShowsFirstSlide(n: nat)
    requires n > 0
    ensures Render(Init(), n).Some?
    ensures Render(Init(), n).value[0]
    ensures forall p :: 0 < p < n ==> !Render(Init(), n).value[p]
  {
  }
}
