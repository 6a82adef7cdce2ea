/**
 * The decorative particle field behind the pages (grok-bg.js): N drifting
 * dots that wrap around a margin outside the canvas, and a faint line
 * between every pair closer than the link distance. Pixel drawing is not
 * modelled; a frame is described by the particles after the update and the
 * list of lines it strokes.
 */
module GrokBg {
  import opened Common

  const N: nat := 90
  const LinkDist: real := 120.0
  const Speed: real := 0.25
  /** How far outside the canvas a dot may drift before it re-enters on the far side. */
  const Margin: real := 20.0
  /** The opacity of a line between two dots at the same spot. */
  const MaxLinkAlpha: real := 0.06

  /** `Math.min(2, window.devicePixelRatio || 1)`; `None` is an undefined ratio. */
  function Dpr(deviceRatio: Option<real>): (d: real)
    ensures deviceRatio.None? || deviceRatio.value == 0.0 ==> d == 1.0
    ensures deviceRatio.Some? && deviceRatio.value >= 0.0 ==> 0.0 < d <= 2.0
    ensures deviceRatio.Some? && 0.0 < deviceRatio.value <= 2.0 ==> d == deviceRatio.value
    ensures deviceRatio.Some? && deviceRatio.value >= 2.0 ==> d == 2.0
  {
    var ratio := if deviceRatio.None? || deviceRatio.value == 0.0 then 1.0 else deviceRatio.value;
    if ratio < 2.0 then ratio else 2.0
  }

  /** `Math.max(1, Math.floor(measured))`: the logical canvas extent in CSS pixels. */
  function LogicalExtent(measured: real): (r: int)
    ensures r >= 1
    ensures measured >= 1.0 ==> r as real <= measured < r as real + 1.0
    ensures measured < 1.0 ==> r == 1
  {
    var f := measured.Floor;
    if f < 1 then 1 else f
  }

  /** `Math.floor(extent * DPR)`: the canvas backing-store extent. */
  function BackingExtent(extent: int, dpr: real): (r: int)
    ensures extent >= 0 && dpr >= 0.0 ==> r >= 0
  {
    (extent as real * dpr).Floor
  }

  /** The backing store is never smaller than the logical extent, nor more than twice it. */
  lemma BackingBounds(extent: int, dpr: real)
    requires extent >= 1 && 1.0 <= dpr <= 2.0
    ensures extent <= BackingExtent(extent, dpr) <= 2 * extent
  {
    var e := extent as real;
    assert e * 1.0 <= e * dpr <= e * 2.0 by {
      assert e * (dpr - 1.0) >= 0.0;
      assert e * (2.0 - dpr) >= 0.0;
    }
  }

  /** `Math.random() * span`, kept as one term so that facts about it are found again. */
  function Scale(u: real, span: real): real {
    u * span
  }

  lemma ScaleBelow(u: real, span: real)
    requires 0.0 <= u < 1.0 && span > 0.0
    ensures 0.0 <= Scale(u, span) < span
  {
    assert (1.0 - u) * span > 0.0;
  }

  /** `rand(min, max)` with `u` the value `Math.random()` returned. */
  function Rand(min: real, max: real, u: real): (r: real)
    ensures min < max && 0.0 <= u < 1.0 ==> min <= r < max
  {
    if min < max && 0.0 <= u < 1.0 then
      ScaleBelow(u, max - min);
      min + Scale(u, max - min)
    else
      min + Scale(u, max - min)
  }

  /** `Math.random()` only returns values in [0, 1). */
  predicate Uniform(draws: seq<real>) {
    forall i :: 0 <= i < |draws| ==> 0.0 <= draws[i] < 1.0
  }

  datatype Particle = Particle(x: real, y: real, vx: real, vy: real, r: real, a: real)

  /** One dot pushed by `seed`, from six draws taken in the order x, y, vx, vy, r, a. */
  function Spawn(w: real, h: real, d: seq<real>): (r: Particle)
    requires |d| == 6
    ensures w > 0.0 && h > 0.0 && Uniform(d) ==> OnCanvas(r, w, h)
  {
    Particle(Rand(0.0, w, d[0]), Rand(0.0, h, d[1]),
             Rand(-Speed, Speed, d[2]), Rand(-Speed, Speed, d[3]),
             Rand(0.7, 1.6, d[4]), Rand(0.06, 0.18, d[5]))
  }

  /** The first `n` dots `seed` pushes, using draws `6k .. 6k + 5` for dot `k`. */
  function Seeded(w: real, h: real, draws: seq<real>, n: nat): (r: seq<Particle>)
    requires 6 * n <= |draws|
    ensures |r| == n
  {
    if n == 0 then [] else Seeded(w, h, draws, n - 1) + [Spawn(w, h, draws[6 * (n - 1)..6 * n])]
  }

  /** A fresh dot lies on the canvas, with speed, radius and opacity in their ranges. */
  predicate OnCanvas(p: Particle, w: real, h: real) {
    0.0 <= p.x < w && 0.0 <= p.y < h && Drifting(p)
  }

  predicate Drifting(p: Particle) {
    -Speed <= p.vx < Speed && -Speed <= p.vy < Speed && 0.7 <= p.r < 1.6 && 0.06 <= p.a < 0.18
  }

  /** Inside the canvas widened by the margin on every side. */
  predicate InField(p: Particle, w: real, h: real) {
    -Margin <= p.x <= w + Margin && -Margin <= p.y <= h + Margin
  }

  lemma {:induction false} SeededSpec(w: real, h: real, draws: seq<real>, n: nat)
    requires w > 0.0 && h > 0.0 && 6 * n <= |draws| && Uniform(draws)
    ensures forall k :: 0 <= k < n ==> Seeded(w, h, draws, n)[k] == Spawn(w, h, draws[6 * k..6 * k + 6])
    ensures forall k :: 0 <= k < n ==> OnCanvas(Seeded(w, h, draws, n)[k], w, h)
  {
    if n > 0 {
      SeededSpec(w, h, draws, n - 1);
      var d := draws[6 * (n - 1)..6 * n];
      assert Uniform(d) by {
        assert forall i :: 0 <= i < 6 ==> d[i] == draws[6 * (n - 1) + i];
      }
    }
  }

  /** The sequential wrap of one coordinate, after the velocity was added. */
  function Wrap(v: real, extent: real): (r: real)
    ensures extent >= 0.0 ==> -Margin <= r <= extent + Margin
    ensures -Margin <= v <= extent + Margin ==> r == v
    ensures v < -Margin ==> r == extent + Margin
    ensures extent >= 0.0 && v > extent + Margin ==> r == -Margin
  {
    var v1 := if v < -Margin then extent + Margin else v;
    if v1 > extent + Margin then -Margin else v1
  }

  /** What the update loop does to one dot. */
  function Advance(p: Particle, w: real, h: real): (r: Particle)
    ensures w >= 0.0 && h >= 0.0 ==> InField(r, w, h)
    ensures r.vx == p.vx && r.vy == p.vy && r.r == p.r && r.a == p.a
  {
    p.(x := Wrap(p.x + p.vx, w), y := Wrap(p.y + p.vy, h))
  }

  /** The update loop over all dots. */
  function AdvanceAll(ps: seq<Particle>, w: real, h: real): (r: seq<Particle>)
    ensures |r| == |ps|
  {
    seq(|ps|, k requires 0 <= k < |ps| => Advance(ps[k], w, h))
  }

  /**
   * One frame's update keeps every dot in the widened field, moves a dot
   * that stays inside it by exactly its velocity, and changes nothing but
   * positions.
   */
  lemma AdvanceAllSpec(ps: seq<Particle>, w: real, h: real)
    requires w >= 0.0 && h >= 0.0
    ensures forall k :: 0 <= k < |ps| ==> InField(AdvanceAll(ps, w, h)[k], w, h)
    ensures forall k :: 0 <= k < |ps| ==>
      var p, q := ps[k], AdvanceAll(ps, w, h)[k];
      q.vx == p.vx && q.vy == p.vy && q.r == p.r && q.a == p.a
    ensures forall k :: 0 <= k < |ps| && InField(ps[k].(x := ps[k].x + ps[k].vx, y := ps[k].y + ps[k].vy), w, h) ==>
      AdvanceAll(ps, w, h)[k] == ps[k].(x := ps[k].x + ps[k].vx, y := ps[k].y + ps[k].vy)
  {
  }

  /** `n` frames in a row. */
  function Frames(ps: seq<Particle>, w: real, h: real, n: nat): (r: seq<Particle>)
    ensures |r| == |ps|
    decreases n
  {
    if n == 0 then ps else Frames(AdvanceAll(ps, w, h), w, h, n - 1)
  }

  /** However many frames pass, a drifting dot stays drifting and inside the widened field. */
  lemma {:induction false} FramesStayInField(ps: seq<Particle>, w: real, h: real, n: nat)
    requires w >= 0.0 && h >= 0.0
    requires forall k :: 0 <= k < |ps| ==> InField(ps[k], w, h) && Drifting(ps[k])
    ensures forall k :: 0 <= k < |ps| ==> InField(Frames(ps, w, h, n)[k], w, h) && Drifting(Frames(ps, w, h, n)[k])
    decreases n
  {
    if n > 0 {
      AdvanceAllSpec(ps, w, h);
      FramesStayInField(AdvanceAll(ps, w, h), w, h, n - 1);
    }
  }

  /** Dots at rest inside the field never move. */
  lemma {:induction false} RestingDotsStay(ps: seq<Particle>, w: real, h: real, n: nat)
    requires forall k :: 0 <= k < |ps| ==> InField(ps[k], w, h) && ps[k].vx == 0.0 && ps[k].vy == 0.0
    ensures Frames(ps, w, h, n) == ps
    decreases n
  {
    if n > 0 {
      assert AdvanceAll(ps, w, h) == ps by {
        forall k | 0 <= k < |ps|
          ensures AdvanceAll(ps, w, h)[k] == ps[k]
        {
          assert ps[k].(x := ps[k].x + 0.0, y := ps[k].y + 0.0) == ps[k];
        }
      }
      RestingDotsStay(ps, w, h, n - 1);
    }
  }

  /** A line stroked between dots `i` and `j` with opacity `alpha`. */
  datatype Link = Link(i: nat, j: nat, alpha: real)

  function Square(v: real): real {
    v * v
  }

  /** `dx * dx + dy * dy`. */
  function Dist2(a: Particle, b: Particle): real {
    Square(a.x - b.x) + Square(a.y - b.y)
  }

  /** `0.06 * (1 - d2 / ld2)`. */
  function LinkAlpha(d2: real): real {
    MaxLinkAlpha * (1.0 - d2 / (LinkDist * LinkDist))
  }

  lemma SquareNonNegative(v: real)
    ensures Square(v) >= 0.0
  {
    if v < 0.0 {
      assert v * v == (-v) * (-v);
    }
  }

  lemma Dist2NonNegative(a: Particle, b: Particle)
    ensures Dist2(a, b) >= 0.0
  {
    SquareNonNegative(a.x - b.x);
    SquareNonNegative(a.y - b.y);
  }

  /** A visible line is never more opaque than 0.06 and fades out at the link distance. */
  lemma LinkAlphaRange(d2: real)
    requires 0.0 <= d2 < LinkDist * LinkDist
    ensures 0.0 < LinkAlpha(d2) <= MaxLinkAlpha
  {
  }

  lemma LinkAlphaVanishesAtLinkDist()
    ensures LinkAlpha(LinkDist * LinkDist) == 0.0
  {
  }

  /** Closer dots get a more opaque line. */
  lemma LinkAlphaDecreasing(d1: real, d2: real)
    requires d1 < d2
    ensures LinkAlpha(d1) > LinkAlpha(d2)
  {
  }

  /** The line the inner loop strokes for pair (i, j), if any. */
  function PairLink(ps: seq<Particle>, i: nat, j: nat): seq<Link>
    requires i < j < |ps|
  {
    var d2 := Dist2(ps[i], ps[j]);
    if d2 < LinkDist * LinkDist then [Link(i, j, LinkAlpha(d2))] else []
  }

  /** The lines of the inner loop for dot `i`, over partners `i + 1 .. j - 1`. */
  function RowLinks(ps: seq<Particle>, i: nat, j: nat): seq<Link>
    requires i < j <= |ps|
    decreases j
  {
    if j == i + 1 then [] else RowLinks(ps, i, j - 1) + PairLink(ps, i, j - 1)
  }

  /** The lines of the outer loop's first `n` rounds. */
  function LinksBefore(ps: seq<Particle>, n: nat): seq<Link>
    requires n <= |ps|
  {
    if n == 0 then [] else LinksBefore(ps, n - 1) + RowLinks(ps, n - 1, |ps|)
  }

  /** All lines of one frame, in the order they are stroked. */
  function Links(ps: seq<Particle>): seq<Link> {
    LinksBefore(ps, |ps|)
  }

  /** `l` joins two distinct dots closer than the link distance, with the opacity for that distance. */
  predicate Linked(ps: seq<Particle>, l: Link) {
    l.i < l.j < |ps| && Dist2(ps[l.i], ps[l.j]) < LinkDist * LinkDist
    && l.alpha == LinkAlpha(Dist2(ps[l.i], ps[l.j]))
  }

  /** Pairs in the lexicographic order of the nested loops. */
  predicate Precedes(a: Link, b: Link) {
    a.i < b.i || (a.i == b.i && a.j < b.j)
  }

  lemma {:induction false} RowLinksFrom(ps: seq<Particle>, i: nat, j: nat)
    requires i < j <= |ps|
    ensures forall k :: 0 <= k < |RowLinks(ps, i, j)| ==> RowLinks(ps, i, j)[k].i == i && i < RowLinks(ps, i, j)[k].j < j
    decreases j
  {
    if j > i + 1 {
      RowLinksFrom(ps, i, j - 1);
    }
  }

  lemma {:induction false} RowLinksLinked(ps: seq<Particle>, i: nat, j: nat)
    requires i < j <= |ps|
    ensures forall k :: 0 <= k < |RowLinks(ps, i, j)| ==>
      Linked(ps, RowLinks(ps, i, j)[k]) && RowLinks(ps, i, j)[k].i == i && RowLinks(ps, i, j)[k].j < j
    decreases j
  {
    if j > i + 1 {
      RowLinksLinked(ps, i, j - 1);
    }
  }

  lemma {:induction false} RowLinksOrdered(ps: seq<Particle>, i: nat, j: nat)
    requires i < j <= |ps|
    ensures forall k, k' :: 0 <= k < k' < |RowLinks(ps, i, j)| ==> RowLinks(ps, i, j)[k].j < RowLinks(ps, i, j)[k'].j
    decreases j
  {
    if j > i + 1 {
      RowLinksOrdered(ps, i, j - 1);
      RowLinksLinked(ps, i, j - 1);
    }
  }

  lemma {:induction false} RowLinksComplete(ps: seq<Particle>, i: nat, j: nat, m: nat)
    requires i < m < j <= |ps| && Dist2(ps[i], ps[m]) < LinkDist * LinkDist
    ensures exists k :: 0 <= k < |RowLinks(ps, i, j)| && RowLinks(ps, i, j)[k].j == m
    decreases j
  {
    var prev := RowLinks(ps, i, j - 1);
    var row := RowLinks(ps, i, j);
    assert row == prev + PairLink(ps, i, j - 1);
    if m < j - 1 {
      RowLinksComplete(ps, i, j - 1, m);
      var k :| 0 <= k < |prev| && prev[k].j == m;
      assert row[k] == prev[k];
    } else {
      assert row[|prev|].j == m;
    }
  }

  lemma {:induction false} LinksBeforeLinked(ps: seq<Particle>, n: nat)
    requires n <= |ps|
    ensures forall k :: 0 <= k < |LinksBefore(ps, n)| ==> Linked(ps, LinksBefore(ps, n)[k]) && LinksBefore(ps, n)[k].i < n
  {
    if n > 0 {
      LinksBeforeLinked(ps, n - 1);
      RowLinksLinked(ps, n - 1, |ps|);
    }
  }

  lemma {:induction false} LinksBeforeOrdered(ps: seq<Particle>, n: nat)
    requires n <= |ps|
    ensures forall k, k' :: 0 <= k < k' < |LinksBefore(ps, n)| ==> Precedes(LinksBefore(ps, n)[k], LinksBefore(ps, n)[k'])
  {
    if n > 0 {
      LinksBeforeOrdered(ps, n - 1);
      LinksBeforeLinked(ps, n - 1);
      RowLinksLinked(ps, n - 1, |ps|);
      RowLinksOrdered(ps, n - 1, |ps|);
      var prev := LinksBefore(ps, n - 1);
      var row := RowLinks(ps, n - 1, |ps|);
      var all := LinksBefore(ps, n);
      assert all == prev + row;
      forall k, k' | 0 <= k < k' < |all|
        ensures Precedes(all[k], all[k'])
      {
        if k' < |prev| {
          assert all[k] == prev[k] && all[k'] == prev[k'];
        } else if k < |prev| {
          assert all[k] == prev[k] && all[k'] == row[k' - |prev|];
        } else {
          assert all[k] == row[k - |prev|] && all[k'] == row[k' - |prev|];
        }
      }
    }
  }

  lemma {:induction false} LinksBeforeComplete(ps: seq<Particle>, n: nat, a: nat, b: nat)
    requires a < n <= |ps| && a < b < |ps| && Dist2(ps[a], ps[b]) < LinkDist * LinkDist
    ensures exists k :: 0 <= k < |LinksBefore(ps, n)| && LinksBefore(ps, n)[k].i == a && LinksBefore(ps, n)[k].j == b
  {
    if a < n - 1 {
      LinksBeforeComplete(ps, n - 1, a, b);
      var prev := LinksBefore(ps, n - 1);
      var k :| 0 <= k < |prev| && prev[k].i == a && prev[k].j == b;
      EarlierRowKept(ps, n, k);
    } else {
      LastRowAdded(ps, n, b);
    }
  }

  lemma EarlierRowKept(ps: seq<Particle>, n: nat, k: nat)
    requires 0 < n <= |ps| && k < |LinksBefore(ps, n - 1)|
    ensures k < |LinksBefore(ps, n)| && LinksBefore(ps, n)[k] == LinksBefore(ps, n - 1)[k]
  {
  }

  lemma LastRowAdded(ps: seq<Particle>, n: nat, b: nat)
    requires 0 < n && n - 1 < b < |ps| && Dist2(ps[n - 1], ps[b]) < LinkDist * LinkDist
    ensures exists k :: 0 <= k < |LinksBefore(ps, n)| && LinksBefore(ps, n)[k].i == n - 1 && LinksBefore(ps, n)[k].j == b
  {
    var prev := LinksBefore(ps, n - 1);
    var row := RowLinks(ps, n - 1, |ps|);
    RowLinksComplete(ps, n - 1, |ps|, b);
    RowLinksFrom(ps, n - 1, |ps|);
    var k :| 0 <= k < |row| && row[k].j == b;
    assert LinksBefore(ps, n)[|prev| + k] == row[k];
  }

  /**
   * The lines of a frame are exactly the pairs closer than the link distance:
   * each line joins such a pair with the opacity for its distance, every such
   * pair gets a line, and lines come in strictly increasing pair order, so no
   * pair is stroked twice.
   */
  lemma LinksExact(ps: seq<Particle>)
    ensures forall k :: 0 <= k < |Links(ps)| ==> Linked(ps, Links(ps)[k])
    ensures forall a, b :: 0 <= a < b < |ps| && Dist2(ps[a], ps[b]) < LinkDist * LinkDist ==>
      exists k :: 0 <= k < |Links(ps)| && Links(ps)[k].i == a && Links(ps)[k].j == b
    ensures forall k, k' :: 0 <= k < k' < |Links(ps)| ==> Precedes(Links(ps)[k], Links(ps)[k'])
  {
    LinksBeforeLinked(ps, |ps|);
    LinksBeforeOrdered(ps, |ps|);
    forall a, b | 0 <= a < b < |ps| && Dist2(ps[a], ps[b]) < LinkDist * LinkDist
      ensures exists k :: 0 <= k < |Links(ps)| && Links(ps)[k].i == a && Links(ps)[k].j == b
    {
      LinksBeforeComplete(ps, |ps|, a, b);
      assert Links(ps) == LinksBefore(ps, |ps|);
    }
  }

  /** The nested loops of `step` that stroke the lines; nothing is changed. */
  method StrokeLinks(ps: seq<Particle>) returns (links: seq<Link>)
    ensures links == Links(ps)
  {
    var ld2 := LinkDist * LinkDist;
    links := [];
    var i := 0;
    while i < |ps|
      invariant 0 <= i <= |ps|
      invariant links == LinksBefore(ps, i)
    {
      var a := ps[i];
      var j := i + 1;
      while j < |ps|
        invariant i + 1 <= j <= |ps|
        invariant links == LinksBefore(ps, i) + RowLinks(ps, i, j)
      {
        var b := ps[j];
        var dx := a.x - b.x;
        var dy := a.y - b.y;
        var d2 := Square(dx) + Square(dy);
        if d2 < ld2 {
          var t := 1.0 - d2 / ld2;
          links := links + [Link(i, j, 0.06 * t)];
        }
        j := j + 1;
      }
      i := i + 1;
    }
  }

  /** Every stroked line has an opacity in (0, 0.06]. */
  lemma LinkAlphasInRange(ps: seq<Particle>)
    ensures forall k :: 0 <= k < |Links(ps)| ==> 0.0 < Links(ps)[k].alpha <= MaxLinkAlpha
  {
    LinksExact(ps);
    forall k | 0 <= k < |Links(ps)|
      ensures 0.0 < Links(ps)[k].alpha <= MaxLinkAlpha
    {
      var l := Links(ps)[k];
      Dist2NonNegative(ps[l.i], ps[l.j]);
      LinkAlphaRange(Dist2(ps[l.i], ps[l.j]));
    }
  }

  /** `window.matchMedia?.(...)?.matches`: `None` when matchMedia is unavailable. */
  predicate Reduced(prefersReducedMotion: Option<bool>) {
    prefersReducedMotion == Some(true)
  }

  /** The state the script's closure keeps: the canvas size and the dots. */
  class Animator {
    const dpr: real
    var W: int
    var H: int
    /** `canvas.width` and `canvas.height`. */
    var canvasWidth: int
    var canvasHeight: int
    var particles: seq<Particle>

    /** Sized to the canvas and seeded: every dot drifting inside the widened field. */
    predicate Valid()
      reads this
    {
      W >= 1 && H >= 1
      && canvasWidth == BackingExtent(W, dpr) && canvasHeight == BackingExtent(H, dpr)
      && |particles| == N
      && forall k :: 0 <= k < |particles| ==> InField(particles[k], W as real, H as real) && Drifting(particles[k])
    }

    /** The script's start, before the first `resize`; the canvas keeps the size the document gave it. */
    constructor (deviceRatio: Option<real>, canvasWidth: int, canvasHeight: int)
      ensures dpr == Dpr(deviceRatio) && W == 0 && H == 0 && particles == []
      ensures this.canvasWidth == canvasWidth && this.canvasHeight == canvasHeight
    {
      dpr := Dpr(deviceRatio);
      W, H := 0, 0;
      this.canvasWidth, this.canvasHeight := canvasWidth, canvasHeight;
      particles := [];
    }

    /** `resize`, given the canvas's measured CSS width and height. */
    method Resize(width: real, height: real)
      modifies this`W, this`H, this`canvasWidth, this`canvasHeight
      ensures W == LogicalExtent(width) && H == LogicalExtent(height)
      ensures canvasWidth == BackingExtent(W, dpr) && canvasHeight == BackingExtent(H, dpr)
    {
      W := LogicalExtent(width);
      H := LogicalExtent(height);
      canvasWidth := BackingExtent(W, dpr);
      canvasHeight := BackingExtent(H, dpr);
    }

    /** `seed`: empty the list, then push N fresh dots; `draws` are the `Math.random()` values in call order. */
    method Seed(draws: seq<real>)
      requires 6 * N <= |draws|
      modifies this`particles
      ensures particles == Seeded(W as real, H as real, draws, N)
    {
      particles := [];
      for i := 0 to N
        invariant particles == Seeded(W as real, H as real, draws, i)
      {
        particles := particles + [Spawn(W as real, H as real, draws[6 * i..6 * i + 6])];
      }
    }

    /** `resize(); seed();`: the start-up sequence and the window's resize listener. */
    method ResizeAndSeed(width: real, height: real, draws: seq<real>)
      requires 6 * N <= |draws|
      modifies this`W, this`H, this`canvasWidth, this`canvasHeight, this`particles
      ensures W == LogicalExtent(width) && H == LogicalExtent(height)
      ensures canvasWidth == BackingExtent(W, dpr) && canvasHeight == BackingExtent(H, dpr)
      ensures particles == Seeded(W as real, H as real, draws, N)
      ensures Uniform(draws) ==> Valid()
      ensures Uniform(draws) ==> forall k :: 0 <= k < N ==> OnCanvas(particles[k], W as real, H as real)
    {
      Resize(width, height);
      Seed(draws);
      if Uniform(draws) {
        SeededSpec(W as real, H as real, draws, N);
      }
    }

    /**
     * `step`: move every dot in place, then list the lines between close
     * pairs in the order the nested loops stroke them.
     */
    method Step() returns (links: seq<Link>)
      modifies this`particles
      ensures particles == AdvanceAll(old(particles), W as real, H as real)
      ensures links == Links(particles)
      ensures old(Valid()) ==> Valid()
    {
      var w, h := W as real, H as real;
      var i := 0;
      while i < |particles|
        invariant 0 <= i <= |particles| == |old(particles)|
        invariant forall k :: 0 <= k < i ==> particles[k] == Advance(old(particles)[k], w, h)
        invariant forall k :: i <= k < |particles| ==> particles[k] == old(particles)[k]
      {
        var p := particles[i];
        p := p.(x := p.x + p.vx, y := p.y + p.vy);
        if p.x < -Margin { p := p.(x := w + Margin); }
        if p.x > w + Margin { p := p.(x := -Margin); }
        if p.y < -Margin { p := p.(y := h + Margin); }
        if p.y > h + Margin { p := p.(y := -Margin); }
        particles := particles[i := p];
        i := i + 1;
      }
      assert particles == AdvanceAll(old(particles), w, h);
      if old(Valid()) {
        AdvanceAllSpec(old(particles), w, h);
      }

      links := StrokeLinks(particles);
    }
  }

  /**
   * The whole script: without a canvas it does nothing; otherwise it sizes
   * and seeds the field and draws a first frame unless the user prefers
   * reduced motion.
   */
  method Launch(hasCanvas: bool, deviceRatio: Option<real>, initialWidth: int, initialHeight: int,
                width: real, height: real, prefersReducedMotion: Option<bool>, draws: seq<real>)
    returns (animator: Animator?, frame: Option<seq<Link>>)
    requires 6 * N <= |draws|
    ensures hasCanvas <==> animator != null
    ensures animator == null ==> frame == None
    ensures animator != null ==>
      && fresh(animator)
      && animator.dpr == Dpr(deviceRatio)
      && animator.W == LogicalExtent(width) && animator.H == LogicalExtent(height)
      && animator.canvasWidth == BackingExtent(animator.W, animator.dpr)
      && animator.canvasHeight == BackingExtent(animator.H, animator.dpr)
      && (Uniform(draws) ==> animator.Valid())
      && var seeded := Seeded(animator.W as real, animator.H as real, draws, N);
         if Reduced(prefersReducedMotion) then
           frame == None && animator.particles == seeded
         else
           animator.particles == AdvanceAll(seeded, animator.W as real, animator.H as real)
           && frame == Some(Links(animator.particles))
  {
    if !hasCanvas {
      return null, None;
    }
    animator := new Animator(deviceRatio, initialWidth, initialHeight);
    animator.ResizeAndSeed(width, height, draws);
    if Reduced(prefersReducedMotion) {
      frame := None;
    } else {
      var links := animator.Step();
      frame := Some(links);
    }
  }
}
