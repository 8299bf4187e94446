/** Option, for look-ups that may find nothing. */
module Wrappers {
  datatype Option<+T> = None | Some(value: T)
}

/**
 * The render surfaces of the post-process pipeline (`PHsurface`, `PHviewport`)
 * and the integer halving that sizes them.
 */
module Surfaces {

  /** The fixed registry of surfaces, by name: the on-screen window, the full-size
      scene, the two half-size scene ping-pong surfaces and the two bloom pyramids. */
  datatype SurfaceId =
    | Window
    | SceneBase
    | ScenePass0
    | ScenePass1
    | BloomPass0(level: nat)
    | BloomPass1(level: nat)

  datatype Viewport = Viewport(x: int, y: int, width: int, height: int)

  /** A surface: its name, its size, its viewport and its framebuffer object
      (0 is the window system's own framebuffer). Clear colour, cached matrices,
      texture and depth handles are not modelled. */
  datatype Surface = Surface(id: SurfaceId, width: int, height: int, viewport: Viewport, fbo: nat)

  /** `s` is named `id`, is `w` by `h`, and its viewport covers exactly its own size. */
  predicate Sized(s: Surface, id: SurfaceId, w: int, h: int) {
    s.id == id && s.width == w && s.height == h && s.viewport == Viewport(0, 0, w, h)
  }

  /** The C shift `x >> k` on a signed size: k arithmetic halvings. Dafny's `/` by 2
      is floor division, which is what an arithmetic right shift computes. */
  function Shr(x: int, k: nat): int {
    if k == 0 then x else Shr(x, k - 1) / 2
  }

  function Pow2(k: nat): (r: nat)
    ensures r >= 1
  {
    if k == 0 then 1 else 2 * Pow2(k - 1)
  }

  /** Shifting by j and then by k is shifting by j + k. */
  lemma {:induction false} ShrShr(x: int, j: nat, k: nat)
    ensures Shr(Shr(x, j), k) == Shr(x, j + k)
  {
    if k > 0 {
      ShrShr(x, j, k - 1);
    }
  }

  /** A non-negative size never grows under halving and stays non-negative. */
  lemma {:induction false} ShrBounds(x: int, k: nat)
    requires 0 <= x
    ensures 0 <= Shr(x, k) <= x
  {
    if k > 0 {
      ShrBounds(x, k - 1);
    }
  }

  /** A size of at least 2^k survives k halvings as at least one pixel. */
  lemma {:induction false} ShrPositive(x: int, k: nat)
    requires x >= Pow2(k)
    ensures Shr(x, k) >= 1
  {
    if k > 0 {
      ShrPositive(x / 2, k - 1);
      ShrShr(x, 1, k - 1);
    }
  }

  /** Closed form of the halving: k shifts divide by 2^k, rounding down. */
  lemma {:induction false} ShrIsDivision(x: int, k: nat)
    ensures Shr(x, k) == x / Pow2(k)
  {
    if k > 0 {
      ShrIsDivision(x, k - 1);
      DivHalf(x, Pow2(k - 1));
    }
  }

  lemma DivHalf(x: int, a: int)
    requires a > 0
    ensures x / a / 2 == x / (2 * a)
  {
    var q, r := x / a, x % a;
    var q2, r2 := q / 2, q % 2;
    assert x == 2 * a * q2 + (a * r2 + r) by {
      assert x == a * q + r;
      assert q == 2 * q2 + r2;
    }
    assert 0 <= a * r2 + r < 2 * a by {
      assert r2 == 0 || r2 == 1;
    }
    DivUnique(x, 2 * a, q2, a * r2 + r);
  }

  lemma DivUnique(x: int, d: int, q: int, r: int)
    requires d > 0 && 0 <= r < d && x == d * q + r
    ensures x / d == q
  {
    var q', r' := x / d, x % d;
    assert d * (q - q') == r' - r;
    if q > q' {
      assert d * (q - q') >= d by { MulAtLeast(d, q - q'); }
    } else if q < q' {
      assert d * (q' - q) >= d by { MulAtLeast(d, q' - q); }
    }
  }

  lemma MulAtLeast(d: int, n: int)
    requires d > 0 && n >= 1
    ensures d * n >= d
  {
  }
}
