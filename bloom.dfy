/**
 * The bloom stage: two three-level surface pyramids, the separable blur over
 * paired surfaces, and the per-frame pass sequence that copies the scene into the
 * pyramid, blurs it horizontally then vertically and binds the combine inputs.
 */
module Bloom {
  import opened Wrappers
  import opened Surfaces
  import opened GL

  /** BLOOM_FILTER_COUNT: levels per pyramid. */
  const FilterCount: nat := 3

  datatype Direction = Horizontal | Vertical

  /** The uniform the per-surface offset is written to: after the look-ups `loc`
      names "offsety", and is moved to "offsetx" only for a horizontal pass. */
  function OffsetName(dir: Direction): UniformName {
    if dir == Horizontal then OffsetX else OffsetY
  }

  /** The source dimension the offset is divided by. */
  function Extent(s: Surface, dir: Direction): int {
    if dir == Horizontal then s.width else s.height
  }

  /** What texture unit 0 holds after `s` is bound on unit `a`, when it held `t0`
      before. The copy and filter programs sample unit 0. */
  function Via(a: nat, t0: Option<SurfaceId>, s: SurfaceId): Option<SurfaceId> {
    if a == 0 then Some(s) else t0
  }

  /** The filter program's uniforms once blur has set it up: sampler on unit 0,
      the kernel, both offsets 0. */
  function FilterSetup(u: map<UniformName, Uniform>): map<UniformName, Uniform> {
    u[Source := Int(0)][Coefficients := Kernel][OffsetX := Float(0.0)][OffsetY := Float(0.0)]
  }

  /** The offset uniform after `count` surfaces have been blurred. */
  function LastOffset(sources: seq<Surface>, count: nat, scale: real, dir: Direction): Uniform
    requires count <= |sources|
  {
    if count == 0 then Float(0.0) else Ratio(scale, Extent(sources[count - 1], dir))
  }

  /** The quad blur draws for surface pair p. */
  function BlurDraw(sources: seq<Surface>, dests: seq<Surface>, p: nat, scale: real, dir: Direction,
                    a: nat, t0: Option<SurfaceId>): Event
    requires p < |sources| && p < |dests|
  {
    var step := Ratio(scale, Extent(sources[p], dir));
    Drawn(Bound(dests[p].id, false), FilterProgram, [Via(a, t0, sources[p].id)],
          Some(if dir == Horizontal then step else Float(0.0)),
          Some(if dir == Vertical then step else Float(0.0)))
  }

  /** The quads blur draws for the first `count` pairs, in index order. */
  function BlurDraws(sources: seq<Surface>, dests: seq<Surface>, count: nat, scale: real, dir: Direction,
                     a: nat, t0: Option<SurfaceId>): seq<Event>
    requires count <= |sources| && count <= |dests|
  {
    if count == 0 then []
    else BlurDraws(sources, dests, count - 1, scale, dir, a, t0) + [BlurDraw(sources, dests, count - 1, scale, dir, a, t0)]
  }

  /** Blur draws exactly one quad per pair, pair p at position p. */
  lemma {:induction false} BlurDrawsAt(sources: seq<Surface>, dests: seq<Surface>, count: nat, scale: real,
                                       dir: Direction, a: nat, t0: Option<SurfaceId>)
    requires count <= |sources| && count <= |dests|
    ensures |BlurDraws(sources, dests, count, scale, dir, a, t0)| == count
    ensures forall p :: 0 <= p < count ==>
              BlurDraws(sources, dests, count, scale, dir, a, t0)[p] == BlurDraw(sources, dests, p, scale, dir, a, t0)
  {
    if count > 0 {
      BlurDrawsAt(sources, dests, count - 1, scale, dir, a, t0);
    }
  }

  /** Pass p of a blur renders into dests[p] alone and, with unit 0 active, reads
      sources[p] alone: destination p depends on source p only. */
  lemma BlurPairsLevels(sources: seq<Surface>, dests: seq<Surface>, count: nat, scale: real,
                        dir: Direction, t0: Option<SurfaceId>)
    requires count <= |sources| && count <= |dests|
    ensures var draws := BlurDraws(sources, dests, count, scale, dir, 0, t0);
            |draws| == count &&
            forall p :: 0 <= p < count ==>
              draws[p].Drawn? && draws[p].program == FilterProgram &&
              draws[p].target == Bound(dests[p].id, false) && draws[p].sampled == [Some(sources[p].id)]
  {
    BlurDrawsAt(sources, dests, count, scale, dir, 0, t0);
  }

  /** A horizontal pass feeds "offsetx" with scale / width of the source and keeps
      "offsety" at 0; a vertical pass feeds "offsety" with scale / height and keeps
      "offsetx" at 0. */
  lemma BlurOffsetAxis(sources: seq<Surface>, dests: seq<Surface>, count: nat, scale: real,
                       dir: Direction, a: nat, t0: Option<SurfaceId>)
    requires count <= |sources| && count <= |dests|
    ensures var draws := BlurDraws(sources, dests, count, scale, dir, a, t0);
            |draws| == count &&
            forall p :: 0 <= p < count ==>
              draws[p].Drawn? &&
              (dir == Horizontal ==> draws[p].offsetX == Some(Ratio(scale, sources[p].width))
                                     && draws[p].offsetY == Some(Float(0.0))) &&
              (dir == Vertical ==> draws[p].offsetY == Some(Ratio(scale, sources[p].height))
                                   && draws[p].offsetX == Some(Float(0.0)))
  {
    BlurDrawsAt(sources, dests, count, scale, dir, a, t0);
  }

  /** blur: for p = 0 .. count-1 in order, bind dests[p] (not multisampled), bind
      sources[p]'s texture and draw one quad through the filter program. */
  method Blur(gl: Context, sources: seq<Surface>, dests: seq<Surface>, count: nat, scale: real, dir: Direction)
    requires count <= |sources| && count <= |dests|
    modifies gl
    ensures var u := old(gl.st.uniforms)[FilterProgram :=
              FilterSetup(old(gl.st.UniformsOf(FilterProgram)))[OffsetName(dir) := LastOffset(sources, count, scale, dir)]];
            var log := old(gl.st.log) + BlurDraws(sources, dests, count, scale, dir, old(gl.st.activeUnit), Lookup(old(gl.st.textures), 0));
            if count == 0 then gl.st == old(gl.st).(program := FilterProgram, uniforms := u, log := log)
            else gl.st == old(gl.st).(program := FilterProgram, uniforms := u, log := log,
                                      target := Bound(dests[count - 1].id, false), viewport := dests[count - 1].viewport,
                                      textures := old(gl.st.textures)[old(gl.st.activeUnit) := sources[count - 1].id])
  {
    SetUpFilter(gl);
    var loc := OffsetY;
    if dir == Horizontal {
      loc := OffsetX;
    }
    ghost var start := gl.st;
    ghost var base := old(gl.st.UniformsOf(FilterProgram));
    assert FilterSetup(base)[loc := Float(0.0)] == FilterSetup(base);
    var p := 0;
    while p < count
      invariant 0 <= p <= count
      invariant gl.st == BlurredState(start, sources, dests, p, scale, dir)
    {
      BlurredStep(start, sources, dests, p, scale, dir, base);
      BlurQuad(gl, sources, dests, p, scale, dir, loc, base, Lookup(start.textures, 0));
      p := p + 1;
    }
  }

  /** What one more iteration of blur's loop adds to BlurredState, and what
      BlurQuad needs to know of the state before it. */
  lemma BlurredStep(s: State, sources: seq<Surface>, dests: seq<Surface>, p: nat, scale: real, dir: Direction,
                    base: map<UniformName, Uniform>)
    requires p < |sources| && p < |dests|
    requires s.UniformsOf(FilterProgram) == FilterSetup(base)
    requires FilterSetup(base)[OffsetName(dir) := Float(0.0)] == FilterSetup(base)
    ensures var b := BlurredState(s, sources, dests, p, scale, dir);
            && b.program == s.program && b.activeUnit == s.activeUnit
            && b.UniformsOf(FilterProgram) == FilterSetup(base)[OffsetName(dir) := LastOffset(sources, p, scale, dir)]
            && (s.activeUnit == 0 || Lookup(b.textures, 0) == Lookup(s.textures, 0))
            && BlurredState(s, sources, dests, p + 1, scale, dir)
               == b.(log := b.log + [BlurDraw(sources, dests, p, scale, dir, s.activeUnit, Lookup(s.textures, 0))],
                     uniforms := b.uniforms[FilterProgram := FilterSetup(base)[OffsetName(dir) := LastOffset(sources, p + 1, scale, dir)]],
                     target := Bound(dests[p].id, false), viewport := dests[p].viewport,
                     textures := b.textures[s.activeUnit := sources[p].id])
  {
    var loc := OffsetName(dir);
    var next := FilterSetup(base)[loc := LastOffset(sources, p + 1, scale, dir)];
    var draws := BlurDraws(sources, dests, p, scale, dir, s.activeUnit, Lookup(s.textures, 0));
    var draw := BlurDraw(sources, dests, p, scale, dir, s.activeUnit, Lookup(s.textures, 0));
    assert s.log + (draws + [draw]) == s.log + draws + [draw];
    if p == 0 {
      assert draws + [draw] == [draw];
    } else {
      var u := s.UniformsOf(FilterProgram)[loc := LastOffset(sources, p, scale, dir)];
      assert s.uniforms[FilterProgram := u][FilterProgram := next] == s.uniforms[FilterProgram := next];
      assert s.textures[s.activeUnit := sources[p - 1].id][s.activeUnit := sources[p].id]
             == s.textures[s.activeUnit := sources[p].id];
    }
  }

  /** The GL state once blur's loop has run `p` times from `s`, the state its
      set-up left: p quads logged, the offset of pair p-1 in the filter program,
      dests[p-1] bound for drawing and sources[p-1] on the active unit. */
  ghost function BlurredState(s: State, sources: seq<Surface>, dests: seq<Surface>, p: nat, scale: real, dir: Direction): State
    requires p <= |sources| && p <= |dests|
  {
    if p == 0 then s
    else s.(log := s.log + BlurDraws(sources, dests, p, scale, dir, s.activeUnit, Lookup(s.textures, 0)),
            uniforms := s.uniforms[FilterProgram := s.UniformsOf(FilterProgram)[OffsetName(dir) := LastOffset(sources, p, scale, dir)]],
            target := Bound(dests[p - 1].id, false), viewport := dests[p - 1].viewport,
            textures := s.textures[s.activeUnit := sources[p - 1].id])
  }

  /** The set-up half of blur: select the filter program, sample unit 0, load the
      kernel and zero both offsets. */
  method SetUpFilter(gl: Context)
    modifies gl
    ensures gl.st == old(gl.st).(program := FilterProgram,
                                 uniforms := old(gl.st.uniforms)[FilterProgram := FilterSetup(old(gl.st.UniformsOf(FilterProgram)))])
  {
    gl.UseProgram(FilterProgram);
    gl.SetUniform(Source, Int(0));
    gl.SetUniform(Coefficients, Kernel);
    gl.SetUniform(OffsetX, Float(0.0));
    gl.SetUniform(OffsetY, Float(0.0));
  }

  /** One iteration of blur's loop: write the offset for source p to the offset
      uniform, render into dests[p] from sources[p]'s texture, draw the quad. */
  method BlurQuad(gl: Context, sources: seq<Surface>, dests: seq<Surface>, p: nat, scale: real, dir: Direction,
                  loc: UniformName, ghost base: map<UniformName, Uniform>, ghost t0: Option<SurfaceId>)
    requires p < |sources| && p < |dests| && loc == OffsetName(dir)
    requires gl.st.program == FilterProgram
    requires gl.st.UniformsOf(FilterProgram) == FilterSetup(base)[loc := LastOffset(sources, p, scale, dir)]
    requires gl.st.activeUnit == 0 || Lookup(gl.st.textures, 0) == t0
    modifies gl
    ensures gl.st == old(gl.st).(log := old(gl.st.log) + [BlurDraw(sources, dests, p, scale, dir, old(gl.st.activeUnit), t0)],
                                 uniforms := old(gl.st.uniforms)[FilterProgram := FilterSetup(base)[loc := LastOffset(sources, p + 1, scale, dir)]],
                                 target := Bound(dests[p].id, false), viewport := dests[p].viewport,
                                 textures := old(gl.st.textures)[old(gl.st.activeUnit) := sources[p].id])
  {
    var offset2: Uniform;
    if dir == Horizontal {
      offset2 := Ratio(scale, sources[p].width);
    }
    if dir == Vertical {
      offset2 := Ratio(scale, sources[p].height);
    }
    assert offset2 == LastOffset(sources, p + 1, scale, dir);
    assert FilterSetup(base)[loc := LastOffset(sources, p, scale, dir)][loc := offset2] == FilterSetup(base)[loc := offset2];
    gl.SetUniform(loc, offset2);
    gl.BindSurface(dests[p], false);
    gl.BindTexture(sources[p].id);
    SetupView(base, loc, offset2);
    gl.DrawQuad();
  }

  /** What the filter program reads once blur has set it up and written `v` to `loc`. */
  lemma SetupView(u: map<UniformName, Uniform>, loc: UniformName, v: Uniform)
    requires loc == OffsetX || loc == OffsetY
    ensures var m := FilterSetup(u)[loc := v];
            && Lookup(m, Source) == Some(Int(0))
            && Lookup(m, OffsetX) == Some(if loc == OffsetX then v else Float(0.0))
            && Lookup(m, OffsetY) == Some(if loc == OffsetY then v else Float(0.0))
  {
  }

  /** Blur's quads depend on what unit 0 held before only when another unit is active. */
  lemma {:induction false} BlurDrawsView(sources: seq<Surface>, dests: seq<Surface>, count: nat, scale: real,
                                         dir: Direction, a: nat, t1: Option<SurfaceId>, t2: Option<SurfaceId>)
    requires count <= |sources| && count <= |dests|
    requires a == 0 || t1 == t2
    ensures BlurDraws(sources, dests, count, scale, dir, a, t1) == BlurDraws(sources, dests, count, scale, dir, a, t2)
  {
    if count > 0 {
      BlurDrawsView(sources, dests, count - 1, scale, dir, a, t1, t2);
    }
  }

  /** The combine shader's "Scene" input: the blurred half-size scene when a world
      is loaded and the view is in water, else the full-size scene. */
  function CombineScene(worldLoaded: bool, underwater: bool): SurfaceId {
    if worldLoaded && underwater then ScenePass0 else SceneBase
  }

  /** Texture units 0 .. n-1. */
  function UnitsBelow(n: nat): (r: set<nat>)
    ensures forall u: nat :: u in r <==> u < n
  {
    if n == 0 then {} else UnitsBelow(n - 1) + {n - 1}
  }

  /** `t` with level p of `s0` bound on unit p, for p < n. */
  function PassUnits(t: map<nat, SurfaceId>, s0: seq<Surface>, n: nat): map<nat, SurfaceId>
    requires n <= |s0|
  {
    if n == 0 then t else PassUnits(t, s0, n - 1)[n - 1 := s0[n - 1].id]
  }

  /** `u` with sampler "Pass p" set to unit p, for p < n. */
  function PassSamplers(u: map<UniformName, Uniform>, n: nat): map<UniformName, Uniform> {
    if n == 0 then u else PassSamplers(u, n - 1)[PassSampler(n - 1) := Int(n - 1)]
  }

  /** The quads drawn to fan level 0 out into levels 1 .. n-1, all from level 0. */
  function Downsample(s0: seq<Surface>, n: nat): seq<Event>
    requires 1 <= |s0| && n <= |s0|
  {
    if n <= 1 then []
    else Downsample(s0, n - 1) + [Drawn(Bound(s0[n - 1].id, false), FixedFunction, [Some(s0[0].id)], None, None)]
  }

  /** The first quad of R_Bloom_Process: the scene copied into `dest` by the pass program. */
  function CopyDraw(dest: Surface, a: nat, t0: Option<SurfaceId>): Event {
    Drawn(Bound(dest.id, false), PassProgram, [Via(a, t0, SceneBase)], None, None)
  }

  /** Everything R_Bloom_Process draws, in order: the copy of the scene into level 0,
      the fan-out downsample, the horizontal blur pass0 to pass1, the vertical blur
      pass1 to pass0. */
  function ProcessDraws(s0: seq<Surface>, s1: seq<Surface>, a: nat, t0: Option<SurfaceId>): seq<Event>
    requires |s0| == FilterCount && |s1| == FilterCount
  {
    [CopyDraw(s0[0], a, t0)]
    + Downsample(s0, FilterCount)
    + BlurDraws(s0, s1, FilterCount, 1.0, Horizontal, a, t0)
    + BlurDraws(s1, s0, FilterCount, 1.0, Vertical, a, t0)
  }

  /** With unit 0 active, R_Bloom_Process draws nine quads in a fixed order: the
      scene into level 0 of pass0; level 0 into levels 1 and 2 (a fan-out, not a
      chain); pass0[p] into pass1[p] horizontally for p = 0, 1, 2; pass1[p] back into
      pass0[p] vertically for p = 0, 1, 2. Every blur quad reads exactly its own
      source level. */
  lemma ProcessOrder(s0: seq<Surface>, s1: seq<Surface>, t0: Option<SurfaceId>)
    requires |s0| == FilterCount && |s1| == FilterCount
    ensures var d := ProcessDraws(s0, s1, 0, t0);
            && |d| == 9
            && d[0] == Drawn(Bound(s0[0].id, false), PassProgram, [Some(SceneBase)], None, None)
            && d[1] == Drawn(Bound(s0[1].id, false), FixedFunction, [Some(s0[0].id)], None, None)
            && d[2] == Drawn(Bound(s0[2].id, false), FixedFunction, [Some(s0[0].id)], None, None)
            && (forall p :: 0 <= p < FilterCount ==>
                  d[3..6][p] == Drawn(Bound(s1[p].id, false), FilterProgram, [Some(s0[p].id)],
                                      Some(Ratio(1.0, s0[p].width)), Some(Float(0.0))))
            && (forall p :: 0 <= p < FilterCount ==>
                  d[6..9][p] == Drawn(Bound(s0[p].id, false), FilterProgram, [Some(s1[p].id)],
                                      Some(Float(0.0)), Some(Ratio(1.0, s1[p].height))))
  {
    var d := ProcessDraws(s0, s1, 0, t0);
    var h := BlurDraws(s0, s1, FilterCount, 1.0, Horizontal, 0, t0);
    var v := BlurDraws(s1, s0, FilterCount, 1.0, Vertical, 0, t0);
    BlurDrawsAt(s0, s1, FilterCount, 1.0, Horizontal, 0, t0);
    BlurDrawsAt(s1, s0, FilterCount, 1.0, Vertical, 0, t0);
    var down := Downsample(s0, FilterCount);
    assert Downsample(s0, 2) == [Drawn(Bound(s0[1].id, false), FixedFunction, [Some(s0[0].id)], None, None)];
    assert down == [Drawn(Bound(s0[1].id, false), FixedFunction, [Some(s0[0].id)], None, None),
                    Drawn(Bound(s0[2].id, false), FixedFunction, [Some(s0[0].id)], None, None)];
    assert d == [d[0]] + down + h + v;
    assert d[3..6] == h && d[6..9] == v;
  }

  /** The surfaces created, in order. */
  function CreatedAll(ss: seq<Surface>): seq<Event> {
    if ss == [] then [] else CreatedAll(ss[..|ss| - 1]) + [Created(ss[|ss| - 1])]
  }

  /** The name of level p of pyramid 0 or 1. */
  function LevelId(second: bool, p: nat): SurfaceId {
    if second then BloomPass1(p) else BloomPass0(p)
  }

  /** One pyramid of R_Bloom_Init: level p is `width0 >> p` by `height0 >> p` with a
      viewport of the same size, created in level order. */
  method BuildPyramid(gl: Context, level: array<Surface>, second: bool, width0: int, height0: int)
    requires level.Length == FilterCount
    modifies gl, level
    ensures forall p :: 0 <= p < FilterCount ==> Sized(level[p], LevelId(second, p), Shr(width0, p), Shr(height0, p))
    ensures forall p :: 0 <= p < FilterCount ==> level[p].fbo == old(gl.st.handles) + p + 1
    ensures gl.st.log == old(gl.st.log) + CreatedAll(level[..])
    ensures gl.st.handles == old(gl.st.handles) + FilterCount
    ensures BindingsKept(old(gl.st), gl.st)
  {
    var width := width0;
    var height := height0;
    var p := 0;
    while p < FilterCount
      invariant 0 <= p <= FilterCount
      invariant width == Shr(width0, p) && height == Shr(height0, p)
      invariant forall q :: 0 <= q < p ==> Sized(level[q], LevelId(second, q), Shr(width0, q), Shr(height0, q))
      invariant forall q :: 0 <= q < p ==> level[q].fbo == old(gl.st.handles) + q + 1
      invariant gl.st.log == old(gl.st.log) + CreatedAll(level[..p])
      invariant gl.st.handles == old(gl.st.handles) + p
      invariant BindingsKept(old(gl.st), gl.st)
    {
      var s := gl.CreateSurface(Surface(LevelId(second, p), width, height, Viewport(0, 0, width, height), 0));
      ghost var before := level[..p];
      level[p] := s;
      assert level[..p + 1] == before + [s];
      width := width / 2;
      height := height / 2;
      p := p + 1;
    }
    assert level[..FilterCount] == level[..];
  }

  /** The copy pass of R_Bloom_Process: draw the scene through the pass program
      into `dest`, then return to the fixed function pipeline. */
  method CopyScene(gl: Context, dest: Surface)
    modifies gl
    ensures gl.st == old(gl.st).(log := old(gl.st.log) + [CopyDraw(dest, old(gl.st.activeUnit), Lookup(old(gl.st.textures), 0))],
                                 program := FixedFunction,
                                 textures := old(gl.st.textures)[old(gl.st.activeUnit) := SceneBase],
                                 enabled := old(gl.st.enabled) + {old(gl.st.activeUnit)},
                                 target := Bound(dest.id, false), viewport := dest.viewport,
                                 uniforms := old(gl.st.uniforms)[PassProgram := old(gl.st.UniformsOf(PassProgram))[Source := Int(0)]])
  {
    gl.UseProgram(PassProgram);
    gl.SetUniform(Source, Int(0));
    gl.EnableTexturing();
    gl.BindTexture(SceneBase);
    gl.BindSurface(dest, false);
    gl.DrawQuad();
    gl.UseProgram(FixedFunction);
  }

  /** The downsample of R_Bloom_Process: with level 0's texture bound, draw one quad
      into each of levels 1 .. n-1. */
  method DownsampleFrom(gl: Context, s0: seq<Surface>)
    requires |s0| == FilterCount && gl.st.program == FixedFunction
    modifies gl
    ensures gl.st == old(gl.st).(log := old(gl.st.log) + Downsample(s0, FilterCount),
                                 textures := old(gl.st.textures)[old(gl.st.activeUnit) := s0[0].id],
                                 enabled := old(gl.st.enabled) + {old(gl.st.activeUnit)},
                                 target := Bound(s0[FilterCount - 1].id, false), viewport := s0[FilterCount - 1].viewport)
  {
    gl.EnableTexturing();
    gl.BindTexture(s0[0].id);
    ghost var start := gl.st;
    var p := 1;
    while p < FilterCount
      invariant 1 <= p <= FilterCount
      invariant p == 1 ==> gl.st == start
      invariant p > 1 ==> gl.st == start.(log := old(gl.st.log) + Downsample(s0, p),
                                          target := Bound(s0[p - 1].id, false), viewport := s0[p - 1].viewport)
    {
      gl.BindSurface(s0[p], false);
      gl.DrawQuad();
      p := p + 1;
    }
  }

  /** The copy of the scene into level 0 of `s0`, then the downsample from it. */
  method CopyAndDownsample(gl: Context, s0: seq<Surface>)
    requires |s0| == FilterCount
    modifies gl
    ensures gl.st == old(gl.st).(log := old(gl.st.log) + [CopyDraw(s0[0], old(gl.st.activeUnit), Lookup(old(gl.st.textures), 0))]
                                          + Downsample(s0, FilterCount),
                                 program := FixedFunction,
                                 textures := old(gl.st.textures)[old(gl.st.activeUnit) := s0[0].id],
                                 enabled := old(gl.st.enabled) + {old(gl.st.activeUnit)},
                                 target := Bound(s0[FilterCount - 1].id, false), viewport := s0[FilterCount - 1].viewport,
                                 uniforms := old(gl.st.uniforms)[PassProgram := old(gl.st.UniformsOf(PassProgram))[Source := Int(0)]])
  {
    CopyScene(gl, s0[0]);
    DownsampleFrom(gl, s0);
  }

  /** The drawing half of R_Bloom_Process: the copy, the downsample and the two
      blur passes, ending with the filter program selected. */
  method FilterPasses(gl: Context, s0: seq<Surface>, s1: seq<Surface>)
    requires |s0| == FilterCount && |s1| == FilterCount
    modifies gl
    ensures gl.st == old(gl.st).(log := old(gl.st.log) + ProcessDraws(s0, s1, old(gl.st.activeUnit), Lookup(old(gl.st.textures), 0)),
                                 program := FilterProgram,
                                 textures := old(gl.st.textures)[old(gl.st.activeUnit) := s1[FilterCount - 1].id],
                                 enabled := old(gl.st.enabled) + {old(gl.st.activeUnit)},
                                 target := Bound(s0[FilterCount - 1].id, false), viewport := s0[FilterCount - 1].viewport,
                                 uniforms := old(gl.st.uniforms)
                                   [PassProgram := old(gl.st.UniformsOf(PassProgram))[Source := Int(0)]]
                                   [FilterProgram := FilterSetup(old(gl.st.UniformsOf(FilterProgram)))[OffsetY := Ratio(1.0, s1[FilterCount - 1].height)]])
  {
    ghost var a, t0 := gl.st.activeUnit, Lookup(gl.st.textures, 0);
    CopyAndDownsample(gl, s0);
    ghost var t1 := Lookup(gl.st.textures, 0);
    assert gl.st.UniformsOf(FilterProgram) == old(gl.st.UniformsOf(FilterProgram));
    BlurBothWays(gl, s0, s1, FilterCount, 1.0);
    BlurDrawsView(s0, s1, FilterCount, 1.0, Horizontal, a, t1, t0);
    BlurDrawsView(s1, s0, FilterCount, 1.0, Vertical, a, t1, t0);
    assert old(gl.st.textures)[a := s0[0].id][a := s1[FilterCount - 1].id] == old(gl.st.textures)[a := s1[FilterCount - 1].id];
    assert old(gl.st.log) + ProcessDraws(s0, s1, a, t0)
           == old(gl.st.log) + [CopyDraw(s0[0], a, t0)] + Downsample(s0, FilterCount)
              + BlurDraws(s0, s1, FilterCount, 1.0, Horizontal, a, t0) + BlurDraws(s1, s0, FilterCount, 1.0, Vertical, a, t0);
  }

  /** Two blur passes over `count` surface pairs: `s0` into `s1` horizontally, then
      `s1` back into `s0` vertically, both with offset `scale`. */
  method BlurBothWays(gl: Context, s0: seq<Surface>, s1: seq<Surface>, count: nat, scale: real)
    requires 0 < count <= |s0| && count <= |s1|
    modifies gl
    ensures gl.st == old(gl.st).(log := old(gl.st.log)
                                   + BlurDraws(s0, s1, count, scale, Horizontal, old(gl.st.activeUnit), Lookup(old(gl.st.textures), 0))
                                   + BlurDraws(s1, s0, count, scale, Vertical, old(gl.st.activeUnit), Lookup(old(gl.st.textures), 0)),
                                 program := FilterProgram,
                                 textures := old(gl.st.textures)[old(gl.st.activeUnit) := s1[count - 1].id],
                                 target := Bound(s0[count - 1].id, false), viewport := s0[count - 1].viewport,
                                 uniforms := old(gl.st.uniforms)
                                   [FilterProgram := FilterSetup(old(gl.st.UniformsOf(FilterProgram)))[OffsetY := Ratio(scale, s1[count - 1].height)]])
  {
    ghost var a, t0 := gl.st.activeUnit, Lookup(gl.st.textures, 0);
    Blur(gl, s0, s1, count, scale, Horizontal);
    ghost var t1 := Lookup(gl.st.textures, 0);
    ghost var filterH := gl.st.UniformsOf(FilterProgram);
    Blur(gl, s1, s0, count, scale, Vertical);
    BlurDrawsView(s1, s0, count, scale, Vertical, a, t1, t0);
    assert FilterSetup(filterH) == FilterSetup(old(gl.st.UniformsOf(FilterProgram)));
  }

  /** The combine set-up of R_Bloom_Process: level p of `s0` on unit p, enabled, and
      named by the combine program's sampler "Pass p". */
  method BindCombineInputs(gl: Context, s0: seq<Surface>)
    requires |s0| == FilterCount
    modifies gl
    ensures gl.st == old(gl.st).(program := CombineProgram, activeUnit := FilterCount - 1,
                                 textures := PassUnits(old(gl.st.textures), s0, FilterCount),
                                 enabled := old(gl.st.enabled) + UnitsBelow(FilterCount),
                                 uniforms := old(gl.st.uniforms)[CombineProgram := PassSamplers(old(gl.st.UniformsOf(CombineProgram)), FilterCount)])
  {
    gl.UseProgram(CombineProgram);
    var p := 0;
    while p < FilterCount
      invariant 0 <= p <= FilterCount
      invariant p == 0 ==> gl.st == old(gl.st).(program := CombineProgram)
      invariant p > 0 ==> gl.st == old(gl.st).(program := CombineProgram, activeUnit := p - 1,
                                               textures := PassUnits(old(gl.st.textures), s0, p),
                                               enabled := old(gl.st.enabled) + UnitsBelow(p),
                                               uniforms := old(gl.st.uniforms)[CombineProgram := PassSamplers(old(gl.st.UniformsOf(CombineProgram)), p)])
    {
      gl.ActiveTexture(p);
      gl.EnableTexturing();
      gl.BindTexture(s0[p].id);
      gl.SetUniform(PassSampler(p), Int(p));
      p := p + 1;
    }
  }

  /** The combine half of R_Bloom_Process: the combine program with level p of
      `s0` on unit p as "Pass p", and on unit 3, as "Scene", the blurred half-size
      scene when `inWater`, else the full-size scene. */
  method CombineSetUp(gl: Context, s0: seq<Surface>, inWater: bool)
    requires |s0| == FilterCount
    modifies gl
    ensures gl.st == old(gl.st).(program := CombineProgram, activeUnit := FilterCount,
                                 textures := old(gl.st.textures)[0 := s0[0].id][1 := s0[1].id][2 := s0[2].id]
                                               [3 := if inWater then ScenePass0 else SceneBase],
                                 enabled := old(gl.st.enabled) + {0, 1, 2, 3},
                                 uniforms := old(gl.st.uniforms)[CombineProgram := old(gl.st.UniformsOf(CombineProgram))
                                   [PassSampler(0) := Int(0)][PassSampler(1) := Int(1)][PassSampler(2) := Int(2)][SceneSampler := Int(3)]])
    ensures gl.st.Sampled() == [Some(s0[0].id), Some(s0[1].id), Some(s0[2].id), Some(if inWater then ScenePass0 else SceneBase)]
  {
    BindCombineInputs(gl, s0);
    // unit 3: the scene, blurred or plain
    gl.ActiveTexture(FilterCount);
    if inWater {
      gl.BindTexture(ScenePass0);
    } else {
      gl.BindTexture(SceneBase);
    }
    gl.EnableTexturing();
    gl.SetUniform(SceneSampler, Int(FilterCount));
    ghost var c := old(gl.st.UniformsOf(CombineProgram));
    CombineUnrolled(old(gl.st.textures), c, s0);
    CombineView(gl.st, c, old(gl.st.textures), s0, if inWater then ScenePass0 else SceneBase);
  }

  /** The combine loop's three iterations written out. */
  lemma CombineUnrolled(t: map<nat, SurfaceId>, c: map<UniformName, Uniform>, s0: seq<Surface>)
    requires |s0| == FilterCount
    ensures UnitsBelow(FilterCount) == {0, 1, 2}
    ensures PassUnits(t, s0, FilterCount) == t[0 := s0[0].id][1 := s0[1].id][2 := s0[2].id]
    ensures PassSamplers(c, FilterCount) == c[PassSampler(0) := Int(0)][PassSampler(1) := Int(1)][PassSampler(2) := Int(2)]
  {
    assert PassUnits(t, s0, 1) == t[0 := s0[0].id];
    assert PassUnits(t, s0, 2) == t[0 := s0[0].id][1 := s0[1].id];
    assert PassSamplers(c, 1) == c[PassSampler(0) := Int(0)];
    assert PassSamplers(c, 2) == c[PassSampler(0) := Int(0)][PassSampler(1) := Int(1)];
  }

  /** With the samplers "Pass p" on unit p and "Scene" on unit 3, the combine program
      reads the textures bound on units 0 to 3. */
  lemma CombineView(st: State, c: map<UniformName, Uniform>, t: map<nat, SurfaceId>, s0: seq<Surface>, scene: SurfaceId)
    requires |s0| == FilterCount && st.program == CombineProgram
    requires st.UniformsOf(CombineProgram) == c[PassSampler(0) := Int(0)][PassSampler(1) := Int(1)][PassSampler(2) := Int(2)][SceneSampler := Int(3)]
    requires st.textures == t[0 := s0[0].id][1 := s0[1].id][2 := s0[2].id][3 := scene]
    ensures st.Sampled() == [Some(s0[0].id), Some(s0[1].id), Some(s0[2].id), Some(scene)]
  {
    var u := st.UniformsOf(CombineProgram);
    assert Lookup(u, PassSampler(0)) == Some(Int(0)) && Lookup(u, PassSampler(1)) == Some(Int(1));
    assert Lookup(u, PassSampler(2)) == Some(Int(2)) && Lookup(u, SceneSampler) == Some(Int(3));
    assert Lookup(st.textures, 0) == Some(s0[0].id) && Lookup(st.textures, 1) == Some(s0[1].id);
    assert Lookup(st.textures, 2) == Some(s0[2].id) && Lookup(st.textures, 3) == Some(scene);
  }

  class BloomStage {
    const pass0: array<Surface>
    const pass1: array<Surface>
    var initialized: bool          // bloom_initialized
    var bloomCvar: real            // gl_bloom.value
    ghost var displayWidth: int    // glwidth and glheight when the pyramids were built
    ghost var displayHeight: int

    /** Level p of pass0 is (W >> 1) >> p by (H >> 1) >> p, level p of pass1 is
        W >> p by H >> p, each with a viewport of its own size. */
    ghost predicate PyramidsSized(w: int, h: int)
      reads this, pass0, pass1
      requires pass0.Length == FilterCount && pass1.Length == FilterCount
    {
      forall p :: 0 <= p < FilterCount ==>
        Sized(pass0[p], BloomPass0(p), Shr(Shr(w, 1), p), Shr(Shr(h, 1), p)) &&
        Sized(pass1[p], BloomPass1(p), Shr(w, p), Shr(h, p))
    }

    ghost predicate Valid()
      reads this, pass0, pass1
    {
      && pass0.Length == FilterCount && pass1.Length == FilterCount && pass0 != pass1
      && (initialized ==> PyramidsSized(displayWidth, displayHeight))
    }

    /** Both pyramids have BLOOM_FILTER_COUNT levels. */
    predicate Shaped() {
      pass0.Length == FilterCount && pass1.Length == FilterCount
    }

    /** The per-frame stages run only once the pyramids exist and gl_bloom is on. */
    predicate Active()
      reads this
    {
      initialized && bloomCvar != 0.0
    }

    /** Each pyramid level is the floor-half of the level before it, and level p of
        pass0 is exactly as large as level p + 1 of pass1: pass1 starts at full size,
        pass0 at half size. */
    lemma PyramidHalving()
      requires Valid() && initialized
      ensures forall p :: 0 < p < FilterCount ==>
                && pass0[p].width == pass0[p - 1].width / 2 && pass0[p].height == pass0[p - 1].height / 2
                && pass1[p].width == pass1[p - 1].width / 2 && pass1[p].height == pass1[p - 1].height / 2
      ensures forall p :: 0 <= p < FilterCount - 1 ==>
                pass0[p].width == pass1[p + 1].width && pass0[p].height == pass1[p + 1].height
    {
      forall p | 0 <= p < FilterCount - 1
        ensures pass0[p].width == pass1[p + 1].width && pass0[p].height == pass1[p + 1].height
      {
        ShrShr(displayWidth, 1, p);
        ShrShr(displayHeight, 1, p);
      }
    }

    /** A display of at least 8 by 8 pixels gives every level of both pyramids at
        least one pixel each way; the smallest level is the display shifted by 3. */
    lemma PyramidsNonEmpty()
      requires Valid() && initialized && displayWidth >= 8 && displayHeight >= 8
      ensures forall p :: 0 <= p < FilterCount ==>
                pass0[p].width >= 1 && pass0[p].height >= 1 && pass1[p].width >= 1 && pass1[p].height >= 1
    {
      forall p | 0 <= p < FilterCount
        ensures pass0[p].width >= 1 && pass0[p].height >= 1 && pass1[p].width >= 1 && pass1[p].height >= 1
      {
        ShrShr(displayWidth, 1, p);
        ShrShr(displayHeight, 1, p);
        ShrPositive(displayWidth, p + 1);
        ShrPositive(displayHeight, p + 1);
        ShrPositive(displayWidth, p);
        ShrPositive(displayHeight, p);
      }
    }

    constructor ()
      ensures Valid() && fresh(pass0) && fresh(pass1)
      ensures !initialized && bloomCvar == 1.0
    {
      pass0 := new Surface[FilterCount](_ => Surface(BloomPass0(0), 0, 0, Viewport(0, 0, 0, 0), 0));
      pass1 := new Surface[FilterCount](_ => Surface(BloomPass1(0), 0, 0, Viewport(0, 0, 0, 0), 0));
      initialized := false;
      bloomCvar := 1.0;
    }

    /** R_Bloom_Init: once the framebuffer pipeline is up, build both pyramids by
        repeated halving and compile the combine and filter programs, once. */
    method Init(gl: Context, framebufferExt: bool, framebufferInitialized: bool, glwidth: int, glheight: int)
      requires Valid()
      modifies this, pass0, pass1, gl
      ensures Valid() && bloomCvar == old(bloomCvar)
      ensures !(framebufferExt && framebufferInitialized && !old(initialized)) ==>
                initialized == old(initialized) && unchanged(this, pass0, pass1, gl)
      ensures framebufferExt && framebufferInitialized && !old(initialized) ==>
                && initialized && displayWidth == glwidth && displayHeight == glheight
                && PyramidsSized(glwidth, glheight)
                && gl.st.log == old(gl.st.log) + CreatedAll(pass0[..]) + CreatedAll(pass1[..])
                             + [Compiled(CombineProgram), Compiled(FilterProgram)]
                && gl.st.handles == old(gl.st.handles) + 2 * FilterCount
                && BindingsKept(old(gl.st), gl.st)
    {
      if framebufferExt == false {
        return;
      }
      if !framebufferInitialized {
        return;
      }
      if initialized == true {
        return;
      }
      BuildPyramids(gl, glwidth, glheight);
      gl.Compile(CombineProgram);
      gl.Compile(FilterProgram);
      initialized := true;
      displayWidth, displayHeight := glwidth, glheight;
    }

    /** The two pyramids of R_Bloom_Init: pass0 from half the display size, pass1
        from the display size. */
    method BuildPyramids(gl: Context, glwidth: int, glheight: int)
      requires pass0.Length == FilterCount && pass1.Length == FilterCount && pass0 != pass1
      modifies pass0, pass1, gl
      ensures PyramidsSized(glwidth, glheight)
      ensures gl.st.log == old(gl.st.log) + CreatedAll(pass0[..]) + CreatedAll(pass1[..])
      ensures gl.st.handles == old(gl.st.handles) + 2 * FilterCount
      ensures BindingsKept(old(gl.st), gl.st)
    {
      var width := glwidth / 2;
      var height := glheight / 2;
      BuildPyramid(gl, pass0, false, width, height);
      ghost var built0 := pass0[..];
      BuildPyramid(gl, pass1, true, glwidth, glheight);
      assert pass0[..] == built0;
      assert Shr(glwidth, 1) == width && Shr(glheight, 1) == height;
    }

    /** R_Bloom_Process: copy the scene into pass0[0], redraw pass0[0] into the other
        pass0 levels, blur pass0 into pass1 horizontally and back vertically, then
        bind pass0[p] on unit p as "Pass p" and the scene on unit 3 as "Scene". */
    method Process(gl: Context, worldLoaded: bool, underwater: bool)
      requires Shaped()
      modifies gl
      ensures !Active() ==> unchanged(gl)
      ensures Active() ==>
        gl.st == old(gl.st).(
          log := old(gl.st.log) + ProcessDraws(pass0[..], pass1[..], old(gl.st.activeUnit), Lookup(old(gl.st.textures), 0)),
          program := CombineProgram, activeUnit := FilterCount,
          textures := old(gl.st.textures)[old(gl.st.activeUnit) := pass1[2].id]
                        [0 := pass0[0].id][1 := pass0[1].id][2 := pass0[2].id][3 := CombineScene(worldLoaded, underwater)],
          enabled := old(gl.st.enabled) + {old(gl.st.activeUnit), 0, 1, 2, 3},
          target := Bound(pass0[2].id, false), viewport := pass0[2].viewport,
          uniforms := old(gl.st.uniforms)
            [PassProgram := old(gl.st.UniformsOf(PassProgram))[Source := Int(0)]]
            [FilterProgram := FilterSetup(old(gl.st.UniformsOf(FilterProgram)))[OffsetY := Ratio(1.0, pass1[2].height)]]
            [CombineProgram := old(gl.st.UniformsOf(CombineProgram))
               [PassSampler(0) := Int(0)][PassSampler(1) := Int(1)][PassSampler(2) := Int(2)][SceneSampler := Int(3)]])
      ensures Active() ==>
        gl.st.Sampled() == [Some(pass0[0].id), Some(pass0[1].id), Some(pass0[2].id), Some(CombineScene(worldLoaded, underwater))]
    {
      if !initialized {
        return;
      }
      if bloomCvar == 0.0 {
        return;
      }
      FilterPasses(gl, pass0[..], pass1[..]);
      CombineSetUp(gl, pass0[..], worldLoaded && underwater);
    }

    /** R_Bloom_Clear: disable texturing on the four combine units. */
    method Clear(gl: Context)
      modifies gl
      ensures !Active() ==> unchanged(gl)
      ensures Active() ==> gl.st == old(gl.st).(enabled := old(gl.st.enabled) - {0, 1, 2, 3}, activeUnit := FilterCount)
    {
      if !initialized {
        return;
      }
      if bloomCvar == 0.0 {
        return;
      }
      var p := 0;
      while p < FilterCount
        invariant 0 <= p <= FilterCount
        invariant p == 0 ==> gl.st == old(gl.st)
        invariant p > 0 ==> gl.st == old(gl.st).(enabled := old(gl.st.enabled) - UnitsBelow(p), activeUnit := p - 1)
      {
        gl.ActiveTexture(p);
        gl.DisableTexturing();
        p := p + 1;
      }
      gl.ActiveTexture(FilterCount);
      gl.DisableTexturing();
      assert UnitsBelow(FilterCount) + {3} == {0, 1, 2, 3};
    }
  }
}
