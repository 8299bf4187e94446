/**
 * The framebuffer pipeline: the window and the three scene surfaces, the
 * capability checks that switch the pipeline off, the MSAA clamp, and the
 * per-frame order resolve, copy, optional underwater blur, bloom, composite into
 * the window, clear, unbind.
 */
module FrameBuffer {
  import opened Wrappers
  import opened Surfaces
  import opened GL
  import opened Bloom

  /** What the driver and the build offer: `framebuffer_ext`,
      `framebuffer_multisample_ext`, OpenGL 2.0, GL_EXT_framebuffer_object, the
      GL_SHADER_COMPILER flag, `msaa_samples`, and L, the rounded base-2 logarithm of
      `msaa_samples` (taken as given). */
  datatype Caps = Caps(framebufferExt: bool, multisampleExt: bool, gl20: bool, fboExtension: bool,
                       shaderCompiler: bool, msaaSamples: int, msaaCap: nat)

  /** A surface of the given size whose viewport covers all of it. */
  function FullSurface(id: SurfaceId, w: int, h: int): (r: Surface)
    ensures Sized(r, id, w, h) && r.fbo == 0
  {
    Surface(id, w, h, Viewport(0, 0, w, h), 0)
  }

  /** The clamp R_FrameBuffer_Begin applies to gl_framebuffer_msaa. */
  function ClampMsaa(level: real, samples: int, cap: nat): (r: real)
    ensures r >= 0.0
    ensures samples > 0 ==> r <= cap as real
    ensures samples <= 0 ==> r == 0.0
    ensures 0.0 <= level && (samples > 0 ==> level <= cap as real) && (samples <= 0 ==> level <= 0.0) ==> r == level
  {
    var capped := if samples > 0 then (if level > cap as real then cap as real else level)
                  else (if level > 0.0 then 0.0 else level);
    if capped < 0.0 then 0.0 else capped
  }

  /** Clamping twice is clamping once. */
  lemma ClampMsaaIdempotent(level: real, samples: int, cap: nat)
    ensures ClampMsaa(ClampMsaa(level, samples, cap), samples, cap) == ClampMsaa(level, samples, cap)
  {
  }

  /** The clamp as R_FrameBuffer_Begin performs it, one cvar update at a time. */
  method ClampedMsaa(level: real, samples: int, cap: nat) returns (r: real)
    ensures r == ClampMsaa(level, samples, cap)
  {
    r := level;
    if samples > 0 {
      if r > cap as real {
        r := cap as real;
      }
    } else {
      if r > 0.0 {
        r := 0.0;
      }
    }
    if r < 0.0 {
      r := 0.0;
    }
  }

  /** What R_FrameBuffer_Process logs: the multisample resolve of the scene when the
      extension is there, the copy of the scene into scenepass0 and, under water,
      one horizontal and one vertical blur between scenepass0 and scenepass1. */
  function SceneDraws(sb: Surface, sp0: Surface, sp1: Surface, multisample: bool, underwater: bool,
                      a: nat, t0: Option<SurfaceId>): seq<Event>
  {
    (if multisample then [Resolved(sb.id, sb.width, sb.height)] else [])
    + [CopyDraw(sp0, a, t0)]
    + (if underwater then BlurDraws([sp0], [sp1], 1, 1.5, Horizontal, a, t0) + BlurDraws([sp1], [sp0], 1, 1.5, Vertical, a, t0)
       else [])
  }

  /** The texture R_FrameBuffer_Process leaves on the unit it binds: with gl_bloom
      off, unit 0 gets the blurred scene under water and the plain scene otherwise. */
  function PlainScene(underwater: bool): SurfaceId {
    if underwater then ScenePass0 else SceneBase
  }

  /** The quad R_FrameBuffer_End draws into the window when unit 0 is the active
      unit. With bloom running it is the combine program reading the three blurred
      levels on units 0-2 and the scene on unit 3; with gl_bloom off it is the fixed
      function pipeline showing the scene R_FrameBuffer_Process left on unit 0; with
      gl_bloom on but no bloom surfaces, whatever the scene passes left on unit 0. */
  function WindowDraw(s0: seq<Surface>, bloomActive: bool, bloomCvar: real, worldLoaded: bool, underwater: bool,
                      sp1: SurfaceId): Event
    requires |s0| == FilterCount
  {
    if bloomActive then
      Drawn(Bound(Window, false), CombineProgram,
            [Some(s0[0].id), Some(s0[1].id), Some(s0[2].id), Some(CombineScene(worldLoaded, underwater))], None, None)
    else if bloomCvar == 0.0 then
      Drawn(Bound(Window, false), FixedFunction, [Some(PlainScene(underwater))], None, None)
    else
      Drawn(Bound(Window, false), FixedFunction, [Some(if underwater then sp1 else SceneBase)], None, None)
  }

  /** Everything one R_FrameBuffer_End logs when unit 0 is the active unit: the
      scene passes, the bloom passes when bloom runs, and the quad into the window. */
  function FrameDraws(sb: Surface, sp0: Surface, sp1: Surface, s0: seq<Surface>, s1: seq<Surface>,
                      multisample: bool, bloomActive: bool, bloomCvar: real, worldLoaded: bool, underwater: bool): seq<Event>
    requires |s0| == FilterCount && |s1| == FilterCount
  {
    SceneDraws(sb, sp0, sp1, multisample, underwater, 0, None)
    + (if bloomActive then ProcessDraws(s0, s1, 0, None) else [])
    + [WindowDraw(s0, bloomActive, bloomCvar, worldLoaded, underwater, sp1.id)]
  }

  /** With unit 0 active, what unit 0 held before makes no difference to the scene passes. */
  lemma SceneDrawsView(sb: Surface, sp0: Surface, sp1: Surface, multisample: bool, underwater: bool, t0: Option<SurfaceId>)
    ensures SceneDraws(sb, sp0, sp1, multisample, underwater, 0, t0) == SceneDraws(sb, sp0, sp1, multisample, underwater, 0, None)
  {
    BlurDrawsView([sp0], [sp1], 1, 1.5, Horizontal, 0, t0, None);
    BlurDrawsView([sp1], [sp0], 1, 1.5, Vertical, 0, t0, None);
  }

  /** With unit 0 active, what unit 0 held before makes no difference to the bloom passes. */
  lemma ProcessDrawsView(s0: seq<Surface>, s1: seq<Surface>, t0: Option<SurfaceId>)
    requires |s0| == FilterCount && |s1| == FilterCount
    ensures ProcessDraws(s0, s1, 0, t0) == ProcessDraws(s0, s1, 0, None)
  {
    BlurDrawsView(s0, s1, FilterCount, 1.0, Horizontal, 0, t0, None);
    BlurDrawsView(s1, s0, FilterCount, 1.0, Vertical, 0, t0, None);
  }

  /** With unit 0 active, R_FrameBuffer_Process logs, in order: the resolve of the
      whole scene exactly when the multisample extension is there, the copy of the
      scene into scenepass0 and, only under water, a horizontal blur of scenepass0
      into scenepass1 and a vertical blur of scenepass1 back into scenepass0, both
      with offset 1.5 over one surface. */
  lemma SceneOrder(sb: Surface, sp0: Surface, sp1: Surface, multisample: bool, underwater: bool, t0: Option<SurfaceId>)
    ensures var d := SceneDraws(sb, sp0, sp1, multisample, underwater, 0, t0);
            var r := if multisample then 1 else 0;
            && |d| == r + 1 + (if underwater then 2 else 0)
            && (multisample ==> d[0] == Resolved(sb.id, sb.width, sb.height))
            && d[r] == Drawn(Bound(sp0.id, false), PassProgram, [Some(SceneBase)], None, None)
            && (underwater ==>
                  && d[r + 1] == Drawn(Bound(sp1.id, false), FilterProgram, [Some(sp0.id)], Some(Ratio(1.5, sp0.width)), Some(Float(0.0)))
                  && d[r + 2] == Drawn(Bound(sp0.id, false), FilterProgram, [Some(sp1.id)], Some(Float(0.0)), Some(Ratio(1.5, sp1.height))))
  {
    var h := BlurDraws([sp0], [sp1], 1, 1.5, Horizontal, 0, t0);
    var v := BlurDraws([sp1], [sp0], 1, 1.5, Vertical, 0, t0);
    BlurDrawsAt([sp0], [sp1], 1, 1.5, Horizontal, 0, t0);
    BlurDrawsAt([sp1], [sp0], 1, 1.5, Vertical, 0, t0);
  }

  /** Out of water, scenepass1 is never drawn into. */
  lemma DryScenePass1Untouched(sb: Surface, sp0: Surface, sp1: Surface, multisample: bool, a: nat, t0: Option<SurfaceId>)
    requires sp0.id != sp1.id
    ensures forall e :: e in SceneDraws(sb, sp0, sp1, multisample, false, a, t0) ==>
              !(e.Drawn? && e.target.Bound? && e.target.surface == sp1.id)
  {
    assert SceneDraws(sb, sp0, sp1, multisample, false, a, t0)
           == (if multisample then [Resolved(sb.id, sb.width, sb.height)] else []) + [CopyDraw(sp0, a, t0)];
  }

  /** `e` is a quad rendered into the window. */
  predicate IntoWindow(e: Event) {
    e.Drawn? && e.target == Bound(Window, false)
  }

  /** No scene pass renders into the window. */
  lemma SceneAvoidsWindow(sb: Surface, sp0: Surface, sp1: Surface, multisample: bool, underwater: bool)
    requires sp0.id != Window && sp1.id != Window
    ensures forall e :: e in SceneDraws(sb, sp0, sp1, multisample, underwater, 0, None) ==> !IntoWindow(e)
  {
    SceneOrder(sb, sp0, sp1, multisample, underwater, None);
  }

  /** No bloom pass renders into the window. */
  lemma ProcessAvoidsWindow(s0: seq<Surface>, s1: seq<Surface>)
    requires |s0| == FilterCount && |s1| == FilterCount
    requires forall p :: 0 <= p < FilterCount ==> s0[p].id != Window && s1[p].id != Window
    ensures forall e :: e in ProcessDraws(s0, s1, 0, None) ==> !IntoWindow(e)
  {
    var d := ProcessDraws(s0, s1, 0, None);
    ProcessOrder(s0, s1, None);
    forall i | 0 <= i < |d|
      ensures !IntoWindow(d[i])
    {
      if 3 <= i < 6 {
        assert d[i] == d[3..6][i - 3];
      } else if 6 <= i {
        assert d[i] == d[6..9][i - 6];
      }
    }
  }

  /** With unit 0 active, R_FrameBuffer_End draws into the window once, as its last
      quad: no scene or bloom pass renders into the window. */
  lemma WindowDrawnLast(sb: Surface, sp0: Surface, sp1: Surface, s0: seq<Surface>, s1: seq<Surface>, multisample: bool,
                        bloomActive: bool, bloomCvar: real, worldLoaded: bool, underwater: bool)
    requires |s0| == FilterCount && |s1| == FilterCount
    requires sp0.id != Window && sp1.id != Window
    requires forall p :: 0 <= p < FilterCount ==> s0[p].id != Window && s1[p].id != Window
    ensures var d := FrameDraws(sb, sp0, sp1, s0, s1, multisample, bloomActive, bloomCvar, worldLoaded, underwater);
            && |d| > 0 && IntoWindow(d[|d| - 1])
            && forall i :: 0 <= i < |d| - 1 ==> !IntoWindow(d[i])
  {
    var d := FrameDraws(sb, sp0, sp1, s0, s1, multisample, bloomActive, bloomCvar, worldLoaded, underwater);
    var passes := SceneDraws(sb, sp0, sp1, multisample, underwater, 0, None)
                  + (if bloomActive then ProcessDraws(s0, s1, 0, None) else []);
    SceneAvoidsWindow(sb, sp0, sp1, multisample, underwater);
    ProcessAvoidsWindow(s0, s1);
    assert d == passes + [d[|d| - 1]];
    forall i | 0 <= i < |d| - 1
      ensures !IntoWindow(d[i])
    {
      assert d[i] == passes[i];
      assert d[i] in passes;
    }
  }

  class FramebufferStage {
    var window: Surface
    var scenebase: Surface
    var scenepass0: Surface
    var scenepass1: Surface
    var initialized: bool        // framebuffer_initialized
    var compileStatus: bool      // compile_status
    var framebufferCvar: real    // gl_framebuffer.value
    var msaaCvar: real           // gl_framebuffer_msaa.value
    const bloom: BloomStage
    ghost var displayWidth: int
    ghost var displayHeight: int

    /** The window is the display, fbo 0; the scene is full size, the two scene
        passes half size; each viewport covers its own surface. */
    ghost predicate SurfacesSized(w: int, h: int)
      reads this
    {
      && Sized(window, Window, w, h) && window.fbo == 0
      && Sized(scenebase, SceneBase, w, h)
      && Sized(scenepass0, ScenePass0, Shr(w, 1), Shr(h, 1))
      && Sized(scenepass1, ScenePass1, Shr(w, 1), Shr(h, 1))
    }

    ghost predicate Valid()
      reads this, bloom, bloom.pass0, bloom.pass1
    {
      && bloom.Valid()
      && (initialized ==> SurfacesSized(displayWidth, displayHeight))
    }

    /** The per-frame stages run only with the extension, the cvar and the surfaces. */
    predicate Running(caps: Caps)
      reads this
    {
      caps.framebufferExt && framebufferCvar != 0.0 && initialized
    }

    constructor ()
      ensures Valid() && fresh(bloom) && fresh(bloom.pass0) && fresh(bloom.pass1)
      ensures !initialized && !bloom.initialized && framebufferCvar == 1.0 && msaaCvar == 2.0
    {
      window := FullSurface(Window, 0, 0);
      scenebase := FullSurface(SceneBase, 0, 0);
      scenepass0 := FullSurface(ScenePass0, 0, 0);
      scenepass1 := FullSurface(ScenePass1, 0, 0);
      initialized := false;
      compileStatus := false;
      framebufferCvar := 1.0;
      msaaCvar := 2.0;
      bloom := new BloomStage();
    }

    /** R_FrameBuffer_Init. Without the extension, or once done, it does nothing.
        Without OpenGL 2.0 or GL_EXT_framebuffer_object, or without a shader compiler
        while gl_framebuffer is on, it switches gl_framebuffer to 0 and stays
        uninitialised. With gl_framebuffer off it stays uninitialised. Otherwise it
        sets up the window, creates the full-size scene surface and the two half-size
        scene pass surfaces, compiles the copy program and is initialised. */
    method Init(gl: Context, caps: Caps, glwidth: int, glheight: int)
      requires Valid()
      modifies this, gl
      ensures Valid() && msaaCvar == old(msaaCvar)
      ensures !(caps.framebufferExt && !old(initialized)) ==> unchanged(this) && unchanged(gl)
      ensures caps.framebufferExt && !old(initialized) && !(caps.gl20 && caps.fboExtension) ==>
                && framebufferCvar == 0.0 && !initialized && compileStatus == old(compileStatus)
                && window == old(window) && scenebase == old(scenebase)
                && scenepass0 == old(scenepass0) && scenepass1 == old(scenepass1) && unchanged(gl)
      ensures caps.framebufferExt && !old(initialized) && caps.gl20 && caps.fboExtension ==>
                compileStatus == caps.shaderCompiler
      ensures caps.framebufferExt && !old(initialized) && caps.gl20 && caps.fboExtension
              && !(caps.shaderCompiler && old(framebufferCvar) != 0.0) ==>
                && framebufferCvar == 0.0 && !initialized
                && window == old(window) && scenebase == old(scenebase)
                && scenepass0 == old(scenepass0) && scenepass1 == old(scenepass1) && unchanged(gl)
      ensures caps.framebufferExt && !old(initialized) && caps.gl20 && caps.fboExtension
              && caps.shaderCompiler && old(framebufferCvar) != 0.0 ==>
                && initialized && framebufferCvar == old(framebufferCvar)
                && SurfacesSized(glwidth, glheight)
                && scenebase.fbo == old(gl.st.handles) + 1 && scenepass0.fbo == old(gl.st.handles) + 2
                && scenepass1.fbo == old(gl.st.handles) + 3 && gl.st.handles == old(gl.st.handles) + 3
                && gl.st.log == old(gl.st.log) + [Created(scenebase), Created(scenepass0), Created(scenepass1), Compiled(PassProgram)]
                && BindingsKept(old(gl.st), gl.st)
    {
      if caps.framebufferExt == false {
        return;
      }
      if initialized == true {
        return;
      }
      if !caps.gl20 {
        framebufferCvar := 0.0;
        return;
      }
      if !caps.fboExtension {
        framebufferCvar := 0.0;
        return;
      }
      compileStatus := caps.shaderCompiler;
      if !compileStatus && framebufferCvar != 0.0 {
        framebufferCvar := 0.0;
        return;
      }
      if framebufferCvar == 0.0 {
        return;
      }
      CreateSurfaces(gl, glwidth, glheight);
      initialized := true;
      displayWidth, displayHeight := glwidth, glheight;
    }

    /** The success path of R_FrameBuffer_Init: the window (framebuffer 0), the
        full-size scene surface, the two half-size scene passes, the copy program. */
    method CreateSurfaces(gl: Context, glwidth: int, glheight: int)
      modifies this, gl
      ensures SurfacesSized(glwidth, glheight)
      ensures scenebase.fbo == old(gl.st.handles) + 1 && scenepass0.fbo == old(gl.st.handles) + 2
      ensures scenepass1.fbo == old(gl.st.handles) + 3 && gl.st.handles == old(gl.st.handles) + 3
      ensures gl.st.log == old(gl.st.log) + [Created(scenebase), Created(scenepass0), Created(scenepass1), Compiled(PassProgram)]
      ensures BindingsKept(old(gl.st), gl.st)
      ensures initialized == old(initialized) && compileStatus == old(compileStatus)
      ensures framebufferCvar == old(framebufferCvar) && msaaCvar == old(msaaCvar)
      ensures displayWidth == old(displayWidth) && displayHeight == old(displayHeight)
    {
      // the window is the display itself (framebuffer 0)
      window := FullSurface(Window, glwidth, glheight);
      // the full-size scene, then both passes at half size
      var width := glwidth;
      var height := glheight;
      scenebase := gl.CreateSurface(FullSurface(SceneBase, width, height));
      width := width / 2;
      height := height / 2;
      scenepass0 := gl.CreateSurface(FullSurface(ScenePass0, width, height));
      scenepass1 := gl.CreateSurface(FullSurface(ScenePass1, width, height));
      gl.Compile(PassProgram);
    }

    /** The two initialisations R_FrameBuffer_Begin runs every frame; once both
        stages are up they do nothing. */
    method InitStages(gl: Context, caps: Caps, glwidth: int, glheight: int)
      requires Valid() && caps.framebufferExt
      modifies this, bloom, bloom.pass0, bloom.pass1, gl
      ensures Valid() && msaaCvar == old(msaaCvar) && BindingsKept(old(gl.st), gl.st)
      ensures old(initialized) && old(bloom.initialized) ==>
                && gl.st == old(gl.st) && initialized && bloom.initialized
                && framebufferCvar == old(framebufferCvar) && compileStatus == old(compileStatus)
      ensures initialized ==> bloom.initialized && framebufferCvar == old(framebufferCvar)
    {
      Init(gl, caps, glwidth, glheight);
      bloom.Init(gl, caps.framebufferExt, initialized, glwidth, glheight);
    }

    /** R_FrameBuffer_Begin: with the extension and gl_framebuffer on, initialise the
        pipeline and the bloom stage; once initialised, check the shader compiler,
        clamp the MSAA level, and bind the scene's multisample framebuffer and clear
        it. In every other case nothing is bound. */
    method Begin(gl: Context, caps: Caps, glwidth: int, glheight: int)
      requires Valid()
      modifies this, bloom, bloom.pass0, bloom.pass1, gl
      ensures Valid()
      ensures !(caps.framebufferExt && old(framebufferCvar) != 0.0) ==>
                unchanged(this) && unchanged(bloom) && unchanged(bloom.pass0) && unchanged(bloom.pass1) && unchanged(gl)
      ensures caps.framebufferExt && old(framebufferCvar) != 0.0 && initialized && compileStatus ==>
                && gl.st.target == Bound(SceneBase, true) && gl.st.viewport == scenebase.viewport
                && |gl.st.log| > 0 && gl.st.log[|gl.st.log| - 1] == Cleared(Bound(SceneBase, true))
                && msaaCvar == ClampMsaa(old(msaaCvar), caps.msaaSamples, caps.msaaCap)
      ensures !(caps.framebufferExt && old(framebufferCvar) != 0.0 && initialized && compileStatus) ==>
                gl.st.target == old(gl.st.target) && gl.st.viewport == old(gl.st.viewport) && msaaCvar == old(msaaCvar)
      ensures caps.framebufferExt && old(framebufferCvar) != 0.0 && initialized && !compileStatus ==>
                framebufferCvar == 0.0
      ensures caps.framebufferExt && old(framebufferCvar) != 0.0 && old(initialized) && old(bloom.initialized)
              && old(compileStatus) ==>
                && gl.st == old(gl.st).(target := Bound(SceneBase, true), viewport := scenebase.viewport,
                                        log := old(gl.st.log) + [Cleared(Bound(SceneBase, true))])
                && framebufferCvar == old(framebufferCvar) && initialized
    {
      if caps.framebufferExt == false {
        return;
      }
      if framebufferCvar == 0.0 {
        return;
      }
      InitStages(gl, caps, glwidth, glheight);
      if !initialized {
        return;
      }
      if !compileStatus && framebufferCvar != 0.0 {
        framebufferCvar := 0.0;
        return;
      }
      msaaCvar := ClampedMsaa(msaaCvar, caps.msaaSamples, caps.msaaCap);
      gl.BindSurface(scenebase, true);
      gl.ClearSurface();
    }

    /** The start of R_FrameBuffer_Process: enable texturing, resolve the multisample
        scene when the extension is there and unbind, then copy the scene into
        scenepass0 through the pass program. */
    method ResolveAndCopy(gl: Context, caps: Caps)
      modifies gl
      ensures gl.st == old(gl.st).(
                log := old(gl.st.log) + (if caps.multisampleExt then [Resolved(scenebase.id, scenebase.width, scenebase.height)] else [])
                                      + [CopyDraw(scenepass0, old(gl.st.activeUnit), Lookup(old(gl.st.textures), 0))],
                program := FixedFunction,
                textures := old(gl.st.textures)[old(gl.st.activeUnit) := SceneBase],
                enabled := old(gl.st.enabled) + {old(gl.st.activeUnit)},
                target := Bound(scenepass0.id, false), viewport := scenepass0.viewport,
                uniforms := old(gl.st.uniforms)[PassProgram := old(gl.st.UniformsOf(PassProgram))[Source := Int(0)]])
    {
      gl.EnableTexturing();
      if caps.multisampleExt == true {
        gl.Resolve(scenebase);
        gl.UnbindFramebuffer();
      }
      CopyScene(gl, scenepass0);
    }

    /** The underwater step of R_FrameBuffer_Process: scenepass0 into scenepass1
        horizontally and back vertically, one surface, offset 1.5. */
    method UnderwaterBlur(gl: Context, underwater: bool)
      modifies gl
      ensures !underwater ==> gl.st == old(gl.st)
      ensures underwater ==>
                gl.st == old(gl.st).(
                  log := old(gl.st.log)
                    + BlurDraws([scenepass0], [scenepass1], 1, 1.5, Horizontal, old(gl.st.activeUnit), Lookup(old(gl.st.textures), 0))
                    + BlurDraws([scenepass1], [scenepass0], 1, 1.5, Vertical, old(gl.st.activeUnit), Lookup(old(gl.st.textures), 0)),
                  program := FilterProgram,
                  textures := old(gl.st.textures)[old(gl.st.activeUnit) := scenepass1.id],
                  target := Bound(scenepass0.id, false), viewport := scenepass0.viewport,
                  uniforms := old(gl.st.uniforms)
                    [FilterProgram := FilterSetup(old(gl.st.UniformsOf(FilterProgram)))[OffsetY := Ratio(1.5, scenepass1.height)]])
    {
      if underwater {
        BlurBothWays(gl, [scenepass0], [scenepass1], 1, 1.5);
      }
    }

    /** The scene passes of R_FrameBuffer_Process: the resolve, the copy into
        scenepass0 and, under water, the blur through scenepass1 and back. */
    method ScenePasses(gl: Context, caps: Caps, underwater: bool)
      modifies gl
      ensures var a := old(gl.st.activeUnit);
              var uniforms := old(gl.st.uniforms)[PassProgram := old(gl.st.UniformsOf(PassProgram))[Source := Int(0)]];
              gl.st == old(gl.st).(
                log := old(gl.st.log) + SceneDraws(scenebase, scenepass0, scenepass1, caps.multisampleExt, underwater,
                                                   a, Lookup(old(gl.st.textures), 0)),
                program := if underwater then FilterProgram else FixedFunction,
                target := Bound(scenepass0.id, false), viewport := scenepass0.viewport,
                textures := old(gl.st.textures)[a := if underwater then scenepass1.id else SceneBase],
                enabled := old(gl.st.enabled) + {a},
                uniforms := if underwater
                            then uniforms[FilterProgram := FilterSetup(old(gl.st.UniformsOf(FilterProgram)))[OffsetY := Ratio(1.5, scenepass1.height)]]
                            else uniforms)
    {
      ghost var a, t0 := gl.st.activeUnit, Lookup(gl.st.textures, 0);
      ResolveAndCopy(gl, caps);
      ghost var t1 := Lookup(gl.st.textures, 0);
      UnderwaterBlur(gl, underwater);
      BlurDrawsView([scenepass0], [scenepass1], 1, 1.5, Horizontal, a, t1, t0);
      BlurDrawsView([scenepass1], [scenepass0], 1, 1.5, Vertical, a, t1, t0);
    }

    /** The gl_bloom off branch of R_FrameBuffer_Process: the scene to show, the
        blurred one under water, bound and enabled on unit 0. The fixed function
        pipeline then reads exactly that texture. */
    method ShowPlainScene(gl: Context, underwater: bool)
      requires gl.st.program == FixedFunction
      modifies gl
      ensures gl.st == old(gl.st).(activeUnit := 0, textures := old(gl.st.textures)[0 := PlainScene(underwater)],
                                   enabled := old(gl.st.enabled) + {0})
      ensures gl.st.Sampled() == [Some(PlainScene(underwater))]
    {
      gl.ActiveTexture(0);
      if underwater {
        gl.BindTexture(ScenePass0);
      } else {
        gl.BindTexture(SceneBase);
      }
      gl.EnableTexturing();
    }

    /** R_FrameBuffer_Process: enable texturing, resolve the multisample scene when
        the extension is there, copy the scene into scenepass0, blur it under water
        (scenepass0 to scenepass1 horizontally, back vertically, one surface, offset
        1.5), return to the fixed function pipeline and, with gl_bloom off, bind the
        scene to show on unit 0. */
    method Process(gl: Context, caps: Caps, underwater: bool)
      modifies gl
      ensures var a := old(gl.st.activeUnit);
              var textures := old(gl.st.textures)[a := if underwater then scenepass1.id else SceneBase];
              var uniforms := old(gl.st.uniforms)[PassProgram := old(gl.st.UniformsOf(PassProgram))[Source := Int(0)]];
              gl.st == old(gl.st).(
                log := old(gl.st.log) + SceneDraws(scenebase, scenepass0, scenepass1, caps.multisampleExt, underwater,
                                                   a, Lookup(old(gl.st.textures), 0)),
                program := FixedFunction,
                target := Bound(scenepass0.id, false), viewport := scenepass0.viewport,
                activeUnit := if bloom.bloomCvar == 0.0 then 0 else a,
                textures := if bloom.bloomCvar == 0.0 then textures[0 := PlainScene(underwater)] else textures,
                enabled := old(gl.st.enabled) + {a} + (if bloom.bloomCvar == 0.0 then {0} else {}),
                uniforms := if underwater
                            then uniforms[FilterProgram := FilterSetup(old(gl.st.UniformsOf(FilterProgram)))[OffsetY := Ratio(1.5, scenepass1.height)]]
                            else uniforms)
      ensures bloom.bloomCvar == 0.0 ==> gl.st.Sampled() == [Some(PlainScene(underwater))]
      ensures bloom.bloomCvar != 0.0 && old(gl.st.activeUnit) == 0 ==>
                gl.st.Sampled() == [Some(if underwater then scenepass1.id else SceneBase)]
    {
      ScenePasses(gl, caps, underwater);
      gl.UseProgram(FixedFunction);
      if bloom.bloomCvar == 0.0 {
        ShowPlainScene(gl, underwater);
      }
    }

    /** The first half of R_FrameBuffer_End: the scene passes, then the bloom passes.
        With unit 0 active at the start, the program and the textures it samples are
        those of the window quad. */
    method Passes(gl: Context, caps: Caps, worldLoaded: bool, underwater: bool)
      requires bloom.Shaped()
      modifies gl
      ensures gl.st.handles == old(gl.st.handles) && |gl.st.log| > |old(gl.st.log)| && gl.st.log[..|old(gl.st.log)|] == old(gl.st.log)
      ensures old(gl.st.activeUnit) == 0 ==>
                var w := WindowDraw(bloom.pass0[..], bloom.Active(), bloom.bloomCvar, worldLoaded, underwater, scenepass1.id);
                && gl.st.log == old(gl.st.log) + SceneDraws(scenebase, scenepass0, scenepass1, caps.multisampleExt, underwater, 0, None)
                                         + (if bloom.Active() then ProcessDraws(bloom.pass0[..], bloom.pass1[..], 0, None) else [])
                && gl.st.program == w.program && gl.st.Sampled() == w.sampled
    {
      ghost var a, t0 := gl.st.activeUnit, Lookup(gl.st.textures, 0);
      Process(gl, caps, underwater);
      ghost var t1 := Lookup(gl.st.textures, 0);
      bloom.Process(gl, worldLoaded, underwater);
      if a == 0 {
        SceneDrawsView(scenebase, scenepass0, scenepass1, caps.multisampleExt, underwater, t0);
        if bloom.Active() {
          ProcessDrawsView(bloom.pass0[..], bloom.pass1[..], t1);
        }
      }
    }

    /** The composite of R_FrameBuffer_End: render into the window and draw one quad
        with whatever program and textures are bound. */
    method DrawToWindow(gl: Context)
      modifies gl
      ensures gl.st == old(gl.st).(target := Bound(window.id, false), viewport := window.viewport,
                                   log := old(gl.st.log) + [old(gl.st.CurrentDraw()).(target := Bound(window.id, false))])
    {
      gl.BindSurface(window, false);
      gl.DrawQuad();
    }

    /** The drawing part of R_FrameBuffer_End: the scene passes, the bloom passes
        and the quad into the window. With unit 0 active at the start, that quad is
        the window draw. */
    method ComposeFrame(gl: Context, caps: Caps, worldLoaded: bool, underwater: bool)
      requires bloom.Shaped() && window.id == Window
      modifies gl
      ensures gl.st.target == Bound(Window, false) && gl.st.viewport == window.viewport
      ensures gl.st.handles == old(gl.st.handles) && |gl.st.log| > |old(gl.st.log)| && gl.st.log[..|old(gl.st.log)|] == old(gl.st.log)
      ensures old(gl.st.activeUnit) == 0 ==>
                gl.st.log == old(gl.st.log) + FrameDraws(scenebase, scenepass0, scenepass1, bloom.pass0[..], bloom.pass1[..],
                                                   caps.multisampleExt, bloom.Active(), bloom.bloomCvar, worldLoaded, underwater)
    {
      Passes(gl, caps, worldLoaded, underwater);
      DrawToWindow(gl);
    }

    /** The tail of R_FrameBuffer_End: back to the fixed function pipeline, the bloom
        units cleared, the window system's framebuffer bound, unit 0 active and
        texturing enabled there. */
    method Finish(gl: Context)
      modifies gl
      ensures gl.st == old(gl.st).(target := WindowSystem, activeUnit := 0, program := FixedFunction,
                                   enabled := (if bloom.Active() then old(gl.st.enabled) - {1, 2, 3} else old(gl.st.enabled)) + {0})
    {
      gl.UseProgram(FixedFunction);
      bloom.Clear(gl);
      gl.UnbindFramebuffer();
      gl.ActiveTexture(0);
      gl.EnableTexturing();
    }

    /** R_FrameBuffer_End: with the pipeline running, the scene passes, the bloom
        passes, the quad into the window, the bloom clear and the return to the
        window system's framebuffer with unit 0 active. */
    method End(gl: Context, caps: Caps, worldLoaded: bool, underwater: bool)
      requires Valid()
      modifies gl
      ensures !Running(caps) ==> unchanged(gl)
      ensures Running(caps) ==>
                && gl.st.target == WindowSystem && gl.st.viewport == window.viewport
                && gl.st.activeUnit == 0 && 0 in gl.st.enabled && gl.st.program == FixedFunction
                && gl.st.handles == old(gl.st.handles) && |gl.st.log| > |old(gl.st.log)| && gl.st.log[..|old(gl.st.log)|] == old(gl.st.log)
      ensures Running(caps) && bloom.Active() ==> 1 !in gl.st.enabled && 2 !in gl.st.enabled && 3 !in gl.st.enabled
      ensures Running(caps) && old(gl.st.activeUnit) == 0 ==>
                gl.st.log == old(gl.st.log) + FrameDraws(scenebase, scenepass0, scenepass1, bloom.pass0[..], bloom.pass1[..],
                                                   caps.multisampleExt, bloom.Active(), bloom.bloomCvar, worldLoaded, underwater)
    {
      if caps.framebufferExt == false {
        return;
      }
      if framebufferCvar == 0.0 {
        return;
      }
      if !initialized {
        return;
      }
      assert bloom.Shaped() && window.id == Window;
      ComposeFrame(gl, caps, worldLoaded, underwater);
      Finish(gl);
    }
  }
}
