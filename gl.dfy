/**
 * The part of the OpenGL state machine the post-process pipeline drives: the bound
 * draw framebuffer and viewport, the active texture unit, the texture bound on each
 * unit and whether 2D texturing is enabled there, the current shader program and
 * its uniforms. Every effect the pipeline has on the GPU is appended to `log`.
 */
module GL {
  import opened Wrappers
  import opened Surfaces

  /** Program 0 (fixed function) and the three programs the pipeline compiles:
      the copy program `passProg`, the blur program `filterProg` and `combineProg`. */
  datatype Program = FixedFunction | PassProgram | FilterProgram | CombineProgram

  /** Uniform locations, by the name the C code looks them up with:
      "source", "coefficients", "offsetx", "offsety", "Pass%d", "Scene". */
  datatype UniformName = Source | Coefficients | OffsetX | OffsetY | PassSampler(p: nat) | SceneSampler

  /** Uniform values. Floating-point values are kept symbolic: `Ratio(s, d)` is the
      float `s / d`, `Kernel` the three blur coefficients. */
  datatype Uniform = Int(i: int) | Float(f: real) | Ratio(scale: real, over: int) | Kernel

  /** The bound draw framebuffer: the window system's (object 0) or a surface's
      plain or multisample framebuffer object. */
  datatype Target = WindowSystem | Bound(surface: SurfaceId, msaa: bool)

  datatype Event =
    | Created(surface: Surface)              // phCreateSurface
    | Compiled(p: Program)                   // phCompile
    | Cleared(target: Target)                // phClearSurface
    | Resolved(from: SurfaceId, width: int, height: int)  // multisample blit
      /** A full-screen quad: where it went, with which program, which texture
          each sampler of the program read, and (for the blur program) the offsets. */
    | Drawn(target: Target, program: Program, sampled: seq<Option<SurfaceId>>,
            offsetX: Option<Uniform>, offsetY: Option<Uniform>)

  function Lookup<K, V>(m: map<K, V>, k: K): Option<V> {
    if k in m then Some(m[k]) else None
  }

  /** What a shader reads through the sampler uniform whose value is `u`. */
  function ReadThrough(textures: map<nat, SurfaceId>, u: Option<Uniform>): Option<SurfaceId> {
    match u
    case Some(Int(i)) => if i >= 0 then Lookup(textures, i as nat) else None
    case _ => None
  }

  /** The part of the GL state the pipeline drives, as one record. */
  datatype State = State(target: Target, viewport: Viewport, activeUnit: nat, textures: map<nat, SurfaceId>,
                         enabled: set<nat>, program: Program, uniforms: map<Program, map<UniformName, Uniform>>,
                         handles: nat, log: seq<Event>)
  {
    function UniformsOf(p: Program): map<UniformName, Uniform> {
      if p in uniforms then uniforms[p] else map[]
    }

    /** The textures a quad drawn now samples. A shader program reads, for each
        sampler it declares, the unit that sampler's uniform names; the fixed
        function pipeline reads the active unit when 2D texturing is enabled there. */
    function Sampled(): seq<Option<SurfaceId>> {
      var u := UniformsOf(program);
      match program
      case FixedFunction =>
        [if activeUnit in enabled then Lookup(textures, activeUnit) else None]
      case PassProgram => [ReadThrough(textures, Lookup(u, Source))]
      case FilterProgram => [ReadThrough(textures, Lookup(u, Source))]
      case CombineProgram =>
        [ReadThrough(textures, Lookup(u, PassSampler(0))), ReadThrough(textures, Lookup(u, PassSampler(1))),
         ReadThrough(textures, Lookup(u, PassSampler(2))), ReadThrough(textures, Lookup(u, SceneSampler))]
    }

    /** The event a quad drawn now produces; only the blur program declares offsets. */
    function CurrentDraw(): Event {
      var u := UniformsOf(program);
      Drawn(target, program, Sampled(),
            if program == FilterProgram then Lookup(u, OffsetX) else None,
            if program == FilterProgram then Lookup(u, OffsetY) else None)
    }
  }

  /** From `before` to `after` only the log and the framebuffer-object counter changed. */
  predicate BindingsKept(before: State, after: State) {
    after == before.(handles := after.handles, log := after.log)
  }

  /** The GL context. Each method is one GL call and says how it changes the state. */
  class Context {
    var st: State

    constructor (display: Viewport)
      ensures st == State(WindowSystem, display, 0, map[], {}, FixedFunction, map[], 0, [])
    {
      st := State(WindowSystem, display, 0, map[], {}, FixedFunction, map[], 0, []);
    }

    /** phBindSurface: render into the surface (its multisample framebuffer when
        `msaa`) through its viewport. */
    method BindSurface(s: Surface, msaa: bool)
      modifies this
      ensures st == old(st).(target := Bound(s.id, msaa), viewport := s.viewport)
    {
      st := st.(target := Bound(s.id, msaa), viewport := s.viewport);
    }

    /** glBindFramebufferEXT(GL_FRAMEBUFFER_EXT, 0): back to the window system. */
    method UnbindFramebuffer()
      modifies this
      ensures st == old(st).(target := WindowSystem)
    {
      st := st.(target := WindowSystem);
    }

    /** glActiveTexture(GL_TEXTURE0 + unit). */
    method ActiveTexture(unit: nat)
      modifies this
      ensures st == old(st).(activeUnit := unit)
    {
      st := st.(activeUnit := unit);
    }

    /** GL_Bind: bind the surface's colour texture on the active unit. */
    method BindTexture(s: SurfaceId)
      modifies this
      ensures st == old(st).(textures := old(st.textures)[old(st.activeUnit) := s])
    {
      st := st.(textures := st.textures[st.activeUnit := s]);
    }

    /** glEnable(GL_TEXTURE_2D) on the active unit. */
    method EnableTexturing()
      modifies this
      ensures st == old(st).(enabled := old(st.enabled) + {old(st.activeUnit)})
    {
      st := st.(enabled := st.enabled + {st.activeUnit});
    }

    /** glDisable(GL_TEXTURE_2D) on the active unit. */
    method DisableTexturing()
      modifies this
      ensures st == old(st).(enabled := old(st.enabled) - {old(st.activeUnit)})
    {
      st := st.(enabled := st.enabled - {st.activeUnit});
    }

    /** glUseProgram. */
    method UseProgram(p: Program)
      modifies this
      ensures st == old(st).(program := p)
    {
      st := st.(program := p);
    }

    /** glUniform* on the current program. */
    method SetUniform(name: UniformName, v: Uniform)
      modifies this
      ensures st == old(st).(uniforms := old(st.uniforms)[old(st.program) := old(st.UniformsOf(st.program))[name := v]])
    {
      st := st.(uniforms := st.uniforms[st.program := st.UniformsOf(st.program)[name := v]]);
    }

    /** glBegin(GL_QUADS) ... glEnd(): one full-screen quad. */
    method DrawQuad()
      modifies this
      ensures st == old(st).(log := old(st.log) + [old(st.CurrentDraw())])
    {
      st := st.(log := st.log + [st.CurrentDraw()]);
    }

    /** phClearSurface: clear whatever is bound. */
    method ClearSurface()
      modifies this
      ensures st == old(st).(log := old(st.log) + [Cleared(old(st.target))])
    {
      st := st.(log := st.log + [Cleared(st.target)]);
    }

    /** Bind `s`'s multisample framebuffer for reading and its plain one for drawing,
        then blit the whole `s.width` by `s.height` colour buffer across. */
    method Resolve(s: Surface)
      modifies this
      ensures st == old(st).(target := Bound(s.id, false), log := old(st.log) + [Resolved(s.id, s.width, s.height)])
    {
      st := st.(target := Bound(s.id, false), log := st.log + [Resolved(s.id, s.width, s.height)]);
    }

    /** phCreateSurface: allocate the surface's texture and framebuffer object.
        Framebuffer object names are never 0, which is the window system's. */
    method CreateSurface(s: Surface) returns (r: Surface)
      modifies this
      ensures r == s.(fbo := old(st.handles) + 1)
      ensures st == old(st).(handles := old(st.handles) + 1, log := old(st.log) + [Created(r)])
    {
      r := s.(fbo := st.handles + 1);
      st := st.(handles := st.handles + 1, log := st.log + [Created(r)]);
    }

    /** phCompile. */
    method Compile(p: Program)
      modifies this
      ensures st == old(st).(log := old(st.log) + [Compiled(p)])
    {
      st := st.(log := st.log + [Compiled(p)]);
    }
  }
}
