# Post-process pipeline and music state machine of the Ultimate Quake Engine

This project models three pieces of sequential bookkeeping in the engine's C code and proves properties about them in Dafny.

- **The framebuffer stage** (`engine/code/gl_fbo.c`) does the following:
  - It checks the driver's capabilities once and switches `gl_framebuffer` off when they are missing.
  - It creates the window record, the full-size scene surface and two half-size scene surfaces.
  - It clamps the multisample level.
  - Every frame it binds and clears the scene. Then it resolves and copies it, blurs it under water, runs bloom, composites into the window and unbinds.
- **The bloom stage** (`engine/code/gl_bloom.c`) does the following:
  - It builds two three-level surface pyramids by integer halving (`>> 1`), behind one-shot flags.
  - Every frame it copies the scene into level 0 and draws level 0 into levels 1 and 2.
  - It blurs pass0 into pass1 horizontally, then pass1 back into pass0 vertically.
  - It binds the three blurred levels and the scene on texture units 0–3 for the combine shader.
  - It disables those units again afterwards.
- **The music system** (`engine/code/snd_fmod.c`) has the following parts:
  - A single file slot: SND_FOpen fills it from a fallback chain of candidate paths, and SND_FClose frees it.
  - The music channel's flags (`inuse`, `paused`, `looping`, `volume`), driven by the `MOD_*` and `CDA_*` routines.
  - The `FMOD_Music*` front end, which dispatches on the `bgmtype` cvar compared case-insensitively.

The OpenGL driver and FMOD are foreign code.

- **OpenGL.** Module `GL` keeps the part of OpenGL state the pipeline drives as one record. That record holds:
  - the bound framebuffer and the viewport;
  - the active texture unit, the texture bound on each unit, and the units with 2D texturing enabled;
  - the current program and its uniforms.

  Every GL call is a method of `GL.Context` that says how it changes that record. Each quad drawn is appended to an event log. The log records where the quad went, which program drew it, and which texture each sampler of the program read.
- **FMOD.** Module `Music` records each FMOD call in order in `calls` and takes every call to succeed.

Module by module:

- `Surfaces` holds the surface record (`PHsurface` and `PHviewport` of `engine/code/ph.h`) and `Shr`, the C `>>`.
- `Bloom`, `FrameBuffer` and `Music` hold one class each (`BloomStage`, `FramebufferStage`, `MusicSystem`) whose fields are the C globals. Their methods follow the C functions' statements.
- Loops stay loops, with their invariants.
- Each method is proved against a function of the old state:
  - the GL methods through record updates of `GL.State`;
  - the music methods through the functions `Music.CdStopped`, `Music.ModStartedAsWritten` and the others, over the record `Music.Sys`.
- The lemmas state the promised properties about those functions.

Inputs that come from outside the code are parameters:

- the driver and build capabilities (`FrameBuffer.Caps`);
- the display size;
- whether a world is loaded and whether the view is under water;
- the cvars `gl_bloom`, `bgmtype` and `bgmvolume`;
- the client's pause flag;
- the pak file system, a map from path to length.

Three points about the code that are easy to miss:

- Bloom's combine pass binds the blurred half-size scene as "Scene" only when a world is loaded **and** the view is under water (`engine/code/gl_bloom.c:234`). The framebuffer stage's own choice uses the water test alone (`engine/code/gl_fbo.c:264`, `:280`). Both are modelled as written (`Bloom.CombineScene`, `FrameBuffer.PlainScene`).
- The "downsample" of bloom is not a chain. Levels 1 and 2 are both drawn from level 0 (`engine/code/gl_bloom.c:193-206`), so each frame has two downsample quads (`Bloom.ProcessOrder`).
- Bloom's initialisation is not triggered by the framebuffer initialisation itself. `R_FrameBuffer_Begin` calls both, one after the other, every frame (`engine/code/gl_fbo.c:191-192`).

## Model

| member | source | states |
|---|---|---|
| Surfaces.ShrShr | engine/code/gl_bloom.c:119-154 | Shifting right by j and then by k is shifting by j + k, so `(W >> 1) >> p` is `W >> (p + 1)` |
| Surfaces.ShrBounds | engine/code/gl_bloom.c:135-136 | Halving a non-negative size keeps it non-negative and never makes it larger |
| Surfaces.ShrPositive | engine/code/gl_bloom.c:119-154 | A size of at least 2^k still has at least one pixel after k halvings |
| Surfaces.ShrIsDivision | engine/code/gl_bloom.c:135-136 | k right shifts are floor division by 2^k |
| GL.Context.BindSurface | engine/code/gl_bloom.c:82 | phBindSurface changes only the draw target (plain or multisample framebuffer) and the viewport |
| GL.Context.UnbindFramebuffer | engine/code/gl_fbo.c:322 | Binding framebuffer 0 changes only the draw target, to the window system's |
| GL.Context.ActiveTexture | engine/code/gl_bloom.c:221 | glActiveTexture changes only the active unit |
| GL.Context.BindTexture | engine/code/gl_bloom.c:83 | GL_Bind binds the texture on the active unit and on no other |
| GL.Context.EnableTexturing | engine/code/gl_bloom.c:222 | glEnable(GL_TEXTURE_2D) adds the active unit to the enabled units |
| GL.Context.DisableTexturing | engine/code/gl_bloom.c:258 | glDisable(GL_TEXTURE_2D) removes the active unit from the enabled units |
| GL.Context.UseProgram | engine/code/gl_bloom.c:57 | glUseProgram changes only the current program |
| GL.Context.SetUniform | engine/code/gl_bloom.c:58-65 | glUniform sets one uniform of the current program and keeps every other uniform |
| GL.Context.DrawQuad | engine/code/gl_bloom.c:85-90 | A quad appends one event to the log: the current target, the program, and what each sampler reads |
| GL.Context.ClearSurface | engine/code/gl_fbo.c:223 | phClearSurface logs a clear of whatever is bound |
| GL.Context.Resolve | engine/code/gl_fbo.c:240-242 | The multisample blit logs a resolve of the whole scene and leaves the plain scene framebuffer bound |
| GL.Context.CreateSurface | engine/code/gl_bloom.c:134 | phCreateSurface gives the surface a fresh framebuffer object name that is never 0 |
| GL.Context.Compile | engine/code/gl_bloom.c:158-159 | phCompile logs the compiled program and changes no binding |
| Bloom.BlurDrawsAt | engine/code/gl_bloom.c:71-91 | Blur draws exactly one quad per surface pair, pair p at position p |
| Bloom.BlurPairsLevels | engine/code/gl_bloom.c:82-83 | With unit 0 active, blur quad p renders into dests[p] only and samples sources[p] only |
| Bloom.BlurOffsetAxis | engine/code/gl_bloom.c:62-81 | A horizontal pass feeds "offsetx" with scale/width of source p and leaves "offsety" at 0; a vertical pass does the reverse with the height |
| Bloom.Blur | engine/code/gl_bloom.c:50-92 | The whole effect of blur: the filter program is set up, the count quads are logged in order, and the last pair's target, viewport, texture and offset are left bound; nothing else changes |
| Bloom.BlurredStep | engine/code/gl_bloom.c:71-91 | One more iteration of blur's loop adds exactly one quad and moves the bindings to the next pair |
| Bloom.SetUpFilter | engine/code/gl_bloom.c:56-65 | The filter set-up selects the filter program, samples unit 0, loads the kernel and zeroes both offsets, and changes nothing else |
| Bloom.BlurQuad | engine/code/gl_bloom.c:73-90 | One loop iteration writes pair p's offset, binds dests[p] and sources[p], and logs exactly quad p |
| Bloom.SetupView | engine/code/gl_bloom.c:58-67 | After the set-up the filter reads unit 0, and the offset that was not written stays 0 |
| Bloom.BlurDrawsView | engine/code/gl_bloom.c:83 | Blur's quads depend on what unit 0 held beforehand only when another unit is active |
| Bloom.ProcessOrder | engine/code/gl_bloom.c:176-213 | With unit 0 active, bloom draws nine quads in a fixed order: the scene into pass0[0]; pass0[0] into levels 1 and 2; pass0[p] into pass1[p] horizontally; then pass1[p] into pass0[p] vertically. Each blur quad reads only its own level |
| Bloom.BuildPyramid | engine/code/gl_bloom.c:124-137 | Level p is `width0 >> p` by `height0 >> p`, has a viewport of its own size, and is created in level order, each with its own non-zero framebuffer name |
| Bloom.CopyScene | engine/code/gl_bloom.c:176-189 | The copy pass draws the scene through the pass program into the destination, then returns to the fixed function pipeline |
| Bloom.DownsampleFrom | engine/code/gl_bloom.c:192-206 | With pass0[0] bound, one fixed-function quad is drawn into each of levels 1 and 2 |
| Bloom.CopyAndDownsample | engine/code/gl_bloom.c:176-206 | The copy followed by the downsample, as one state change |
| Bloom.FilterPasses | engine/code/gl_bloom.c:176-213 | All drawing of R_Bloom_Process logs exactly ProcessDraws and leaves the filter program with the last vertical offset |
| Bloom.BlurBothWays | engine/code/gl_bloom.c:209-213 | A horizontal blur from s0 into s1, then a vertical one back, logged in that order |
| Bloom.BindCombineInputs | engine/code/gl_bloom.c:216-228 | Level p of pass0 is bound and enabled on unit p, and sampler "Pass p" names unit p, for p = 0..2 |
| Bloom.CombineSetUp | engine/code/gl_bloom.c:216-241 | The combine program reads pass0[0], pass0[1] and pass0[2] as Pass0–Pass2, and on unit 3 as "Scene" the blurred scene when in water, else the full scene |
| Bloom.CombineUnrolled | engine/code/gl_bloom.c:217-228 | The combine loop's three iterations, written out |
| Bloom.CombineView | engine/code/gl_bloom.c:216-241 | With the samplers set to units 0–3, the combine program reads exactly the textures bound on units 0–3 |
| Bloom.BloomStage.PyramidHalving | engine/code/gl_bloom.c:119-154 | Each level is the floor-half of the level before it, and pass0[p] is as large as pass1[p + 1] |
| Bloom.BloomStage.PyramidsNonEmpty | engine/code/gl_bloom.c:119-154 | A display of at least 8 by 8 gives every level of both pyramids at least one pixel each way |
| Bloom.BloomStage.constructor | engine/code/gl_bloom.c:39-47 | Two pyramids of BLOOM_FILTER_COUNT levels, not initialised, gl_bloom 1 |
| Bloom.BloomStage.Init | engine/code/gl_bloom.c:94-162 | Init does nothing without the extension or framebuffer initialisation, or once done. Otherwise it creates both pyramids by halving (pass0 from half the display, pass1 from the full display), compiles combine then filter, and changes no GL binding |
| Bloom.BloomStage.BuildPyramids | engine/code/gl_bloom.c:119-154 | pass0 is created first, from `glwidth >> 1`, then pass1 from `glwidth` |
| Bloom.BloomStage.Process | engine/code/gl_bloom.c:164-242 | Process does nothing unless initialised with gl_bloom on. Otherwise it logs ProcessDraws and leaves the combine program reading pass0[0..2] and the chosen scene on units 0–3, with unit 3 active |
| Bloom.BloomStage.Clear | engine/code/gl_bloom.c:244-263 | Clear does nothing unless bloom is active. Otherwise it disables texturing on units 0–3, leaves unit 3 active and changes nothing else |
| FrameBuffer.FullSurface | engine/code/gl_fbo.c:126-137 | A surface of the given size whose viewport covers all of it |
| FrameBuffer.ClampMsaa | engine/code/gl_fbo.c:206-219 | The MSAA level is clamped into [0, L] when samples > 0, and to 0 otherwise; a level already in range is kept |
| FrameBuffer.ClampMsaaIdempotent | engine/code/gl_fbo.c:206-219 | Clamping twice is clamping once |
| FrameBuffer.ClampedMsaa | engine/code/gl_fbo.c:206-219 | The cvar updates one at a time compute exactly ClampMsaa |
| FrameBuffer.SceneDrawsView | engine/code/gl_fbo.c:253-270 | With unit 0 active, the scene passes do not depend on what unit 0 held before |
| FrameBuffer.ProcessDrawsView | engine/code/gl_bloom.c:181-213 | With unit 0 active, the bloom passes do not depend on what unit 0 held before |
| FrameBuffer.SceneOrder | engine/code/gl_fbo.c:238-271 | Process logs, in order: the resolve, exactly when multisampling is available; the copy into scenepass0; and, only under water, the two 1.5 blurs through scenepass1 and back |
| FrameBuffer.DryScenePass1Untouched | engine/code/gl_fbo.c:264-271 | Out of water, nothing is drawn into scenepass1 |
| FrameBuffer.SceneAvoidsWindow | engine/code/gl_fbo.c:238-271 | No scene pass renders into the window |
| FrameBuffer.ProcessAvoidsWindow | engine/code/gl_bloom.c:176-213 | No bloom pass renders into the window |
| FrameBuffer.WindowDrawnLast | engine/code/gl_fbo.c:303-314 | In a frame the window is drawn exactly once, as the last quad |
| FrameBuffer.FramebufferStage.constructor | engine/code/gl_fbo.c:37-48 | Not initialised, gl_framebuffer 1, gl_framebuffer_msaa 2 |
| FrameBuffer.FramebufferStage.Init | engine/code/gl_fbo.c:63-181 | Init does nothing without the extension or once done. Missing OpenGL 2.0 or the framebuffer-object extension, or no shader compiler while the cvar is on, switches gl_framebuffer off. With the cvar off it stays uninitialised. Otherwise it creates the surfaces (full-size scene, half-size passes), compiles the copy program and is initialised |
| FrameBuffer.FramebufferStage.CreateSurfaces | engine/code/gl_fbo.c:105-178 | The window is the display with framebuffer 0; the scene is full size and the passes are `>> 1`; each is created in order with its own viewport |
| FrameBuffer.FramebufferStage.InitStages | engine/code/gl_fbo.c:191-192 | Once both stages are up, the per-frame initialisations change nothing; framebuffer initialised implies bloom initialised |
| FrameBuffer.FramebufferStage.Begin | engine/code/gl_fbo.c:183-224 | Begin does nothing without the extension or the cvar. Once running, it clamps the MSAA level, binds the scene's multisample framebuffer and logs a clear of it. A missing shader compiler switches the cvar off |
| FrameBuffer.FramebufferStage.ResolveAndCopy | engine/code/gl_fbo.c:232-261 | Texturing is enabled, the resolve happens only with the multisample extension, then the scene is copied into scenepass0 |
| FrameBuffer.FramebufferStage.UnderwaterBlur | engine/code/gl_fbo.c:264-271 | Under water, one 1.5 blur runs from scenepass0 into scenepass1 and one back; otherwise nothing happens |
| FrameBuffer.FramebufferStage.ScenePasses | engine/code/gl_fbo.c:238-271 | The scene passes log exactly SceneDraws |
| FrameBuffer.FramebufferStage.ShowPlainScene | engine/code/gl_fbo.c:276-286 | With gl_bloom off, unit 0 holds the blurred scene under water and the plain scene otherwise, and the fixed function pipeline reads exactly that |
| FrameBuffer.FramebufferStage.Process | engine/code/gl_fbo.c:226-287 | The whole state change of R_FrameBuffer_Process. With gl_bloom off the next quad reads PlainScene |
| FrameBuffer.FramebufferStage.Passes | engine/code/gl_fbo.c:303-304 | The scene passes and then the bloom passes. With unit 0 active, the bound program and samplers are those of the window quad |
| FrameBuffer.FramebufferStage.DrawToWindow | engine/code/gl_fbo.c:308-314 | The window is bound and one quad is logged into it with the current program and textures |
| FrameBuffer.FramebufferStage.ComposeFrame | engine/code/gl_fbo.c:303-314 | With unit 0 active, the frame logs exactly FrameDraws and ends bound to the window |
| FrameBuffer.FramebufferStage.Finish | engine/code/gl_fbo.c:317-325 | Back to the fixed function pipeline with units 1–3 disabled when bloom runs, framebuffer 0 bound, and unit 0 active and enabled |
| FrameBuffer.FramebufferStage.End | engine/code/gl_fbo.c:289-328 | End does nothing unless running. Otherwise the frame is drawn, the window system's framebuffer is bound, unit 0 is active and enabled, and no handle is created. After a frame in which bloom ran, units 1–3 are disabled. With unit 0 active the log grows by exactly FrameDraws |
| Music.SameIgnoringCase | engine/code/snd_fmod.c:901 | strcmpi(a, b) == 0 exactly when the strings have the same length and agree letter by letter after lower-casing |
| Music.SameIgnoringCaseEquivalence | engine/code/snd_fmod.c:901-905 | Case-insensitive equality is reflexive and symmetric |
| Music.FirstFound | engine/code/snd_fmod.c:123-142 | The index of the first candidate of length ≥ 1, every earlier one being shorter; None exactly when no candidate qualifies |
| Music.FirstFoundInOrder | engine/code/snd_fmod.c:123-142 | A MIDI request tries only ".mid"; otherwise ".ogg", then ".mp3", then ".wav" |
| Music.OpenSlot | engine/code/snd_fmod.c:102-163 | The open succeeds exactly when the slot is free (length 0) and some candidate exists. It then stores a loaded candidate path and that file's length, which is at least 1 |
| Music.CloseSlot | engine/code/snd_fmod.c:165-177 | After a close the slot holds no data, and a slot that held data has length 0; without data it is left alone |
| Music.MusicStopped | engine/code/snd_fmod.c:869-873 | Once stopped, with either subsystem initialised, the channel is not in use; only the channel and the call log change |
| Music.PausedIf | engine/code/snd_fmod.c:780-792 | Pausing changes only the paused flag and the call log |
| Music.ResumedIf | engine/code/snd_fmod.c:794-806 | Resuming changes only the paused flag and the call log |
| Music.Clamp | engine/code/snd_fmod.c:814-821 | The volume lands in [0, 1], values already there are kept, and only out-of-range values move, to the nearer bound |
| Music.Updated | engine/code/snd_fmod.c:808-828 | An update changes only the channel and the call log. It keeps `inuse`, keeps the earlier calls, and appends only SystemUpdate, SetVolume and SetPaused |
| Music.ChannelUpdated | engine/code/snd_fmod.c:895-899 | The CD and stream updates chosen by bgmtype change only the channel and the call log. They keep `inuse`, keep the earlier calls, and append only SystemUpdate, SetVolume and SetPaused |
| Music.PauseResumeIdempotent | engine/code/snd_fmod.c:780-806 | Pausing twice is pausing once; resuming twice is resuming once |
| Music.PauseResumeGuarded | engine/code/snd_fmod.c:622-659 | Pause sets and resume clears the paused flag exactly when the subsystem is ready and the channel is in use; each logs a call only when it changes the flag |
| Music.UpdateOutcome | engine/code/snd_fmod.c:808-828 | Updating a playing channel leaves its volume equal to the clamped cvar, in [0, 1]. The channel is then paused exactly when that volume is 0 or the client is paused (for CD, when CD audio is up) |
| Music.MusicUpdateSettles | engine/code/snd_fmod.c:893-906 | After an update the remembered type matches bgmtype case-insensitively. When the two already matched, the result is ChannelUpdated alone: the type is kept, `inuse` is unchanged, and no StopChannel or Release is logged. When they differed, the type is copied and the music is stopped |
| Music.StopGoesThroughCd | engine/code/snd_fmod.c:869-873 | With CD audio initialised, stopping the music is CDA_Stop alone; no stream is released |
| Music.ModStartOutcome | engine/code/snd_fmod.c:699-758 | MOD_Start as written does nothing before initialisation. Otherwise the channel ends in use exactly when the name is non-empty and either a candidate exists or `fmod_music` still names an earlier stream. A file found is played with the loop flag set; with none found, the earlier stream is played again. The slot ends free either way |
| Music.StartKeepsSlotFree | engine/code/snd_fmod.c:839-848 | FMOD_MusicStart leaves the file slot free, both as written and with the corrected MOD_Start |
| Music.CorrectedStartOutcome | engine/code/snd_fmod.c:699-758 | MOD_Start as intended (the corrected definition under Findings) plays exactly when the name is non-empty and a candidate exists, with the loop flag set. The played stream is that candidate, and the slot ends free |
| Music.ControlKeepsSlot | engine/code/snd_fmod.c:869-906 | Stopping, pausing, resuming and updating never touch the file slot |
| Music.ReplaysReleasedStream | engine/code/snd_fmod.c:740-757 | Restarting over a playing stream whose replacement is missing first releases that stream. It then plays it again, marking the channel in use |
| Music.NoReplayWhenMissing | engine/code/snd_fmod.c:699-758 | The intended start with no candidate plays nothing and leaves the channel idle |
| Music.MusicSystem.constructor | engine/code/snd_fmod.c:64-85 | The zero-initialised globals |
| Music.MusicSystem.Init | engine/code/snd_fmod.c:457-483 | FMOD_Init clears both initialised flags. Past -nosound: the startup clears the slot and sets initialised when the version check passes, and CD probing sets the CD flag; the channel is reset and locked |
| Music.MusicSystem.Open | engine/code/snd_fmod.c:102-163 | The fallback chain picks exactly the first existing candidate. The slot is claimed only when free, and on failure nothing changes |
| Music.MusicSystem.Close | engine/code/snd_fmod.c:165-177 | SND_FClose empties a slot holding data and touches nothing else |
| Music.MusicSystem.CdStop | engine/code/snd_fmod.c:590-620 | CDA_Stop stops the channel and releases the track and the disc only when CD audio is up and the channel is in use, then clears `inuse` |
| Music.MusicSystem.ModStop | engine/code/snd_fmod.c:760-778 | MOD_Stop stops the channel and releases the stream only when initialised and in use, without clearing `fmod_music` |
| Music.MusicSystem.MusicStop | engine/code/snd_fmod.c:869-873 | CDA_Stop, then MOD_Stop |
| Music.MusicSystem.CdPause | engine/code/snd_fmod.c:622-640 | CDA_Pause is PausedIf guarded by the CD flag |
| Music.MusicSystem.CdResume | engine/code/snd_fmod.c:642-659 | CDA_Resume is ResumedIf guarded by the CD flag |
| Music.MusicSystem.ModPause | engine/code/snd_fmod.c:780-792 | MOD_Pause is PausedIf guarded by SND_Initialised |
| Music.MusicSystem.ModResume | engine/code/snd_fmod.c:794-806 | MOD_Resume is ResumedIf guarded by SND_Initialised |
| Music.MusicSystem.SetChannelVolume | engine/code/snd_fmod.c:812-821 | The volume is clamped step by step to Clamp(bgmvolume) and handed to the channel |
| Music.MusicSystem.CdUpdate | engine/code/snd_fmod.c:661-688 | CDA_Update is guarded by SND_Initialised; its pause or resume is CD's |
| Music.MusicSystem.ModUpdate | engine/code/snd_fmod.c:808-828 | MOD_Update clamps, then pauses when the volume is 0 or the client is paused, and resumes otherwise |
| Music.MusicSystem.CdStart | engine/code/snd_fmod.c:549-588 | CDA_Start stops playing music, sets the loop flag, and plays track − 1 of the disc |
| Music.MusicSystem.Load | engine/code/snd_fmod.c:713-737 | On a successful open, a stream is created from the slot, its loop mode set and the slot freed |
| Music.MusicSystem.CreateStream | engine/code/snd_fmod.c:715-736 | The stream comes from the slot's file, `looping` follows the loop argument, and the slot is freed |
| Music.MusicSystem.PlayStream | engine/code/snd_fmod.c:751-757 | The channel is attached, the stream played, and `inuse` set |
| Music.MusicSystem.ModStartAsWritten | engine/code/snd_fmod.c:699-758 | MOD_Start as written: when the open fails it still plays whatever `fmod_music` still holds |
| Music.MusicSystem.ModStart | engine/code/snd_fmod.c:699-758 | MOD_Start as intended: it plays only the stream this call opened |
| Music.MusicSystem.MusicStart | engine/code/snd_fmod.c:839-848 | The type is remembered, then CD music starts, or streamed (non-MIDI) music through MOD_Start as written, according to bgmtype |
| Music.MusicSystem.MusicStartCorrected | engine/code/snd_fmod.c:839-848 | The same entry point with the corrected MOD_Start of Findings |
| Music.MusicSystem.MusicPause | engine/code/snd_fmod.c:875-882 | Pauses CD or streamed music according to bgmtype |
| Music.MusicSystem.MusicResume | engine/code/snd_fmod.c:884-891 | Resumes CD or streamed music according to bgmtype |
| Music.MusicSystem.MusicUpdate | engine/code/snd_fmod.c:893-906 | Updates according to bgmtype, then stops the music and copies the type when it changed |

## Left out

- Kernel normalisation (`engine/code/gl_bloom.c:111-116`) and every floating-point value. Offsets are symbolic ratios (`Ratio(scale, size)`), the kernel is one symbolic uniform, and cvars are reals.
- The matrices captured with `glGetFloatv`/`glOrtho`, clear colours, depth buffers, and the vertex coordinates of each quad. They do not affect which surface is drawn from or into.
- The `floor(log2(msaa_samples) + 0.5)` computation (`engine/code/gl_fbo.c:209-210`). L is an input of `FrameBuffer.Caps`.
- The internals of `phCreateSurface`, `phBindSurface`, `phClearSurface` and `phCompile`, and the texture cache of `GL_Bind`. These are engine code outside these files. `engine/code/ph.h` contributes only the surface record, and the `ph*` implementation is not part of this model.
- The fixed function pipeline is modelled as reading only the active unit. Multitexturing in fixed function is not modelled.
- `R_FrameBuffer_Bind` (`engine/code/gl_fbo.c:51-61`) is never called by the pipeline.
- Framebuffer teardown, which the source never implements.
- FrameBuffer.FramebufferStage.End does not state the final texture table and uniforms of a frame. It states the target, the active unit, the program, the enabled state of units 0–3 and the exact log.
- FrameBuffer.FramebufferStage.ComposeFrame states the exact log only when unit 0 is active at the start of the frame, which is the state R_FrameBuffer_End leaves.
- The FMOD device layer: `FMOD_Startup` beyond its version check and its clearing of the slot, `CDA_Startup` beyond its outcome (a parameter), `FMOD_ERROR`, `FMOD_Shutdown`, and all console printing. Each FMOD call is taken to succeed.
- `FMOD_Restart` (`engine/code/snd_fmod.c:515-538`). When no music is playing it passes an uninitialised buffer as the file name.
- `FMOD_MusicStartConsole`, which is command-line plumbing around `COM_StripExtension`.
- Fixed-size C buffers: `MAX_QPATH` path buffers and the 16-byte `oldbgmtype`. Strings are unbounded, so an overlong `bgmtype` overflowing `oldbgmtype` is not modelled.
- Strings are taken to contain no NUL character, and `strcmpi` lower-cases ASCII letters only.
- `COM_FReadFile` is taken to return a buffer, so a claimed slot always holds data.
- The CD routines are modelled for builds with `UQE_FMOD_CDAUDIO` defined, where FMOD plays the disc. In other builds `CDA_Startup`, `CDA_Start`, `CDA_Stop`, `CDA_Pause`, `CDA_Resume` and `CDA_Update` only forward to the engine's `CDAudio_*` driver (`engine/code/snd_fmod.c:252-254`, `585-587`, `617-619`, `637-639`, `656-658`, `685-687`). None of the modelled guards or channel updates apply there; for example, `CDA_Stop` then leaves `inuse` set. That driver is not part of this model.
- Framebuffer object names come from a counter in `GL.Context.CreateSurface`, so the model's surfaces get consecutive names. `phCreateSurface` only gives distinct, non-zero names; the exact numbers in the contracts of `Bloom.BuildPyramid`, `FrameBuffer.FramebufferStage.Init` and `FrameBuffer.FramebufferStage.CreateSurfaces` come from the counter.

## Findings

| source | as written | input that shows it | evidently intended | confidence | as-written member | corrected member |
|---|---|---|---|---|---|---|
| engine/code/snd_fmod.c:707-757 | MOD_Start first stops the music, and MOD_Stop releases the stream without clearing `fmod_music` (771-775). When SND_FOpen then fails, the `!fmod_music` test at 740 passes on the stale handle. The released stream is played and `inuse` is set | Start streamed music "a" with `mod/a.ogg` present; then, without CD audio, start "b" with no `mod/b.ogg`, `.mp3` or `.wav`. The log shows Release of the stream from `mod/a.ogg` and then Play of the same stream | A failed open plays nothing and leaves the channel idle | not executed | Music.MusicSystem.ModStartAsWritten, Music.ReplaysReleasedStream | Music.MusicSystem.ModStart, Music.NoReplayWhenMissing, Music.MusicSystem.MusicStartCorrected |
