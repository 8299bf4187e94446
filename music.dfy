/**
 * Music playback through FMOD: the single file slot `SND_File` that SND_FOpen fills
 * from the pak file system and SND_FClose frees, the flags of the one music channel
 * `SND_MusicChannel`, and the routines that start, stop, pause, resume and update
 * streamed ("mod": ogg, mp3, wav, midi) and CD music.
 *
 * FMOD calls are opaque: each is recorded, in order, in `calls`, and each is taken
 * to succeed. The file system is a map from path to length (a path not in the map
 * is a file COM_FOpenFile does not find). Console variables and the client's pause
 * flag are parameters.
 */
module Music {
  import opened Wrappers

  // ---------------------------------------------------------------------------
  // C strings

  /** tolower in the "C" locale. */
  function Lower(c: char): char {
    if 'A' <= c <= 'Z' then (c as int - 'A' as int + 'a' as int) as char else c
  }

  /** strcmpi(a, b) == 0: the strings agree letter by letter once lower-cased. */
  function SameIgnoringCase(a: string, b: string): (r: bool)
    ensures r <==> |a| == |b| && forall i :: 0 <= i < |a| ==> Lower(a[i]) == Lower(b[i])
  {
    if |a| == 0 || |b| == 0 then |a| == |b|
    else Lower(a[0]) == Lower(b[0]) && SameIgnoringCase(a[1..], b[1..])
  }

  /** Case-insensitive equality is an equivalence: reflexive and symmetric. */
  lemma {:induction false} SameIgnoringCaseEquivalence(a: string, b: string)
    ensures SameIgnoringCase(a, a)
    ensures SameIgnoringCase(a, b) == SameIgnoringCase(b, a)
  {
    if |a| > 0 && |b| > 0 {
      SameIgnoringCaseEquivalence(a[1..], b[1..]);
    }
  }

  // ---------------------------------------------------------------------------
  // The file slot and the candidate paths

  /** COM_FOpenFile: the file's length, or -1 when it is not in the search path. */
  function FileLength(fs: map<string, nat>, path: string): int {
    if path in fs then fs[path] else -1
  }

  /** The name SND_FOpen starts from: a resumed name is used verbatim, otherwise
      music lives under "midi/" or "mod/". */
  function BasePath(name: string, midi: bool, resume: bool): string {
    if resume then name else if midi then "midi/" + name else "mod/" + name
  }

  /** The paths SND_FOpen tries, in order. */
  function Candidates(base: string, midi: bool): seq<string> {
    if midi then [base + ".mid"] else [base + ".ogg", base + ".mp3", base + ".wav"]
  }

  /** The index of the first candidate with at least one byte. */
  function FirstFound(fs: map<string, nat>, cands: seq<string>): (r: Option<nat>)
    ensures r.Some? ==> r.value < |cands| && FileLength(fs, cands[r.value]) >= 1
    ensures r.Some? ==> forall j :: 0 <= j < r.value ==> FileLength(fs, cands[j]) < 1
    ensures r.None? <==> forall j :: 0 <= j < |cands| ==> FileLength(fs, cands[j]) < 1
  {
    if |cands| == 0 then None
    else if FileLength(fs, cands[0]) >= 1 then Some(0)
    else
      match FirstFound(fs, cands[1..])
      case None => None
      case Some(k) => Some(k + 1)
  }

  /** The first-found index over SND_FOpen's candidate lists, spelled out. */
  lemma FirstFoundInOrder(fs: map<string, nat>, base: string)
    ensures FirstFound(fs, Candidates(base, true)) ==
      if FileLength(fs, base + ".mid") >= 1 then Some(0) else None
    ensures FirstFound(fs, Candidates(base, false)) ==
      if FileLength(fs, base + ".ogg") >= 1 then Some(0)
      else if FileLength(fs, base + ".mp3") >= 1 then Some(1)
      else if FileLength(fs, base + ".wav") >= 1 then Some(2)
      else None
  {
    var c := Candidates(base, false);
    assert c[1..][1..][1..] == [];
    assert FirstFound(fs, c[1..][1..]) == if FileLength(fs, base + ".wav") >= 1 then Some(0) else None;
    assert FirstFound(fs, c[1..]) ==
      if FileLength(fs, base + ".mp3") >= 1 then Some(0)
      else if FileLength(fs, base + ".wav") >= 1 then Some(1)
      else None;
    assert Candidates(base, true)[1..] == [];
  }

  /** `SND_File`: whether `data` holds a buffer, the length and the path it came from. */
  datatype FileSlot = FileSlot(loaded: bool, length: int, filename: string)

  const EmptySlot := FileSlot(false, 0, "")

  /** What SND_FOpen puts in the slot, or None when it fails: no candidate exists,
      or the slot is taken (its length is not 0). */
  function OpenSlot(slot: FileSlot, fs: map<string, nat>, base: string, midi: bool): (r: Option<FileSlot>)
    ensures r.Some? <==>
      slot.length == 0 &&
      exists j :: 0 <= j < |Candidates(base, midi)| && FileLength(fs, Candidates(base, midi)[j]) >= 1
    ensures r.Some? ==>
      r.value.loaded && r.value.filename in Candidates(base, midi) &&
      r.value.length == FileLength(fs, r.value.filename) >= 1
  {
    var cands := Candidates(base, midi);
    match FirstFound(fs, cands)
    case None => None
    case Some(k) => if slot.length != 0 then None else Some(FileSlot(true, FileLength(fs, cands[k]), cands[k]))
  }

  /** SND_FClose: a slot holding data is emptied; one without data is left alone. */
  function CloseSlot(slot: FileSlot): (r: FileSlot)
    ensures !r.loaded
    ensures slot.loaded ==> r.length == 0
    ensures !slot.loaded ==> r == slot
  {
    if !slot.loaded then slot else EmptySlot
  }

  // ---------------------------------------------------------------------------
  // The music channel and the FMOD call log

  /** `SND_MusicChannel`; `attached` is whether its FMOD channel handle is set. */
  datatype Channel = Channel(volume: real, attached: bool, track: int, inuse: bool,
                             locked: bool, looping: bool, paused: bool)

  /** The sounds FMOD holds for the music: a stream created from the file slot,
      the CD (`fmod_musicCD`) and one of its tracks (`fmod_musicCD_subsound`). */
  datatype Sound = Stream(path: string) | Disc | DiscTrack(index: int)

  datatype Call =
    | CreateSound(path: string)        // FMOD_System_CreateSound over the slot's bytes
    | SetLoop(sound: Sound, on: bool)  // FMOD_Sound_SetMode, LOOP_NORMAL or LOOP_OFF
    | SubSound(index: int)             // FMOD_Sound_GetSubSound on the CD
    | Play(sound: Sound)               // GetChannel 0, then PlaySound reusing it
    | StopChannel                      // FMOD_Channel_Stop
    | Release(sound: Sound)            // FMOD_Sound_Release
    | SetPaused(on: bool)              // FMOD_Channel_SetPaused
    | SetVolume(volume: real)          // FMOD_Channel_SetVolume
    | SystemUpdate                     // FMOD_System_Update

  /** The whole music state: the globals of the sound module. `music` is the stream
      handle `fmod_music`, named by the path it was created from; it is not cleared
      when the sound is released. */
  datatype Sys = Sys(file: FileSlot, channel: Channel, initialised: bool, initialisedCD: bool,
                     music: Option<string>, disc: bool, discTrack: Option<int>,
                     oldBgmType: string, calls: seq<Call>)

  // ---------------------------------------------------------------------------
  // The routines, as functions of the state

  /** FMOD_Init with FMOD_Startup's effect on the slot and the flags: `versionOk` is
      whether the library passed the version check, `cdFound` whether CD probing
      opened a drive. The channel is reset and locked either way past -nosound. */
  function Reset(s: Sys, nosound: bool, versionOk: bool, cdFound: bool): Sys {
    var s1 := s.(initialised := false, initialisedCD := false);
    if nosound then s1
    else
      var s2 :=
        if !versionOk then s1
        else
          var probed := !s1.disc && cdFound;
          s1.(file := EmptySlot, initialised := true,
              disc := s1.disc || probed, initialisedCD := probed);
      s2.(channel := Channel(0.0, false, 0, false, true, false, false))
  }

  /** CDA_Stop. */
  function CdStopped(s: Sys): Sys {
    if !s.initialisedCD || !s.channel.inuse then s
    else
      s.(calls := s.calls + (if s.channel.attached then [StopChannel] else [])
                  + (match s.discTrack case Some(t) => [Release(DiscTrack(t))] case None => [])
                  + (if s.disc then [Release(Disc)] else []),
         channel := s.channel.(inuse := false))
  }

  /** MOD_Stop: the stream is released but `fmod_music` keeps pointing at it. */
  function ModStopped(s: Sys): Sys {
    if !s.initialised || !s.channel.inuse then s
    else
      s.(calls := s.calls + (if s.channel.attached then [StopChannel] else [])
                  + (match s.music case Some(m) => [Release(Stream(m))] case None => []),
         channel := s.channel.(inuse := false))
  }

  /** FMOD_MusicStop. */
  function MusicStopped(s: Sys): (r: Sys)
    ensures r.initialised || r.initialisedCD ==> !r.channel.inuse
    ensures r.(calls := s.calls, channel := s.channel) == s
  {
    ModStopped(CdStopped(s))
  }

  /** MOD_Pause (ready = SND_Initialised) and CDA_Pause (ready = SND_InitialisedCD). */
  function PausedIf(s: Sys, ready: bool): (r: Sys)
    ensures r.(calls := s.calls, channel := s.channel) == s
    ensures r.channel.(paused := s.channel.paused) == s.channel
  {
    if !ready || !s.channel.inuse || s.channel.paused then s
    else s.(calls := s.calls + [SetPaused(true)], channel := s.channel.(paused := true))
  }

  /** MOD_Resume and CDA_Resume. */
  function ResumedIf(s: Sys, ready: bool): (r: Sys)
    ensures r.(calls := s.calls, channel := s.channel) == s
    ensures r.channel.(paused := s.channel.paused) == s.channel
  {
    if !ready || !s.channel.inuse || !s.channel.paused then s
    else s.(calls := s.calls + [SetPaused(false)], channel := s.channel.(paused := false))
  }

  /** The music volume cvar clamped into [0, 1]. */
  function Clamp(v: real): (r: real)
    ensures 0.0 <= r <= 1.0
    ensures 0.0 <= v <= 1.0 ==> r == v
    ensures r != v ==> (v < 0.0 && r == 0.0) || (v > 1.0 && r == 1.0)
  {
    if v < 0.0 then 0.0 else if v > 1.0 then 1.0 else v
  }

  /** MOD_Update (cd = false) and CDA_Update (cd = true): both are guarded by
      SND_Initialised; the pause or resume they end with is MOD's or CD's. */
  function Updated(s: Sys, volume: real, clientPaused: bool, cd: bool): (r: Sys)
    ensures r.(calls := s.calls, channel := s.channel) == s
    ensures r.channel.inuse == s.channel.inuse
    ensures |s.calls| <= |r.calls| && r.calls[..|s.calls|] == s.calls
    ensures forall c :: c in r.calls[|s.calls|..] ==> c.SystemUpdate? || c.SetVolume? || c.SetPaused?
  {
    if !s.initialised || !s.channel.inuse then s
    else
      var v := Clamp(volume);
      var s1 := s.(calls := s.calls + [SystemUpdate, SetVolume(v)], channel := s.channel.(volume := v));
      var ready := if cd then s.initialisedCD else s.initialised;
      if v == 0.0 || clientPaused then PausedIf(s1, ready) else ResumedIf(s1, ready)
  }

  /** CDA_Start: FMOD numbers CD tracks from 0. */
  function CdStarted(s: Sys, track: int, loop: bool): Sys {
    if !s.initialisedCD then s
    else
      var s1 := if s.channel.inuse then MusicStopped(s) else s;
      s1.(channel := s1.channel.(looping := loop, attached := true, inuse := true),
          discTrack := Some(track - 1),
          calls := s1.calls + [SetLoop(Disc, loop), SubSound(track - 1), Play(DiscTrack(track - 1))])
  }

  /** The part of MOD_Start that opens the file: on success a stream is created
      from the slot, its loop mode set, and the slot freed again. */
  function Loaded(s: Sys, fs: map<string, nat>, name: string, midi: bool, loop: bool, resume: bool): Sys {
    match OpenSlot(s.file, fs, BasePath(name, midi, resume), midi)
    case None => s
    case Some(slot) =>
      s.(file := CloseSlot(slot), music := Some(slot.filename), channel := s.channel.(looping := loop),
         calls := s.calls + [CreateSound(slot.filename), SetLoop(Stream(slot.filename), loop)])
  }

  /** The end of MOD_Start: play the stream `m` on the music channel. */
  function Played(s: Sys, m: string): Sys {
    s.(channel := s.channel.(attached := true, inuse := true), calls := s.calls + [Play(Stream(m))])
  }

  /** MOD_Start as the source writes it: when the open fails it still plays whatever
      `fmod_music` points at, which may be a stream MOD_Stop already released. */
  function ModStartedAsWritten(s: Sys, fs: map<string, nat>, name: string, midi: bool, loop: bool, resume: bool): Sys {
    if !s.initialised then s
    else
      var s1 := if s.channel.inuse then MusicStopped(s) else s;
      if |name| == 0 then s1
      else
        var s2 := Loaded(s1, fs, name, midi, loop, resume);
        match s2.music
        case None => s2
        case Some(m) => Played(s2, m)
  }

  /** MOD_Start as intended: a stream is played only when this call opened it. */
  function ModStarted(s: Sys, fs: map<string, nat>, name: string, midi: bool, loop: bool, resume: bool): Sys {
    if !s.initialised then s
    else
      var s1 := if s.channel.inuse then MusicStopped(s) else s;
      if |name| == 0 then s1
      else
        match OpenSlot(s1.file, fs, BasePath(name, midi, resume), midi)
        case None => s1
        case Some(slot) => Played(Loaded(s1, fs, name, midi, loop, resume), slot.filename)
  }

  /** FMOD_MusicStart: remember the music type, then start CD or streamed music,
      the latter through MOD_Start as the source writes it. */
  function MusicStarted(s: Sys, bgmtype: string, fs: map<string, nat>, name: string,
                        track: int, loop: bool, resume: bool): Sys {
    var s1 := s.(oldBgmType := bgmtype);
    var s2 := if SameIgnoringCase(bgmtype, "cd") then CdStarted(s1, track, loop) else s1;
    if SameIgnoringCase(bgmtype, "mod") then ModStartedAsWritten(s2, fs, name, false, loop, resume) else s2
  }

  /** FMOD_MusicStart with the corrected MOD_Start. */
  function MusicStartedCorrected(s: Sys, bgmtype: string, fs: map<string, nat>, name: string,
                                 track: int, loop: bool, resume: bool): Sys {
    var s1 := s.(oldBgmType := bgmtype);
    var s2 := if SameIgnoringCase(bgmtype, "cd") then CdStarted(s1, track, loop) else s1;
    if SameIgnoringCase(bgmtype, "mod") then ModStarted(s2, fs, name, false, loop, resume) else s2
  }

  /** FMOD_MusicPause. */
  function MusicPaused(s: Sys, bgmtype: string): Sys {
    var s1 := if SameIgnoringCase(bgmtype, "cd") then PausedIf(s, s.initialisedCD) else s;
    if SameIgnoringCase(bgmtype, "mod") then PausedIf(s1, s1.initialised) else s1
  }

  /** FMOD_MusicResume. */
  function MusicResumed(s: Sys, bgmtype: string): Sys {
    var s1 := if SameIgnoringCase(bgmtype, "cd") then ResumedIf(s, s.initialisedCD) else s;
    if SameIgnoringCase(bgmtype, "mod") then ResumedIf(s1, s1.initialised) else s1
  }

  /** The first half of FMOD_MusicUpdate: CDA_Update and MOD_Update as bgmtype
      selects them. Neither starts or stops anything. */
  function ChannelUpdated(s: Sys, bgmtype: string, volume: real, clientPaused: bool): (r: Sys)
    ensures r.(calls := s.calls, channel := s.channel) == s
    ensures r.channel.inuse == s.channel.inuse
    ensures |s.calls| <= |r.calls| && r.calls[..|s.calls|] == s.calls
    ensures forall c :: c in r.calls[|s.calls|..] ==> c.SystemUpdate? || c.SetVolume? || c.SetPaused?
  {
    var s1 := if SameIgnoringCase(bgmtype, "cd") then Updated(s, volume, clientPaused, true) else s;
    var s2 := if SameIgnoringCase(bgmtype, "mod") then Updated(s1, volume, clientPaused, false) else s1;
    assert s2.calls[|s.calls|..] == s1.calls[|s.calls|..] + s2.calls[|s1.calls|..];
    s2
  }

  /** FMOD_MusicUpdate: update the channel, then stop the music when the music
      type changed since the last start or change. */
  function MusicUpdated(s: Sys, bgmtype: string, volume: real, clientPaused: bool): Sys {
    var s2 := ChannelUpdated(s, bgmtype, volume, clientPaused);
    if !SameIgnoringCase(bgmtype, s2.oldBgmType) then MusicStopped(s2).(oldBgmType := bgmtype) else s2
  }

  // ---------------------------------------------------------------------------
  // Properties

  /** Pausing twice is pausing once, and so is resuming. */
  lemma PauseResumeIdempotent(s: Sys, ready: bool)
    ensures PausedIf(PausedIf(s, ready), ready) == PausedIf(s, ready)
    ensures ResumedIf(ResumedIf(s, ready), ready) == ResumedIf(s, ready)
  {
  }

  /** Pause sets the paused flag and resume clears it, each only when the subsystem
      is ready and the channel is in use; each logs a call only when it changes the flag. */
  lemma PauseResumeGuarded(s: Sys, ready: bool)
    ensures PausedIf(s, ready).channel.paused == (s.channel.paused || (ready && s.channel.inuse))
    ensures ResumedIf(s, ready).channel.paused == (s.channel.paused && !(ready && s.channel.inuse))
    ensures PausedIf(s, ready).calls ==
              s.calls + (if PausedIf(s, ready).channel.paused != s.channel.paused then [SetPaused(true)] else [])
    ensures ResumedIf(s, ready).calls ==
              s.calls + (if ResumedIf(s, ready).channel.paused != s.channel.paused then [SetPaused(false)] else [])
  {
  }

  /** An update of a playing channel leaves its volume clamped into [0, 1] and the
      channel paused exactly when the clamped volume is 0 or the client is paused. */
  lemma {:induction false} UpdateOutcome(s: Sys, volume: real, clientPaused: bool)
    requires s.initialised && s.channel.inuse
    ensures var r := Updated(s, volume, clientPaused, false);
      0.0 <= r.channel.volume <= 1.0 &&
      r.channel.volume == Clamp(volume) &&
      (r.channel.paused <==> (r.channel.volume == 0.0 || clientPaused)) &&
      r.channel.inuse
    ensures var r := Updated(s, volume, clientPaused, true);
      r.channel.volume == Clamp(volume) &&
      (s.initialisedCD ==> (r.channel.paused <==> (r.channel.volume == 0.0 || clientPaused)))
  {
    PauseResumeGuarded(s.(calls := s.calls + [SystemUpdate, SetVolume(Clamp(volume))],
                          channel := s.channel.(volume := Clamp(volume))), s.initialised);
    PauseResumeGuarded(s.(calls := s.calls + [SystemUpdate, SetVolume(Clamp(volume))],
                          channel := s.channel.(volume := Clamp(volume))), s.initialisedCD);
  }

  /** After an update the remembered music type agrees with the current one. When
      they already agreed, the update is the channel update alone: nothing is
      stopped or released and the channel stays as much in use as it was. When they
      differed, the type is copied and the music is stopped. */
  lemma MusicUpdateSettles(s: Sys, bgmtype: string, volume: real, clientPaused: bool)
    ensures SameIgnoringCase(bgmtype, MusicUpdated(s, bgmtype, volume, clientPaused).oldBgmType)
    ensures var r := MusicUpdated(s, bgmtype, volume, clientPaused);
      SameIgnoringCase(bgmtype, s.oldBgmType) ==>
        && r == ChannelUpdated(s, bgmtype, volume, clientPaused)
        && r.oldBgmType == s.oldBgmType && r.channel.inuse == s.channel.inuse
        && forall c :: c in r.calls[|s.calls|..] ==> !c.StopChannel? && !c.Release?
    ensures var r := MusicUpdated(s, bgmtype, volume, clientPaused);
      !SameIgnoringCase(bgmtype, s.oldBgmType) ==>
        r.oldBgmType == bgmtype && (r.initialised || r.initialisedCD ==> !r.channel.inuse)
  {
    var s2 := ChannelUpdated(s, bgmtype, volume, clientPaused);
    assert s2.oldBgmType == s.oldBgmType;
    SameIgnoringCaseEquivalence(bgmtype, s.oldBgmType);
    if !SameIgnoringCase(bgmtype, s.oldBgmType) {
      var r := MusicStopped(s2);
      assert !(r.initialised || r.initialisedCD) || !r.channel.inuse;
    }
  }

  /** With CD audio initialised, FMOD_MusicStop ends the channel through CDA_Stop,
      which releases the CD's sounds; MOD_Stop then finds the channel idle, so a
      playing stream is stopped but never released. */
  lemma StopGoesThroughCd(s: Sys)
    requires s.initialisedCD && s.channel.inuse
    ensures MusicStopped(s) == CdStopped(s)
    ensures !MusicStopped(s).channel.inuse
    ensures forall c :: c in MusicStopped(s).calls[|s.calls|..] ==> !(c.Release? && c.sound.Stream?)
  {
  }

  /** The slot is free between calls. */
  predicate SlotFree(s: Sys) {
    s.file == EmptySlot
  }

  /** MOD_Start as the source writes it does nothing before initialisation.
      Otherwise it stops what was playing, and the channel ends in use exactly when
      the name is not empty and either one of its candidate files exists or
      `fmod_music` still names an earlier stream. A file found is played with the
      loop flag set; with none found the earlier stream is played again. Either way
      the slot ends free. */
  lemma ModStartOutcome(s: Sys, fs: map<string, nat>, name: string, midi: bool, loop: bool, resume: bool)
    requires SlotFree(s)
    ensures !s.initialised ==> ModStartedAsWritten(s, fs, name, midi, loop, resume) == s
    ensures var r := ModStartedAsWritten(s, fs, name, midi, loop, resume);
      var cands := Candidates(BasePath(name, midi, resume), midi);
      s.initialised ==>
        SlotFree(r) &&
        (r.channel.inuse <==>
           |name| > 0 && ((exists j :: 0 <= j < |cands| && FileLength(fs, cands[j]) >= 1) || s.music.Some?))
    ensures var r := ModStartedAsWritten(s, fs, name, midi, loop, resume);
      var cands := Candidates(BasePath(name, midi, resume), midi);
      s.initialised && |name| > 0 && (exists j :: 0 <= j < |cands| && FileLength(fs, cands[j]) >= 1) ==>
        r.channel.looping == loop && r.music.Some? && r.music.value in cands &&
        r.calls[|r.calls| - 1] == Play(Stream(r.music.value))
    ensures var r := ModStartedAsWritten(s, fs, name, midi, loop, resume);
      var cands := Candidates(BasePath(name, midi, resume), midi);
      s.initialised && |name| > 0 && s.music.Some? &&
      !(exists j :: 0 <= j < |cands| && FileLength(fs, cands[j]) >= 1) ==>
        r.music == s.music && r.calls[|r.calls| - 1] == Play(Stream(s.music.value))
  {
    if s.initialised {
      var s1 := if s.channel.inuse then MusicStopped(s) else s;
      assert s1.file == s.file && s1.music == s.music && s1.initialised && !s1.channel.inuse;
      if |name| > 0 {
        var base := BasePath(name, midi, resume);
        var r := ModStartedAsWritten(s, fs, name, midi, loop, resume);
        match OpenSlot(s1.file, fs, base, midi)
        case None =>
          assert Loaded(s1, fs, name, midi, loop, resume) == s1;
        case Some(slot) =>
          assert r == Played(Loaded(s1, fs, name, midi, loop, resume), slot.filename);
      }
    }
  }

  /** MOD_Start as intended: it does nothing before initialisation; otherwise it
      stops what was playing, and then plays exactly when the name is not empty and
      one of its candidate files exists, with the loop flag set and the slot freed. */
  lemma CorrectedStartOutcome(s: Sys, fs: map<string, nat>, name: string, midi: bool, loop: bool, resume: bool)
    requires SlotFree(s)
    ensures !s.initialised ==> ModStarted(s, fs, name, midi, loop, resume) == s
    ensures var r := ModStarted(s, fs, name, midi, loop, resume);
      var cands := Candidates(BasePath(name, midi, resume), midi);
      s.initialised ==>
        SlotFree(r) &&
        (r.channel.inuse <==>
           |name| > 0 && exists j :: 0 <= j < |cands| && FileLength(fs, cands[j]) >= 1)
    ensures var r := ModStarted(s, fs, name, midi, loop, resume);
      r.channel.inuse && s.initialised ==>
        r.channel.looping == loop && r.music.Some? &&
        r.music.value in Candidates(BasePath(name, midi, resume), midi) &&
        r.calls[|r.calls| - 1] == Play(Stream(r.music.value))
  {
  }

  /** Starting music leaves the file slot free, as written and as corrected:
      MOD_Start frees the slot after every open. */
  lemma StartKeepsSlotFree(s: Sys, fs: map<string, nat>, name: string, bgmtype: string,
                           track: int, loop: bool, resume: bool)
    requires SlotFree(s)
    ensures SlotFree(MusicStarted(s, bgmtype, fs, name, track, loop, resume))
    ensures SlotFree(MusicStartedCorrected(s, bgmtype, fs, name, track, loop, resume))
  {
    var s1 := s.(oldBgmType := bgmtype);
    var s2 := if SameIgnoringCase(bgmtype, "cd") then CdStarted(s1, track, loop) else s1;
    assert SlotFree(s2);
    if SameIgnoringCase(bgmtype, "mod") {
      ModStartOutcome(s2, fs, name, false, loop, resume);
      CorrectedStartOutcome(s2, fs, name, false, loop, resume);
    }
  }

  /** Stopping, pausing, resuming and updating never touch the file slot. */
  lemma ControlKeepsSlot(s: Sys, bgmtype: string, volume: real, clientPaused: bool)
    ensures MusicStopped(s).file == s.file
    ensures MusicPaused(s, bgmtype).file == s.file
    ensures MusicResumed(s, bgmtype).file == s.file
    ensures MusicUpdated(s, bgmtype, volume, clientPaused).file == s.file
  {
  }

  /** The defect: restarting over a playing stream whose replacement is missing.
      MOD_Start first stops the music, which releases the playing stream `m`, then
      finds no file and plays `m` anyway, marking the channel in use. */
  lemma ReplaysReleasedStream(s: Sys, fs: map<string, nat>, name: string, loop: bool, resume: bool, m: string)
    requires s.initialised && !s.initialisedCD && SlotFree(s) && |name| > 0
    requires s.channel.inuse && s.music == Some(m)
    requires forall j :: 0 <= j < 3 ==> FileLength(fs, Candidates(BasePath(name, false, resume), false)[j]) < 1
    ensures var r := ModStartedAsWritten(s, fs, name, false, loop, resume);
      var k := |MusicStopped(s).calls|;
      |s.calls| < k < |r.calls| &&
      r.calls[k - 1] == Release(Stream(m)) &&
      r.calls[|r.calls| - 1] == Play(Stream(m)) && r.channel.inuse
  {
  }

  /** The same start, as intended, plays nothing and leaves the channel idle. */
  lemma NoReplayWhenMissing(s: Sys, fs: map<string, nat>, name: string, loop: bool, resume: bool)
    requires s.initialised && SlotFree(s)
    requires forall j :: 0 <= j < 3 ==> FileLength(fs, Candidates(BasePath(name, false, resume), false)[j]) < 1
    ensures var r := ModStarted(s, fs, name, false, loop, resume);
      !r.channel.inuse && r.calls == MusicStopped(s).calls[..|r.calls|] &&
      forall c :: c in r.calls[|s.calls|..] ==> !c.Play?
  {
  }

  // ---------------------------------------------------------------------------
  // The module's globals, updated in place

  class MusicSystem {
    var file: FileSlot
    var channel: Channel
    var initialised: bool
    var initialisedCD: bool
    var music: Option<string>
    var disc: bool
    var discTrack: Option<int>
    var oldBgmType: string
    var calls: seq<Call>

    function State(): Sys
      reads this
    {
      Sys(file, channel, initialised, initialisedCD, music, disc, discTrack, oldBgmType, calls)
    }

    /** The zero-initialised globals of a freshly loaded program. */
    constructor ()
      ensures State() == Sys(EmptySlot, Channel(0.0, false, 0, false, false, false, false),
                             false, false, None, false, None, "", [])
    {
      file := EmptySlot;
      channel := Channel(0.0, false, 0, false, false, false, false);
      initialised, initialisedCD := false, false;
      music, disc, discTrack := None, false, None;
      oldBgmType := "";
      calls := [];
    }

    /** FMOD_Init. */
    method Init(nosound: bool, versionOk: bool, cdFound: bool)
      modifies this
      ensures State() == Reset(old(State()), nosound, versionOk, cdFound)
    {
      initialised := false;
      initialisedCD := false;
      if nosound {
        return;
      }
      if versionOk {
        file := EmptySlot;
        if !disc && cdFound {
          disc := true;
          initialisedCD := true;
        }
        initialised := true;
      }
      channel := Channel(0.0, false, 0, false, true, false, false);
    }

    /** SND_FOpen: try the candidates in order, then claim the slot. */
    method Open(fs: map<string, nat>, name: string, midi: bool, resume: bool) returns (ok: bool)
      modifies this
      ensures ok == OpenSlot(old(file), fs, BasePath(name, midi, resume), midi).Some?
      ensures State() == old(State()).(file :=
        if ok then OpenSlot(old(file), fs, BasePath(name, midi, resume), midi).value else old(file))
    {
      var base := BasePath(name, midi, resume);
      var path: string;
      var len: int;
      if midi {
        path := base + ".mid";
        len := FileLength(fs, path);
      } else {
        path := base + ".ogg";
        len := FileLength(fs, path);
        if len < 1 {
          path := base + ".mp3";
          len := FileLength(fs, path);
        }
        if len < 1 {
          path := base + ".wav";
          len := FileLength(fs, path);
        }
      }
      FirstFoundInOrder(fs, base);
      if len < 1 {
        return false;
      }
      if file.length == 0 {
        file := FileSlot(true, len, path);
        return true;
      }
      return false;
    }

    /** SND_FClose. */
    method Close()
      modifies this
      ensures State() == old(State()).(file := CloseSlot(old(file)))
    {
      if !file.loaded {
        return;
      }
      file := file.(length := 0, filename := "");
      file := file.(loaded := false);
    }

    /** CDA_Stop. */
    method CdStop()
      modifies this
      ensures State() == CdStopped(old(State()))
    {
      if !initialisedCD || !channel.inuse {
        return;
      }
      if channel.attached {
        calls := calls + [StopChannel];
      }
      if discTrack.Some? {
        calls := calls + [Release(DiscTrack(discTrack.value))];
      }
      if disc {
        calls := calls + [Release(Disc)];
      }
      channel := channel.(inuse := false);
    }

    /** MOD_Stop. */
    method ModStop()
      modifies this
      ensures State() == ModStopped(old(State()))
    {
      if !initialised || !channel.inuse {
        return;
      }
      if channel.attached {
        calls := calls + [StopChannel];
      }
      if music.Some? {
        calls := calls + [Release(Stream(music.value))];
      }
      channel := channel.(inuse := false);
    }

    /** FMOD_MusicStop. */
    method MusicStop()
      modifies this
      ensures State() == MusicStopped(old(State()))
    {
      CdStop();
      ModStop();
    }

    /** CDA_Pause. */
    method CdPause()
      modifies this
      ensures State() == PausedIf(old(State()), old(initialisedCD))
    {
      if !initialisedCD || !channel.inuse {
        return;
      }
      if !channel.paused {
        calls := calls + [SetPaused(true)];
        channel := channel.(paused := true);
      }
    }

    /** CDA_Resume. */
    method CdResume()
      modifies this
      ensures State() == ResumedIf(old(State()), old(initialisedCD))
    {
      if !initialisedCD || !channel.inuse {
        return;
      }
      if channel.paused {
        calls := calls + [SetPaused(false)];
        channel := channel.(paused := false);
      }
    }

    /** MOD_Pause. */
    method ModPause()
      modifies this
      ensures State() == PausedIf(old(State()), old(initialised))
    {
      if !initialised || !channel.inuse {
        return;
      }
      if !channel.paused {
        calls := calls + [SetPaused(true)];
        channel := channel.(paused := true);
      }
    }

    /** MOD_Resume. */
    method ModResume()
      modifies this
      ensures State() == ResumedIf(old(State()), old(initialised))
    {
      if !initialised || !channel.inuse {
        return;
      }
      if channel.paused {
        calls := calls + [SetPaused(false)];
        channel := channel.(paused := false);
      }
    }

    /** The common start of MOD_Update and CDA_Update: take the volume cvar,
        clamp it and hand it to the channel. */
    method SetChannelVolume(volume: real)
      modifies this
      ensures State() == old(State()).(calls := old(calls) + [SystemUpdate, SetVolume(Clamp(volume))],
                                       channel := old(channel).(volume := Clamp(volume)))
    {
      calls := calls + [SystemUpdate];
      var v := volume;
      if v < 0.0 {
        v := 0.0;
      }
      if v > 1.0 {
        v := 1.0;
      }
      channel := channel.(volume := v);
      calls := calls + [SetVolume(v)];
    }

    /** CDA_Update. */
    method CdUpdate(volume: real, clientPaused: bool)
      modifies this
      ensures State() == Updated(old(State()), volume, clientPaused, true)
    {
      if !initialised || !channel.inuse {
        return;
      }
      SetChannelVolume(volume);
      if channel.volume == 0.0 || clientPaused {
        CdPause();
      } else {
        CdResume();
      }
    }

    /** MOD_Update. */
    method ModUpdate(volume: real, clientPaused: bool)
      modifies this
      ensures State() == Updated(old(State()), volume, clientPaused, false)
    {
      if !initialised || !channel.inuse {
        return;
      }
      SetChannelVolume(volume);
      if channel.volume == 0.0 || clientPaused {
        ModPause();
      } else {
        ModResume();
      }
    }

    /** CDA_Start. */
    method CdStart(track: int, loop: bool)
      modifies this
      ensures State() == CdStarted(old(State()), track, loop)
    {
      if !initialisedCD {
        return;
      }
      if channel.inuse {
        MusicStop();
      }
      if loop {
        channel := channel.(looping := true);
        calls := calls + [SetLoop(Disc, true)];
      } else {
        channel := channel.(looping := false);
        calls := calls + [SetLoop(Disc, false)];
      }
      discTrack := Some(track - 1);
      calls := calls + [SubSound(track - 1)];
      channel := channel.(attached := true);
      calls := calls + [Play(DiscTrack(track - 1))];
      channel := channel.(inuse := true);
    }

    /** The open-and-create block of MOD_Start. */
    method Load(fs: map<string, nat>, name: string, midi: bool, loop: bool, resume: bool) returns (ok: bool)
      modifies this
      ensures ok == OpenSlot(old(file), fs, BasePath(name, midi, resume), midi).Some?
      ensures State() == Loaded(old(State()), fs, name, midi, loop, resume)
    {
      ok := Open(fs, name, midi, resume);
      if ok {
        CreateStream(loop);
      }
    }

    /** The body of MOD_Start's successful open: a stream from the slot's bytes,
        its loop mode, and the slot freed. */
    method CreateStream(loop: bool)
      requires file.loaded
      modifies this
      ensures State() == old(State()).(file := CloseSlot(old(file)), music := Some(old(file.filename)),
                                       channel := old(channel).(looping := loop),
                                       calls := old(calls) + [CreateSound(old(file.filename)), SetLoop(Stream(old(file.filename)), loop)])
    {
      calls := calls + [CreateSound(file.filename)];
      music := Some(file.filename);
      if loop {
        channel := channel.(looping := true);
        calls := calls + [SetLoop(Stream(file.filename), true)];
      } else {
        channel := channel.(looping := false);
        calls := calls + [SetLoop(Stream(file.filename), false)];
      }
      Close();
    }

    /** The end of MOD_Start: get the channel, play the stream on it. */
    method PlayStream(m: string)
      modifies this
      ensures State() == Played(old(State()), m)
    {
      channel := channel.(attached := true);
      calls := calls + [Play(Stream(m))];
      channel := channel.(inuse := true);
    }

    /** MOD_Start as the source writes it. */
    method ModStartAsWritten(fs: map<string, nat>, name: string, midi: bool, loop: bool, resume: bool)
      modifies this
      ensures State() == ModStartedAsWritten(old(State()), fs, name, midi, loop, resume)
    {
      if !initialised {
        return;
      }
      if channel.inuse {
        MusicStop();
      }
      if |name| == 0 {
        return;
      }
      var _ := Load(fs, name, midi, loop, resume);
      if music.None? {
        return;
      }
      PlayStream(music.value);
    }

    /** MOD_Start as intended: play only what this call opened. */
    method ModStart(fs: map<string, nat>, name: string, midi: bool, loop: bool, resume: bool)
      modifies this
      ensures State() == ModStarted(old(State()), fs, name, midi, loop, resume)
    {
      if !initialised {
        return;
      }
      if channel.inuse {
        MusicStop();
      }
      if |name| == 0 {
        return;
      }
      var ok := Load(fs, name, midi, loop, resume);
      if !ok {
        return;
      }
      PlayStream(music.value);
    }

    /** FMOD_MusicStart. The track is a byte. */
    method MusicStart(bgmtype: string, fs: map<string, nat>, name: string, track: nat, loop: bool, resume: bool)
      requires track < 256
      modifies this
      ensures State() == MusicStarted(old(State()), bgmtype, fs, name, track, loop, resume)
    {
      oldBgmType := bgmtype;
      if SameIgnoringCase(bgmtype, "cd") {
        CdStart(track, loop);
      }
      if SameIgnoringCase(bgmtype, "mod") {
        ModStartAsWritten(fs, name, false, loop, resume);
      }
    }

    /** FMOD_MusicStart with the corrected MOD_Start. */
    method MusicStartCorrected(bgmtype: string, fs: map<string, nat>, name: string, track: nat, loop: bool, resume: bool)
      requires track < 256
      modifies this
      ensures State() == MusicStartedCorrected(old(State()), bgmtype, fs, name, track, loop, resume)
    {
      oldBgmType := bgmtype;
      if SameIgnoringCase(bgmtype, "cd") {
        CdStart(track, loop);
      }
      if SameIgnoringCase(bgmtype, "mod") {
        ModStart(fs, name, false, loop, resume);
      }
    }

    /** FMOD_MusicPause. */
    method MusicPause(bgmtype: string)
      modifies this
      ensures State() == MusicPaused(old(State()), bgmtype)
    {
      if SameIgnoringCase(bgmtype, "cd") {
        CdPause();
      }
      if SameIgnoringCase(bgmtype, "mod") {
        ModPause();
      }
    }

    /** FMOD_MusicResume. */
    method MusicResume(bgmtype: string)
      modifies this
      ensures State() == MusicResumed(old(State()), bgmtype)
    {
      if SameIgnoringCase(bgmtype, "cd") {
        CdResume();
      }
      if SameIgnoringCase(bgmtype, "mod") {
        ModResume();
      }
    }

    /** FMOD_MusicUpdate. */
    method MusicUpdate(bgmtype: string, volume: real, clientPaused: bool)
      modifies this
      ensures State() == MusicUpdated(old(State()), bgmtype, volume, clientPaused)
    {
      if SameIgnoringCase(bgmtype, "cd") {
        CdUpdate(volume, clientPaused);
      }
      if SameIgnoringCase(bgmtype, "mod") {
        ModUpdate(volume, clientPaused);
      }
      if !SameIgnoringCase(bgmtype, oldBgmType) {
        MusicStop();
        oldBgmType := bgmtype;
      }
    }
  }
}
