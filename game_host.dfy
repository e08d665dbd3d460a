/**
 * The host program's game-code handling and main loop: the game lives in a
 * shared library that is copied, loaded and looked up by symbol, replaced
 * by built-in stubs when anything is missing, and reloaded whenever the
 * library file's write time changes. One iteration of the main loop drives
 * the renderer, the input manager and the game's entry points in a fixed
 * order.
 *
 * The platform layer, the renderer and the game are observed through the
 * calls made to them, in order.
 */
module GameHost {
  import opened Common
  import opened Platform
  import Input

  /** A `FileTime`: the low and high 32-bit halves of a Windows file time. */
  datatype FileTime = FileTime(low: u32, high: u32)

  /** The 64-bit value a `FileTime` stands for. */
  function Ticks(t: FileTime): nat
  {
    t.high * U32_MODULUS + t.low
  }

  /** Two file times are the same 64-bit value only when their halves agree. */
  lemma TicksInjective(a: FileTime, b: FileTime)
    ensures Ticks(a) == Ticks(b) <==> a == b
  {
    if a.high < b.high {
      assert Ticks(a) < (a.high + 1) * U32_MODULUS <= Ticks(b);
    } else if b.high < a.high {
      assert Ticks(b) < (b.high + 1) * U32_MODULUS <= Ticks(a);
    }
  }

  /**
   * `Platform::compareFileTime`: Windows' `CompareFileTime`, -1, 0 or 1 as
   * the first time is earlier than, equal to or later than the second,
   * returned as a `u32`. It is 0 exactly when the two times are equal.
   */
  function CompareFileTime(a: FileTime, b: FileTime): (r: u32)
    ensures r == 0 <==> a == b
    ensures r == 0 || r == 1 || r == UINT32_MAX
  {
    TicksInjective(a, b);
    ToU32(if Ticks(a) < Ticks(b) then -1 else if Ticks(a) == Ticks(b) then 0 else 1)
  }

  /** A game entry point: a symbol found in the game library, or the built-in stub. */
  datatype EntryPoint = Loaded(address: nat) | Stub

  /** A `GameCode`: the library handle (`None` for null), the three entry points, the write time and the validity flag. */
  datatype GameCode = GameCode(library: Option<nat>, init: EntryPoint, update: EntryPoint, render: EntryPoint,
                               lastWriteTime: FileTime, isValid: bool)

  /**
   * What the platform answers while the game code is loaded: the source
   * library's write time, the handle `loadLibrary` returns, and the
   * addresses `loadFunction` returns for `gameInit`, `gameUpdate` and
   * `gameRender` (the last three are not asked for when the library is null).
   */
  datatype LoaderAnswers = LoaderAnswers(writeTime: FileTime, library: Option<nat>,
                                         initSymbol: Option<nat>, updateSymbol: Option<nat>, renderSymbol: Option<nat>)

  /** A call made on the platform layer. */
  datatype PlatformCall =
    | CopyFile(source: string, target: string)
    | GetLastWriteTime(file: string)
    | LoadLibrary(file: string)
    | LoadFunction(library: nat, name: string)
    | UnloadLibrary(library: nat)

  /** A call the main loop makes on the platform, the renderer, the input manager or the game. */
  datatype HostEvent =
    | PlatformEvent(call: PlatformCall)
    | RendererStartFrame
    | ProcessEvents
    | ProcessKeys
    | ToggleFullscreen
    | GameInit(entry: EntryPoint)
    | GameUpdate(entry: EntryPoint)
    | RendererRenderFrame
    | GameRender(entry: EntryPoint)
    | InputEndFrame
    | RendererEndFrame
    | RendererCleanup

  // ---------------------------------------------------------------------
  // loadGameCode / unloadGameCode
  // ---------------------------------------------------------------------

  /**
   * `loadGameCode`: the code is valid exactly when the library and all three
   * symbols were found; a valid code calls the loaded symbols, any other
   * code calls the three stubs. The library handle and the source file's
   * write time are kept either way.
   */
  function LoadGameCode(answers: LoaderAnswers): (code: GameCode)
    ensures code.isValid <==>
      answers.library.Some? && answers.initSymbol.Some? && answers.updateSymbol.Some? && answers.renderSymbol.Some?
    ensures code.isValid ==>
      code.init == Loaded(answers.initSymbol.value) &&
      code.update == Loaded(answers.updateSymbol.value) &&
      code.render == Loaded(answers.renderSymbol.value)
    ensures !code.isValid ==> code.init == Stub && code.update == Stub && code.render == Stub
    ensures code.library == answers.library && code.lastWriteTime == answers.writeTime
  {
    var valid := answers.library.Some? &&
      answers.initSymbol.Some? && answers.updateSymbol.Some? && answers.renderSymbol.Some?;
    if valid then
      GameCode(answers.library, Loaded(answers.initSymbol.value), Loaded(answers.updateSymbol.value),
               Loaded(answers.renderSymbol.value), answers.writeTime, true)
    else
      GameCode(answers.library, Stub, Stub, Stub, answers.writeTime, false)
  }

  /** The platform calls `loadGameCode` makes: copy, write time, load, then the three lookups when the library loaded. */
  function LoadCalls(answers: LoaderAnswers, dllName: string, tempDllName: string): seq<HostEvent>
  {
    [PlatformEvent(CopyFile(dllName, tempDllName)), PlatformEvent(GetLastWriteTime(dllName)),
     PlatformEvent(LoadLibrary(tempDllName))] +
    (if answers.library.Some? then
       [PlatformEvent(LoadFunction(answers.library.value, "gameInit")),
        PlatformEvent(LoadFunction(answers.library.value, "gameUpdate")),
        PlatformEvent(LoadFunction(answers.library.value, "gameRender"))]
     else [])
  }

  /** `loadGameCode` loads the temporary copy, never the library that is rebuilt. */
  lemma LoadsTheCopy(answers: LoaderAnswers, dllName: string, tempDllName: string)
    ensures var calls := LoadCalls(answers, dllName, tempDllName);
      calls[0] == PlatformEvent(CopyFile(dllName, tempDllName)) &&
      (forall i :: 0 <= i < |calls| && calls[i].PlatformEvent? && calls[i].call.LoadLibrary? ==>
         i == 2 && calls[i].call.file == tempDllName)
  {
  }

  /** The game code after `unloadGameCode`: no library, not valid, all three entry points stubs. */
  function UnloadedCode(code: GameCode): (r: GameCode)
    ensures r.library.None? && !r.isValid
    ensures r.init == Stub && r.update == Stub && r.render == Stub
    ensures r.lastWriteTime == code.lastWriteTime
  {
    code.(library := None, isValid := false, init := Stub, update := Stub, render := Stub)
  }

  /** The platform calls `unloadGameCode` makes: it releases the library only when there is one. */
  function UnloadCalls(code: GameCode): (calls: seq<HostEvent>)
    ensures |calls| <= 1
    ensures calls != [] <==> code.library.Some?
    ensures calls != [] ==> calls[0] == PlatformEvent(UnloadLibrary(code.library.value))
  {
    if code.library.Some? then [PlatformEvent(UnloadLibrary(code.library.value))] else []
  }

  // ---------------------------------------------------------------------
  // The reload check
  // ---------------------------------------------------------------------

  /** The game code after the reload check, for the library's current write time `writeTime`. */
  function ReloadedCode(code: GameCode, writeTime: FileTime, answers: LoaderAnswers): GameCode
  {
    if CompareFileTime(writeTime, code.lastWriteTime) != 0 then LoadGameCode(answers) else code
  }

  /** The calls the reload check makes: the write-time query, then an unload and a load when that time changed. */
  function ReloadEvents(code: GameCode, writeTime: FileTime, answers: LoaderAnswers,
                        dllName: string, tempDllName: string): seq<HostEvent>
  {
    [PlatformEvent(GetLastWriteTime(dllName))] +
    (if CompareFileTime(writeTime, code.lastWriteTime) != 0 then
       UnloadCalls(code) + LoadCalls(answers, dllName, tempDllName)
     else [])
  }

  /**
   * The game code is reloaded exactly when the library's write time differs
   * from the one recorded at the last load; a reload first releases the old
   * library, then loads the new one; and without a reload the code is kept.
   */
  lemma ReloadExactlyWhenChanged(code: GameCode, writeTime: FileTime, answers: LoaderAnswers,
                                 dllName: string, tempDllName: string)
    ensures var events := ReloadEvents(code, writeTime, answers, dllName, tempDllName);
      (PlatformEvent(LoadLibrary(tempDllName)) in events <==> writeTime != code.lastWriteTime) &&
      (writeTime != code.lastWriteTime ==>
         events == [PlatformEvent(GetLastWriteTime(dllName))] + UnloadCalls(code) + LoadCalls(answers, dllName, tempDllName) &&
         ReloadedCode(code, writeTime, answers) == LoadGameCode(answers)) &&
      (writeTime == code.lastWriteTime ==>
         events == [PlatformEvent(GetLastWriteTime(dllName))] && ReloadedCode(code, writeTime, answers) == code)
  {
    var unload := UnloadCalls(code);
    var load := LoadCalls(answers, dllName, tempDllName);
    if writeTime != code.lastWriteTime {
      assert load[2] == PlatformEvent(LoadLibrary(tempDllName));
      assert ([PlatformEvent(GetLastWriteTime(dllName))] + (unload + load))[1 + |unload| + 2] == load[2];
    }
  }

  // ---------------------------------------------------------------------
  // One iteration of the main loop
  // ---------------------------------------------------------------------

  /** What the platform answers during one iteration of the main loop. */
  datatype FrameAnswers = FrameAnswers(quitRequested: bool, input: InputSnapshot,
                                       dllWriteTime: FileTime, reload: LoaderAnswers)

  /** The calls that open an iteration: the renderer's `startFrame`, the event pump and the input manager's `processKeys`. */
  function StartEvents(): seq<HostEvent>
  {
    [RendererStartFrame, ProcessEvents, ProcessKeys]
  }

  /** The calls that close an iteration, with `next` the game code after the reload check. */
  function FinishEvents(next: GameCode): seq<HostEvent>
  {
    [GameUpdate(next.update), RendererRenderFrame, GameRender(next.render), InputEndFrame, RendererEndFrame]
  }

  /**
   * The calls of one main-loop iteration that starts with game code `code`,
   * toggling full screen when `fullscreen`: the game's entry points called
   * are those of the code after the reload check.
   */
  function FrameEvents(code: GameCode, f: FrameAnswers, fullscreen: bool, dllName: string, tempDllName: string): seq<HostEvent>
  {
    StartEvents() +
    ReloadEvents(code, f.dllWriteTime, f.reload, dllName, tempDllName) +
    ToggleEvents(fullscreen) +
    FinishEvents(ReloadedCode(code, f.dllWriteTime, f.reload))
  }

  predicate IsRendererEvent(e: HostEvent)
  {
    e.RendererStartFrame? || e.RendererRenderFrame? || e.RendererEndFrame?
  }

  predicate IsGameOrRenderEvent(e: HostEvent)
  {
    e.GameUpdate? || e.RendererRenderFrame? || e.GameRender?
  }

  /** A sequence none of whose elements satisfies `p` filters to nothing. */
  lemma FilterNone<T>(s: seq<T>, p: T -> bool)
    requires forall i :: 0 <= i < |s| ==> !p(s[i])
    ensures Filter(s, p) == []
  {
    var r := Filter(s, p);
    if r != [] {
      FilterMembership(s, p, r[0]);
      assert false;
    }
  }

  lemma FilterFour<T>(a: seq<T>, b: seq<T>, c: seq<T>, d: seq<T>, p: T -> bool)
    ensures Filter(a + b + c + d, p) == Filter(a, p) + Filter(b, p) + Filter(c, p) + Filter(d, p)
  {
    FilterAppend(a + b + c, d, p);
    FilterAppend(a + b, c, p);
    FilterAppend(a, b, p);
  }

  lemma StartFilters()
    ensures Filter(StartEvents(), IsRendererEvent) == [RendererStartFrame]
    ensures Filter(StartEvents(), IsGameOrRenderEvent) == []
  {
    var e0: seq<HostEvent> := [];
    var e1 := e0 + [RendererStartFrame];
    var e2 := e1 + [ProcessEvents];
    assert StartEvents() == e2 + [ProcessKeys];
    FilterSnoc(e0, RendererStartFrame, IsRendererEvent);
    FilterSnoc(e1, ProcessEvents, IsRendererEvent);
    FilterSnoc(e2, ProcessKeys, IsRendererEvent);
    FilterSnoc(e0, RendererStartFrame, IsGameOrRenderEvent);
    FilterSnoc(e1, ProcessEvents, IsGameOrRenderEvent);
    FilterSnoc(e2, ProcessKeys, IsGameOrRenderEvent);
  }

  lemma FinishFilters(next: GameCode)
    ensures Filter(FinishEvents(next), IsRendererEvent) == [RendererRenderFrame, RendererEndFrame]
    ensures Filter(FinishEvents(next), IsGameOrRenderEvent) ==
      [GameUpdate(next.update), RendererRenderFrame, GameRender(next.render)]
  {
    var e0: seq<HostEvent> := [];
    var e1 := e0 + [GameUpdate(next.update)];
    var e2 := e1 + [RendererRenderFrame];
    var e3 := e2 + [GameRender(next.render)];
    var e4 := e3 + [InputEndFrame];
    assert FinishEvents(next) == e4 + [RendererEndFrame];
    FilterSnoc(e0, GameUpdate(next.update), IsRendererEvent);
    FilterSnoc(e1, RendererRenderFrame, IsRendererEvent);
    FilterSnoc(e2, GameRender(next.render), IsRendererEvent);
    FilterSnoc(e3, InputEndFrame, IsRendererEvent);
    FilterSnoc(e4, RendererEndFrame, IsRendererEvent);
    FilterSnoc(e0, GameUpdate(next.update), IsGameOrRenderEvent);
    FilterSnoc(e1, RendererRenderFrame, IsGameOrRenderEvent);
    FilterSnoc(e2, GameRender(next.render), IsGameOrRenderEvent);
    FilterSnoc(e3, InputEndFrame, IsGameOrRenderEvent);
    FilterSnoc(e4, RendererEndFrame, IsGameOrRenderEvent);
  }

  /** The full-screen toggle of an iteration, when F11 went down. */
  function ToggleEvents(fullscreen: bool): seq<HostEvent>
  {
    if fullscreen then [ToggleFullscreen] else []
  }

  /** The reload check and the full-screen toggle call neither the renderer nor the game. */
  lemma MiddleFilters(code: GameCode, writeTime: FileTime, answers: LoaderAnswers, fullscreen: bool,
                      dllName: string, tempDllName: string)
    ensures var reload := ReloadEvents(code, writeTime, answers, dllName, tempDllName);
      Filter(reload, IsRendererEvent) == [] && Filter(reload, IsGameOrRenderEvent) == [] &&
      Filter(ToggleEvents(fullscreen), IsRendererEvent) == [] && Filter(ToggleEvents(fullscreen), IsGameOrRenderEvent) == []
  {
    var reload := ReloadEvents(code, writeTime, answers, dllName, tempDllName);
    assert forall i :: 0 <= i < |reload| ==> reload[i].PlatformEvent?;
    FilterNone(reload, IsRendererEvent);
    FilterNone(reload, IsGameOrRenderEvent);
    FilterNone(ToggleEvents(fullscreen), IsRendererEvent);
    FilterNone(ToggleEvents(fullscreen), IsGameOrRenderEvent);
  }

  /** Within an iteration, the renderer is called in the order startFrame, renderFrame, endFrame, once each. */
  lemma FrameRendererOrder(code: GameCode, f: FrameAnswers, fullscreen: bool, dllName: string, tempDllName: string)
    ensures Filter(FrameEvents(code, f, fullscreen, dllName, tempDllName), IsRendererEvent) ==
      [RendererStartFrame, RendererRenderFrame, RendererEndFrame]
  {
    var reload := ReloadEvents(code, f.dllWriteTime, f.reload, dllName, tempDllName);
    var finish := FinishEvents(ReloadedCode(code, f.dllWriteTime, f.reload));
    MiddleFilters(code, f.dllWriteTime, f.reload, fullscreen, dllName, tempDllName);
    FilterFour(StartEvents(), reload, ToggleEvents(fullscreen), finish, IsRendererEvent);
    StartFilters();
    FinishFilters(ReloadedCode(code, f.dllWriteTime, f.reload));
  }

  /**
   * Within an iteration, the game's update comes before the renderer's
   * renderFrame, which comes before the game's render, once each; both entry
   * points are taken from the code the reload check left.
   */
  lemma FrameGameOrder(code: GameCode, f: FrameAnswers, fullscreen: bool, dllName: string, tempDllName: string)
    ensures var next := ReloadedCode(code, f.dllWriteTime, f.reload);
      Filter(FrameEvents(code, f, fullscreen, dllName, tempDllName), IsGameOrRenderEvent) ==
      [GameUpdate(next.update), RendererRenderFrame, GameRender(next.render)]
  {
    var reload := ReloadEvents(code, f.dllWriteTime, f.reload, dllName, tempDllName);
    var finish := FinishEvents(ReloadedCode(code, f.dllWriteTime, f.reload));
    MiddleFilters(code, f.dllWriteTime, f.reload, fullscreen, dllName, tempDllName);
    FilterFour(StartEvents(), reload, ToggleEvents(fullscreen), finish, IsGameOrRenderEvent);
    StartFilters();
    FinishFilters(ReloadedCode(code, f.dllWriteTime, f.reload));
  }

  /** The input snapshots of successive iterations. */
  function InputsOf(frames: seq<FrameAnswers>): (r: seq<InputSnapshot>)
    ensures |r| == |frames|
  {
    seq(|frames|, i requires 0 <= i < |frames| => frames[i].input)
  }

  lemma InputsOfSnoc(frames: seq<FrameAnswers>, n: nat)
    requires n < |frames|
    ensures InputsOf(frames[..n + 1]) == InputsOf(frames[..n]) + [frames[n].input]
  {
  }

  /** The host's state across iterations of the main loop. */
  class Host {
    const dllName: string
    const tempDllName: string
    const input: Input.InputManager
    var gameCode: GameCode
    var running: bool
    var log: seq<HostEvent>

    ghost predicate Valid()
      reads this, input, input.mouseStates
    {
      input.Valid()
    }

    /** The start of `main` this model keeps: the first load of the game code, its `gameInit` call and the input manager. */
    constructor (dllName: string, tempDllName: string, answers: LoaderAnswers)
      ensures Valid() && input.Tracking() && !input.inFrame && input.frames == []
      ensures this.dllName == dllName && this.tempDllName == tempDllName
      ensures gameCode == LoadGameCode(answers) && running
      ensures log == LoadCalls(answers, dllName, tempDllName) + [GameInit(LoadGameCode(answers).init)]
      ensures fresh(input) && fresh(input.buttons) && fresh(input.mouseStates)
    {
      this.dllName := dllName;
      this.tempDllName := tempDllName;
      gameCode := LoadGameCode(answers);
      log := LoadCalls(answers, dllName, tempDllName) + [GameInit(LoadGameCode(answers).init)];
      input := new Input.InputManager();
      running := true;
    }

    /** `unloadGameCode`, applied to the host's game code in place. */
    method UnloadGameCode()
      modifies this
      ensures gameCode == UnloadedCode(old(gameCode))
      ensures log == old(log) + UnloadCalls(old(gameCode))
      ensures running == old(running)
    {
      if gameCode.library.Some? {
        log := log + [PlatformEvent(UnloadLibrary(gameCode.library.value))];
        gameCode := gameCode.(library := None);
      }
      gameCode := gameCode.(isValid := false);
      gameCode := gameCode.(init := Stub, update := Stub, render := Stub);
    }

    /** The reload check of the main loop, for the library's current write time `writeTime`. */
    method CheckReload(writeTime: FileTime, answers: LoaderAnswers)
      modifies this
      ensures gameCode == ReloadedCode(old(gameCode), writeTime, answers)
      ensures log == old(log) + ReloadEvents(old(gameCode), writeTime, answers, dllName, tempDllName)
      ensures running == old(running)
    {
      log := log + [PlatformEvent(GetLastWriteTime(dllName))];
      if CompareFileTime(writeTime, gameCode.lastWriteTime) != 0 {
        UnloadGameCode();
        gameCode := LoadGameCode(answers);
        log := log + LoadCalls(answers, dllName, tempDllName);
      }
    }

    /**
     * The input half of an iteration: the frame is started, the platform's
     * events are pumped (a quit request stops the loop) and the input
     * manager processes the frame's keys.
     */
    method BeginFrame(f: FrameAnswers)
      requires Valid() && f.input.WellFormed()
      modifies this, input, input.buttons, input.mouseStates
      ensures Valid()
      ensures running == !f.quitRequested && gameCode == old(gameCode)
      ensures log == old(log) + StartEvents()
      ensures input.NewKeys() == Input.Advance(old(input.OldKeys()), f.input.keysDown)
      ensures input.frames == old(input.frames) + [f.input] && input.inFrame
      ensures old(!input.inFrame && input.Tracking()) ==> input.Tracking()
    {
      log := log + [RendererStartFrame, ProcessEvents];
      running := !f.quitRequested;
      input.ProcessKeys(f.input);
      log := log + [ProcessKeys];
    }

    /** The hot keys: Escape pressed this frame stops the loop, F11 pressed this frame toggles full screen. */
    method HandleHotKeys() returns (escape: bool, fullscreen: bool)
      requires Valid()
      modifies this
      ensures escape == input.IsKeyDownOnce(KEY_ESCAPE) && fullscreen == input.IsKeyDownOnce(KEY_F11)
      ensures running == (old(running) && !escape) && gameCode == old(gameCode)
      ensures log == old(log) + ToggleEvents(fullscreen)
    {
      escape := input.IsKeyDownOnce(KEY_ESCAPE);
      if escape {
        running := false;
      }
      fullscreen := input.IsKeyDownOnce(KEY_F11);
      if fullscreen {
        log := log + [ToggleFullscreen];
      }
    }

    /** The end of an iteration: the game is updated, the renderer draws, the game renders, and both frames end. */
    method FinishFrame()
      requires Valid()
      modifies this, input
      ensures Valid()
      ensures running == old(running) && gameCode == old(gameCode)
      ensures log == old(log) + FinishEvents(gameCode)
      ensures input.frames == old(input.frames) && !input.inFrame
      ensures old(input.inFrame && input.Tracking()) ==> input.Tracking()
    {
      log := log + [GameUpdate(gameCode.update), RendererRenderFrame, GameRender(gameCode.render)];
      input.EndFrame();
      log := log + [InputEndFrame, RendererEndFrame];
    }

    /**
     * One iteration of the main loop, for the platform's answers `f`. The
     * loop goes on unless a quit was requested or Escape went down in this
     * frame; from the second frame on, "went down" means down now and up
     * in the previous frame.
     */
    method Frame(f: FrameAnswers) returns (escape: bool, fullscreen: bool)
      requires Valid() && f.input.WellFormed()
      requires input.Tracking() && !input.inFrame
      modifies this, input, input.buttons, input.mouseStates
      ensures Valid() && input.Tracking() && !input.inFrame
      ensures input.frames == old(input.frames) + [f.input]
      ensures gameCode == ReloadedCode(old(gameCode), f.dllWriteTime, f.reload)
      ensures log == old(log) + FrameEvents(old(gameCode), f, fullscreen, dllName, tempDllName)
      ensures running == (!f.quitRequested && !escape)
      ensures |input.frames| > 1 ==>
        (escape <==> f.input.keysDown[KEY_ESCAPE] && !input.frames[|input.frames| - 2].keysDown[KEY_ESCAPE])
      ensures escape ==> f.input.keysDown[KEY_ESCAPE]
      ensures fullscreen ==> f.input.keysDown[KEY_F11]
    {
      ghost var reload := ReloadEvents(gameCode, f.dllWriteTime, f.reload, dllName, tempDllName);
      ghost var finish := FinishEvents(ReloadedCode(gameCode, f.dllWriteTime, f.reload));
      assert log + StartEvents() + reload + ToggleEvents(true) + finish == log + FrameEvents(gameCode, f, true, dllName, tempDllName);
      assert log + StartEvents() + reload + ToggleEvents(false) + finish == log + FrameEvents(gameCode, f, false, dllName, tempDllName);
      escape, fullscreen := StartIteration(f);
      FinishFrame();
    }

    /**
     * The first half of an iteration, up to the hot keys, while the input
     * manager is inside the frame.
     */
    method StartIteration(f: FrameAnswers) returns (escape: bool, fullscreen: bool)
      requires Valid() && f.input.WellFormed()
      requires input.Tracking() && !input.inFrame
      modifies this, input, input.buttons, input.mouseStates
      ensures Valid() && input.Tracking() && input.inFrame
      ensures input.frames == old(input.frames) + [f.input]
      ensures gameCode == ReloadedCode(old(gameCode), f.dllWriteTime, f.reload)
      ensures log == old(log) + StartEvents() + ReloadEvents(old(gameCode), f.dllWriteTime, f.reload, dllName, tempDllName)
                     + ToggleEvents(fullscreen)
      ensures running == (!f.quitRequested && !escape)
      ensures |input.frames| > 1 ==>
        (escape <==> f.input.keysDown[KEY_ESCAPE] && !input.frames[|input.frames| - 2].keysDown[KEY_ESCAPE])
      ensures escape ==> f.input.keysDown[KEY_ESCAPE]
      ensures fullscreen ==> f.input.keysDown[KEY_F11]
    {
      BeginFrame(f);
      CheckReload(f.dllWriteTime, f.reload);
      escape, fullscreen := HandleHotKeys();
    }

    /**
     * The main loop `while (running)`, for the platform's answers to
     * successive iterations; `n` is the number of iterations run. The loop
     * stops only after an iteration that stopped it, and never iterates once
     * stopped.
     */
    method Run(frames: seq<FrameAnswers>) returns (n: nat)
      requires Valid() && input.Tracking() && !input.inFrame
      requires forall i :: 0 <= i < |frames| ==> frames[i].input.WellFormed()
      modifies this, input, input.buttons, input.mouseStates
      ensures Valid() && input.Tracking() && !input.inFrame
      ensures n <= |frames| && (running ==> n == |frames|)
      ensures !old(running) ==> n == 0 && !running
      ensures input.frames == old(input.frames) + InputsOf(frames[..n])
      ensures forall i :: 0 <= i < n - 1 ==> !frames[i].quitRequested
      ensures 0 < n && frames[n - 1].quitRequested ==> !running
    {
      n := 0;
      while running && n < |frames|
        invariant Valid() && input.Tracking() && !input.inFrame
        invariant n <= |frames| && (!old(running) ==> n == 0 && !running)
        invariant input.frames == old(input.frames) + InputsOf(frames[..n])
        invariant forall i :: 0 <= i < n - 1 ==> !frames[i].quitRequested
        invariant 0 < n && frames[n - 1].quitRequested ==> !running
        decreases |frames| - n
      {
        ghost var before := input.frames;
        var escape, fullscreen := Frame(frames[n]);
        InputsOfSnoc(frames, n);
        assert old(input.frames) + InputsOf(frames[..n]) + [frames[n].input]
               == old(input.frames) + (InputsOf(frames[..n]) + [frames[n].input]);
        n := n + 1;
      }
    }

    /** The end of `main` this model keeps: the renderer is cleaned up and the game code unloaded. */
    method Shutdown()
      modifies this
      ensures gameCode == UnloadedCode(old(gameCode))
      ensures log == old(log) + [RendererCleanup] + UnloadCalls(old(gameCode))
      ensures running == old(running)
    {
      log := log + [RendererCleanup];
      UnloadGameCode();
    }
  }
}
