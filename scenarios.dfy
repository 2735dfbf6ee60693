/** Client sessions that drive the renderer through its operations and state
    what the contracts of those operations guarantee for them. */
module DesktopScenarios {
  import opened RendererTypes
  import opened NightVision
  import opened EglDesktop

  /** Init, setup with a 1920x1080 RGBA frame, a copied frame, then a 1:1
      render at rotation 0: every step succeeds, the size is recorded and the
      render samples with nearest filtering and night vision off. */
  method FirstFrameSession() returns (initOk: bool, setupOk: bool, updateOk: bool, renderOk: bool,
                                      width: int, height: int, rendered: seq<Effect>)
    ensures initOk && setupOk && updateOk && renderOk
    ensures width == 1920 && height == 1080
    ensures SetUniform(GenericShader, ScaleAlgoUniform(ScaleNearest)) in rendered
    ensures SetUniform(GenericShader, NvUniform(0)) in rendered
    ensures !BindsGain(rendered)
    ensures EndsWithSingleDraw(rendered)
  {
    var log := new EffectLog();
    var ref := new DesktopRef();
    initOk := Init(ref, log, 0, true, true, true, true, 3, 0, 0);
    var d := ref.desktop;

    setupOk := d.Setup(log, RendererFormat(FrameRGBA, 1920, 1080, 7680), false, true);
    updateOk := d.Update(log, 0, -1, true, TexOk);
    var before := log.entries;
    renderOk := d.Render(log, DestRect(0.0, 0.0, 1.0, 1.0), NoScale, Rotate0);
    width, height := d.width, d.height;
    rendered := log.entries[|before|..];
    var rect := DestRect(0.0, 0.0, 1.0, 1.0);
    assert rendered == RenderEffects(Some(GenericShader), 1920, 1080, 0, 0, rect, NoScale, Rotate0);
    RenderDrawsOnce(GenericShader, 1920, 1080, 0, 0, rect, NoScale, Rotate0);
    RenderBindsFrameUniforms(GenericShader, 1920, 1080, 0, 0, rect, NoScale, Rotate0);
    RenderNightVision(GenericShader, 1920, 1080, 0, 0, rect, NoScale, Rotate0);
  }

  /** Setup with an unknown tag on a fresh renderer fails, and render then
      refuses to draw and has no effect. */
  method UnsupportedFormatSession() returns (setupOk: bool, renderOk: bool, rendered: seq<Effect>)
    ensures !setupOk && !renderOk
    ensures rendered == []
  {
    var log := new EffectLog();
    var ref := new DesktopRef();
    var initOk := Init(ref, log, 0, true, true, true, true, 3, 0, 0);
    var d := ref.desktop;

    setupOk := d.Setup(log, RendererFormat(FrameOther(0xFFFF), 1920, 1080, 7680), false, true);
    var before := log.entries;
    renderOk := d.Render(log, DestRect(0.0, 0.0, 1.0, 1.0), NoScale, Rotate0);
    rendered := log.entries[|before|..];
  }

  /** A supported setup followed by an unsupported one: the second fails but
      keeps the shader and size the first selected, so render still draws. */
  method StaleShaderSession() returns (firstOk: bool, secondOk: bool, renderOk: bool,
                                       width: int, height: int)
    ensures firstOk && !secondOk && renderOk
    ensures width == 1920 && height == 1080
  {
    var log := new EffectLog();
    var ref := new DesktopRef();
    var initOk := Init(ref, log, 0, true, true, true, true, 3, 0, 0);
    var d := ref.desktop;

    firstOk := d.Setup(log, RendererFormat(FrameBGRA, 1920, 1080, 7680), true, true);
    secondOk := d.Setup(log, RendererFormat(FrameOther(0xFFFF), 640, 480, 2560), true, true);
    renderOk := d.Render(log, DestRect(0.0, 0.0, 1.0, 1.0), Downscale, Rotate0);
    width, height := d.width, d.height;
  }

  /** A failed texture setup still records the new size and selects the
      shader: render draws with that size. */
  method FailedTextureSetupSession() returns (setupOk: bool, renderOk: bool, rendered: seq<Effect>)
    ensures !setupOk && renderOk
    ensures SetUniform(GenericShader, SizeUniform(1280, 720)) in rendered
  {
    var log := new EffectLog();
    var ref := new DesktopRef();
    var initOk := Init(ref, log, 0, true, true, true, true, 3, 0, 0);
    var d := ref.desktop;

    setupOk := d.Setup(log, RendererFormat(FrameRGBA10, 1280, 720, 5120), false, false);
    var before := log.entries;
    renderOk := d.Render(log, DestRect(0.0, 0.0, 1.0, 1.0), Upscale, Rotate90);
    rendered := log.entries[|before|..];
  }

  /** With a maximum gain of 3 and an initial gain of 0: one toggle enables
      night vision, three more wrap the gain back to 0 and disable it. */
  method NightVisionSession() returns (gain1: int, alert1: string, gain4: int, alert4: string)
    ensures gain1 == 1 && alert1 == "NV Enabled"
    ensures gain4 == 0 && alert4 == "NV Disabled"
  {
    var log := new EffectLog();
    var ref := new DesktopRef();
    var initOk := Init(ref, log, 0, true, true, true, true, 3, 0, 0);
    var d := ref.desktop;

    d.ToggleNightVision(log);
    gain1, alert1 := d.nvGain, log.entries[|log.entries| - 1].text;
    d.ToggleNightVision(log);
    d.ToggleNightVision(log);
    d.ToggleNightVision(log);
    gain4, alert4 := d.nvGain, log.entries[|log.entries| - 1].text;
  }

  /** Free after a failed init releases the partial record once; a second free
      has no effect. */
  method FreeTwiceSession() returns (afterFirst: seq<Effect>, afterSecond: seq<Effect>)
    ensures |afterFirst| >= 3 && afterFirst[|afterFirst| - 3..] == FREE_EFFECTS
    ensures afterSecond == afterFirst
  {
    var log := new EffectLog();
    var ref := new DesktopRef();
    var initOk := Init(ref, log, 0, true, true, false, true, 3, 0, 0);

    Free(ref, log);
    afterFirst := log.entries;
    Free(ref, log);
    afterSecond := log.entries;
  }
}
