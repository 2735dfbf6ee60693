/** The EGL desktop renderer: the record that owns the desktop texture, the
    generic shader and the quad model, and the operations the application
    loop calls on it (init, setup, update, render, the night-vision toggle and
    free). Calls into the texture, shader and model objects are recorded in an
    `EffectLog`; whether such a call succeeds, and the status the texture's
    processing step reports, are inputs of the operation that makes the call. */
module EglDesktop {
  import opened RendererTypes
  import opened NightVision

  datatype Option<T> = None | Some(value: T)

  const MALLOC_FAILED := "Failed to malloc EGL_Desktop"
  const TEXTURE_INIT_FAILED := "Failed to initialize the desktop texture"
  const SHADER_INIT_FAILED := "Failed to initialize the generic desktop shader"
  const MODEL_INIT_FAILED := "Failed to initialize the desktop model"
  const UNSUPPORTED_FORMAT := "Unsupported frame format"
  const TEXTURE_SETUP_FAILED := "Failed to setup the desktop texture"
  const PROCESS_FAILED := "Failed to process the desktop texture"
  const NV_KEYBIND_DESCRIPTION := "Toggle night vision mode"

  /** The frame types setup accepts. */
  predicate Supported(t: FrameType) {
    t.FrameBGRA? || t.FrameRGBA? || t.FrameRGBA10? || t.FrameRGBA16F?
  }

  /** The frame type each pixel format stands for. */
  function FrameTypeOf(pf: PixelFormat): (t: FrameType) {
    match pf
    case PixelBGRA => FrameBGRA
    case PixelRGBA => FrameRGBA
    case PixelRGBA10 => FrameRGBA10
    case PixelRGBA16F => FrameRGBA16F
  }

  /** The format switch of setup: the texture pixel format for a frame type,
      or `None` for a type the renderer does not support. It is the inverse of
      `FrameTypeOf` on the supported types. */
  function PixelFormatFor(t: FrameType): (r: Option<PixelFormat>)
    ensures r.Some? <==> Supported(t)
    ensures r.Some? ==> FrameTypeOf(r.value) == t
  {
    match t
    case FrameBGRA => Some(PixelBGRA)
    case FrameRGBA => Some(PixelRGBA)
    case FrameRGBA10 => Some(PixelRGBA10)
    case FrameRGBA16F => Some(PixelRGBA16F)
    case FrameOther(_) => None
  }

  lemma PixelFormatRoundTrip(pf: PixelFormat)
    ensures PixelFormatFor(FrameTypeOf(pf)) == Some(pf)
  {
  }

  /** The scale switch of render: linear filtering when the frame is shown
      smaller than its size, nearest otherwise (including any value outside
      the enumeration). */
  function ScaleAlgoFor(st: ScaleType): (a: ScaleAlgo)
    ensures a == ScaleLinear <==> st == Downscale
  {
    match st
    case NoScale => ScaleNearest
    case Upscale => ScaleNearest
    case Downscale => ScaleLinear
    case ScaleOther(_) => ScaleNearest
  }

  /** Exactly one model draw, and it is the last effect. */
  predicate EndsWithSingleDraw(t: seq<Effect>) {
    |t| >= 1 && t[|t| - 1] == RenderModel && RenderModel !in t[..|t| - 1]
  }

  /** Every uniform in `t` is bound on `variant`. */
  predicate UniformsOn(t: seq<Effect>, variant: ShaderVariant) {
    forall e :: e in t && e.SetUniform? ==> e.variant == variant
  }

  /** Some effect of `t` binds a night-vision gain. */
  predicate BindsGain(t: seq<Effect>) {
    exists e :: e in t && e.SetUniform? && e.uniform.NvGainUniform?
  }

  /** The effects of one render call on a desktop whose active shader, size,
      night-vision gain and colorblind mode are the given ones. */
  function RenderEffects(shader: Option<ShaderVariant>, width: int, height: int, nvGain: int, cbMode: int,
                         rect: DestRect, scaleType: ScaleType, rotate: Rotation): (t: seq<Effect>)
  {
    match shader
    case None => []
    case Some(v) =>
      [UseShader(v),
       SetUniform(v, PositionUniform(rect)),
       SetUniform(v, RotateUniform(rotate)),
       SetUniform(v, ScaleAlgoUniform(ScaleAlgoFor(scaleType))),
       SetUniform(v, SizeUniform(width, height))]
      + NvEffects(v, nvGain)
      + [SetUniform(v, CbModeUniform(cbMode)), RenderModel]
  }

  /** The night-vision flag, followed by the gain when the flag is on. */
  function NvEffects(v: ShaderVariant, nvGain: int): (t: seq<Effect>)
  {
    if nvGain != 0 then [SetUniform(v, NvUniform(1)), SetUniform(v, NvGainUniform(nvGain))]
    else [SetUniform(v, NvUniform(0))]
  }

  /** Render's gate: without an active shader a render call has no effect
      at all; with one, it has some. */
  lemma RenderGate(shader: Option<ShaderVariant>, width: int, height: int, nvGain: int, cbMode: int,
                   rect: DestRect, scaleType: ScaleType, rotate: Rotation)
    ensures shader.None? <==> RenderEffects(shader, width, height, nvGain, cbMode, rect, scaleType, rotate) == []
  {
  }

  /** With an active shader, render uses that shader first, binds every
      uniform on it and ends with exactly one draw. Its length leaves room for
      one bind per uniform and nothing else: eight entries, nine when the gain
      is bound too. */
  lemma RenderDrawsOnce(v: ShaderVariant, width: int, height: int, nvGain: int, cbMode: int,
                        rect: DestRect, scaleType: ScaleType, rotate: Rotation)
    ensures var t := RenderEffects(Some(v), width, height, nvGain, cbMode, rect, scaleType, rotate);
      && t[0] == UseShader(v) && EndsWithSingleDraw(t) && UniformsOn(t, v)
      && |t| == (if nvGain != 0 then 9 else 8)
  {
  }

  /** With an active shader, render binds the destination rectangle, the
      rotation, the frame size, the scale filter chosen from the scale type
      and the colorblind mode. */
  lemma RenderBindsFrameUniforms(v: ShaderVariant, width: int, height: int, nvGain: int, cbMode: int,
                                 rect: DestRect, scaleType: ScaleType, rotate: Rotation)
    ensures var t := RenderEffects(Some(v), width, height, nvGain, cbMode, rect, scaleType, rotate);
      && SetUniform(v, PositionUniform(rect)) in t
      && SetUniform(v, RotateUniform(rotate)) in t
      && SetUniform(v, SizeUniform(width, height)) in t
      && SetUniform(v, ScaleAlgoUniform(ScaleAlgoFor(scaleType))) in t
      && SetUniform(v, CbModeUniform(cbMode)) in t
  {
  }

  /** With an active shader, the night-vision flag is bound to 1 exactly when
      the gain is non-zero and to 0 exactly when it is zero, and a gain is
      bound exactly when it is non-zero, with the record's gain. */
  lemma RenderNightVision(v: ShaderVariant, width: int, height: int, nvGain: int, cbMode: int,
                          rect: DestRect, scaleType: ScaleType, rotate: Rotation)
    ensures var t := RenderEffects(Some(v), width, height, nvGain, cbMode, rect, scaleType, rotate);
      && (SetUniform(v, NvUniform(1)) in t <==> nvGain != 0)
      && (SetUniform(v, NvUniform(0)) in t <==> nvGain == 0)
      && (BindsGain(t) <==> nvGain != 0)
      && (nvGain != 0 ==> SetUniform(v, NvGainUniform(nvGain)) in t)
  {
  }

  /** Some effect of `t` is an error log entry. */
  predicate LogsError(t: seq<Effect>) {
    exists e :: e in t && e.LogError?
  }

  /** The effects of one update call: the DMA import or the copy, then, only if
      that succeeded, the processing step, and an error log entry only when
      processing reports an error (not when it reports "not ready"). */
  function UpdateEffects(frame: FrameRef, dmaFd: int, ingestOk: bool, status: TexStatus): (t: seq<Effect>)
    ensures |t| >= 1
    ensures t[0].TextureUpdateFromDma? <==> dmaFd >= 0
    ensures t[0].TextureUpdateFromDma? || t[0] == TextureUpdateFromFrame(frame)
    ensures t[0].TextureUpdateFromDma? ==> t[0] == TextureUpdateFromDma(frame, dmaFd)
    ensures forall i :: 0 < i < |t| ==> !t[i].TextureUpdateFromDma? && !t[i].TextureUpdateFromFrame?
    ensures |t| == (if !ingestOk then 1 else if status == TexError then 3 else 2)
    ensures ingestOk ==> t[1] == TextureProcess
    ensures TextureProcess in t <==> ingestOk
    ensures LogsError(t) <==> ingestOk && status == TexError
  {
    var ingest := if dmaFd >= 0 then TextureUpdateFromDma(frame, dmaFd) else TextureUpdateFromFrame(frame);
    if !ingestOk then [ingest]
    else if status == TexError then
      var t := [ingest, TextureProcess, LogError(PROCESS_FAILED)];
      assert t[2].LogError?;
      t
    else [ingest, TextureProcess]
  }

  /** The effects of one setup call: nothing but an error log entry for an
      unsupported frame type; otherwise a streaming texture setup with the
      caller's DMA flag, followed by an error log entry if it failed. */
  function SetupEffects(format: RendererFormat, useDma: bool, textureOk: bool): (t: seq<Effect>)
    ensures !Supported(format.frameType) ==> t == [LogError(UNSUPPORTED_FORMAT)]
    ensures Supported(format.frameType) ==>
      && |t| >= 1
      && t[0] == TextureSetup(PixelFormatFor(format.frameType).value, format.width, format.height,
                              format.pitch, true, useDma)
      && FrameTypeOf(t[0].format) == format.frameType
      && (LogsError(t) <==> !textureOk)
      && |t| == if textureOk then 1 else 2
  {
    match PixelFormatFor(format.frameType)
    case None => [LogError(UNSUPPORTED_FORMAT)]
    case Some(pf) =>
      var t := [TextureSetup(pf, format.width, format.height, format.pitch, true, useDma)];
      if textureOk then t
      else
        var failed := t + [LogError(TEXTURE_SETUP_FAILED)];
        assert failed[1].LogError?;
        failed
  }

  /** The effects of init once the record is allocated: each construction step
      runs only if the previous one succeeded; the first failure is logged and
      ends init; after the last one the model is bound to the texture and the
      night-vision key is registered. */
  function InitEffects(textureOk: bool, shaderOk: bool, modelOk: bool): (t: seq<Effect>)
  {
    if !textureOk then [TextureInit, LogError(TEXTURE_INIT_FAILED)]
    else if !shaderOk then [TextureInit, ShaderInit(GenericShader), LogError(SHADER_INIT_FAILED)]
    else if !modelOk then [TextureInit, ShaderInit(GenericShader), ModelInit, LogError(MODEL_INIT_FAILED)]
    else [TextureInit, ShaderInit(GenericShader), ModelInit, ModelSetDefault, ModelSetTexture,
          RegisterKeybind(KeyN, NV_KEYBIND_DESCRIPTION)]
  }

  /** Init's construction order: texture init comes first; each later step
      runs only if the earlier ones succeeded; an error is logged exactly when
      a step fails; the night-vision key is registered only after all succeed. */
  lemma InitEffectsSpec(textureOk: bool, shaderOk: bool, modelOk: bool)
    ensures var t := InitEffects(textureOk, shaderOk, modelOk);
      && |t| == (if !textureOk then 2 else if !shaderOk then 3 else if !modelOk then 4 else 6)
      && t[0] == TextureInit
      && (textureOk ==> t[1] == ShaderInit(GenericShader))
      && (textureOk && shaderOk ==> t[2] == ModelInit)
      && (textureOk && shaderOk && modelOk ==>
            t[3..] == [ModelSetDefault, ModelSetTexture, RegisterKeybind(KeyN, NV_KEYBIND_DESCRIPTION)])
      && (!(textureOk && shaderOk && modelOk) ==> t[|t| - 1].LogError?)
      && (LogsError(t) <==> !(textureOk && shaderOk && modelOk))
      && (RegisterKeybind(KeyN, NV_KEYBIND_DESCRIPTION) in t <==> textureOk && shaderOk && modelOk)
      && (ShaderInit(GenericShader) in t <==> textureOk)
      && (ModelInit in t <==> textureOk && shaderOk)
  {
  }

  /** The effects of free on a non-null record: texture, then shader, then model. */
  const FREE_EFFECTS: seq<Effect> := [TextureFree, ShaderFree(GenericShader), ModelFree]

  /** The renderer record. The texture, the generic shader's program and the
      model are objects outside this model; their effects are in the log. */
  class Desktop {
    var display: DisplayHandle
    /** The active shader: none until a setup selects one. */
    var shader: Option<ShaderVariant>
    var width: int
    var height: int
    var rotate: Rotation
    var nvMax: int
    var nvGain: int
    var cbMode: int

    /** The gain lies in the cycle `[0, nvMax]`. */
    ghost predicate GainInRange()
      reads this
    {
      0 <= nvGain <= nvMax
    }

    /** A freshly allocated, zero-filled record that borrows `display`. */
    constructor (display: DisplayHandle)
      ensures this.display == display
      ensures shader == None && width == 0 && height == 0 && rotate == Rotate0
      ensures nvMax == 0 && nvGain == 0 && cbMode == 0
    {
      this.display := display;
      shader := None;
      width, height := 0, 0;
      rotate := Rotate0;
      nvMax, nvGain, cbMode := 0, 0, 0;
    }

    /** The construction steps of init on the zero-filled record: texture,
        generic shader and model, each only after the previous one succeeded;
        then the model's default quad and texture, the night-vision keybind
        and the three configuration values. */
    method Construct(log: EffectLog, textureOk: bool, shaderOk: bool, modelOk: bool,
                     cfgNvMax: int, cfgNvGain: int, cfgCbMode: int)
      returns (ok: bool)
      modifies this`nvMax, this`nvGain, this`cbMode, log
      ensures ok <==> textureOk && shaderOk && modelOk
      ensures log.entries == old(log.entries) + InitEffects(textureOk, shaderOk, modelOk)
      ensures ok ==> nvMax == cfgNvMax && nvGain == cfgNvGain && cbMode == cfgCbMode
      ensures !ok ==> nvMax == old(nvMax) && nvGain == old(nvGain) && cbMode == old(cbMode)
    {
      log.Append(TextureInit);
      if !textureOk {
        log.Append(LogError(TEXTURE_INIT_FAILED));
        return false;
      }

      log.Append(ShaderInit(GenericShader));
      if !shaderOk {
        log.Append(LogError(SHADER_INIT_FAILED));
        return false;
      }

      log.Append(ModelInit);
      if !modelOk {
        log.Append(LogError(MODEL_INIT_FAILED));
        return false;
      }

      log.Append(ModelSetDefault);
      log.Append(ModelSetTexture);
      log.Append(RegisterKeybind(KeyN, NV_KEYBIND_DESCRIPTION));

      nvMax := cfgNvMax;
      nvGain := cfgNvGain;
      cbMode := cfgCbMode;
      return true;
    }

    /** The night-vision key callback: one step of the gain cycle, then an
        informational alert describing the new gain. */
    method ToggleNightVision(log: EffectLog)
      modifies this`nvGain, log
      ensures nvGain == NextGain(old(nvGain), nvMax)
      ensures old(GainInRange()) ==> GainInRange() && nvGain == (old(nvGain) + 1) % (nvMax + 1)
      ensures old(nvGain) > nvMax ==> nvGain == old(nvGain) + 1
      ensures log.entries == old(log.entries) + [Alert(AlertInfo, AlertText(nvGain))]
    {
      var before := nvGain;
      nvGain := nvGain + 1;
      if before == nvMax {
        nvGain := 0;
      }

      if nvGain == 0 {
        log.Append(Alert(AlertInfo, NV_DISABLED));
      } else if nvGain == 1 {
        log.Append(Alert(AlertInfo, NV_ENABLED));
      } else {
        log.Append(Alert(AlertInfo, NV_GAIN_PREFIX + Decimal.FormatInt(nvGain - 1)));
      }
    }

    /** Format negotiation. The shader is selected, and the size recorded,
        before the texture is configured: a failed texture setup leaves them
        updated. An unsupported type changes nothing, not even the shader a
        previous setup selected. */
    method Setup(log: EffectLog, format: RendererFormat, useDma: bool, textureOk: bool) returns (ok: bool)
      modifies this`shader, this`width, this`height, log
      ensures ok <==> Supported(format.frameType) && textureOk
      ensures !Supported(format.frameType) ==>
        shader == old(shader) && width == old(width) && height == old(height)
      ensures Supported(format.frameType) ==>
        shader == Some(GenericShader) && width == format.width && height == format.height
      ensures log.entries == old(log.entries) + SetupEffects(format, useDma, textureOk)
    {
      var pixFmt;
      match format.frameType {
        case FrameBGRA =>
          pixFmt := PixelBGRA;
          shader := Some(GenericShader);
        case FrameRGBA =>
          pixFmt := PixelRGBA;
          shader := Some(GenericShader);
        case FrameRGBA10 =>
          pixFmt := PixelRGBA10;
          shader := Some(GenericShader);
        case FrameRGBA16F =>
          pixFmt := PixelRGBA16F;
          shader := Some(GenericShader);
        case FrameOther(_) =>
          log.Append(LogError(UNSUPPORTED_FORMAT));
          return false;
      }

      width := format.width;
      height := format.height;

      log.Append(TextureSetup(pixFmt, format.width, format.height, format.pitch, true, useDma));
      if !textureOk {
        log.Append(LogError(TEXTURE_SETUP_FAILED));
        return false;
      }
      return true;
    }

    /** Frame ingestion: DMA import when a descriptor is given, copy otherwise.
        Only a failed ingestion fails the call; a processing error is logged
        and a not-ready status is ignored. The record is not changed. */
    method Update(log: EffectLog, frame: FrameRef, dmaFd: int, ingestOk: bool, status: TexStatus)
      returns (ok: bool)
      modifies log
      ensures ok <==> ingestOk
      ensures log.entries == old(log.entries) + UpdateEffects(frame, dmaFd, ingestOk, status)
    {
      if dmaFd >= 0 {
        log.Append(TextureUpdateFromDma(frame, dmaFd));
        if !ingestOk {
          return false;
        }
      } else {
        log.Append(TextureUpdateFromFrame(frame));
        if !ingestOk {
          return false;
        }
      }

      log.Append(TextureProcess);
      if status != TexOk {
        if status != TexNotReady {
          log.Append(LogError(PROCESS_FAILED));
        }
      }
      return true;
    }

    /** Binds the night-vision uniforms of render on shader `v`. */
    method BindNightVision(log: EffectLog, v: ShaderVariant)
      modifies log
      ensures log.entries == old(log.entries) + NvEffects(v, nvGain)
    {
      if nvGain != 0 {
        log.Append(SetUniform(v, NvUniform(1)));
        log.Append(SetUniform(v, NvGainUniform(nvGain)));
      } else {
        log.Append(SetUniform(v, NvUniform(0)));
      }
    }

    /** Draws the desktop quad: refuses without an active shader; otherwise
        binds the seven uniforms and draws once. The record is not changed. */
    method Render(log: EffectLog, rect: DestRect, scaleType: ScaleType, rotate: Rotation)
      returns (ok: bool)
      modifies log
      ensures ok <==> shader.Some?
      ensures log.entries == old(log.entries) +
        RenderEffects(shader, width, height, nvGain, cbMode, rect, scaleType, rotate)
    {
      if shader.None? {
        return false;
      }

      var scaleAlgo := ScaleAlgoFor(scaleType);
      var v := shader.value;
      ghost var before := log.entries;
      log.Append(UseShader(v));
      log.Append(SetUniform(v, PositionUniform(rect)));
      log.Append(SetUniform(v, RotateUniform(rotate)));
      log.Append(SetUniform(v, ScaleAlgoUniform(scaleAlgo)));
      log.Append(SetUniform(v, SizeUniform(width, height)));
      ghost var head := log.entries;
      assert head == before + [UseShader(v), SetUniform(v, PositionUniform(rect)), SetUniform(v, RotateUniform(rotate)),
                               SetUniform(v, ScaleAlgoUniform(scaleAlgo)), SetUniform(v, SizeUniform(width, height))];
      BindNightVision(log, v);
      log.Append(SetUniform(v, CbModeUniform(cbMode)));
      log.Append(RenderModel);
      return true;
    }
  }

  /** The caller's reference to a renderer record (the `EGL_Desktop *` that
      init and free receive by address). */
  class DesktopRef {
    var desktop: Desktop?

    constructor ()
      ensures desktop == null
    {
      desktop := null;
    }
  }

  /** Builds a renderer into `ref`. A failed allocation leaves `ref` null; a
      later failure leaves the partly built, zero-filled record in `ref` for
      the caller to free. Only a complete init copies the three configuration
      values (maximum gain, initial gain, colorblind mode) into the record. */
  method Init(ref: DesktopRef, log: EffectLog, display: DisplayHandle,
              allocOk: bool, textureOk: bool, shaderOk: bool, modelOk: bool,
              cfgNvMax: int, cfgNvGain: int, cfgCbMode: int)
    returns (ok: bool)
    modifies ref, log
    ensures ok <==> allocOk && textureOk && shaderOk && modelOk
    ensures !allocOk ==> ref.desktop == null && log.entries == old(log.entries) + [LogError(MALLOC_FAILED)]
    ensures allocOk ==>
      && ref.desktop != null && fresh(ref.desktop)
      && ref.desktop.display == display
      && ref.desktop.shader == None && ref.desktop.width == 0 && ref.desktop.height == 0
      && ref.desktop.rotate == Rotate0
      && log.entries == old(log.entries) + InitEffects(textureOk, shaderOk, modelOk)
    ensures ok ==>
      ref.desktop.nvMax == cfgNvMax && ref.desktop.nvGain == cfgNvGain && ref.desktop.cbMode == cfgCbMode
    ensures allocOk && !ok ==>
      ref.desktop.nvMax == 0 && ref.desktop.nvGain == 0 && ref.desktop.cbMode == 0
  {
    if !allocOk {
      ref.desktop := null;
      log.Append(LogError(MALLOC_FAILED));
      return false;
    }

    var d := new Desktop(display);
    ref.desktop := d;
    ok := d.Construct(log, textureOk, shaderOk, modelOk, cfgNvMax, cfgNvGain, cfgCbMode);
  }

  /** Releases the record held by `ref`, if any (texture, shader program,
      model, in that order), and clears the reference. On a null reference it
      does nothing, so freeing twice is harmless. */
  method Free(ref: DesktopRef, log: EffectLog)
    modifies ref, log
    ensures ref.desktop == null
    ensures old(ref.desktop) == null ==> log.entries == old(log.entries)
    ensures old(ref.desktop) != null ==> log.entries == old(log.entries) + FREE_EFFECTS
  {
    if ref.desktop == null {
      return;
    }

    log.Append(TextureFree);
    log.Append(ShaderFree(GenericShader));
    log.Append(ModelFree);

    ref.desktop := null;
  }
}
