/** Value types shared by the EGL desktop renderer: the enumerations it switches
    on, the frame descriptor it is handed at setup, and the effects it has on
    its collaborators (texture, shader, model, keybinds, alerts, debug log). */
module RendererTypes {

  /** The frame type tag of a renderer format. The four RGB layouts the desktop
      renderer knows get their own constructor; every other tag (the invalid
      tag, the YUV layouts, a value outside the enumeration) is `FrameOther`. */
  datatype FrameType =
    | FrameBGRA
    | FrameRGBA
    | FrameRGBA10
    | FrameRGBA16F
    | FrameOther(code: int)

  /** The texture's pixel formats (EGL_PF_*) that setup can select. */
  datatype PixelFormat = PixelBGRA | PixelRGBA | PixelRGBA10 | PixelRGBA16F

  /** The frame descriptor passed to setup: its type tag, its size in pixels
      and its row pitch in bytes. */
  datatype RendererFormat = RendererFormat(frameType: FrameType, width: nat, height: nat, pitch: nat)

  /** Outcome of the texture's asynchronous post-upload processing step. */
  datatype TexStatus = TexNotReady | TexOk | TexError

  /** How the destination rectangle relates to the frame's size. A value of the
      C enumeration outside its three members is `ScaleOther`. */
  datatype ScaleType = NoScale | Upscale | Downscale | ScaleOther(code: int)

  /** The sampling filter the fragment shader applies. */
  datatype ScaleAlgo = ScaleNearest | ScaleLinear

  /** Requested display rotation. */
  datatype Rotation = Rotate0 | Rotate90 | Rotate180 | Rotate270

  /** The shader variants the renderer owns; there is one, selected for every
      supported format. */
  datatype ShaderVariant = GenericShader

  /** Destination rectangle in normalised display coordinates. Its four values
      are handed to the shader unchanged and nothing is computed from them. */
  datatype DestRect = DestRect(x: real, y: real, scaleX: real, scaleY: real)

  /** The keys the renderer registers a callback for. */
  datatype KeyCode = KeyN

  datatype AlertLevel = AlertInfo

  /** An opaque reference to a frame buffer in host memory. */
  type FrameRef = nat

  /** An opaque, borrowed reference to the EGL display. */
  type DisplayHandle = nat

  /** A value bound to one of the seven uniforms of a desktop shader. Size and
      gain carry the integers that the renderer converts to float. */
  datatype Uniform =
    | PositionUniform(rect: DestRect)
    | SizeUniform(width: int, height: int)
    | RotateUniform(rotate: Rotation)
    | ScaleAlgoUniform(algo: ScaleAlgo)
    | NvUniform(enabled: int)
    | NvGainUniform(gain: int)
    | CbModeUniform(mode: int)

  /** One observable effect of the renderer on a collaborator. */
  datatype Effect =
    | TextureInit
    | ShaderInit(variant: ShaderVariant)
    | ModelInit
    | ModelSetDefault
    | ModelSetTexture
    | RegisterKeybind(key: KeyCode, description: string)
    | TextureSetup(format: PixelFormat, width: nat, height: nat, pitch: nat, streaming: bool, useDma: bool)
    | TextureUpdateFromDma(frame: FrameRef, dmaFd: int)
    | TextureUpdateFromFrame(frame: FrameRef)
    | TextureProcess
    | UseShader(variant: ShaderVariant)
    | SetUniform(variant: ShaderVariant, uniform: Uniform)
    | RenderModel
    | TextureFree
    | ShaderFree(variant: ShaderVariant)
    | ModelFree
    | Alert(level: AlertLevel, text: string)
    | LogError(message: string)

  /** The ordered record of every effect the renderer has had so far. */
  class EffectLog {
    var entries: seq<Effect>

    constructor ()
      ensures entries == []
    {
      entries := [];
    }

    method Append(e: Effect)
      modifies this
      ensures entries == old(entries) + [e]
    {
      entries := entries + [e];
    }
  }
}
