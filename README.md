# EGL desktop renderer — Dafny model

This project models the desktop-frame renderer of the Looking Glass client's
EGL back end (`client/renderers/EGL/desktop.c`). It covers the `EGL_Desktop`
record and the operations the application loop calls on it:

- `egl_desktop_init` (allocation and construction steps with early returns,
  keybind registration, three configuration reads);
- `egl_desktop_setup` (frame type to pixel format, shader selection, size
  recording, streaming texture setup);
- `egl_desktop_update` (DMA import or frame copy, then processing, and which
  outcomes fail the call);
- `egl_desktop_render` (the no-shader gate, the scale filter, the seven
  uniform bindings and the single draw);
- `egl_desktop_toggle_nv` (the night-vision gain cycle and its alert text);
- `egl_desktop_free` (release order, nulling of the caller's reference).

The record is the class `EglDesktop.Desktop`. Its methods change its fields
in place. The caller's `EGL_Desktop *`, which init and free receive by address,
is the class `EglDesktop.DesktopRef`. Every call into the texture, the shader,
the model, the keybind dispatcher, the alert sink and the debug log is
appended to an `EffectLog` (the datatype `RendererTypes.Effect`). The outcome
of such a call is an input of the operation that makes it. This covers
allocation, the texture/shader/model init calls, texture setup, ingestion and
the processing status. The configuration values are init parameters. Each
method's postcondition equates the new log with the old log plus a
specification function (`InitEffects`, `SetupEffects`, `UpdateEffects`,
`RenderEffects`, `FREE_EFFECTS`). What those sequences guarantee is stated by
the postconditions of `SetupEffects` and `UpdateEffects` and by lemmas about
`InitEffects` and `RenderEffects`.

`%d` in the gain alert is modelled by `Decimal.FormatInt`. Its partner
`Decimal.ParseInt` reads the number back. The night-vision cycle is
`NightVision.NextGain` and its iterate `NightVision.Toggled`.

Consequences of the code's statement order and missing checks:

- An unsupported frame type makes setup return false before touching the
  record (desktop.c:196-198). The shader selected by an earlier setup stays
  active, and render keeps drawing with it
  (`DesktopScenarios.StaleShaderSession`).
- The shader and the size are assigned before the texture is configured
  (desktop.c:178-202). A failed texture setup therefore leaves them updated,
  and render draws with the new size (`DesktopScenarios.FailedTextureSetupSession`).
- Starting from an in-range gain `g`, the gain reaches 0 after
  `nvMax - g + 1` toggles. It returns to `g` after `nvMax + 1` toggles, and no
  earlier (`NightVision.ToggledReachesZero`, `NightVision.ToggleCycle`).
- Init copies the configured gain without clamping (desktop.c:141), so the
  gain can start outside `[0, nvMax]`. Above `nvMax` the toggle never wraps
  (`NightVision.ToggledAboveMax`); below 0 it climbs by one per toggle
  until it reaches `nvMax` (`NightVision.ToggledClimbs`).
- The three configuration values are read from the `egl` section of the
  option store (desktop.c:140-142).

## Model

| member | source | states |
|---|---|---|
| `NightVision.NextGain` | client/renderers/EGL/desktop.c:150-151 | a gain equal to `nvMax` resets to 0, whatever `nvMax` is; for an in-range gain, one toggle gives `(gain + 1) % (nvMax + 1)` and stays in `[0, nvMax]`; above `nvMax`, and below 0 unless `nvMax` is that gain, the gain just increments |
| `NightVision.ToggledAdd` | client/renderers/EGL/desktop.c:150-151 | `a + b` toggles equal `a` toggles followed by `b` toggles |
| `NightVision.ToggledInRange` | client/renderers/EGL/desktop.c:150-151 | any number of toggles keeps an in-range gain in `[0, nvMax]` |
| `NightVision.ToggledClimbs` | client/renderers/EGL/desktop.c:150-151 | while the gain stays at or below `nvMax`, `n` toggles add `n`, from any starting gain, negative ones included |
| `NightVision.ToggledAboveMax` | client/renderers/EGL/desktop.c:150-151 | from a gain above `nvMax`, `n` toggles add `n` and never wrap |
| `NightVision.ToggledReachesZero` | client/renderers/EGL/desktop.c:150-151 | from in-range gain `g`, `nvMax - g + 1` toggles give 0 |
| `NightVision.ToggleCycle` | client/renderers/EGL/desktop.c:150-151 | `nvMax + 1` toggles return to the starting gain, and no positive number of toggles up to `nvMax` does |
| `NightVision.AlertText` | client/renderers/EGL/desktop.c:153-155 | the alert is "NV Disabled" exactly for gain 0 and "NV Enabled" exactly for gain 1; any other gain gives a text starting with "NV Gain + " |
| `NightVision.AlertTextGain` | client/renderers/EGL/desktop.c:153-155 | for a gain other than 0 and 1, the alert is "NV Gain + " followed by exactly the `%d` text of `gain - 1`, which reads back as `gain - 1` |
| `NightVision.AlertTextInjective` | client/renderers/EGL/desktop.c:153-155 | distinct gains produce distinct alert texts |
| `Decimal.NatDigits` | client/renderers/EGL/desktop.c:155 | the decimal digits of a natural number: non-empty, only digits, no leading zero |
| `Decimal.FormatInt` | client/renderers/EGL/desktop.c:155 | `%d` output: it starts with '-' exactly for negative values, the rest is digits, and the digits have no leading zero (a lone "0" only for 0) |
| `Decimal.ParseNatDigits` | client/renderers/EGL/desktop.c:155 | parsing the digits of `n` gives `n` |
| `Decimal.FormatIntRoundTrip` | client/renderers/EGL/desktop.c:155 | parsing the `%d` text of `n` gives `n` |
| `Decimal.FormatIntInjective` | client/renderers/EGL/desktop.c:155 | distinct integers get distinct `%d` texts |
| `EglDesktop.PixelFormatFor` | client/renderers/EGL/desktop.c:174-199 | a pixel format exists exactly for BGRA, RGBA, RGBA10 and RGBA16F, and it is the one of the same layout |
| `EglDesktop.PixelFormatRoundTrip` | client/renderers/EGL/desktop.c:174-199 | each pixel format is selected by its own frame type |
| `EglDesktop.ScaleAlgoFor` | client/renderers/EGL/desktop.c:251-263 | linear filtering exactly for DOWNSCALE; nearest for NOSCALE, UPSCALE and any other value |
| `EglDesktop.RenderGate` | client/renderers/EGL/desktop.c:248-249 | render has no effect at all exactly when no shader is active |
| `EglDesktop.RenderDrawsOnce` | client/renderers/EGL/desktop.c:265-282 | with an active shader, that shader is used first, every uniform is bound on it, and exactly one draw happens, as the last effect; the trace has eight entries, nine when the gain is bound, so together with the other render lemmas each uniform is bound exactly once |
| `EglDesktop.RenderBindsFrameUniforms` | client/renderers/EGL/desktop.c:251-280 | with an active shader, the destination rectangle, the rotation, the frame size, the scale filter chosen from the scale type and the colorblind mode are bound |
| `EglDesktop.RenderNightVision` | client/renderers/EGL/desktop.c:272-278 | `nv` is bound to 1 exactly when the gain is non-zero and to 0 exactly when it is zero; a gain is bound exactly when it is non-zero, with the record's gain |
| `EglDesktop.UpdateEffects` | client/renderers/EGL/desktop.c:223-241 | exactly one ingestion, first: the DMA import exactly when `dmaFd >= 0`, the frame copy otherwise; processing runs once, right after, exactly when ingestion succeeded; an error entry follows exactly when processing reports an error, which excludes OK and not-ready; one, two or three entries accordingly |
| `EglDesktop.SetupEffects` | client/renderers/EGL/desktop.c:174-218 | an unsupported type only logs an error and makes no texture call; a supported type makes exactly one texture setup, first, with the matching format, the frame's size and pitch, streaming on and the caller's DMA flag, followed only by an error log entry when that setup fails |
| `EglDesktop.InitEffectsSpec` | client/renderers/EGL/desktop.c:114-138 | texture init, shader init and model init run in that order, each only after the earlier ones succeeded; the first failure is the last entry and is an error log, and nothing follows it; when all succeed, the model's default geometry and its texture binding follow, then the night-vision key registration, and nothing else (six entries) |
| `EglDesktop.Desktop.constructor` | client/renderers/EGL/desktop.c:104-112 | the new record is zero-filled (no active shader, size 0, rotation 0, gains and mode 0) and borrows the display |
| `EglDesktop.Desktop.Construct` | client/renderers/EGL/desktop.c:114-142 | succeeds exactly when texture, shader and model init all succeed; its effects are `InitEffects`; on success the gain maximum, the gain and the colorblind mode are the configuration values, and on failure they are unchanged |
| `EglDesktop.Desktop.ToggleNightVision` | client/renderers/EGL/desktop.c:147-156 | the gain becomes `NextGain` of the old gain; an in-range gain stays in range and becomes `(old + 1) % (nvMax + 1)`; a gain above `nvMax` just increments; exactly one info alert is raised, giving the text for the new gain |
| `EglDesktop.Desktop.Setup` | client/renderers/EGL/desktop.c:171-219 | succeeds exactly for a supported type whose texture setup succeeds; an unsupported type leaves the shader, width and height unchanged; a supported type selects the generic shader and records width and height, even when the texture setup then fails; its effects are `SetupEffects` |
| `EglDesktop.Desktop.Update` | client/renderers/EGL/desktop.c:221-242 | returns false exactly when the ingestion step fails, whatever the processing status; its effects are `UpdateEffects`; the record is not changed |
| `EglDesktop.Desktop.BindNightVision` | client/renderers/EGL/desktop.c:272-278 | the night-vision step of render: its effects are `NvEffects` of the record's gain, which `EglDesktop.RenderNightVision` characterises (flag 1 and the gain exactly when the gain is non-zero, flag 0 otherwise); the record is not changed |
| `EglDesktop.Desktop.Render` | client/renderers/EGL/desktop.c:244-283 | returns true exactly when a shader is active; its effects are `RenderEffects` of the record's state; the record is not changed |
| `EglDesktop.Init` | client/renderers/EGL/desktop.c:102-145 | succeeds exactly when allocation and the three init steps succeed; a failed allocation leaves the reference null and logs an error; otherwise the reference holds a fresh zero-filled record and the effects are `InitEffects`; on success the gain maximum, the gain and the colorblind mode equal the three configuration values, and on a later failure they stay 0 |
| `EglDesktop.Free` | client/renderers/EGL/desktop.c:158-169 | the reference is null afterwards; on a null reference there is no effect; otherwise the texture, the shader program and the model are freed, in that order |
| `DesktopScenarios.FirstFrameSession` | client/renderers/EGL/desktop.c:102-283 | init, setup with RGBA 1920x1080, a copied frame and a 1:1 render all succeed; the size is recorded; the render uses nearest filtering, night vision off, no gain and one draw |
| `DesktopScenarios.UnsupportedFormatSession` | client/renderers/EGL/desktop.c:196-198 | on a fresh record, setup with an unknown tag fails, and render then fails with no effect |
| `DesktopScenarios.StaleShaderSession` | client/renderers/EGL/desktop.c:174-199 | a failed setup with an unknown tag after a successful one keeps the earlier shader and size, and render succeeds |
| `DesktopScenarios.FailedTextureSetupSession` | client/renderers/EGL/desktop.c:186-216 | a setup whose texture setup fails returns false, yet render succeeds and binds the new size |
| `DesktopScenarios.NightVisionSession` | client/renderers/EGL/desktop.c:147-156 | with a maximum of 3 and an initial gain of 0, one toggle gives gain 1 and "NV Enabled"; three more give gain 0 and "NV Disabled" |
| `DesktopScenarios.FreeTwiceSession` | client/renderers/EGL/desktop.c:158-169 | free after a failed init releases texture, shader and model once; a second free adds no effect |

## Left out

- The shader bootstrap `egl_init_desktop_shader` (desktop.c:75-100) is one `ShaderInit` effect whose success is an input. Program creation, compilation and uniform-location lookup belong to the shader object, which is not part of this model.
- Texture internals (`egl_texture_init`, `egl_texture_setup`, `egl_texture_update_from_dma`, `egl_texture_update_from_frame`, `egl_texture_process`, `egl_texture_free`) and the model calls are effects. Only the init calls (texture, shader, model), the texture setup, the ingestion and the processing step carry an input: their success, or the processing status. The free calls, the model's set-default, set-texture and render calls, and the uniform binds always succeed in the model. The texture, model and shader-program pointers in the record are not fields; only their effects are modelled.
- The frame's pixel contents and the DMA descriptor's buffer are not modelled. The frame is an opaque reference.
- `EglDesktop.Desktop.Render`: the float arguments `x`, `y`, `scaleX`, `scaleY` are passed through as reals, unchanged. The int-to-float conversions of the size and of the gain are not modelled; the uniform entries carry the integers.
- `EglDesktop.Desktop.Setup`: the frame's width and height are unsigned in the source and assigned to `int` fields. The model stores them unchanged, without the conversion of values above `INT_MAX`. The format's `stride` and `bpp` fields are not read by this code and are omitted.
- `EglDesktop.Desktop.ToggleNightVision`: the model does not capture the signed overflow of `nvGain++` at `INT_MAX`, which is undefined behaviour in C. The key code argument of the callback is unused and omitted. The opaque context pointer is the method's receiver.
- `Decimal.FormatInt` formats unbounded integers; the 32-bit range of `%d` is not modelled.
- The allocation and `free` of the record itself are not effects. A failed allocation is an input of `EglDesktop.Init`, and free's release of the record is the nulling of the reference.
- The configuration store (`option_get_int`) and the keybind dispatcher are external. The three configuration values are parameters of `EglDesktop.Init`, and the registration is an effect.
- Debug logging is a `LogError` effect carrying the message; nothing else about the log is modelled.
- Concurrent access to the gain by the input callback and the render thread is not modelled. The code has no synchronisation.
- The `rotate` field of the record is never written after the zero fill in this file, and render uses its parameter instead. The field is kept and only the constructor sets it.
