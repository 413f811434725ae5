# AmbientLight: a verified model

This project models the ambient light source of the xeokit scene graph
(`src/scene/lighting/AmbientLight.js`). An ambient light holds a small
render state record with three parts:

- a fixed kind tag, `"ambient"`;
- a three-component color buffer;
- a scalar intensity.

A color setter and an intensity setter update the record. Each one falls
back to a default when it is given no value, and each one fires a redraw
signal on every call. `init` builds the record with a placeholder color,
runs both setters on the configuration, and then registers the light with
its scene.

The model has three modules:

- `Wrappers`: the `Option` type, which stands for a value that may be `undefined`.
- `AmbientLightModel`: the light's observable state as a value.
  - `Step` is one setter call; `Init` is `init`; `Run` is a sequence of setter calls.
  - `LastColor` and `LastIntensity` are independent reference definitions: each
    field holds what the last call to its own setter wrote.
  - Lemmas connect these over every call sequence.
- `Lighting`: the classes.
  - `AmbientLight` keeps its color as an `array<real>` of length 3 that the color
    setter overwrites in place. A counter `redraws` stands for the redraw signal.
  - `Scene` holds the light registry as a sequence.
  - Each method is proved against `Step` / `Init` through the ghost function `View`.

## Model

| member | source | states |
|---|---|---|
| `AmbientLightModel.ColorOf` | src/scene/lighting/AmbientLight.js:99 | The value the color setter writes always has the buffer's three components. It is the given color, or `[0.7, 0.7, 0.8]` when none is given. |
| `AmbientLightModel.IntensityOf` | src/scene/lighting/AmbientLight.js:115 | The value the intensity setter stores is the given value itself, unclamped. When no value is given it is `1.0`. |
| `AmbientLightModel.Constructed` | src/scene/lighting/AmbientLight.js:81-85 | The record `init` builds before either setter runs has kind `"ambient"`, a three-component color, intensity `1.0` and no redraw yet. Its placeholder color is not the default `[0.7, 0.7, 0.8]`, which is why `Init` has to overwrite it. |
| `AmbientLightModel.Step` | src/scene/lighting/AmbientLight.js:98-117 | One setter call keeps the kind tag and adds exactly one redraw. A color call sets the color and leaves the intensity alone. An intensity call sets the intensity, unclamped, and leaves the color alone. |
| `AmbientLightModel.Init` | src/scene/lighting/AmbientLight.js:79-89 | After `init` the kind is `"ambient"` and exactly two redraws have fired. The color is the configured one or `[0.7, 0.7, 0.8]`. The intensity is the configured one or `1.0`. The `[0.7, 0.7, 0.7]` placeholder is visible only when the configuration itself asks for it. |
| `AmbientLightModel.RunAppend` | src/scene/lighting/AmbientLight.js:98-117 | Helper lemma for `RunState` and `AdjacentSettersCommute`: running two call sequences in turn equals running their concatenation. It holds of any step function folded over a sequence and says nothing specific about the setters. |
| `AmbientLightModel.RunSnoc` | src/scene/lighting/AmbientLight.js:98-117 | Helper lemma for `RunState`: one more call at the end is one more `Step`. It holds of any folded step function. |
| `AmbientLightModel.RunState` | src/scene/lighting/AmbientLight.js:98-117 | For any sequence of setter calls, the kind tag is kept. The color is what the last color call wrote, and the intensity what the last intensity call wrote. Each field keeps its starting value when its setter was never called. The redraw count grows by exactly the number of calls, even when a call rewrites the current value. |
| `AmbientLightModel.ColorResetForgetsHistory` | src/scene/lighting/AmbientLight.js:99 | Setting the color to absent leaves exactly `[0.7, 0.7, 0.8]`, whatever calls came before. |
| `AmbientLightModel.IntensityStoredUnclamped` | src/scene/lighting/AmbientLight.js:114-121 | Any intensity given, in or out of `[0, 1]`, is the intensity afterwards. Later color calls do not change it. |
| `AmbientLightModel.ColorCallsKeepIntensity` | src/scene/lighting/AmbientLight.js:98-101 | Any sequence of color calls leaves the intensity and the kind tag unchanged. |
| `AmbientLightModel.IntensityCallsKeepColor` | src/scene/lighting/AmbientLight.js:114-117 | Any sequence of intensity calls leaves the color contents and the kind tag unchanged. |
| `AmbientLightModel.AdjacentSettersCommute` | src/scene/lighting/AmbientLight.js:98-117 | Swapping a color call with an adjacent intensity call, anywhere in a sequence, gives the same final state. |
| `Lighting.Scene.LightCreated` | src/scene/lighting/AmbientLight.js:88 | Registering a light appends it to the scene's light registry. The ghost record `registered` appends the light's state at the moment of registration. |
| `Lighting.AmbientLight.Type` | src/scene/lighting/AmbientLight.js:75-77 | The `type` getter reports `"AmbientLight"`. |
| `Lighting.AmbientLight.Color` | src/scene/lighting/AmbientLight.js:103-105 | The color getter returns the buffer itself, not a copy. `SetColor`'s `Color() == old(Color())` keeps that reference the same across writes. |
| `Lighting.AmbientLight.Intensity` | src/scene/lighting/AmbientLight.js:119-121 | The intensity getter returns the stored intensity. |
| `Lighting.AmbientLight.constructor` | src/scene/lighting/AmbientLight.js:75-89 | The new light's state is `Init(cfg)`, and its color buffer is freshly allocated. Its `type` is `"AmbientLight"` and its kind is `"ambient"`. It is appended to its scene's registry, and it appears there exactly once. The state recorded at registration is `Init(cfg)`, so registration happens after both setters have run. |
| `Lighting.AmbientLight.SetColor` | src/scene/lighting/AmbientLight.js:98-105 | The setter writes into the existing buffer. The getter returns the same array before and after, so a reference taken earlier sees the new contents. The new state is one color `Step` of the old: new contents, one more redraw, intensity and kind unchanged. |
| `Lighting.AmbientLight.SetIntensity` | src/scene/lighting/AmbientLight.js:114-121 | The new state is one intensity `Step` of the old. The intensity is stored unclamped, or `1.0` when absent. One more redraw fires. The color buffer, its contents and the kind are unchanged. |

## Left out

- The `Component` base class is not part of this model. That covers `super.init`, id assignment and uniqueness, owner-cascaded destruction, default-scene selection and `destroy`, which only delegates to the base class.
- The internals of the scene's `_lightCreated` and of `glRedraw` are not modelled. These are calls into code outside this file. Registration is an append to `Scene.lights`, and each redraw signal is one increment of `AmbientLight.redraws`.
- The buffer's float32 storage and the vector-math helper are not modelled. Color components and the intensity are `real`, so float32 rounding of `0.7` and `0.8` is not captured.
- `TypedArray.set` with inputs other than three elements is not modelled. A present color argument must have exactly three components (`ColorArgOk`).
- JavaScript's `undefined` is `None` and a real value is `Some`. Two cases have no counterpart in the model:
  - the intensity setter falls back only for `undefined` and stores `null` as given, while the model's `None` gives `1.0` and has no `null` value;
  - the color setter falls back for any falsy value (`||`), but `[]` is truthy, so setting the color to `[]` leaves the buffer unchanged rather than resetting it; the model admits only three-component colors.
- `cfg.meta` has no behaviour in this file and is not modelled.
- The usage examples in the file's doc comment are not modelled. They involve other light types and meshes.
- The separate render-state object `_state` is folded into the `AmbientLight` object. Its kind, color buffer and intensity become fields of the light, so the stable identity of that record is modelled by the light's own identity. The model does not capture the record being a separate object that the scene's renderer holds.
- The doc comment gives the default intensity as `[1.0]`; the code stores the scalar `1.0`, which is what the model follows.
