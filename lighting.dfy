/**
 The ambient light as the object it is: a class whose setters change its
 fields in place and fire a redraw signal, registered with its scene when it
 is initialised. Each method is proved against the value-level model in
 module AmbientLightModel.
 */
module Lighting {
  import opened Wrappers
  import opened AmbientLightModel

  /** The part of the scene this light talks to: its light registry. */
  class Scene {
    var lights: seq<AmbientLight>
    /** The state each light had at the moment it was registered. */
    ghost var registered: seq<State>

    constructor ()
      ensures lights == [] && registered == []
    {
      lights := [];
      registered := [];
    }

    /** Registration hook called by a light at the end of its `init`. */
    method LightCreated(light: AmbientLight)
      requires light.Valid()
      modifies this
      ensures lights == old(lights) + [light]
      ensures registered == old(registered) + [light.View()]
    {
      lights := lights + [light];
      registered := registered + [light.View()];
    }
  }

  class AmbientLight {
    /** The kind tag of the render state record. */
    const kind: string
    /** The three-component color buffer. */
    var color: array<real>
    var intensity: real
    /** Stands in for the redraw signal: one increment per signal fired. */
    var redraws: nat

    ghost predicate Valid()
      reads this
    {
      kind == Kind && color.Length == 3
    }

    /** The light's observable state as a value of the model. */
    ghost function View(): State
      reads this, color
      requires Valid()
    {
      State(kind, color[..], intensity, redraws)
    }

    /** The `type` getter. */
    function Type(): (t: string)
      ensures t == "AmbientLight"
    {
      TypeName
    }

    /** The color getter: the buffer itself, not a copy. */
    function Color(): (c: array<real>)
      reads this
      ensures c == color
    {
      color
    }

    /** The intensity getter. */
    function Intensity(): (r: real)
      reads this
      ensures r == intensity
    {
      intensity
    }

    /** Construction with `init`: the record is built with the placeholder
        color, both setters run on the configuration, then the light is
        registered with its scene. */
    constructor (scene: Scene, cfg: Config)
      requires ConfigOk(cfg)
      modifies scene
      ensures Valid() && fresh(color)
      ensures View() == Init(cfg)
      ensures Type() == "AmbientLight" && kind == "ambient"
      ensures scene.lights == old(scene.lights) + [this]
      ensures multiset(scene.lights)[this] == 1
      ensures scene.registered == old(scene.registered) + [Init(cfg)]
    {
      kind := Kind;
      color := new real[3] [0.7, 0.7, 0.7];
      intensity := DefaultIntensity;
      redraws := 0;
      new;
      assert View() == Constructed();
      SetColor(cfg.color);
      SetIntensity(cfg.intensity);
      scene.LightCreated(this);
    }

    /** The color setter: copies the given color, or the default, into the
        existing buffer and fires one redraw. */
    method SetColor(v: Option<seq<real>>)
      requires Valid() && ColorArgOk(v)
      modifies color, this`redraws
      ensures Valid()
      ensures Color() == old(Color())
      ensures View() == Step(old(View()), Call.SetColor(v))
    {
      var value := ColorOf(v);
      color[0], color[1], color[2] := value[0], value[1], value[2];
      redraws := redraws + 1;
      assert color[..] == value;
    }

    /** The intensity setter: stores the given intensity, or the default,
        without clamping, and fires one redraw. */
    method SetIntensity(v: Option<real>)
      requires Valid()
      modifies this`intensity, this`redraws
      ensures Valid()
      ensures Color() == old(Color())
      ensures View() == Step(old(View()), Call.SetIntensity(v))
    {
      intensity := IntensityOf(v);
      redraws := redraws + 1;
    }
  }

  /** A caller holding the buffer from the color getter sees every later
      color change through it. */
  method SharedBufferClient(scene: Scene)
    modifies scene
  {
    var light := new AmbientLight(scene, Config(None, None));
    var buffer := light.Color();
    assert buffer[..] == DefaultColor && light.Intensity() == 1.0;
    light.SetColor(Some([1.0, 0.0, 0.0]));
    assert buffer[..] == [1.0, 0.0, 0.0];
    light.SetIntensity(Some(2.5));
    assert buffer[..] == [1.0, 0.0, 0.0] && light.Intensity() == 2.5;
    light.SetColor(None);
    assert buffer[..] == DefaultColor && light.redraws == 5;
  }
}
