/**
 The value-level model of an ambient light's render state and of the two
 setters that change it. The class in module Lighting is proved against the
 functions here; the lemmas describe what any sequence of setter calls does.
 */
module AmbientLightModel {
  import opened Wrappers

  /** The fixed kind tag of the render state record. */
  const Kind: string := "ambient"
  /** What the class's `type` getter reports. */
  const TypeName: string := "AmbientLight"
  /** The color the record is built with, before `init` runs the setters. */
  const PlaceholderColor: seq<real> := [0.7, 0.7, 0.7]
  /** The color the color setter falls back to when given no value. */
  const DefaultColor: seq<real> := [0.7, 0.7, 0.8]
  /** The intensity the record is built with and the setter falls back to. */
  const DefaultIntensity: real := 1.0

  /** The configuration fields this light reads. */
  datatype Config = Config(color: Option<seq<real>>, intensity: Option<real>)

  /** A color argument, when present, has the three components of the buffer. */
  predicate ColorArgOk(v: Option<seq<real>>) {
    v.Some? ==> |v.value| == 3
  }

  predicate ConfigOk(cfg: Config) {
    ColorArgOk(cfg.color)
  }

  /** The observable state of a light: its kind tag, the contents of its color
      buffer, its intensity and the number of redraw signals it has fired. */
  datatype State = State(kind: string, color: seq<real>, intensity: real, redraws: nat)

  /** One call of a property setter. */
  datatype Call = SetColor(color: Option<seq<real>>) | SetIntensity(intensity: Option<real>)

  predicate CallOk(c: Call) {
    c.SetColor? ==> ColorArgOk(c.color)
  }

  predicate CallsOk(calls: seq<Call>) {
    forall i :: 0 <= i < |calls| ==> CallOk(calls[i])
  }

  /** The value the color setter copies into the buffer. */
  function ColorOf(v: Option<seq<real>>): (r: seq<real>)
    requires ColorArgOk(v)
    ensures |r| == 3
  {
    match v
    case None => DefaultColor
    case Some(c) => c
  }

  /** The value the intensity setter stores: no clamping of a given value. */
  function IntensityOf(v: Option<real>): (r: real)
    ensures v.Some? ==> r == v.value
    ensures v.None? ==> r == DefaultIntensity
  {
    match v
    case None => DefaultIntensity
    case Some(x) => x
  }

  /** The effect of one setter call. */
  function Step(s: State, c: Call): (t: State)
    requires CallOk(c)
    ensures t.kind == s.kind
    ensures t.redraws == s.redraws + 1
    ensures c.SetColor? ==> t.color == ColorOf(c.color) && t.intensity == s.intensity
    ensures c.SetIntensity? ==> t.intensity == IntensityOf(c.intensity) && t.color == s.color
  {
    match c
    case SetColor(v) => s.(color := ColorOf(v), redraws := s.redraws + 1)
    case SetIntensity(v) => s.(intensity := IntensityOf(v), redraws := s.redraws + 1)
  }

  /** The record as `init` builds it, before either setter has run. */
  function Constructed(): (s: State)
    ensures s.kind == Kind && |s.color| == 3 && s.redraws == 0
    ensures s.color != DefaultColor && s.intensity == DefaultIntensity
  {
    assert PlaceholderColor[2] != DefaultColor[2];
    State(Kind, PlaceholderColor, DefaultIntensity, 0)
  }

  /** The state after `init`: the record is built, then the color setter and
      the intensity setter run on the configuration's fields. */
  function Init(cfg: Config): (s: State)
    requires ConfigOk(cfg)
    ensures s.kind == Kind
    ensures s.redraws == 2
    ensures cfg.color.None? ==> s.color == DefaultColor
    ensures cfg.color.Some? ==> s.color == cfg.color.value
    ensures cfg.intensity.None? ==> s.intensity == DefaultIntensity
    ensures cfg.intensity.Some? ==> s.intensity == cfg.intensity.value
    ensures s.color == PlaceholderColor <==> cfg.color == Some(PlaceholderColor)
  {
    assert DefaultColor[2] != PlaceholderColor[2];
    Step(Step(Constructed(), SetColor(cfg.color)), SetIntensity(cfg.intensity))
  }

  /** The effect of a sequence of setter calls, first to last. */
  function Run(s: State, calls: seq<Call>): State
    requires CallsOk(calls)
    decreases |calls|
  {
    if calls == [] then s
    else
      assert forall i :: 0 <= i < |calls| - 1 ==> calls[1..][i] == calls[i + 1];
      Run(Step(s, calls[0]), calls[1..])
  }

  /** Reference definition: the color after a sequence of calls is the one the
      LAST color call names, or the starting color when there is none. */
  function LastColor(start: seq<real>, calls: seq<Call>): seq<real>
    requires CallsOk(calls)
    decreases |calls|
  {
    if calls == [] then start
    else
      var c := calls[|calls| - 1];
      if c.SetColor? then ColorOf(c.color) else LastColor(start, calls[..|calls| - 1])
  }

  /** Reference definition: likewise for the intensity. */
  function LastIntensity(start: real, calls: seq<Call>): real
    requires CallsOk(calls)
    decreases |calls|
  {
    if calls == [] then start
    else
      var c := calls[|calls| - 1];
      if c.SetIntensity? then IntensityOf(c.intensity) else LastIntensity(start, calls[..|calls| - 1])
  }

  /** Running two sequences of calls one after the other. */
  lemma {:induction false} RunAppend(s: State, a: seq<Call>, b: seq<Call>)
    requires CallsOk(a) && CallsOk(b)
    ensures CallsOk(a + b)
    ensures Run(s, a + b) == Run(Run(s, a), b)
    decreases |a|
  {
    if a == [] {
      assert a + b == b;
    } else {
      assert (a + b)[0] == a[0];
      assert (a + b)[1..] == a[1..] + b;
      RunAppend(Step(s, a[0]), a[1..], b);
    }
  }

  /** Appending one call to a run performs one more step. */
  lemma RunSnoc(s: State, calls: seq<Call>, c: Call)
    requires CallsOk(calls) && CallOk(c)
    ensures CallsOk(calls + [c])
    ensures Run(s, calls + [c]) == Step(Run(s, calls), c)
  {
    RunAppend(s, calls, [c]);
  }

  /** The whole effect of any sequence of setter calls: the kind tag is kept,
      each field holds what the last call to its own setter wrote, and exactly
      one redraw is signalled per call. */
  lemma {:induction false} RunState(s: State, calls: seq<Call>)
    requires CallsOk(calls)
    ensures Run(s, calls) == State(s.kind, LastColor(s.color, calls), LastIntensity(s.intensity, calls), s.redraws + |calls|)
    decreases |calls|
  {
    if calls != [] {
      var front, last := calls[..|calls| - 1], calls[|calls| - 1];
      assert calls == front + [last];
      assert CallsOk(front) by {
        forall i | 0 <= i < |front| ensures CallOk(front[i]) { assert front[i] == calls[i]; }
      }
      RunSnoc(s, front, last);
      RunState(s, front);
    }
  }

  /** Setting the color to absent yields the default color, whatever came before. */
  lemma ColorResetForgetsHistory(s: State, calls: seq<Call>)
    requires CallsOk(calls)
    ensures CallsOk(calls + [SetColor(None)])
    ensures Run(s, calls + [SetColor(None)]).color == DefaultColor
  {
    RunSnoc(s, calls, SetColor(None));
  }

  /** A given intensity is stored exactly, in or out of [0, 1], and later color
      calls do not disturb it. */
  lemma {:induction false} IntensityStoredUnclamped(s: State, calls: seq<Call>, x: real, later: seq<Call>)
    requires CallsOk(calls) && CallsOk(later)
    requires forall i :: 0 <= i < |later| ==> later[i].SetColor?
    ensures CallsOk(calls + [SetIntensity(Some(x))] + later)
    ensures Run(s, calls + [SetIntensity(Some(x))] + later).intensity == x
  {
    RunSnoc(s, calls, SetIntensity(Some(x)));
    RunAppend(s, calls + [SetIntensity(Some(x))], later);
    ColorCallsKeepIntensity(Run(s, calls + [SetIntensity(Some(x))]), later);
  }

  /** Color calls alone never change the intensity or the kind tag. */
  lemma {:induction false} ColorCallsKeepIntensity(s: State, calls: seq<Call>)
    requires CallsOk(calls)
    requires forall i :: 0 <= i < |calls| ==> calls[i].SetColor?
    ensures Run(s, calls).intensity == s.intensity
    ensures Run(s, calls).kind == s.kind
    decreases |calls|
  {
    if calls != [] {
      assert forall i :: 0 <= i < |calls| - 1 ==> calls[1..][i] == calls[i + 1];
      ColorCallsKeepIntensity(Step(s, calls[0]), calls[1..]);
    }
  }

  /** Intensity calls alone never change the color buffer's contents or the kind tag. */
  lemma {:induction false} IntensityCallsKeepColor(s: State, calls: seq<Call>)
    requires CallsOk(calls)
    requires forall i :: 0 <= i < |calls| ==> calls[i].SetIntensity?
    ensures Run(s, calls).color == s.color
    ensures Run(s, calls).kind == s.kind
    decreases |calls|
  {
    if calls != [] {
      assert forall i :: 0 <= i < |calls| - 1 ==> calls[1..][i] == calls[i + 1];
      IntensityCallsKeepColor(Step(s, calls[0]), calls[1..]);
    }
  }

  /** The two setters touch disjoint fields, so swapping a color call with an
      adjacent intensity call anywhere in a run changes nothing. */
  lemma AdjacentSettersCommute(s: State, a: seq<Call>, v: Option<seq<real>>, w: Option<real>, b: seq<Call>)
    requires CallsOk(a) && CallsOk(b) && ColorArgOk(v)
    ensures CallsOk(a + [SetColor(v), SetIntensity(w)] + b)
    ensures CallsOk(a + [SetIntensity(w), SetColor(v)] + b)
    ensures Run(s, a + [SetColor(v), SetIntensity(w)] + b) == Run(s, a + [SetIntensity(w), SetColor(v)] + b)
  {
    var cw, wc := [SetColor(v), SetIntensity(w)], [SetIntensity(w), SetColor(v)];
    assert cw == [SetColor(v)] + [SetIntensity(w)];
    assert wc == [SetIntensity(w)] + [SetColor(v)];
    var m := Run(s, a);
    RunAppend(m, [SetColor(v)], [SetIntensity(w)]);
    RunAppend(m, [SetIntensity(w)], [SetColor(v)]);
    RunAppend(s, a, cw);
    RunAppend(s, a, wc);
    RunAppend(s, a + cw, b);
    RunAppend(s, a + wc, b);
  }
}
