/**
  The page's control state: the global flags and the contrast and
  brightness values that the button and slider handlers set, how
  `drawSquare` hands them to the shader as uniforms, and the dispatch
  they select.
*/
module Controls {
  import opened Color
  import opened Kernels
  import opened Gradient
  import opened Transforms
  import opened Shader

  /** The global variables the handlers write; each flag is `0.0` or `1.0`. */
  datatype Settings = Settings(
    isBackground: real,
    isAlphaBlend: real,
    isGrayScale: real,
    isSepia: real,
    isSmooth: real,
    isSharpen: real,
    isLaplacian: real,
    isGradient: real,
    contrast: real,
    brightness: real)

  /** The values the globals are declared with. */
  const Initial: Settings := Settings(0.0, 0.0, 0.0, 0.0, 0.0, 0.0, 0.0, 0.0, 0.0, 0.0)

  /** The colour `drawScene` passes to `drawSquare`, which becomes the `color` uniform. */
  const DrawColor: Rgba := Rgba(1.0, 0.0, 0.0, 1.0)

  /** One handler call. `OnContrast` carries the two slider values as parsed numbers. */
  datatype Event =
    | OnGreyScale
    | OnSepia
    | OnContrast(contrastValue: real, brightnessValue: real)
    | OnSmooth
    | OnSharpen
    | OnLaplacian
    | OnGradient
    | OnBackground
    | OnAlphaBlend
  {
    predicate IsToneEvent() { OnGreyScale? || OnSepia? }
    predicate IsKernelEvent() { OnSmooth? || OnSharpen? || OnLaplacian? || OnGradient? }
    predicate IsModeEvent() { OnBackground? || OnAlphaBlend? }
  }

  /** The three groups of flags, each to hold at most one `1.0`. */
  function KernelFlags(s: Settings): seq<real> {
    [s.isSmooth, s.isSharpen, s.isLaplacian, s.isGradient]
  }

  function ToneFlags(s: Settings): seq<real> {
    [s.isGrayScale, s.isSepia]
  }

  function ModeFlags(s: Settings): seq<real> {
    [s.isBackground, s.isAlphaBlend]
  }

  /** The flags of a group with only position `k` set. */
  function OneHot(n: nat, k: nat): (f: seq<real>)
    requires k < n
    ensures |f| == n && f[k] == 1.0
    ensures forall i :: 0 <= i < n && i != k ==> f[i] == 0.0
  {
    seq(n, i => if i == k then 1.0 else 0.0)
  }

  /** Every flag of the group is 0 or 1, and at most one is 1. */
  ghost predicate AtMostOneSet(f: seq<real>) {
    && (forall i :: 0 <= i < |f| ==> f[i] == 0.0 || f[i] == 1.0)
    && (forall i, j :: 0 <= i < j < |f| && f[i] == 1.0 ==> f[j] != 1.0)
  }

  /** The invariant the handlers keep: at most one flag set in each group. */
  ghost predicate Exclusive(s: Settings) {
    AtMostOneSet(KernelFlags(s)) && AtMostOneSet(ToneFlags(s)) && AtMostOneSet(ModeFlags(s))
  }

  /** Where a kernel or tone or mode button puts its `1.0` within its group. */
  function KernelSlot(e: Event): nat
    requires e.IsKernelEvent()
  {
    match e
    case OnSmooth => 0
    case OnSharpen => 1
    case OnLaplacian => 2
    case OnGradient => 3
  }

  function ToneSlot(e: Event): nat
    requires e.IsToneEvent()
  {
    if e.OnGreyScale? then 0 else 1
  }

  function ModeSlot(e: Event): nat
    requires e.IsModeEvent()
  {
    if e.OnBackground? then 0 else 1
  }

  /**
    One handler call, without its `drawScene()`. A tone button sets its
    flag and clears the other tone flag; a kernel button sets its flag,
    clears the other kernel flags and both tone flags; a mode button sets
    its flag and clears the other one; the sliders set contrast to the
    contrast value over 100 and brightness to the brightness value over 10.
    Nothing else changes.
  */
  function Handle(s: Settings, e: Event): (r: Settings)
    ensures e.IsToneEvent() ==>
      ToneFlags(r) == OneHot(2, ToneSlot(e)) && KernelFlags(r) == KernelFlags(s) && ModeFlags(r) == ModeFlags(s)
    ensures e.IsKernelEvent() ==>
      KernelFlags(r) == OneHot(4, KernelSlot(e)) && ToneFlags(r) == [0.0, 0.0] && ModeFlags(r) == ModeFlags(s)
    ensures e.IsModeEvent() ==>
      ModeFlags(r) == OneHot(2, ModeSlot(e)) && KernelFlags(r) == KernelFlags(s) && ToneFlags(r) == ToneFlags(s)
    ensures !e.OnContrast? ==> r.contrast == s.contrast && r.brightness == s.brightness
    ensures e.OnContrast? ==>
      && KernelFlags(r) == KernelFlags(s) && ToneFlags(r) == ToneFlags(s) && ModeFlags(r) == ModeFlags(s)
      && r.contrast == e.contrastValue / 100.0 && r.brightness == e.brightnessValue / 10.0
  {
    match e
    case OnGreyScale => s.(isGrayScale := 1.0, isSepia := 0.0)
    case OnSepia => s.(isSepia := 1.0, isGrayScale := 0.0)
    case OnContrast(c, b) => s.(contrast := c / 100.0, brightness := b / 10.0)
    case OnSmooth =>
      s.(isGrayScale := 0.0, isSepia := 0.0, isSmooth := 1.0, isSharpen := 0.0, isLaplacian := 0.0, isGradient := 0.0)
    case OnSharpen =>
      s.(isGrayScale := 0.0, isSepia := 0.0, isSmooth := 0.0, isSharpen := 1.0, isLaplacian := 0.0, isGradient := 0.0)
    case OnLaplacian =>
      s.(isGrayScale := 0.0, isSepia := 0.0, isSmooth := 0.0, isSharpen := 0.0, isLaplacian := 1.0, isGradient := 0.0)
    case OnGradient =>
      s.(isGrayScale := 0.0, isSepia := 0.0, isSmooth := 0.0, isSharpen := 0.0, isLaplacian := 0.0, isGradient := 1.0)
    case OnBackground => s.(isBackground := 1.0, isAlphaBlend := 0.0)
    case OnAlphaBlend => s.(isAlphaBlend := 1.0, isBackground := 0.0)
  }

  /** The settings after the handlers in `events` ran in order, starting from `s`. */
  function Run(s: Settings, events: seq<Event>): Settings {
    if events == [] then s else Handle(Run(s, events[..|events| - 1]), events[|events| - 1])
  }

  /** A group with exactly one flag set has at most one flag set. */
  lemma OneHotAtMostOneSet(n: nat, k: nat)
    requires k < n
    ensures AtMostOneSet(OneHot(n, k))
  {
  }

  /** Every handler keeps the invariant. */
  lemma HandleKeepsExclusive(s: Settings, e: Event)
    requires Exclusive(s)
    ensures Exclusive(Handle(s, e))
  {
    var r := Handle(s, e);
    if e.IsToneEvent() {
      OneHotAtMostOneSet(2, ToneSlot(e));
    } else if e.IsKernelEvent() {
      OneHotAtMostOneSet(4, KernelSlot(e));
      assert AtMostOneSet(ToneFlags(r));
    } else if e.IsModeEvent() {
      OneHotAtMostOneSet(2, ModeSlot(e));
    }
  }

  /** The initial globals satisfy the invariant. */
  lemma InitialExclusive()
    ensures Exclusive(Initial)
  {
    assert KernelFlags(Initial) == [0.0, 0.0, 0.0, 0.0];
  }

  /** Every state reachable from the initial globals has at most one flag set in each group. */
  lemma {:induction false} ReachableExclusive(events: seq<Event>)
    ensures Exclusive(Run(Initial, events))
  {
    if events == [] {
      InitialExclusive();
    } else {
      ReachableExclusive(events[..|events| - 1]);
      HandleKeepsExclusive(Run(Initial, events[..|events| - 1]), events[|events| - 1]);
    }
  }

  /** Pressing the same button, or setting the same slider values, twice has the effect of once. */
  lemma HandleIdempotent(s: Settings, e: Event)
    ensures Handle(Handle(s, e), e) == Handle(s, e)
  {
  }

  /** Either blend or background mode is on. */
  predicate ModeChosen(s: Settings) {
    s.isBackground == 1.0 || s.isAlphaBlend == 1.0
  }

  /**
    Until a mode button is pressed neither mode is on; once one has been
    pressed, one of the two modes stays on whatever follows.
  */
  lemma {:induction false} ModeChosenOnceSelected(events: seq<Event>)
    ensures ModeChosen(Run(Initial, events)) <==> exists k :: 0 <= k < |events| && events[k].IsModeEvent()
  {
    if events != [] {
      var prefix := events[..|events| - 1];
      var last := events[|events| - 1];
      ModeChosenOnceSelected(prefix);
      if last.IsModeEvent() {
        assert events[|events| - 1].IsModeEvent();
      } else {
        assert ModeChosen(Run(Initial, events)) == ModeChosen(Run(Initial, prefix));
        if exists k :: 0 <= k < |events| && events[k].IsModeEvent() {
          var k :| 0 <= k < |events| && events[k].IsModeEvent();
          assert k < |prefix| && prefix[k] == events[k];
        }
        if exists k :: 0 <= k < |prefix| && prefix[k].IsModeEvent() {
          var k :| 0 <= k < |prefix| && prefix[k].IsModeEvent();
          assert events[k] == prefix[k];
        }
      }
    }
  }

  /** The uniforms `drawSquare` sets from the globals. */
  function UniformsOf(s: Settings): (u: Uniforms)
    ensures u.color.a == 1.0
  {
    Uniforms(DrawColor, s.contrast, s.brightness, s.isAlphaBlend, s.isBackground,
             s.isGrayScale, s.isSepia, s.isSmooth, s.isSharpen, s.isLaplacian, s.isGradient)
  }

  /** The filters the background-only mode can run. */
  datatype Filter = Unfiltered | Smoothing | Sharpening | LaplacianEdges | GradientMagnitude

  /** The compositing mode: one of blend, background-only with a filter, and neither (output undefined). */
  datatype Mode = Blending | Filtering(filter: Filter) | Unassigned

  datatype Tone = NoTone | GreyTone | SepiaTone

  /**
    The one flag set in each group, read as a tagged value. The flags are
    examined in the reverse of the shader's order, so the two readings agree
    only because at most one flag of a group is set.
  */
  function FilterOf(s: Settings): Filter {
    if s.isGradient == 1.0 then GradientMagnitude
    else if s.isLaplacian == 1.0 then LaplacianEdges
    else if s.isSharpen == 1.0 then Sharpening
    else if s.isSmooth == 1.0 then Smoothing
    else Unfiltered
  }

  function ModeOf(s: Settings): Mode {
    if s.isAlphaBlend == 1.0 then Blending
    else if s.isBackground == 1.0 then Filtering(FilterOf(s))
    else Unassigned
  }

  function ToneOf(s: Settings): Tone {
    if s.isSepia == 1.0 then SepiaTone else if s.isGrayScale == 1.0 then GreyTone else NoTone
  }

  /** The filter a tagged value names, applied to the background neighbourhood. */
  ghost function ApplyFilter(f: Filter, bg: Sampler): Rgba {
    match f
    case Unfiltered => bg(0, 0)
    case Smoothing => Smoothed(bg)
    case Sharpening => Sharpened(bg)
    case LaplacianEdges => LaplacianOf(bg)
    case GradientMagnitude => GradientOf(bg)
  }

  /** Compositing by a tagged mode. */
  ghost function ReferenceComposite(m: Mode, bg: Sampler, fg: Rgba, unset: Rgba): Rgba {
    match m
    case Blending => AlphaBlend(bg(0, 0), fg)
    case Filtering(f) => ApplyFilter(f, bg)
    case Unassigned => unset
  }

  /** At most one tone, by a tagged value. */
  function ReferenceTone(t: Tone, c: Rgba): Rgba {
    match t
    case NoTone => c
    case GreyTone => GrayScale(c)
    case SepiaTone => Sepia(c, DrawColor.a)
  }

  /**
    A reference pipeline over tagged values: composite by mode, then at
    most one tone, then contrast and brightness.
  */
  ghost function ReferenceColor(m: Mode, t: Tone, contrast: real, brightness: real, bg: Sampler, fg: Rgba, unset: Rgba): Rgba {
    ContrastBrightness(ReferenceTone(t, ReferenceComposite(m, bg, fg, unset)), contrast, brightness)
  }

  /** With at most one kernel flag set, the shader's filter branch runs the filter the flags name. */
  lemma FilterMatchesReference(s: Settings, bg: Sampler)
    requires AtMostOneSet(KernelFlags(s))
    ensures FilterStage(UniformsOf(s), bg) == ApplyFilter(FilterOf(s), bg)
  {
    var f := KernelFlags(s);
    assert f[0] == s.isSmooth && f[1] == s.isSharpen && f[2] == s.isLaplacian && f[3] == s.isGradient;
  }

  /** With at most one mode flag set, the shader's two `if`s composite by the mode the flags name. */
  lemma CompositeMatchesReference(s: Settings, bg: Sampler, fg: Rgba, unset: Rgba)
    requires AtMostOneSet(KernelFlags(s)) && AtMostOneSet(ModeFlags(s))
    ensures Composite(UniformsOf(s), bg, fg, unset) == ReferenceComposite(ModeOf(s), bg, fg, unset)
  {
    assert ModeFlags(s)[0] == s.isBackground && ModeFlags(s)[1] == s.isAlphaBlend;
    if s.isBackground == 1.0 {
      FilterMatchesReference(s, bg);
    }
  }

  /** With at most one tone flag set, the shader's two tone `if`s apply the tone the flags name. */
  lemma ToneMatchesReference(s: Settings, c: Rgba)
    requires AtMostOneSet(ToneFlags(s))
    ensures ToneStage(UniformsOf(s), c) == ReferenceTone(ToneOf(s), c)
  {
    assert ToneFlags(s)[0] == s.isGrayScale && ToneFlags(s)[1] == s.isSepia;
  }

  /** Under the invariant, the shader's flag-by-flag dispatch computes the reference pipeline. */
  lemma DispatchMatchesReference(s: Settings, bg: Sampler, fg: Rgba, unset: Rgba)
    requires Exclusive(s)
    ensures Main(UniformsOf(s), bg, fg, unset) == ReferenceColor(ModeOf(s), ToneOf(s), s.contrast, s.brightness, bg, fg, unset)
  {
    CompositeMatchesReference(s, bg, fg, unset);
    ToneMatchesReference(s, Composite(UniformsOf(s), bg, fg, unset));
  }

  /**
    Without the invariant the two readings part: with both mode flags set
    the shader's filter branch overwrites the blend, while the tagged
    reading says blend.
  */
  lemma BothModesFilterWins(s: Settings, bg: Sampler, fg: Rgba, unset: Rgba)
    requires s.isBackground == 1.0 && s.isAlphaBlend == 1.0
    ensures ModeOf(s) == Blending
    ensures Composite(UniformsOf(s), bg, fg, unset) == FilterStage(UniformsOf(s), bg)
  {
  }

  /** For every sequence of handler calls, the shader computes the reference pipeline. */
  lemma ReachableDispatch(events: seq<Event>, bg: Sampler, fg: Rgba, unset: Rgba)
    ensures var s := Run(Initial, events);
      Main(UniformsOf(s), bg, fg, unset) == ReferenceColor(ModeOf(s), ToneOf(s), s.contrast, s.brightness, bg, fg, unset)
  {
    ReachableExclusive(events);
    DispatchMatchesReference(Run(Initial, events), bg, fg, unset);
  }

  /** Because `drawScene` passes an opaque `color`, sepia output drawn by the page is opaque. */
  lemma DrawnSepiaIsOpaque(s: Settings, bg: Sampler, fg: Rgba, unset: Rgba)
    requires s.isSepia == 1.0
    ensures Main(UniformsOf(s), bg, fg, unset).a == 1.0
  {
  }

  /**
    The page's global handler state. Each method is one handler of the
    page without its final `drawScene()`.
  */
  class ControlPanel {
    var isBackground: real
    var isAlphaBlend: real
    var isGrayScale: real
    var isSepia: real
    var isSmooth: real
    var isSharpen: real
    var isLaplacian: real
    var isGradient: real
    var contrast: real
    var brightness: real

    /** The globals as a value. */
    function Current(): Settings
      reads this
    {
      Settings(isBackground, isAlphaBlend, isGrayScale, isSepia, isSmooth, isSharpen,
               isLaplacian, isGradient, contrast, brightness)
    }

    ghost predicate Valid()
      reads this
    {
      Exclusive(Current())
    }

    /** The declarations of the globals: every flag, contrast and brightness start at 0. */
    constructor ()
      ensures Current() == Initial && Valid()
    {
      isBackground, isAlphaBlend := 0.0, 0.0;
      isGrayScale, isSepia := 0.0, 0.0;
      isSmooth, isSharpen, isLaplacian, isGradient := 0.0, 0.0, 0.0, 0.0;
      contrast, brightness := 0.0, 0.0;
      InitialExclusive();
    }

    method GreyScaleFilter()
      requires Valid()
      modifies this
      ensures Current() == Handle(old(Current()), OnGreyScale) && Valid()
    {
      isGrayScale := 1.0;
      isSepia := 0.0;
      HandleKeepsExclusive(old(Current()), OnGreyScale);
    }

    method SepiaFilter()
      requires Valid()
      modifies this
      ensures Current() == Handle(old(Current()), OnSepia) && Valid()
    {
      isSepia := 1.0;
      isGrayScale := 0.0;
      HandleKeepsExclusive(old(Current()), OnSepia);
    }

    /** `contrastValue` and `brightnessValue` are the two sliders' values after `parseFloat`. */
    method ContrastFilter(contrastValue: real, brightnessValue: real)
      requires Valid()
      modifies this
      ensures Current() == Handle(old(Current()), OnContrast(contrastValue, brightnessValue)) && Valid()
    {
      contrast := contrastValue / 100.0;
      brightness := brightnessValue / 10.0;
      HandleKeepsExclusive(old(Current()), OnContrast(contrastValue, brightnessValue));
    }

    method SmoothFilter()
      requires Valid()
      modifies this
      ensures Current() == Handle(old(Current()), OnSmooth) && Valid()
    {
      isGrayScale := 0.0;
      isSepia := 0.0;
      isSmooth := 1.0;
      isSharpen := 0.0;
      isLaplacian := 0.0;
      isGradient := 0.0;
      HandleKeepsExclusive(old(Current()), OnSmooth);
    }

    method SharpenFilter()
      requires Valid()
      modifies this
      ensures Current() == Handle(old(Current()), OnSharpen) && Valid()
    {
      isGrayScale := 0.0;
      isSepia := 0.0;
      isSmooth := 0.0;
      isSharpen := 1.0;
      isLaplacian := 0.0;
      isGradient := 0.0;
      HandleKeepsExclusive(old(Current()), OnSharpen);
    }

    method LaplacianFilter()
      requires Valid()
      modifies this
      ensures Current() == Handle(old(Current()), OnLaplacian) && Valid()
    {
      isGrayScale := 0.0;
      isSepia := 0.0;
      isSmooth := 0.0;
      isSharpen := 0.0;
      isLaplacian := 1.0;
      isGradient := 0.0;
      HandleKeepsExclusive(old(Current()), OnLaplacian);
    }

    method GradientFilter()
      requires Valid()
      modifies this
      ensures Current() == Handle(old(Current()), OnGradient) && Valid()
    {
      isGrayScale := 0.0;
      isSepia := 0.0;
      isSmooth := 0.0;
      isSharpen := 0.0;
      isLaplacian := 0.0;
      isGradient := 1.0;
      HandleKeepsExclusive(old(Current()), OnGradient);
    }

    method BackgroundTexture()
      requires Valid()
      modifies this
      ensures Current() == Handle(old(Current()), OnBackground) && Valid()
    {
      isBackground := 1.0;
      isAlphaBlend := 0.0;
      HandleKeepsExclusive(old(Current()), OnBackground);
    }

    method AlphaBlending()
      requires Valid()
      modifies this
      ensures Current() == Handle(old(Current()), OnAlphaBlend) && Valid()
    {
      isAlphaBlend := 1.0;
      isBackground := 0.0;
      HandleKeepsExclusive(old(Current()), OnAlphaBlend);
    }
  }
}
