/**
 * The post-processing panel: three percentage sliders whose change handler
 * passes on the settings record with one field replaced, and the word shown
 * beside each slider, chosen by the same two thresholds.
 */
module PostProcessControls {

  /** What a range input with `min="0"` and `max="100"` can hand to `parseInt`. */
  type Percent = v: int | 0 <= v <= 100

  datatype Settings = Settings(contrast: int, shadingIntensity: int, screentoneDensity: int)

  /** The `keyof PostProcessSettings` a slider names. */
  datatype Property = Contrast | ShadingIntensity | ScreentoneDensity

  function Get(s: Settings, p: Property): int {
    match p
    case Contrast => s.contrast
    case ShadingIntensity => s.shadingIntensity
    case ScreentoneDensity => s.screentoneDensity
  }

  /** `handleChange`: the record passed to `onChange`, with only `property` replaced. */
  function Changed(s: Settings, property: Property, value: int): (r: Settings)
    ensures Get(r, property) == value
    ensures forall q :: q != property ==> Get(r, q) == Get(s, q)
  {
    match property
    case Contrast => s.(contrast := value)
    case ShadingIntensity => s.(shadingIntensity := value)
    case ScreentoneDensity => s.(screentoneDensity := value)
  }

  predicate InRange(s: Settings) {
    forall q :: 0 <= Get(s, q) <= 100
  }

  /** Settings in range stay in range whatever the sliders pass on. */
  lemma ChangedStaysInRange(s: Settings, property: Property, value: Percent)
    requires InRange(s)
    ensures InRange(Changed(s, property, value))
  {
  }

  /** Setting a field to what it holds changes nothing; the later of two changes to one field wins. */
  lemma ChangedLaws(s: Settings, property: Property, v: int, w: int)
    ensures Changed(s, property, Get(s, property)) == s
    ensures Changed(Changed(s, property, v), property, w) == Changed(s, property, w)
  {
  }

  /** Changes to two different fields commute. */
  lemma ChangesCommute(s: Settings, p: Property, q: Property, v: int, w: int)
    requires p != q
    ensures Changed(Changed(s, p, v), q, w) == Changed(Changed(s, q, w), p, v)
  {
  }

  /** The band of a value: 0 below 30, 1 from 30 to below 70, 2 from 70. */
  function Band(v: int): (b: nat)
    ensures b <= 2
    ensures b == 0 <==> v < 30
    ensures b == 2 <==> v >= 70
  {
    if v < 30 then 0 else if v < 70 then 1 else 2
  }

  /** A higher value never falls in a lower band. */
  lemma BandMonotone(v: int, w: int)
    requires v <= w
    ensures Band(v) <= Band(w)
  {
  }

  const ContrastLabels: seq<string> := ["Low", "Medium", "High"]
  const ShadingLabels: seq<string> := ["Subtle", "Balanced", "Dramatic"]
  const ScreentoneLabels: seq<string> := ["Minimal", "Moderate", "Dense"]

  /** The word beside the slider for `property`. */
  function Label(property: Property, v: int): (r: string)
    ensures property == Contrast ==>
      (r == "Low" <==> v < 30) && (r == "Medium" <==> 30 <= v < 70) && (r == "High" <==> v >= 70)
    ensures property == ShadingIntensity ==>
      (r == "Subtle" <==> v < 30) && (r == "Balanced" <==> 30 <= v < 70) && (r == "Dramatic" <==> v >= 70)
    ensures property == ScreentoneDensity ==>
      (r == "Minimal" <==> v < 30) && (r == "Moderate" <==> 30 <= v < 70) && (r == "Dense" <==> v >= 70)
  {
    var labels := match property
      case Contrast => ContrastLabels
      case ShadingIntensity => ShadingLabels
      case ScreentoneDensity => ScreentoneLabels;
    labels[Band(v)]
  }

  /** Two values get the same word on one slider exactly when they are in the same band. */
  lemma LabelDeterminesBand(property: Property, v: int, w: int)
    ensures Label(property, v) == Label(property, w) <==> Band(v) == Band(w)
  {
  }
}
