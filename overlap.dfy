/** The overlap sampler: decides whether a clip starts before the previous one ends,
    and by how much. The sampler's two random draws are explicit inputs. */
module Overlap {

  /** The draws of one call of the sampler: `u` is the uniform draw that decides
      whether the call triggers, `g` the Gaussian draw used only when it does. */
  datatype Draw = Draw(u: real, g: real)

  function Min(a: real, b: real): (m: real)
    ensures m <= a && m <= b && (m == a || m == b)
  {
    if a <= b then a else b
  }

  function Max(a: real, b: real): (m: real)
    ensures m >= a && m >= b && (m == a || m == b)
  {
    if a >= b then a else b
  }

  /** The largest overlap a clip of the given duration may have: two seconds, or half
      the clip when it is shorter than four seconds. */
  function MaxOverlap(duration: real): (m: real)
    ensures m <= 2.0 && m <= duration / 2.0
    ensures m == 2.0 || m == duration / 2.0
    ensures duration >= 0.0 ==> m >= 0.0
  {
    Min(2.0, duration / 2.0)
  }

  /** One call of the sampler. A call that triggers first lifts the Gaussian draw to at
      least the maximum overlap and then caps it at the maximum overlap, so whatever the
      Gaussian draw, a triggered call yields exactly the maximum overlap. */
  function SetOverlap(duration: real, threshold: real, draw: Draw): (r: real)
    ensures draw.u > threshold ==> r == 0.0
    ensures draw.u <= threshold ==> r == MaxOverlap(duration)
    ensures duration >= 0.0 ==> 0.0 <= r <= MaxOverlap(duration) <= 2.0
    ensures duration < 0.0 && draw.u <= threshold ==> r == duration / 2.0 < 0.0
  {
    var maxOverlap := MaxOverlap(duration);
    if draw.u <= threshold then
      var lifted := Max(Min(draw.g, duration), maxOverlap);
      Min(Max(lifted, 0.0), maxOverlap)
    else
      0.0
  }

  /** The Gaussian draw plays no part in the result. */
  lemma GaussianIgnored(duration: real, threshold: real, u: real, g1: real, g2: real)
    ensures SetOverlap(duration, threshold, Draw(u, g1)) == SetOverlap(duration, threshold, Draw(u, g2))
  {
  }
}
