/** Gains in hundredths of a dB (fixed point: -600 is -6 dB) and the
    range [-60, 12] dB that both the mixer and the overlay use. */
module Gain {

  const MIN_GAIN := -6000
  const MAX_GAIN := 1200

  function Clamp(v: int, lo: int, hi: int): (r: int)
    requires lo <= hi
    ensures lo <= r <= hi
    ensures lo <= v <= hi ==> r == v
    ensures v < lo ==> r == lo
    ensures v > hi ==> r == hi
  {
    if v < lo then lo else if v > hi then hi else v
  }
}
