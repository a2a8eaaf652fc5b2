/** What one destination particle sees of one neighbour in an equation's
    `loop`: the neighbour's own properties (`s_m[s_idx]`, `s_rho[s_idx]`, ...)
    and the pair quantities that the neighbour search and the smoothing
    kernel supply (`WIJ`, `DWIJ`, `XIJ`, `VIJ`, `R2IJ`). The kernel and the
    neighbour search are not part of this model: their results are inputs.

    The neighbour's properties are passed by value, as they stand when the
    group starts. This is exact for a group with one destination array
    (see README, "## Left out"). */
module Neighbours {
  import opened Vectors

  type Positive = r: real | r > 0.0 witness 1.0
  type NonZero = r: real | r != 0.0 witness 1.0
  type NonNegative = r: real | r >= 0.0 witness 0.0

  datatype Neighbour = Neighbour(
    m: real,           // s_m: mass
    rho: Positive,     // s_rho: density
    p: real,           // s_p: pressure
    pk: real,          // s_pk: previous pressure iterate
    wallVel: Vec3,     // s_ug, s_vg, s_wg: prescribed wall velocity
    w: real,           // WIJ: kernel value
    dw: Vec3,          // DWIJ: kernel gradient
    dwHat: Vec3,       // kernel gradient with smoothing length hij_fac*HIJ
    xij: Vec3,         // XIJ: destination position minus neighbour position
    vij: Vec3,         // VIJ: destination velocity minus neighbour velocity
    r2: NonNegative)   // R2IJ: squared distance
}
