/** The two array sizes the readers take from the package's const module,
    which is not part of this model.  The values are the Source engine's.
    The record sizes in Vtx and Vvd are written for these values, and
    Vtx.FormatSizes, Vvd.FormatSizes and Vvd.BoneWeightFormatSize tie them to
    the formats built from these constants. */
module Consts {
  const MaxNumBonesPerVert: nat := 3
  const MaxNumLods: nat := 8
}
