/**
 * Colours. The program converts a "#RRGGBB" string with `hex2rgb` (js/utils.js,
 * which is not part of this model); here the converted colour is an opaque value
 * that remembers the string it came from.
 */
module Utils {
  datatype Color = FromHex(hex: string)

  /** The colour uploaded for a hex string: equal strings give equal colours. */
  function Hex2Rgb(hex: string): Color
  {
    FromHex(hex)
  }
}
