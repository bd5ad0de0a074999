/**
 * JavaScript strings as the route sees them: sequences of UTF-16 code units.
 * `length`, `slice` and regular expressions all work on code units, so the
 * model counts and cuts in the same unit.
 */
module JsText {

  /** One UTF-16 code unit. */
  newtype CodeUnit = n: int | 0 <= n < 0x1_0000

  type JsString = seq<CodeUnit>

  /**
   * The code units matched by `\s` in a JavaScript regular expression: the
   * WhiteSpace and LineTerminator code points of ECMA-262 (TAB, LF, VT, FF,
   * CR, SPACE, NBSP, the Unicode space separators, LS, PS and ZWNBSP).
   */
  predicate IsSpace(u: CodeUnit) {
    (0x09 <= u <= 0x0D) || u == 0x20 || u == 0xA0 || u == 0x1680
    || (0x2000 <= u <= 0x200A) || u == 0x2028 || u == 0x2029
    || u == 0x202F || u == 0x205F || u == 0x3000 || u == 0xFEFF
  }
}
