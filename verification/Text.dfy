/** Text as the runtime treats it when it trims. */
module Text {

  /** The UTF-16 code units that trimming takes for white space or line ends. */
  predicate IsSpace(u: int) {
    9 <= u <= 13 || u == 32 || u == 160 || u == 0x1680 || 0x2000 <= u <= 0x200A
    || u == 0x2028 || u == 0x2029 || u == 0x202F || u == 0x205F || u == 0x3000 || u == 0xFEFF
  }
}
