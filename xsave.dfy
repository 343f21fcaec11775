/** The XSAVE state-component bitmap held in XCR0 (Intel 64 and IA-32 Architectures
    Software Developer's Manual, Volume 1, chapter 13): bit i set means the operating
    system saves and restores state component i across context switches. */
module Xsave {

  datatype StateComponent = X87 | SSE | AVX | BNDREGS | BNDCSR | Opmask | ZMM_Hi256 | Hi16_ZMM

  function Position(c: StateComponent): nat
  {
    match c
    case X87 => 0
    case SSE => 1
    case AVX => 2
    case BNDREGS => 3
    case BNDCSR => 4
    case Opmask => 5
    case ZMM_Hi256 => 6
    case Hi16_ZMM => 7
  }

  /** The operating system has opted state component c into its save area. */
  predicate Enabled(xcr0: bv64, c: StateComponent)
  {
    (xcr0 >> Position(c)) & 1 == 1
  }

  /** The mask detect_OS_AVX applies to XCR0. */
  const AVX_STATE_MASK: bv64 := 0x6
  /** The mask detect_OS_AVX512 applies to XCR0. */
  const AVX512_STATE_MASK: bv64 := 0xE6

  /** The test of detect_OS_AVX: exactly the SSE and AVX components are required. */
  predicate AvxStateEnabled(xcr0: bv64)
    ensures AvxStateEnabled(xcr0) <==> Enabled(xcr0, SSE) && Enabled(xcr0, AVX)
  {
    xcr0 & AVX_STATE_MASK == AVX_STATE_MASK
  }

  /** The test of detect_OS_AVX512: the AVX components plus the three AVX-512 ones
      (opmask registers, upper halves of ZMM0-15, ZMM16-31); x87 and MPX state are not required. */
  predicate Avx512StateEnabled(xcr0: bv64)
    ensures Avx512StateEnabled(xcr0) <==>
      Enabled(xcr0, SSE) && Enabled(xcr0, AVX) &&
      Enabled(xcr0, Opmask) && Enabled(xcr0, ZMM_Hi256) && Enabled(xcr0, Hi16_ZMM)
    ensures Avx512StateEnabled(xcr0) ==> AvxStateEnabled(xcr0)
  {
    xcr0 & AVX512_STATE_MASK == AVX512_STATE_MASK
  }
}
