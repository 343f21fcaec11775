/** The HW_ flags of cpu_x86 and the three decoding blocks of detect_host that write them,
    each proved to agree with the declarative table of FeatureTable. */
module Hardware {
  import opened CpuId
  import opened FeatureTable

  /** The HW_ flags the leaf-1 block writes, in the order it writes them. */
  datatype Leaf1Flags = Leaf1Flags(
    mmx: bool, sse: bool, sse2: bool, sse3: bool, ssse3: bool, sse41: bool, sse42: bool,
    aes: bool, avx: bool, fma3: bool, rdrand: bool)

  /** The HW_ flags the leaf-7 block writes, in the order it writes them. */
  datatype Leaf7Flags = Leaf7Flags(
    avx2: bool, bmi1: bool, bmi2: bool, adx: bool, mpx: bool, sha: bool, prefetchwt1: bool,
    avx512f: bool, avx512cd: bool, avx512pf: bool, avx512er: bool, avx512vl: bool,
    avx512bw: bool, avx512dq: bool, avx512ifma: bool, avx512vbmi: bool)

  /** The HW_ flags the block of leaf 0x80000001 writes, in the order it writes them. */
  datatype ExtendedFlags = ExtendedFlags(x64: bool, abm: bool, sse4a: bool, fma4: bool, xop: bool)

  /** The thirty-two HW_ fields of cpu_x86, grouped by the block that writes them. */
  datatype HwFlags = HwFlags(leaf1: Leaf1Flags, leaf7: Leaf7Flags, extended: ExtendedFlags)

  function Leaf1Flag(x: Leaf1Flags, f: Leaf1Feature): bool
  {
    match f
    case MMX => x.mmx
    case SSE => x.sse
    case SSE2 => x.sse2
    case SSE3 => x.sse3
    case SSSE3 => x.ssse3
    case SSE41 => x.sse41
    case SSE42 => x.sse42
    case AES => x.aes
    case AVX => x.avx
    case FMA3 => x.fma3
    case RDRAND => x.rdrand
  }

  function Leaf7Flag(x: Leaf7Flags, f: Leaf7Feature): bool
  {
    match f
    case AVX2 => x.avx2
    case BMI1 => x.bmi1
    case BMI2 => x.bmi2
    case ADX => x.adx
    case MPX => x.mpx
    case SHA => x.sha
    case PREFETCHWT1 => x.prefetchwt1
    case AVX512_F => x.avx512f
    case AVX512_CD => x.avx512cd
    case AVX512_PF => x.avx512pf
    case AVX512_ER => x.avx512er
    case AVX512_VL => x.avx512vl
    case AVX512_BW => x.avx512bw
    case AVX512_DQ => x.avx512dq
    case AVX512_IFMA => x.avx512ifma
    case AVX512_VBMI => x.avx512vbmi
  }

  function ExtendedFlag(x: ExtendedFlags, f: ExtendedFeature): bool
  {
    match f
    case X64 => x.x64
    case ABM => x.abm
    case SSE4a => x.sse4a
    case FMA4 => x.fma4
    case XOP => x.xop
  }

  /** The field of flag f. */
  function Flag(hw: HwFlags, f: Feature): bool
  {
    match f
    case Standard1Flag(g) => Leaf1Flag(hw.leaf1, g)
    case Standard7Flag(g) => Leaf7Flag(hw.leaf7, g)
    case Extended1Flag(g) => ExtendedFlag(hw.extended, g)
  }

  /** Every HW_ flag false. */
  const NO_FLAGS: HwFlags :=
    HwFlags(
      Leaf1Flags(false, false, false, false, false, false, false, false, false, false, false),
      Leaf7Flags(false, false, false, false, false, false, false, false,
                 false, false, false, false, false, false, false, false),
      ExtendedFlags(false, false, false, false, false))

  lemma NoFlagsClear(f: Feature)
    ensures !Flag(NO_FLAGS, f)
  {
  }

  /** The block `if (nIds >= 0x00000001)` on the registers r of leaf 1. */
  function DecodeLeaf1(r: Regs): Leaf1Flags
  {
    Leaf1Flags(
      Bit(r.edx, 23), Bit(r.edx, 25), Bit(r.edx, 26), Bit(r.ecx, 0),
      Bit(r.ecx, 9), Bit(r.ecx, 19), Bit(r.ecx, 20), Bit(r.ecx, 25),
      Bit(r.ecx, 28), Bit(r.ecx, 12),
      Bit(r.ecx, 30))
  }

  /** The block `if (nIds >= 0x00000007)` on the registers r of leaf 7. */
  function DecodeLeaf7(r: Regs): Leaf7Flags
  {
    Leaf7Flags(
      Bit(r.ebx, 5),
      Bit(r.ebx, 3), Bit(r.ebx, 8), Bit(r.ebx, 19), Bit(r.ebx, 14), Bit(r.ebx, 29), Bit(r.ecx, 0),
      Bit(r.ebx, 16), Bit(r.ebx, 28), Bit(r.ebx, 26), Bit(r.ebx, 27), Bit(r.ebx, 31),
      Bit(r.ebx, 30), Bit(r.ebx, 17), Bit(r.ebx, 21), Bit(r.ecx, 1))
  }

  /** The block `if (nExIds >= 0x80000001)` on the registers r of leaf 0x80000001. */
  function DecodeExtendedLeaf1(r: Regs): ExtendedFlags
  {
    ExtendedFlags(Bit(r.edx, 29), Bit(r.ecx, 5), Bit(r.ecx, 6), Bit(r.ecx, 16), Bit(r.ecx, 11))
  }

  /** The three decoding blocks of detect_host. Each is run only when its guard holds, and a
      block that does not run leaves its flags as they were. The blocks write disjoint groups
      of flags, so running them in the source's order is running each on its own group. */
  function DecodeHardware(prior: HwFlags, l: Leaves): HwFlags
  {
    HwFlags(Leaf1Block(prior.leaf1, l), Leaf7Block(prior.leaf7, l), ExtendedBlock(prior.extended, l))
  }

  /** `if (nIds >= 0x00000001)` and its block. */
  function Leaf1Block(prior: Leaf1Flags, l: Leaves): Leaf1Flags
  {
    if Reaches(l, Standard1) then DecodeLeaf1(l.featureInfo) else prior
  }

  /** `if (nIds >= 0x00000007)` and its block. */
  function Leaf7Block(prior: Leaf7Flags, l: Leaves): Leaf7Flags
  {
    if Reaches(l, Standard7) then DecodeLeaf7(l.structured) else prior
  }

  /** `if (nExIds >= 0x80000001)` and its block. */
  function ExtendedBlock(prior: ExtendedFlags, l: Leaves): ExtendedFlags
  {
    if Reaches(l, Extended1) then DecodeExtendedLeaf1(l.extendedInfo) else prior
  }

  /** The value the table gives a flag whose location is loc, when its leaf answered r. */
  predicate BitAt(r: Regs, loc: Location)
  {
    Bit(Get(r, loc.reg), loc.bit)
  }

  /** The leaf-1 block writes each leaf-1 flag from its table bit. */
  lemma DecodeLeaf1Table(r: Regs, f: Leaf1Feature)
    ensures Leaf1Flag(DecodeLeaf1(r), f) == BitAt(r, Leaf1Location(f))
  {
  }

  /** The leaf-7 block writes each leaf-7 flag from its table bit. */
  lemma DecodeLeaf7Table(r: Regs, f: Leaf7Feature)
    ensures Leaf7Flag(DecodeLeaf7(r), f) == BitAt(r, Leaf7Location(f))
  {
  }

  /** The extended block writes each extended flag from its table bit. */
  lemma DecodeExtendedLeaf1Table(r: Regs, f: ExtendedFeature)
    ensures ExtendedFlag(DecodeExtendedLeaf1(r), f) == BitAt(r, ExtendedLocation(f))
  {
  }

  /** After the three blocks, a flag is its table bit when its leaf's guard holds and keeps
      its prior value when it does not. */
  lemma DecodeHardwareTable(prior: HwFlags, l: Leaves, f: Feature)
    ensures Flag(DecodeHardware(prior, l), f) ==
      if Reaches(l, GroupOf(f)) then TableBit(l, f) else Flag(prior, f)
  {
    match f
    case Standard1Flag(g) => DecodeLeaf1Table(l.featureInfo, g);
    case Standard7Flag(g) => DecodeLeaf7Table(l.structured, g);
    case Extended1Flag(g) => DecodeExtendedLeaf1Table(l.extendedInfo, g);
  }

  /** Decoding twice against the same leaves gives what decoding once gives. */
  lemma DecodeHardwareIdempotent(prior: HwFlags, l: Leaves)
    ensures DecodeHardware(DecodeHardware(prior, l), l) == DecodeHardware(prior, l)
  {
  }
}
