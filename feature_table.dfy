/** The hardware flags as a declarative table: for each flag, the CPUID leaf, register and
    bit it is decoded from (Intel SDM Volume 2A, CPUID: Feature Information for leaf 01H,
    Structured Extended Feature Flags for leaf 07H, extended function 80000001H; the last
    also in Appendix E of the AMD64 Architecture Programmer's Manual, Volume 3). */
module FeatureTable {
  import opened CpuId

  /** The HW_ flags decoded from leaf 1, in the order detect_host decodes them. */
  datatype Leaf1Feature = MMX | SSE | SSE2 | SSE3 | SSSE3 | SSE41 | SSE42 | AES | AVX | FMA3 | RDRAND

  /** The HW_ flags decoded from leaf 7. */
  datatype Leaf7Feature =
    | AVX2 | BMI1 | BMI2 | ADX | MPX | SHA | PREFETCHWT1
    | AVX512_F | AVX512_CD | AVX512_PF | AVX512_ER | AVX512_VL | AVX512_BW | AVX512_DQ
    | AVX512_IFMA | AVX512_VBMI

  /** The HW_ flags decoded from leaf 0x80000001. */
  datatype ExtendedFeature = X64 | ABM | SSE4a | FMA4 | XOP

  /** One value per HW_ flag of cpu_x86, grouped by the leaf it is decoded from. */
  datatype Feature =
    | Standard1Flag(leaf1: Leaf1Feature)
    | Standard7Flag(leaf7: Leaf7Feature)
    | Extended1Flag(extended: ExtendedFeature)

  /** The three guarded decoding blocks of detect_host, one per leaf. */
  datatype Group = Standard1 | Standard7 | Extended1

  function GroupOf(f: Feature): Group
  {
    match f
    case Standard1Flag(_) => Standard1
    case Standard7Flag(_) => Standard7
    case Extended1Flag(_) => Extended1
  }

  /** The answer to the leaf of group g among the leaves detect_host reads. */
  function LeafOf(l: Leaves, g: Group): Regs
  {
    match g
    case Standard1 => l.featureInfo
    case Standard7 => l.structured
    case Extended1 => l.extendedInfo
  }

  /** A register and a bit within it. */
  datatype Location = Location(reg: Register, bit: BitIndex)

  function Leaf1Location(f: Leaf1Feature): Location
  {
    match f
    case MMX => Location(EDX, 23)
    case SSE => Location(EDX, 25)
    case SSE2 => Location(EDX, 26)
    case SSE3 => Location(ECX, 0)
    case SSSE3 => Location(ECX, 9)
    case SSE41 => Location(ECX, 19)
    case SSE42 => Location(ECX, 20)
    case AES => Location(ECX, 25)
    case AVX => Location(ECX, 28)
    case FMA3 => Location(ECX, 12)
    case RDRAND => Location(ECX, 30)
  }

  function Leaf7Location(f: Leaf7Feature): Location
  {
    match f
    case AVX2 => Location(EBX, 5)
    case BMI1 => Location(EBX, 3)
    case BMI2 => Location(EBX, 8)
    case ADX => Location(EBX, 19)
    case MPX => Location(EBX, 14)
    case SHA => Location(EBX, 29)
    case PREFETCHWT1 => Location(ECX, 0)
    case AVX512_F => Location(EBX, 16)
    case AVX512_CD => Location(EBX, 28)
    case AVX512_PF => Location(EBX, 26)
    case AVX512_ER => Location(EBX, 27)
    case AVX512_VL => Location(EBX, 31)
    case AVX512_BW => Location(EBX, 30)
    case AVX512_DQ => Location(EBX, 17)
    case AVX512_IFMA => Location(EBX, 21)
    case AVX512_VBMI => Location(ECX, 1)
  }

  function ExtendedLocation(f: ExtendedFeature): Location
  {
    match f
    case X64 => Location(EDX, 29)
    case ABM => Location(ECX, 5)
    case SSE4a => Location(ECX, 6)
    case FMA4 => Location(ECX, 16)
    case XOP => Location(ECX, 11)
  }

  /** Where flag f is read within the answer to its group's leaf. */
  function LocationOf(f: Feature): Location
  {
    match f
    case Standard1Flag(g) => Leaf1Location(g)
    case Standard7Flag(g) => Leaf7Location(g)
    case Extended1Flag(g) => ExtendedLocation(g)
  }

  /** No two flags of one leaf are read from the same bit of the same register (flags of
      different leaves are told apart by their leaf). */
  lemma Leaf1LocationsDistinct(f: Leaf1Feature, g: Leaf1Feature)
    requires f != g
    ensures Leaf1Location(f) != Leaf1Location(g)
  {
  }

  lemma Leaf7LocationsDistinct(f: Leaf7Feature, g: Leaf7Feature)
    requires f != g
    ensures Leaf7Location(f) != Leaf7Location(g)
  {
  }

  lemma ExtendedLocationsDistinct(f: ExtendedFeature, g: ExtendedFeature)
    requires f != g
    ensures ExtendedLocation(f) != ExtendedLocation(g)
  {
  }

  /** Two distinct flags differ in their leaf or in their register and bit. */
  lemma LocationsDistinct(f: Feature, g: Feature)
    requires f != g
    ensures GroupOf(f) != GroupOf(g) || LocationOf(f) != LocationOf(g)
  {
    match f
    case Standard1Flag(a) =>
      if g.Standard1Flag? { Leaf1LocationsDistinct(a, g.leaf1); }
    case Standard7Flag(a) =>
      if g.Standard7Flag? { Leaf7LocationsDistinct(a, g.leaf7); }
    case Extended1Flag(a) =>
      if g.Extended1Flag? { ExtendedLocationsDistinct(a, g.extended); }
  }

  /** Whether detect_host runs the decoding block of group g: leaf 0 EAX read as a signed
      int (nIds) must reach 1 or 7, leaf 0x80000000 EAX read unsigned (nExIds) must reach
      0x80000001. */
  predicate Reaches(l: Leaves, g: Group)
  {
    match g
    case Standard1 => SignedAtLeast(l.vendor.eax, 1)
    case Standard7 => SignedAtLeast(l.vendor.eax, 7)
    case Extended1 => l.extendedMax.eax >= LEAF_EXTENDED_INFO
  }

  /** The value the table gives flag f. */
  predicate TableBit(l: Leaves, f: Feature)
  {
    Bit(Get(LeafOf(l, GroupOf(f)), LocationOf(f).reg), LocationOf(f).bit)
  }

  /** Entries of the table as the SDM states them: SSE2 is leaf 1 EDX bit 26 and AVX is
      leaf 1 ECX bit 28. */
  lemma TableSamplesLeaf1(l: Leaves)
    ensures TableBit(l, Standard1Flag(SSE2)) == Bit(l.featureInfo.edx, 26)
    ensures TableBit(l, Standard1Flag(AVX)) == Bit(l.featureInfo.ecx, 28)
  {
  }

  /** AVX512-F is leaf 7 EBX bit 16 and AVX512-VL is leaf 7 EBX bit 31. */
  lemma TableSamplesLeaf7(l: Leaves)
    ensures TableBit(l, Standard7Flag(AVX512_F)) == Bit(l.structured.ebx, 16)
    ensures TableBit(l, Standard7Flag(AVX512_VL)) == Bit(l.structured.ebx, 31)
  {
  }

  /** Long mode (x64) is leaf 0x80000001 EDX bit 29. */
  lemma TableSamplesExtended(l: Leaves)
    ensures TableBit(l, Extended1Flag(X64)) == Bit(l.extendedInfo.edx, 29)
  {
  }

  /** The guards of the two standard leaves are the source's signed comparisons nIds >= 1
      and nIds >= 7. */
  lemma ReachesStandard(l: Leaves)
    ensures Reaches(l, Standard1) <==> ToSigned(l.vendor.eax) >= 1
    ensures Reaches(l, Standard7) <==> ToSigned(l.vendor.eax) >= 7
  {
    SignedAtLeastMeansToSigned(l.vendor.eax);
  }

  /** A leaf-0 EAX with bit 31 set reaches neither leaf 1 nor leaf 7, although as an
      unsigned number it exceeds both; and leaf 7 is only reached when leaf 1 is. */
  lemma SignedStandardMaximum(l: Leaves)
    ensures Bit(l.vendor.eax, 31) ==> !Reaches(l, Standard1) && !Reaches(l, Standard7)
    ensures Reaches(l, Standard7) ==> Reaches(l, Standard1)
  {
  }
}
