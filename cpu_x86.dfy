/** The cpu_x86 object: one boolean per flag, all cleared by the constructor and filled in by
    detect_host from the answers of the host. */
module FeatureDetector {
  import opened CpuId
  import opened Vendor
  import opened FeatureTable
  import opened OsFeatures
  import opened Hardware
  import opened Detection

  class CpuX86 {
    // Vendor
    var vendorAMD: bool
    var vendorIntel: bool

    // OS features
    var osX64: bool
    var osAVX: bool
    var osAVX512: bool

    // The thirty-two HW_ flags, held as one record per decoding block of detect_host.
    var hwLeaf1: Leaf1Flags
    var hwLeaf7: Leaf7Flags
    var hwExtended: ExtendedFlags

    /** The HW_ fields, grouped by the block of detect_host that writes them. */
    function HwState(): HwFlags
      reads this`hwLeaf1, this`hwLeaf7, this`hwExtended
    {
      HwFlags(hwLeaf1, hwLeaf7, hwExtended)
    }

    /** All flags of the object. */
    function State(): FlagState
      reads this
    {
      FlagState(osX64, osAVX, osAVX512, vendorIntel, vendorAMD, HwState())
    }

    /** "Safe to use AVX" of the printed summary: HW_AVX && OS_AVX. */
    predicate SafeToUseAvx()
      reads this
      ensures SafeToUseAvx() <==> Detection.SafeToUseAvx(State())
    {
      hwLeaf1.avx && osAVX
    }

    /** "Safe to use AVX512" of the printed summary: HW_AVX512_F && OS_AVX512. */
    predicate SafeToUseAvx512()
      reads this
      ensures SafeToUseAvx512() <==> Detection.SafeToUseAvx512(State())
    {
      hwLeaf7.avx512f && osAVX512
    }

    /** memset(this, 0, sizeof(*this)): every flag false. */
    constructor ()
      ensures State() == Fresh()
    {
      vendorAMD, vendorIntel := false, false;
      osX64, osAVX, osAVX512 := false, false, false;
      hwLeaf1, hwLeaf7, hwExtended := NO_FLAGS.leaf1, NO_FLAGS.leaf7, NO_FLAGS.extended;
    }

    /** The block `if (nIds >= 0x00000001)`, on the registers of leaf 1. */
    method DecodeStandard1(info: Regs)
      modifies this`hwLeaf1
      ensures hwLeaf1 == DecodeLeaf1(info)
    {
      hwLeaf1 := hwLeaf1.(mmx := Bit(info.edx, 23), sse := Bit(info.edx, 25), sse2 := Bit(info.edx, 26),
        sse3 := Bit(info.ecx, 0),
        ssse3 := Bit(info.ecx, 9), sse41 := Bit(info.ecx, 19), sse42 := Bit(info.ecx, 20),
        aes := Bit(info.ecx, 25),
        avx := Bit(info.ecx, 28), fma3 := Bit(info.ecx, 12),
        rdrand := Bit(info.ecx, 30));
    }

    /** The block `if (nIds >= 0x00000007)`, on the registers of leaf 7. */
    method DecodeStandard7(info: Regs)
      modifies this`hwLeaf7
      ensures hwLeaf7 == DecodeLeaf7(info)
    {
      hwLeaf7 := hwLeaf7.(avx2 := Bit(info.ebx, 5),
        bmi1 := Bit(info.ebx, 3), bmi2 := Bit(info.ebx, 8), adx := Bit(info.ebx, 19),
        mpx := Bit(info.ebx, 14), sha := Bit(info.ebx, 29), prefetchwt1 := Bit(info.ecx, 0),
        avx512f := Bit(info.ebx, 16), avx512cd := Bit(info.ebx, 28), avx512pf := Bit(info.ebx, 26),
        avx512er := Bit(info.ebx, 27), avx512vl := Bit(info.ebx, 31), avx512bw := Bit(info.ebx, 30),
        avx512dq := Bit(info.ebx, 17), avx512ifma := Bit(info.ebx, 21), avx512vbmi := Bit(info.ecx, 1));
    }

    /** The block `if (nExIds >= 0x80000001)`, on the registers of leaf 0x80000001. */
    method DecodeExtended1(info: Regs)
      modifies this`hwExtended
      ensures hwExtended == DecodeExtendedLeaf1(info)
    {
      hwExtended := hwExtended.(x64 := Bit(info.edx, 29), abm := Bit(info.ecx, 5),
        sse4a := Bit(info.ecx, 6), fma4 := Bit(info.ecx, 16), xop := Bit(info.ecx, 11));
    }

    /** The "OS Features" part of detect_host. */
    method DetectOs(o: Oracle)
      modifies this`osX64, this`osAVX, this`osAVX512, o
      ensures osX64 == o.host.osX64 && osAVX == OsAvx(o.host).value && osAVX512 == OsAvx512(o.host).value
      ensures o.log == old(o.log) + OsAvx(o.host).queries + OsAvx512(o.host).queries
    {
      osX64 := o.OsX64();
      osAVX := DetectOsAvx(o);
      osAVX512 := DetectOsAvx512(o);
    }

    /** The "Vendor" part of detect_host: a flag is only ever set, never cleared. */
    method DetectVendor(o: Oracle)
      modifies this`vendorIntel, this`vendorAMD, o
      ensures vendorIntel == IntelAfter(old(vendorIntel), VendorString(o.host.Cpuid(LEAF_VENDOR)))
      ensures vendorAMD == AmdAfter(old(vendorAMD), VendorString(o.host.Cpuid(LEAF_VENDOR)))
      ensures o.log == old(o.log) + [Cpuid(LEAF_VENDOR)]
    {
      var vendor := GetVendorString(o);
      if vendor == GENUINE_INTEL {
        vendorIntel := true;
      } else if vendor == AUTHENTIC_AMD {
        vendorAMD := true;
      }
    }

    /** `if (nIds >= 0x00000001)`: query leaf 1 and decode it. */
    method Standard1Block(o: Oracle, nIds: int)
      requires nIds == ToSigned(o.host.Cpuid(LEAF_VENDOR).eax)
      modifies this`hwLeaf1, o
      ensures hwLeaf1 == Leaf1Block(old(hwLeaf1), LeavesOf(o.host))
      ensures o.log == old(o.log) + BlockQueries(LeavesOf(o.host), Standard1)
    {
      ReachesStandard(LeavesOf(o.host));
      if nIds >= 0x0000_0001 {
        var info := o.Cpuid(LEAF_FEATURE_INFO);
        DecodeStandard1(info);
      }
    }

    /** `if (nIds >= 0x00000007)`: query leaf 7 and decode it. */
    method Standard7Block(o: Oracle, nIds: int)
      requires nIds == ToSigned(o.host.Cpuid(LEAF_VENDOR).eax)
      modifies this`hwLeaf7, o
      ensures hwLeaf7 == Leaf7Block(old(hwLeaf7), LeavesOf(o.host))
      ensures o.log == old(o.log) + BlockQueries(LeavesOf(o.host), Standard7)
    {
      ReachesStandard(LeavesOf(o.host));
      if nIds >= 0x0000_0007 {
        var info := o.Cpuid(LEAF_STRUCTURED_FEATURES);
        DecodeStandard7(info);
      }
    }

    /** `if (nExIds >= 0x80000001)`: query leaf 0x80000001 and decode it. */
    method Extended1Block(o: Oracle, nExIds: bv32)
      requires nExIds == o.host.Cpuid(LEAF_EXTENDED_MAX).eax
      modifies this`hwExtended, o
      ensures hwExtended == ExtendedBlock(old(hwExtended), LeavesOf(o.host))
      ensures o.log == old(o.log) + BlockQueries(LeavesOf(o.host), Extended1)
    {
      if nExIds >= LEAF_EXTENDED_INFO {
        var info := o.Cpuid(LEAF_EXTENDED_INFO);
        DecodeExtended1(info);
      }
    }

    /** The "Detect Features" part of detect_host: nIds from leaf 0 read as a signed int,
        nExIds from leaf 0x80000000 read unsigned, then the three guarded blocks. */
    method DetectFeatures(o: Oracle)
      modifies this`hwLeaf1, this`hwLeaf7, this`hwExtended, o
      ensures HwState() == DecodeHardware(old(HwState()), LeavesOf(o.host))
      ensures o.log == old(o.log) + FeatureQueries(LeavesOf(o.host))
    {
      var info := o.Cpuid(LEAF_VENDOR);
      var nIds := ToSigned(info.eax);
      info := o.Cpuid(LEAF_EXTENDED_MAX);
      var nExIds := info.eax;
      Standard1Block(o, nIds);
      Standard7Block(o, nIds);
      Extended1Block(o, nExIds);
      FeatureLog(old(o.log), LeavesOf(o.host));
    }

    /** detect_host: the OS checks, the vendor string, then the CPUID feature leaves. The
        oracle's log grows by the primitive calls of the pass, in order. */
    method DetectHost(o: Oracle)
      modifies this, o
      ensures State() == Detect(old(State()), o.host)
      ensures o.log == old(o.log) + DetectQueries(o.host)
    {
      ghost var h := o.host;
      ghost var vendorName := VendorString(h.Cpuid(LEAF_VENDOR));
      ghost var s0 := State();
      //  OS Features
      DetectOs(o);
      ghost var s1 := State();
      assert s1 == s0.(osX64 := h.osX64, osAvx := OsAvx(h).value, osAvx512 := OsAvx512(h).value);
      //  Vendor
      DetectVendor(o);
      ghost var s2 := State();
      assert s2 == s1.(intel := IntelAfter(s0.intel, vendorName), amd := AmdAfter(s0.amd, vendorName));
      //  Detect Features
      DetectFeatures(o);
      assert State() == s2.(hw := DecodeHardware(s0.hw, LeavesOf(h)));
      PassLog(old(o.log), h);
    }
  }
}
