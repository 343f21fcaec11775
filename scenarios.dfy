/** Concrete hosts and what one detect_host pass on a fresh object reports for them. */
module Scenarios {
  import opened CpuId
  import opened Vendor
  import opened FeatureTable
  import opened OsFeatures
  import opened Hardware
  import opened Detection
  import opened FeatureDetector

  /** Leaf 0 of an Intel processor whose highest standard leaf is 0x0D. */
  const INTEL_LEAF0: Regs := Regs(0x0000_000D, 0x756e_6547, 0x6c65_746e, 0x4965_6e69)
  /** Leaf 1 reporting SSE2 (EDX bit 26), OSXSAVE (ECX bit 27) and AVX (ECX bit 28). */
  const AVX_LEAF1: Regs := Regs(0, 0, 0x1800_0000, 0x0400_0000)
  /** Leaf 7 reporting AVX512-F (EBX bit 16) and AVX512-VL (EBX bit 31). */
  const AVX512_LEAF7: Regs := Regs(0, 0x8001_0000, 0, 0)
  /** Leaf 0x80000000 reporting 0x80000001 as the highest extended leaf. */
  const EXTENDED_MAX: Regs := Regs(0x8000_0001, 0, 0, 0)
  /** Leaf 0x80000001 reporting long mode (EDX bit 29). */
  const LONG_MODE: Regs := Regs(0, 0, 0, 0x2000_0000)
  const NO_BITS: Regs := Regs(0, 0, 0, 0)
  /** Leaf 0 of an AMD processor: EBX = "Auth", EDX = "enti", ECX = "cAMD". */
  const AMD_LEAF0: Regs := Regs(0x0000_0010, 0x6874_7541, 0x444d_4163, 0x6974_6e65)

  function IntelHost(xcr0: bv64): Host
  {
    Host(Leaves(INTEL_LEAF0, AVX_LEAF1, AVX512_LEAF7, EXTENDED_MAX, LONG_MODE), xcr0, true)
  }

  /** With XCR0 = 0x7 (x87, SSE, AVX state) AVX is safe and AVX-512 is not, although leaf 7
      reports AVX512-F. */
  lemma IntelAvxOnly()
    ensures var s := Detect(Fresh(), IntelHost(0x7));
      s.intel && !s.amd && s.osX64 && s.osAvx && !s.osAvx512 &&
      s.hw.leaf1.sse2 && !s.hw.leaf1.sse && s.hw.leaf7.avx512vl && s.hw.extended.x64 &&
      SafeToUseAvx(s) && !SafeToUseAvx512(s)
  {
    var h := IntelHost(0x7);
    IntelSpelling(INTEL_LEAF0);
    assert GENUINE_INTEL != AUTHENTIC_AMD;
    IntelOsChecks(h);
    IntelDecoding(h);
  }

  /** The OS checks on the Intel host: OSXSAVE and AVX are reported, so XCR0 decides. */
  lemma IntelOsChecks(h: Host)
    requires h.leaves.featureInfo == AVX_LEAF1 && h.xcr0 == 0x7
    ensures OsAvx(h).value && !OsAvx512(h).value
  {
    assert XgetbvGuard(h);
    assert Xcr0(h) == 0x7;
  }

  /** The decoding blocks on the Intel host: all three guards hold. */
  lemma IntelDecoding(h: Host)
    requires h.leaves == IntelHost(0).leaves
    ensures var hw := DecodeHardware(NO_FLAGS, LeavesOf(h));
      hw.leaf1.sse2 && !hw.leaf1.sse && hw.leaf1.avx && hw.leaf7.avx512f && hw.leaf7.avx512vl && hw.extended.x64
  {
    assert Reaches(LeavesOf(h), Standard1) && Reaches(LeavesOf(h), Standard7) && Reaches(LeavesOf(h), Extended1);
  }

  /** With XCR0 = 0xE7 the AVX-512 state is enabled as well, and both verdicts are Yes. */
  lemma IntelAvx512()
    ensures var s := Detect(Fresh(), IntelHost(0xE7));
      s.osAvx && s.osAvx512 && SafeToUseAvx(s) && SafeToUseAvx512(s)
  {
    var h := IntelHost(0xE7);
    assert XgetbvGuard(h);
    assert Xcr0(h) == 0xE7;
    IntelDecoding(h);
  }

  /** With XCR0 = 0x2 (SSE state only) the OS does not support AVX although the processor does. */
  lemma IntelNoAvxState()
    ensures var s := Detect(Fresh(), IntelHost(0x2));
      !s.osAvx && !s.osAvx512 && s.hw.leaf1.avx && !SafeToUseAvx(s)
  {
  }

  /** A leaf-0 EAX of 0x80000007 is negative as nIds, so neither leaf 1 nor leaf 7 is decoded
      and detect_host itself queries neither; leaf 1 is still queried by the OS checks. Leaf
      0x80000000 answers EAX = 0 here, so leaf 0x80000001 is not queried either. */
  lemma NegativeMaximum()
    ensures var h := Host(Leaves(Regs(0x8000_0007, 0, 0, 0), AVX_LEAF1, AVX512_LEAF7, NO_BITS, NO_BITS), 0x7, false);
      var s := Detect(Fresh(), h);
      !s.hw.leaf1.sse2 && !s.hw.leaf1.avx && !s.hw.leaf7.avx512f && s.osAvx && !SafeToUseAvx(s) &&
      Cpuid(LEAF_FEATURE_INFO) !in HostQueries(LeavesOf(h)) &&
      Cpuid(LEAF_FEATURE_INFO) in DetectQueries(h) &&
      Cpuid(LEAF_STRUCTURED_FEATURES) !in DetectQueries(h) &&
      Cpuid(LEAF_EXTENDED_INFO) !in DetectQueries(h)
  {
  }

  /** One object run first on an Intel host and then on an AMD host: the second pass sets
      Vendor_AMD and does not clear Vendor_Intel, so both vendor flags end up true. */
  method IntelThenAmd() returns (intel: bool, amd: bool)
    ensures intel && amd
  {
    var cpu := new CpuX86();
    var first := new Oracle(IntelHost(0x7));
    IntelSpelling(INTEL_LEAF0);
    cpu.DetectHost(first);
    var second := new Oracle(Host(Leaves(AMD_LEAF0, NO_BITS, NO_BITS, NO_BITS, NO_BITS), 0, false));
    AmdSpelling(AMD_LEAF0);
    assert GENUINE_INTEL != AUTHENTIC_AMD;
    cpu.DetectHost(second);
    intel, amd := cpu.vendorIntel, cpu.vendorAMD;
  }
}
