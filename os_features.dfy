/** detect_OS_AVX and detect_OS_AVX512: whether the operating system has enabled the
    register state that AVX and AVX-512 instructions need. Each returns its verdict together
    with the CPUID and XGETBV calls it issued. */
module OsFeatures {
  import opened CpuId
  import opened Xsave

  /** Leaf 1 ECX bit 27: the OS has set CR4.OSXSAVE, so XGETBV may be executed. */
  const OSXSAVE_BIT: BitIndex := 27
  /** Leaf 1 ECX bit 28: the processor implements AVX. */
  const AVX_BIT: BitIndex := 28

  /** The precondition detect_OS_AVX checks before it executes XGETBV. */
  predicate XgetbvGuard(h: Host)
  {
    var ecx := h.Cpuid(LEAF_FEATURE_INFO).ecx;
    Bit(ecx, OSXSAVE_BIT) && Bit(ecx, AVX_BIT)
  }

  function Xcr0(h: Host): bv64
  {
    h.Xgetbv(XCR_XFEATURE_ENABLED_MASK)
  }

  function OsAvx(h: Host): (r: Probed<bool>)
    ensures r.value <==> XgetbvGuard(h) && Enabled(Xcr0(h), SSE) && Enabled(Xcr0(h), AVX)
    ensures |r.queries| >= 1 && r.queries[0] == Cpuid(LEAF_FEATURE_INFO)
    ensures Xgetbv(XCR_XFEATURE_ENABLED_MASK) in r.queries <==> XgetbvGuard(h)
    ensures forall q :: q in r.queries ==>
      q == Cpuid(LEAF_FEATURE_INFO) || (q == Xgetbv(XCR_XFEATURE_ENABLED_MASK) && XgetbvGuard(h))
  {
    var info := h.Cpuid(LEAF_FEATURE_INFO);
    var osUsesXsaveXrstore := Bit(info.ecx, OSXSAVE_BIT);
    var cpuAvxSupport := Bit(info.ecx, AVX_BIT);
    if osUsesXsaveXrstore && cpuAvxSupport then
      Probed(AvxStateEnabled(Xcr0(h)),
             [Cpuid(LEAF_FEATURE_INFO), Xgetbv(XCR_XFEATURE_ENABLED_MASK)])
    else
      Probed(false, [Cpuid(LEAF_FEATURE_INFO)])
  }

  function OsAvx512(h: Host): (r: Probed<bool>)
    ensures r.value <==>
      OsAvx(h).value &&
      Enabled(Xcr0(h), Opmask) && Enabled(Xcr0(h), ZMM_Hi256) && Enabled(Xcr0(h), Hi16_ZMM)
    ensures r.value ==> OsAvx(h).value
    ensures |r.queries| >= 1 && r.queries[0] == Cpuid(LEAF_FEATURE_INFO)
    ensures Xgetbv(XCR_XFEATURE_ENABLED_MASK) in r.queries <==> XgetbvGuard(h)
    ensures forall q :: q in r.queries ==>
      q == Cpuid(LEAF_FEATURE_INFO) || (q == Xgetbv(XCR_XFEATURE_ENABLED_MASK) && XgetbvGuard(h))
  {
    var avx := OsAvx(h);
    if !avx.value then
      Probed(false, avx.queries)
    else
      Probed(Avx512StateEnabled(Xcr0(h)), avx.queries + [Xgetbv(XCR_XFEATURE_ENABLED_MASK)])
  }

  /** detect_OS_AVX: leaf 1 first, then XGETBV only when OSXSAVE and AVX are both reported. */
  method DetectOsAvx(o: Oracle) returns (avxSupported: bool)
    modifies o
    ensures avxSupported == OsAvx(o.host).value
    ensures o.log == old(o.log) + OsAvx(o.host).queries
  {
    avxSupported := false;
    var cpuInfo := o.Cpuid(LEAF_FEATURE_INFO);
    var osUsesXsaveXrstore := Bit(cpuInfo.ecx, OSXSAVE_BIT);
    var cpuAvxSupport := Bit(cpuInfo.ecx, AVX_BIT);
    if osUsesXsaveXrstore && cpuAvxSupport {
      var xcrFeatureMask := o.Xgetbv(XCR_XFEATURE_ENABLED_MASK);
      avxSupported := xcrFeatureMask & AVX_STATE_MASK == AVX_STATE_MASK;
      assert o.log == old(o.log) + [Cpuid(LEAF_FEATURE_INFO), Xgetbv(XCR_XFEATURE_ENABLED_MASK)];
    }
  }

  /** detect_OS_AVX512: detect_OS_AVX again, then one more XGETBV when it succeeds. */
  method DetectOsAvx512(o: Oracle) returns (avx512Supported: bool)
    modifies o
    ensures avx512Supported == OsAvx512(o.host).value
    ensures o.log == old(o.log) + OsAvx512(o.host).queries
  {
    var avx := DetectOsAvx(o);
    if !avx {
      return false;
    }
    ghost var afterAvx := o.log;
    var xcrFeatureMask := o.Xgetbv(XCR_XFEATURE_ENABLED_MASK);
    avx512Supported := xcrFeatureMask & AVX512_STATE_MASK == AVX512_STATE_MASK;
    assert o.log == afterAvx + [Xgetbv(XCR_XFEATURE_ENABLED_MASK)];
  }
}
