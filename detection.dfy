/** What one detect_host pass does to the flags of a cpu_x86 object, as a function of the
    flags before the pass and of the host, and the primitive calls the pass issues. */
module Detection {
  import opened CpuId
  import Xsave
  import opened Vendor
  import opened FeatureTable
  import opened OsFeatures
  import opened Hardware

  /** The flags of a cpu_x86 object: the three OS flags, the two vendor flags and the
      thirty-two HW_ flags. */
  datatype FlagState = FlagState(
    osX64: bool, osAvx: bool, osAvx512: bool,
    intel: bool, amd: bool,
    hw: HwFlags)

  /** The object as the constructor leaves it: every flag false. */
  function Fresh(): FlagState
  {
    FlagState(false, false, false, false, false, NO_FLAGS)
  }

  /** The vendor block: Vendor_Intel is set when the string is "GenuineIntel"; otherwise
      Vendor_AMD is set when it is "AuthenticAMD". Neither flag is ever cleared. */
  predicate IntelAfter(prior: bool, vendor: string)
  {
    if vendor == GENUINE_INTEL then true else prior
  }

  predicate AmdAfter(prior: bool, vendor: string)
  {
    if vendor != GENUINE_INTEL && vendor == AUTHENTIC_AMD then true else prior
  }

  /** detect_host on an object whose flags are s. The OS flags are overwritten; a vendor flag
      is only ever set to true; a hardware flag is decoded from the table when its leaf's guard
      holds and otherwise keeps its value. */
  function Detect(s: FlagState, h: Host): FlagState
  {
    var vendor := VendorString(h.Cpuid(LEAF_VENDOR));
    FlagState(
      h.osX64, OsAvx(h).value, OsAvx512(h).value,
      IntelAfter(s.intel, vendor), AmdAfter(s.amd, vendor),
      DecodeHardware(s.hw, LeavesOf(h)))
  }

  /** The primitive calls of one detect_host pass, in order: detect_OS_AVX, detect_OS_AVX512
      (which repeats detect_OS_AVX), then the queries of detect_host itself. */
  function DetectQueries(h: Host): seq<Query>
  {
    OsAvx(h).queries + OsAvx512(h).queries + HostQueries(LeavesOf(h))
  }

  /** The leaf a decoding block reads. */
  function GroupLeaf(g: Group): bv32
  {
    match g
    case Standard1 => LEAF_FEATURE_INFO
    case Standard7 => LEAF_STRUCTURED_FEATURES
    case Extended1 => LEAF_EXTENDED_INFO
  }

  /** The query of the decoding block of g: one CPUID of its leaf when its guard holds. */
  function BlockQueries(l: Leaves, g: Group): seq<Query>
  {
    if Reaches(l, g) then [Cpuid(GroupLeaf(g))] else []
  }

  /** The queries of the feature part of detect_host: leaf 0 (nIds), leaf 0x80000000
      (nExIds), then each decoding leaf whose guard holds. */
  function FeatureQueries(l: Leaves): seq<Query>
  {
    [Cpuid(LEAF_VENDOR), Cpuid(LEAF_EXTENDED_MAX)]
    + BlockQueries(l, Standard1) + BlockQueries(l, Standard7) + BlockQueries(l, Extended1)
  }

  /** The CPUID queries detect_host issues itself: leaf 0 for get_vendor_string, then the
      feature part. */
  function HostQueries(l: Leaves): seq<Query>
  {
    [Cpuid(LEAF_VENDOR)] + FeatureQueries(l)
  }

  /** A log extended by the feature part's queries one by one, in the order they are issued,
      is the log extended by FeatureQueries. */
  lemma FeatureLog(log: seq<Query>, l: Leaves)
    ensures log + [Cpuid(LEAF_VENDOR)] + [Cpuid(LEAF_EXTENDED_MAX)]
      + BlockQueries(l, Standard1) + BlockQueries(l, Standard7) + BlockQueries(l, Extended1)
      == log + FeatureQueries(l)
  {
  }

  /** A log extended by the OS checks, the vendor query and the feature part, in that order,
      is the log extended by DetectQueries. */
  lemma PassLog(log: seq<Query>, h: Host)
    ensures log + OsAvx(h).queries + OsAvx512(h).queries + [Cpuid(LEAF_VENDOR)]
      + FeatureQueries(LeavesOf(h)) == log + DetectQueries(h)
  {
  }

  /** "Safe to use AVX" in the summary of print(ostream&). */
  predicate SafeToUseAvx(s: FlagState)
  {
    s.hw.leaf1.avx && s.osAvx
  }

  /** "Safe to use AVX512" in the summary of print(ostream&). */
  predicate SafeToUseAvx512(s: FlagState)
  {
    s.hw.leaf7.avx512f && s.osAvx512
  }

  // ---------------------------------------------------------------------------------------
  // Flags

  /** The OS flags depend only on the host, and AVX-512 enablement includes AVX enablement. */
  lemma DetectOsFlags(s: FlagState, h: Host)
    ensures Detect(s, h).osX64 == h.osX64
    ensures Detect(s, h).osAvx <==> XgetbvGuard(h) && Xsave.AvxStateEnabled(Xcr0(h))
    ensures Detect(s, h).osAvx512 <==> Detect(s, h).osAvx && Xsave.Avx512StateEnabled(Xcr0(h))
    ensures Detect(s, h).osAvx512 ==> Detect(s, h).osAvx
  {
  }

  /** Vendor flags are only ever set, never cleared; each is set exactly when leaf 0 spells
      its signature. */
  lemma DetectVendorFlags(s: FlagState, h: Host)
    ensures s.intel ==> Detect(s, h).intel
    ensures s.amd ==> Detect(s, h).amd
    ensures Detect(s, h).intel <==>
      s.intel ||
      (h.Cpuid(LEAF_VENDOR).ebx == 0x756e_6547 && h.Cpuid(LEAF_VENDOR).edx == 0x4965_6e69 &&
       h.Cpuid(LEAF_VENDOR).ecx == 0x6c65_746e)
    ensures Detect(s, h).amd <==>
      s.amd ||
      (h.Cpuid(LEAF_VENDOR).ebx == 0x6874_7541 && h.Cpuid(LEAF_VENDOR).edx == 0x6974_6e65 &&
       h.Cpuid(LEAF_VENDOR).ecx == 0x444d_4163)
  {
    IntelSignature(h.Cpuid(LEAF_VENDOR));
    AmdSignature(h.Cpuid(LEAF_VENDOR));
  }

  /** On a fresh object the vendor flags say exactly which signature leaf 0 spells: never
      both, and neither for any other string. */
  lemma FreshVendorFlags(h: Host)
    ensures Detect(Fresh(), h).intel <==> VendorString(h.Cpuid(LEAF_VENDOR)) == GENUINE_INTEL
    ensures Detect(Fresh(), h).amd <==> VendorString(h.Cpuid(LEAF_VENDOR)) == AUTHENTIC_AMD
    ensures !(Detect(Fresh(), h).intel && Detect(Fresh(), h).amd)
  {
  }

  /** Each hardware flag is its table bit when its leaf's guard holds, and keeps its prior
      value when it does not. */
  lemma DetectHardwareFlag(s: FlagState, h: Host, f: Feature)
    ensures Reaches(LeavesOf(h), GroupOf(f)) ==> (Flag(Detect(s, h).hw, f) <==> TableBit(LeavesOf(h), f))
    ensures !Reaches(LeavesOf(h), GroupOf(f)) ==> (Flag(Detect(s, h).hw, f) <==> Flag(s.hw, f))
  {
    assert Detect(s, h).hw == DecodeHardware(s.hw, LeavesOf(h));
    DecodeHardwareTable(s.hw, LeavesOf(h), f);
  }

  /** On a fresh object, no flag of a leaf the processor does not report is set. */
  lemma FreshUnreachedFlags(h: Host)
    ensures forall f :: Flag(Detect(Fresh(), h).hw, f) ==> Reaches(LeavesOf(h), GroupOf(f))
  {
    forall f | Flag(Detect(Fresh(), h).hw, f)
      ensures Reaches(LeavesOf(h), GroupOf(f))
    {
      DetectHardwareFlag(Fresh(), h, f);
      NoFlagsClear(f);
    }
  }

  /** The three guards in the source's terms: nIds < 1 leaves every leaf-1 flag of a fresh
      object false, nIds < 7 every leaf-7 flag, nExIds < 0x80000001 the five extended flags. */
  lemma FreshUnreachedGroups(h: Host)
    ensures ToSigned(h.Cpuid(LEAF_VENDOR).eax) < 1 ==>
      forall f :: GroupOf(f) == Standard1 ==> !Flag(Detect(Fresh(), h).hw, f)
    ensures ToSigned(h.Cpuid(LEAF_VENDOR).eax) < 7 ==>
      forall f :: GroupOf(f) == Standard7 ==> !Flag(Detect(Fresh(), h).hw, f)
    ensures h.Cpuid(LEAF_EXTENDED_MAX).eax < LEAF_EXTENDED_INFO ==>
      forall f :: GroupOf(f) == Extended1 ==> !Flag(Detect(Fresh(), h).hw, f)
  {
    FreshUnreachedFlags(h);
    ReachesStandard(LeavesOf(h));
  }

  /** A second pass against the same host changes nothing. */
  lemma DetectIdempotent(s: FlagState, h: Host)
    ensures Detect(Detect(s, h), h) == Detect(s, h)
  {
    DecodeHardwareIdempotent(s.hw, LeavesOf(h));
  }

  // ---------------------------------------------------------------------------------------
  // Summary verdicts

  /** After detection on a fresh object, AVX is safe exactly when leaf 1 is available, the
      processor reports AVX with OSXSAVE set, and XCR0 enables the SSE and AVX state. */
  lemma FreshSafeToUseAvx(h: Host)
    ensures SafeToUseAvx(Detect(Fresh(), h)) <==>
      Reaches(LeavesOf(h), Standard1) && XgetbvGuard(h) && Xsave.AvxStateEnabled(Xcr0(h))
  {
    assert Detect(Fresh(), h).hw == DecodeHardware(NO_FLAGS, LeavesOf(h));
  }

  /** After detection on a fresh object, AVX-512 is safe exactly when leaf 7 is available and
      reports AVX512-F, leaf 1 reports AVX with OSXSAVE set, and XCR0 enables the AVX-512
      state. */
  lemma FreshSafeToUseAvx512(h: Host)
    ensures SafeToUseAvx512(Detect(Fresh(), h)) <==>
      Reaches(LeavesOf(h), Standard7) && Bit(h.Cpuid(LEAF_STRUCTURED_FEATURES).ebx, 16) &&
      XgetbvGuard(h) && Xsave.Avx512StateEnabled(Xcr0(h))
  {
    assert Detect(Fresh(), h).hw == DecodeHardware(NO_FLAGS, LeavesOf(h));
  }

  /** Whenever the summary calls AVX-512 safe on a fresh object, it calls AVX safe too. */
  lemma FreshAvx512ImpliesAvx(h: Host)
    ensures SafeToUseAvx512(Detect(Fresh(), h)) ==> SafeToUseAvx(Detect(Fresh(), h))
  {
    FreshSafeToUseAvx(h);
    FreshSafeToUseAvx512(h);
    SignedStandardMaximum(LeavesOf(h));
  }

  /** Hardware support alone is never enough: without the OS flag the verdict is false. */
  lemma SafeNeedsOs(s: FlagState)
    ensures !s.osAvx ==> !SafeToUseAvx(s)
    ensures !s.osAvx512 ==> !SafeToUseAvx512(s)
    ensures SafeToUseAvx(s) <==> Flag(s.hw, Standard1Flag(AVX)) && s.osAvx
    ensures SafeToUseAvx512(s) <==> Flag(s.hw, Standard7Flag(AVX512_F)) && s.osAvx512
  {
  }

  // ---------------------------------------------------------------------------------------
  // Primitive calls

  function CpuidCount(qs: seq<Query>): nat
  {
    if qs == [] then 0 else (if qs[0].Cpuid? then 1 else 0) + CpuidCount(qs[1..])
  }

  function XgetbvCount(qs: seq<Query>): nat
  {
    if qs == [] then 0 else (if qs[0].Xgetbv? then 1 else 0) + XgetbvCount(qs[1..])
  }

  lemma {:induction false} CountsAppend(a: seq<Query>, b: seq<Query>)
    ensures CpuidCount(a + b) == CpuidCount(a) + CpuidCount(b)
    ensures XgetbvCount(a + b) == XgetbvCount(a) + XgetbvCount(b)
  {
    if a == [] {
      assert a + b == b;
    } else {
      assert (a + b)[0] == a[0];
      assert (a + b)[1..] == a[1..] + b;
      CountsAppend(a[1..], b);
    }
  }

  /** The leaves that detect_host itself may query. */
  predicate HostLeaf(q: Query)
  {
    q in {Cpuid(LEAF_VENDOR), Cpuid(LEAF_FEATURE_INFO), Cpuid(LEAF_STRUCTURED_FEATURES),
          Cpuid(LEAF_EXTENDED_MAX), Cpuid(LEAF_EXTENDED_INFO)}
  }

  /** detect_host queries leaf 7 and leaf 0x80000001 exactly when their maxima allow, and
      issues no other primitive call than CPUID of its five leaves. */
  lemma HostQueriesGuarded(l: Leaves)
    ensures Cpuid(LEAF_FEATURE_INFO) in HostQueries(l) <==> Reaches(l, Standard1)
    ensures Cpuid(LEAF_STRUCTURED_FEATURES) in HostQueries(l) <==> Reaches(l, Standard7)
    ensures Cpuid(LEAF_EXTENDED_INFO) in HostQueries(l) <==> Reaches(l, Extended1)
    ensures forall q :: q in HostQueries(l) ==> HostLeaf(q)
  {
  }

  /** The queries of a pass are those of its three parts. */
  lemma InDetectQueries(h: Host, q: Query)
    ensures q in DetectQueries(h) <==>
      q in OsAvx(h).queries || q in OsAvx512(h).queries || q in HostQueries(LeavesOf(h))
  {
  }

  /** The guards hold for the queries of a whole pass: leaf 7 and leaf 0x80000001 are queried
      exactly when their maxima allow, XGETBV exactly when OSXSAVE and AVX are reported. Leaf 1
      is always queried, by the OS checks. */
  lemma DetectQueriesGuarded(h: Host)
    ensures Cpuid(LEAF_FEATURE_INFO) in DetectQueries(h)
    ensures Cpuid(LEAF_STRUCTURED_FEATURES) in DetectQueries(h) <==> Reaches(LeavesOf(h), Standard7)
    ensures Cpuid(LEAF_EXTENDED_INFO) in DetectQueries(h) <==> Reaches(LeavesOf(h), Extended1)
    ensures Xgetbv(XCR_XFEATURE_ENABLED_MASK) in DetectQueries(h) <==> XgetbvGuard(h)
  {
    HostQueriesGuarded(LeavesOf(h));
    InDetectQueries(h, Cpuid(LEAF_FEATURE_INFO));
    InDetectQueries(h, Cpuid(LEAF_STRUCTURED_FEATURES));
    InDetectQueries(h, Cpuid(LEAF_EXTENDED_INFO));
    InDetectQueries(h, Xgetbv(XCR_XFEATURE_ENABLED_MASK));
  }

  /** A pass issues no primitive call other than CPUID of the five leaves and XGETBV of XCR0. */
  lemma DetectQueriesOnly(h: Host)
    ensures forall q :: q in DetectQueries(h) ==> HostLeaf(q) || q == Xgetbv(XCR_XFEATURE_ENABLED_MASK)
  {
    HostQueriesGuarded(LeavesOf(h));
    forall q | q in DetectQueries(h)
      ensures HostLeaf(q) || q == Xgetbv(XCR_XFEATURE_ENABLED_MASK)
    {
      InDetectQueries(h, q);
    }
  }

  /** Counting a list of one query. */
  lemma CountsSingle(q: Query)
    ensures CpuidCount([q]) == (if q.Cpuid? then 1 else 0)
    ensures XgetbvCount([q]) == (if q.Xgetbv? then 1 else 0)
  {
    assert [q][1..] == [];
  }

  /** detect_OS_AVX issues one CPUID, and one XGETBV when OSXSAVE and AVX are reported. */
  lemma OsAvxQueryCounts(h: Host)
    ensures CpuidCount(OsAvx(h).queries) == 1
    ensures XgetbvCount(OsAvx(h).queries) == if XgetbvGuard(h) then 1 else 0
  {
    var q1, qx := Cpuid(LEAF_FEATURE_INFO), Xgetbv(XCR_XFEATURE_ENABLED_MASK);
    CountsSingle(q1);
    CountsSingle(qx);
    if XgetbvGuard(h) {
      assert OsAvx(h).queries == [q1] + [qx];
      CountsAppend([q1], [qx]);
    } else {
      assert OsAvx(h).queries == [q1];
    }
  }

  /** detect_OS_AVX512 issues the queries of detect_OS_AVX and, when that succeeds, one more XGETBV. */
  lemma OsAvx512QueryCounts(h: Host)
    ensures CpuidCount(OsAvx512(h).queries) == 1
    ensures XgetbvCount(OsAvx512(h).queries) ==
      XgetbvCount(OsAvx(h).queries) + if OsAvx(h).value then 1 else 0
  {
    var avx, qx := OsAvx(h), Xgetbv(XCR_XFEATURE_ENABLED_MASK);
    OsAvxQueryCounts(h);
    if avx.value {
      CountsSingle(qx);
      assert OsAvx512(h).queries == avx.queries + [qx];
      CountsAppend(avx.queries, [qx]);
    }
  }

  /** A log of CPUID queries only. */
  lemma {:induction false} CpuidOnly(qs: seq<Query>)
    requires forall i :: 0 <= i < |qs| ==> qs[i].Cpuid?
    ensures CpuidCount(qs) == |qs| && XgetbvCount(qs) == 0
  {
    if qs != [] {
      CpuidOnly(qs[1..]);
    }
  }

  /** detect_host itself issues three to six CPUID queries and no XGETBV. */
  lemma HostQueryCounts(l: Leaves)
    ensures CpuidCount(HostQueries(l)) ==
      3 + (if Reaches(l, Standard1) then 1 else 0) + (if Reaches(l, Standard7) then 1 else 0)
        + (if Reaches(l, Extended1) then 1 else 0)
    ensures XgetbvCount(HostQueries(l)) == 0
  {
    CpuidOnly(HostQueries(l));
  }

  /** One pass issues five to eight CPUID queries and zero, two or three XGETBV calls: two
      of each for the OS checks, one more XGETBV when AVX is enabled, and the CPUIDs of
      detect_host itself. */
  lemma DetectQueryCounts(h: Host)
    ensures CpuidCount(DetectQueries(h)) ==
      5 + (if Reaches(LeavesOf(h), Standard1) then 1 else 0) + (if Reaches(LeavesOf(h), Standard7) then 1 else 0)
        + (if Reaches(LeavesOf(h), Extended1) then 1 else 0)
    ensures XgetbvCount(DetectQueries(h)) ==
      if !XgetbvGuard(h) then 0 else if OsAvx(h).value then 3 else 2
  {
    var avx, avx512, own := OsAvx(h).queries, OsAvx512(h).queries, HostQueries(LeavesOf(h));
    OsAvxQueryCounts(h);
    OsAvx512QueryCounts(h);
    HostQueryCounts(LeavesOf(h));
    CountsAppend(avx, avx512);
    CountsAppend(avx + avx512, own);
  }
}
