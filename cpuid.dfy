/** The two hardware primitives the detector consumes, modelled as oracles, and the
    decoding rules shared by every CPUID leaf. */
module CpuId {

  /** The four registers one CPUID query fills in: info[0..3] of the source. */
  datatype Regs = Regs(eax: bv32, ebx: bv32, ecx: bv32, edx: bv32)

  datatype Register = EAX | EBX | ECX | EDX

  function Get(r: Regs, reg: Register): bv32
  {
    match reg
    case EAX => r.eax
    case EBX => r.ebx
    case ECX => r.ecx
    case EDX => r.edx
  }

  /** The five CPUID leaves detect_host reads, as the host answers them. */
  datatype Leaves = Leaves(vendor: Regs, featureInfo: Regs, structured: Regs, extendedMax: Regs, extendedInfo: Regs)

  /** What the host answers: the CPUID leaves the detector reads, XCR0 as XGETBV reports it,
      and the platform's own 64-bit-mode check (defined in the platform files). */
  datatype Host = Host(leaves: Leaves, xcr0: bv64, osX64: bool)
  {
    /** The four registers CPUID returns for `leaf`. Leaves the detector never reads are
        answered with zeros; nothing in the model depends on them. */
    function Cpuid(leaf: bv32): Regs
    {
      if leaf == LEAF_VENDOR then leaves.vendor
      else if leaf == LEAF_FEATURE_INFO then leaves.featureInfo
      else if leaf == LEAF_STRUCTURED_FEATURES then leaves.structured
      else if leaf == LEAF_EXTENDED_MAX then leaves.extendedMax
      else if leaf == LEAF_EXTENDED_INFO then leaves.extendedInfo
      else Regs(0, 0, 0, 0)
    }

    /** The value XGETBV returns for extended control register `xcr`; only XCR0 is defined. */
    function Xgetbv(xcr: bv32): bv64
    {
      if xcr == XCR_XFEATURE_ENABLED_MASK then xcr0 else 0
    }
  }

  function LeavesOf(h: Host): (l: Leaves)
    ensures l.vendor == h.Cpuid(LEAF_VENDOR) && l.featureInfo == h.Cpuid(LEAF_FEATURE_INFO)
    ensures l.structured == h.Cpuid(LEAF_STRUCTURED_FEATURES)
    ensures l.extendedMax == h.Cpuid(LEAF_EXTENDED_MAX) && l.extendedInfo == h.Cpuid(LEAF_EXTENDED_INFO)
  {
    h.leaves
  }

  /** One call of a hardware primitive, as it appears in a query log. */
  datatype Query = Cpuid(leaf: bv32) | Xgetbv(xcr: bv32)

  /** A value together with the primitive calls issued to compute it, in order. */
  datatype Probed<T> = Probed(value: T, queries: seq<Query>)

  /** The processor as the detector sees it: the cpuid and xgetbv intrinsics answer from the
      host, and every call is appended to the ghost log in the order it is made. The detector
      reads the host only through these methods. */
  class Oracle {
    const host: Host
    ghost var log: seq<Query>

    constructor (host: Host)
      ensures this.host == host && log == []
    {
      this.host := host;
      log := [];
    }

    /** cpuid(info, leaf). */
    method Cpuid(leaf: bv32) returns (info: Regs)
      modifies this
      ensures info == host.Cpuid(leaf)
      ensures log == old(log) + [Query.Cpuid(leaf)]
    {
      info := host.Cpuid(leaf);
      log := log + [Query.Cpuid(leaf)];
    }

    /** xgetbv(xcr). */
    method Xgetbv(xcr: bv32) returns (value: bv64)
      modifies this
      ensures value == host.Xgetbv(xcr)
      ensures log == old(log) + [Query.Xgetbv(xcr)]
    {
      value := host.Xgetbv(xcr);
      log := log + [Query.Xgetbv(xcr)];
    }

    /** detect_OS_x64, which issues neither primitive. */
    method OsX64() returns (yes: bool)
      ensures yes == host.osX64
    {
      yes := host.osX64;
    }
  }

  const LEAF_VENDOR: bv32 := 0x0000_0000
  const LEAF_FEATURE_INFO: bv32 := 0x0000_0001
  const LEAF_STRUCTURED_FEATURES: bv32 := 0x0000_0007
  const LEAF_EXTENDED_MAX: bv32 := 0x8000_0000
  const LEAF_EXTENDED_INFO: bv32 := 0x8000_0001

  /** _XCR_XFEATURE_ENABLED_MASK: XCR0, the register that lists the OS-enabled state components. */
  const XCR_XFEATURE_ENABLED_MASK: bv32 := 0

  const TWO_31: int := 0x8000_0000
  const TWO_32: int := 0x1_0000_0000

  type BitIndex = k: nat | k < 32

  /** The decode rule of every flag: (reg & (1 << k)) != 0. */
  predicate Bit(x: bv32, k: BitIndex)
  {
    x & (1 << k) != 0
  }

  /** A register read through the source's signed `int`: the two's-complement value. */
  function ToSigned(x: bv32): (n: int)
  {
    if x < 0x8000_0000 then x as int else x as int - TWO_32
  }

  /** ToSigned(x) >= n, decided on the bits: bit 31 is clear and x is at least n. */
  predicate SignedAtLeast(x: bv32, n: bv32)
  {
    x < 0x8000_0000 && x >= n
  }

  /** The signed reading is a 32-bit two's-complement value: x itself, or x - 2^32. */
  lemma ToSignedRange(x: bv32)
    ensures -TWO_31 <= ToSigned(x) < TWO_31
    ensures ToSigned(x) == x as int || ToSigned(x) == x as int - TWO_32
  {
  }

  lemma SignedAtLeastMeansToSigned(x: bv32)
    ensures SignedAtLeast(x, 1) <==> ToSigned(x) >= 1
    ensures SignedAtLeast(x, 7) <==> ToSigned(x) >= 7
  {
  }

  /** The sign of the signed reading is bit 31. */
  lemma ToSignedSign(x: bv32)
    ensures ToSigned(x) < 0 <==> Bit(x, 31)
  {
  }
}
