/** The vendor identification string of CPUID leaf 0 (get_vendor_string). */
module Vendor {
  import opened CpuId

  const NUL: char := '\0'
  const GENUINE_INTEL: string := "GenuineIntel"
  const AUTHENTIC_AMD: string := "AuthenticAMD"

  /** A byte of memory read as a character. */
  predicate IsByte(c: char) { c as int < 256 }

  /** The low byte of x as a character. */
  function ByteChar(x: bv32): (c: char)
    ensures IsByte(c)
  {
    (x & 0xFF) as char
  }

  /** The four bytes of x in memory order on a little-endian machine: what
      memcpy(dst, &reg, 4) writes. */
  function LeChars(x: bv32): (s: seq<char>)
    ensures |s| == 4
  {
    [ByteChar(x), ByteChar(x >> 8), ByteChar(x >> 16), ByteChar(x >> 24)]
  }

  lemma ByteCharInjective(x: bv32, y: bv32)
    requires ByteChar(x) == ByteChar(y)
    ensures x & 0xFF == y & 0xFF
  {
  }

  lemma BytesDetermineWord(x: bv32, y: bv32)
    requires x & 0xFF == y & 0xFF && (x >> 8) & 0xFF == (y >> 8) & 0xFF
    requires (x >> 16) & 0xFF == (y >> 16) & 0xFF && (x >> 24) & 0xFF == (y >> 24) & 0xFF
    ensures x == y
  {
  }

  lemma LeCharsBytes(x: bv32, y: bv32)
    requires LeChars(x) == LeChars(y)
    ensures x & 0xFF == y & 0xFF && (x >> 8) & 0xFF == (y >> 8) & 0xFF
    ensures (x >> 16) & 0xFF == (y >> 16) & 0xFF && (x >> 24) & 0xFF == (y >> 24) & 0xFF
  {
    assert LeChars(x)[0] == LeChars(y)[0] && LeChars(x)[1] == LeChars(y)[1];
    assert LeChars(x)[2] == LeChars(y)[2] && LeChars(x)[3] == LeChars(y)[3];
    ByteCharInjective(x, y);
    ByteCharInjective(x >> 8, y >> 8);
    ByteCharInjective(x >> 16, y >> 16);
    ByteCharInjective(x >> 24, y >> 24);
  }

  /** Different words leave different bytes in memory. */
  lemma LeCharsInjective(x: bv32, y: bv32)
    requires LeChars(x) == LeChars(y)
    ensures x == y
  {
    LeCharsBytes(x, y);
    BytesDetermineWord(x, y);
  }

  /** The twelve bytes the three memcpy calls place in name[0..12]: EBX, then EDX, then ECX. */
  function RawVendor(r: Regs): (s: seq<char>)
    ensures |s| == 12
    ensures s[0..4] == LeChars(r.ebx) && s[4..8] == LeChars(r.edx) && s[8..12] == LeChars(r.ecx)
  {
    LeChars(r.ebx) + LeChars(r.edx) + LeChars(r.ecx)
  }

  /** The C string a char buffer holds: std::string(const char*) stops at the first NUL. */
  function CString(s: seq<char>): (r: seq<char>)
    ensures |r| <= |s| && r == s[..|r|]
    ensures forall i :: 0 <= i < |r| ==> r[i] != NUL
    ensures |r| < |s| ==> s[|r|] == NUL
  {
    if s == [] || s[0] == NUL then [] else [s[0]] + CString(s[1..])
  }

  /** The string get_vendor_string returns for the registers of leaf 0. */
  function VendorString(r: Regs): string
  {
    CString(RawVendor(r))
  }

  /** A terminator after the last character does not change the C string. */
  lemma {:induction false} CStringTerminated(s: seq<char>)
    ensures CString(s + [NUL]) == CString(s)
  {
    if s != [] && s[0] != NUL {
      assert (s + [NUL])[1..] == s[1..] + [NUL];
      CStringTerminated(s[1..]);
    }
  }

  /** The vendor string has all twelve characters exactly when none of the twelve bytes is zero. */
  lemma VendorStringLength(r: Regs)
    ensures |VendorString(r)| <= 12
    ensures |VendorString(r)| == 12 <==> forall i :: 0 <= i < 12 ==> RawVendor(r)[i] != NUL
    ensures |VendorString(r)| == 12 ==> VendorString(r) == RawVendor(r)
  {
    var raw := RawVendor(r);
    if forall i :: 0 <= i < |raw| ==> raw[i] != NUL {
      CStringWithoutNul(raw);
    }
  }

  /** A twelve-character vendor string determines the three registers it came from. */
  lemma VendorStringDeterminesRegs(r: Regs, r': Regs)
    requires |VendorString(r)| == 12 && VendorString(r) == VendorString(r')
    ensures r.ebx == r'.ebx && r.edx == r'.edx && r.ecx == r'.ecx
  {
    var raw, raw' := RawVendor(r), RawVendor(r');
    assert raw == raw';
    assert raw[0..4] == raw'[0..4] && raw[4..8] == raw'[4..8] && raw[8..12] == raw'[8..12];
    LeCharsInjective(r.ebx, r'.ebx);
    LeCharsInjective(r.edx, r'.edx);
    LeCharsInjective(r.ecx, r'.ecx);
  }

  /** A buffer without a terminator is its own C string. */
  lemma CStringWithoutNul(s: seq<char>)
    requires forall i :: 0 <= i < |s| ==> s[i] != NUL
    ensures CString(s) == s
  {
  }

  /** The registers that spell "GenuineIntel": EBX = "Genu", EDX = "ineI", ECX = "ntel". */
  lemma IntelSpelling(r: Regs)
    requires r.ebx == 0x756e_6547 && r.edx == 0x4965_6e69 && r.ecx == 0x6c65_746e
    ensures VendorString(r) == GENUINE_INTEL
  {
    assert LeChars(r.ebx) == "Genu";
    assert LeChars(r.edx) == "ineI";
    assert LeChars(r.ecx) == "ntel";
    assert RawVendor(r) == GENUINE_INTEL;
    CStringWithoutNul(RawVendor(r));
  }

  /** The registers that spell "AuthenticAMD": EBX = "Auth", EDX = "enti", ECX = "cAMD". */
  lemma AmdSpelling(r: Regs)
    requires r.ebx == 0x6874_7541 && r.edx == 0x6974_6e65 && r.ecx == 0x444d_4163
    ensures VendorString(r) == AUTHENTIC_AMD
  {
    assert LeChars(r.ebx) == "Auth";
    assert LeChars(r.edx) == "enti";
    assert LeChars(r.ecx) == "cAMD";
    assert RawVendor(r) == AUTHENTIC_AMD;
    CStringWithoutNul(RawVendor(r));
  }

  /** get_vendor_string yields "GenuineIntel" for exactly one choice of EBX, EDX, ECX. */
  lemma IntelSignature(r: Regs)
    ensures VendorString(r) == GENUINE_INTEL <==>
      r.ebx == 0x756e_6547 && r.edx == 0x4965_6e69 && r.ecx == 0x6c65_746e
  {
    var intel := Regs(0, 0x756e_6547, 0x6c65_746e, 0x4965_6e69);
    IntelSpelling(intel);
    if VendorString(r) == GENUINE_INTEL {
      VendorStringDeterminesRegs(r, intel);
    }
    if r.ebx == 0x756e_6547 && r.edx == 0x4965_6e69 && r.ecx == 0x6c65_746e {
      IntelSpelling(r);
    }
  }

  /** get_vendor_string yields "AuthenticAMD" for exactly one choice of EBX, EDX, ECX. */
  lemma AmdSignature(r: Regs)
    ensures VendorString(r) == AUTHENTIC_AMD <==>
      r.ebx == 0x6874_7541 && r.edx == 0x6974_6e65 && r.ecx == 0x444d_4163
  {
    var amd := Regs(0, 0x6874_7541, 0x444d_4163, 0x6974_6e65);
    AmdSpelling(amd);
    if VendorString(r) == AUTHENTIC_AMD {
      VendorStringDeterminesRegs(r, amd);
    }
    if r.ebx == 0x6874_7541 && r.edx == 0x6974_6e65 && r.ecx == 0x444d_4163 {
      AmdSpelling(r);
    }
  }

  /** memcpy(buf + off, &x, 4). */
  method StoreLe(buf: array<char>, off: nat, x: bv32)
    requires off + 4 <= buf.Length
    modifies buf
    ensures buf[..] == old(buf[..off]) + LeChars(x) + old(buf[off + 4..])
  {
    buf[off] := ByteChar(x);
    buf[off + 1] := ByteChar(x >> 8);
    buf[off + 2] := ByteChar(x >> 16);
    buf[off + 3] := ByteChar(x >> 24);
  }

  /** The body of get_vendor_string after the query: copy EBX, EDX, ECX into a 13-byte buffer,
      terminate it and return it as a string. */
  method AssembleVendor(info: Regs) returns (name: string)
    ensures name == VendorString(info)
  {
    var buf := new char[13];
    StoreLe(buf, 0, info.ebx);
    StoreLe(buf, 4, info.edx);
    StoreLe(buf, 8, info.ecx);
    buf[12] := NUL;
    assert buf[..] == RawVendor(info) + [NUL];
    CStringTerminated(RawVendor(info));
    name := CString(buf[..]);
  }

  /** get_vendor_string: query leaf 0 and assemble the name from its registers. */
  method GetVendorString(o: Oracle) returns (name: string)
    modifies o
    ensures name == VendorString(o.host.Cpuid(LEAF_VENDOR))
    ensures o.log == old(o.log) + [Cpuid(LEAF_VENDOR)]
  {
    var cpuInfo := o.Cpuid(LEAF_VENDOR);
    name := AssembleVendor(cpuInfo);
  }
}
