# cpu_x86: a verified model of the x86 feature detector

`FeatureDetector::cpu_x86` is a record of boolean flags that tells a program what the processor
and the operating system support. The flags are:

- the vendor: Intel or AMD;
- the OS features: 64-bit OS, and OS-enabled AVX and AVX-512 register state;
- thirty-two hardware features from MMX through AVX512-VBMI.

The constructor clears every flag. `detect_host` fills them in from two processor primitives:

- `cpuid`, which returns four 32-bit registers (EAX, EBX, ECX, EDX) for a leaf;
- `xgetbv`, which returns 64-bit XCR0, the XSAVE state-component bitmap of section 13.1 of
  Volume 1 of the Intel 64 and IA-32 Architectures Software Developer's Manual.

`detect_host` works in this order:

1. It runs the OS checks `detect_OS_AVX` and `detect_OS_AVX512`. Each tests leaf-1 ECX bits 27
   (OSXSAVE) and 28 (AVX) before it executes XGETBV. It then masks XCR0 with 0x6 or 0xE6.
2. It assembles the 12-byte vendor string from leaf 0: EBX, EDX, ECX, in little-endian order.
   It sets `Vendor_Intel` for "GenuineIntel", or else `Vendor_AMD` for "AuthenticAMD".
3. It reads the highest standard leaf, `nIds`, from leaf 0 EAX as a signed `int`.
4. It reads the highest extended leaf, `nExIds`, from leaf 0x80000000 EAX as an unsigned
   `uint32_t`.
5. It decodes leaves 1, 7 and 0x80000001, each only when its maximum allows.

Every hardware flag is one fixed register bit of its leaf. The bits follow the CPUID instruction
reference in Volume 2A of the Intel SDM: Feature Information for leaf 01H, Structured Extended
Feature Flags for leaf 07H, and extended function 80000001H. The last also appears in Appendix E
of Volume 3 of the AMD64 Architecture Programmer's Manual. The printed summary calls AVX safe when
`HW_AVX && OS_AVX`, and AVX-512 safe when `HW_AVX512_F && OS_AVX512`.

Modules, in dependency order:

- `CpuId` (cpuid.dfy):
  - the registers and the host as a value (`Host`, whose functions `Cpuid` and `Xgetbv` give
    the answers of the primitives);
  - the class `Oracle`, whose methods `Cpuid` and `Xgetbv` answer from a host and append each
    call to a ghost log;
  - the decode rule `Bit`;
  - the signed reading `ToSigned` of a register.
- `Xsave` (xsave.dfy): the XCR0 state components and the two masks.
- `Vendor` (vendor.dfy): `get_vendor_string`.
  - The method `GetVendorString` queries leaf 0 through the oracle. The method
    `AssembleVendor` fills a 13-character array with three little-endian stores and a
    terminator.
  - Both are proved to return the specification function `VendorString` of the leaf-0
    registers.
  - Lemmas about `VendorString` show it is injective on twelve-character strings, and that
    it spells the two signatures exactly for the well-known register values.
- `FeatureTable` (feature_table.dfy):
  - the declarative table saying which leaf, register and bit each of the thirty-two hardware
    flags comes from;
  - the guards of the three leaves.
- `OsFeatures` (os_features.dfy): `detect_OS_AVX` and `detect_OS_AVX512`.
  - The functions `OsAvx` and `OsAvx512` give each check's verdict together with the primitive
    calls it makes.
  - The methods `DetectOsAvx` and `DetectOsAvx512` make those calls through the oracle. They
    are proved to return the functions' verdicts and to extend the oracle's log by exactly the
    functions' calls.
- `Hardware` (hardware.dfy): the three decoding blocks of `detect_host`, proved to agree with
  the table.
- `Detection` (detection.dfy):
  - `Detect`, what one pass does to a flag state;
  - `DetectQueries`, the primitive calls one pass issues;
  - the properties of both.
- `FeatureDetector` (cpu_x86.dfy): the class `CpuX86`.
  - It has one field per vendor and OS flag, and the hardware flags in three records, one per
    decoding block.
  - `DetectHost` is proved to leave `State() == Detect(old(State()), host)`.
  - `DetectHost` reads the host only through the oracle. It is proved to extend the oracle's
    log by exactly `DetectQueries(host)`.
- `Scenarios` (scenarios.dfy): concrete hosts and what detection reports for them.

## Model

| member | source | states |
|---|---|---|
| FeatureDetector.CpuX86.constructor | src/x86/cpu_x86.cpp:49-51 | a new object has every vendor, OS and hardware flag false |
| FeatureDetector.CpuX86.DetectHost | src/x86/cpu_x86.cpp:94-162 | one pass leaves the flags at `Detect(old flags, host)`; the oracle calls it makes, which the oracle logs, are exactly `DetectQueries(host)`, in order |
| FeatureDetector.CpuX86.DetectOs | src/x86/cpu_x86.cpp:95-98 | OS_x64 is the platform's answer; OS_AVX and OS_AVX512 are the verdicts of the two OS checks; the oracle calls are those of detect_OS_AVX followed by those of detect_OS_AVX512 |
| FeatureDetector.CpuX86.DetectVendor | src/x86/cpu_x86.cpp:100-106 | Vendor_Intel becomes true for "GenuineIntel"; otherwise Vendor_AMD becomes true for "AuthenticAMD"; neither flag is ever cleared; the only oracle call is one CPUID of leaf 0 |
| FeatureDetector.CpuX86.DetectFeatures | src/x86/cpu_x86.cpp:108-161 | the hardware flags become `DecodeHardware(old flags, leaves)`: nIds is leaf-0 EAX read signed, nExIds is leaf-0x80000000 EAX read unsigned; the oracle calls are leaf 0, leaf 0x80000000, then each guarded leaf whose guard holds |
| FeatureDetector.CpuX86.Standard1Block | src/x86/cpu_x86.cpp:116-132 | with nIds the signed leaf-0 EAX, the leaf-1 flags are decoded when nIds >= 1 and are otherwise unchanged; the oracle is asked for leaf 1 exactly when the guard holds |
| FeatureDetector.CpuX86.Standard7Block | src/x86/cpu_x86.cpp:133-153 | the same for leaf 7 and nIds >= 7 |
| FeatureDetector.CpuX86.Extended1Block | src/x86/cpu_x86.cpp:154-161 | the same for leaf 0x80000001 and the unsigned comparison nExIds >= 0x80000001 |
| FeatureDetector.CpuX86.DecodeStandard1 | src/x86/cpu_x86.cpp:117-131 | the eleven leaf-1 flag assignments leave the leaf-1 record at `DecodeLeaf1(info)`, nothing else changes |
| FeatureDetector.CpuX86.DecodeStandard7 | src/x86/cpu_x86.cpp:134-152 | the sixteen leaf-7 flag assignments leave the leaf-7 record at `DecodeLeaf7(info)` |
| FeatureDetector.CpuX86.DecodeExtended1 | src/x86/cpu_x86.cpp:155-160 | the five extended flag assignments leave the extended record at `DecodeExtendedLeaf1(info)` |
| FeatureDetector.CpuX86.SafeToUseAvx | src/x86/cpu_x86.cpp:222 | "Safe to use AVX" is HW_AVX && OS_AVX of the object |
| FeatureDetector.CpuX86.SafeToUseAvx512 | src/x86/cpu_x86.cpp:223 | "Safe to use AVX512" is HW_AVX512_F && OS_AVX512 of the object |
| CpuId.Oracle.constructor | src/x86/cpu_x86.cpp:58 | an oracle answers from the given host and its log starts empty |
| CpuId.Oracle.Cpuid | src/x86/cpu_x86.cpp:58 | `cpuid(info, leaf)` returns the host's registers for the leaf and appends that CPUID to the log |
| CpuId.Oracle.Xgetbv | src/x86/cpu_x86.cpp:65 | `xgetbv(xcr)` returns the host's value of the register and appends that XGETBV to the log |
| CpuId.Oracle.OsX64 | src/x86/cpu_x86.cpp:96 | detect_OS_x64 returns the host's answer and makes no logged call |
| OsFeatures.DetectOsAvx | src/x86/cpu_x86.cpp:52-70 | the method returns `OsAvx(host).value` and extends the oracle's log by exactly `OsAvx(host).queries`: one CPUID of leaf 1 first, then XGETBV(0) only when bits 27 and 28 are set |
| OsFeatures.DetectOsAvx512 | src/x86/cpu_x86.cpp:71-77 | the method returns `OsAvx512(host).value` and extends the oracle's log by exactly `OsAvx512(host).queries`: the calls of detect_OS_AVX, then one more XGETBV(0) when that check succeeds |
| OsFeatures.OsAvx | src/x86/cpu_x86.cpp:52-70 | true iff leaf-1 ECX bits 27 and 28 are set and XCR0 enables the SSE and AVX state; leaf 1 is queried first; XGETBV(0) is issued iff both bits are set; nothing else is queried |
| OsFeatures.OsAvx512 | src/x86/cpu_x86.cpp:71-77 | true iff detect_OS_AVX is true and XCR0 also enables the opmask, ZMM_Hi256 and Hi16_ZMM state, so it implies detect_OS_AVX; XGETBV is issued iff both leaf-1 bits are set |
| Xsave.AvxStateEnabled | src/x86/cpu_x86.cpp:66 | `XCR0 & 0x6 == 0x6` holds iff state components 1 (SSE) and 2 (AVX) are enabled |
| Xsave.Avx512StateEnabled | src/x86/cpu_x86.cpp:76 | `XCR0 & 0xE6 == 0xE6` holds iff components 1, 2, 5, 6 and 7 are enabled, and it implies the AVX test |
| CpuId.ToSignedRange | src/x86/cpu_x86.cpp:110 | `int nIds = info[0]` is a 32-bit two's-complement value: the register or the register minus 2^32 |
| CpuId.ToSignedSign | src/x86/cpu_x86.cpp:110 | the signed reading is negative iff bit 31 is set |
| CpuId.SignedAtLeastMeansToSigned | src/x86/cpu_x86.cpp:110-133 | the signed comparisons nIds >= 1 and nIds >= 7 are decided on the bits: bit 31 clear and the register at least 1 or 7 |
| FeatureTable.ReachesStandard | src/x86/cpu_x86.cpp:110-133 | the guards of the two standard blocks are the source's signed comparisons nIds >= 1 and nIds >= 7 |
| FeatureTable.SignedStandardMaximum | src/x86/cpu_x86.cpp:108-133 | a leaf-0 EAX with bit 31 set reaches neither standard block although it is large unsigned; reaching leaf 7 implies reaching leaf 1 |
| FeatureTable.Leaf1LocationsDistinct | src/x86/cpu_x86.cpp:117-131 | no two leaf-1 flags read the same bit of the same register |
| FeatureTable.Leaf7LocationsDistinct | src/x86/cpu_x86.cpp:134-152 | no two leaf-7 flags read the same bit of the same register |
| FeatureTable.ExtendedLocationsDistinct | src/x86/cpu_x86.cpp:155-160 | no two extended flags read the same bit of the same register |
| FeatureTable.LocationsDistinct | src/x86/cpu_x86.cpp:116-161 | two different flags differ in their leaf or in their register and bit |
| FeatureTable.TableSamplesLeaf1 | src/x86/cpu_x86.cpp:120-128 | the table gives HW_SSE2 as leaf-1 EDX bit 26 and HW_AVX as leaf-1 ECX bit 28 |
| FeatureTable.TableSamplesLeaf7 | src/x86/cpu_x86.cpp:144-148 | the table gives HW_AVX512_F as leaf-7 EBX bit 16 and HW_AVX512_VL as leaf-7 EBX bit 31 |
| FeatureTable.TableSamplesExtended | src/x86/cpu_x86.cpp:156 | the table gives HW_x64 as leaf-0x80000001 EDX bit 29 |
| Hardware.NoFlagsClear | src/x86/cpu_x86.cpp:49-51 | the cleared hardware record has every flag false |
| Hardware.DecodeLeaf1Table | src/x86/cpu_x86.cpp:116-132 | the leaf-1 block sets each leaf-1 flag to its table bit |
| Hardware.DecodeLeaf7Table | src/x86/cpu_x86.cpp:133-153 | the leaf-7 block sets each leaf-7 flag to its table bit |
| Hardware.DecodeExtendedLeaf1Table | src/x86/cpu_x86.cpp:154-161 | the extended block sets each extended flag to its table bit |
| Hardware.DecodeHardwareTable | src/x86/cpu_x86.cpp:116-161 | after the three blocks, every hardware flag is its table bit when its leaf's guard holds and keeps its prior value when it does not |
| Hardware.DecodeHardwareIdempotent | src/x86/cpu_x86.cpp:116-161 | decoding twice from the same leaves gives what decoding once gives |
| Detection.DetectOsFlags | src/x86/cpu_x86.cpp:96-98 | after a pass, OS_x64 is the platform's answer, OS_AVX is the guard and the AVX state test, OS_AVX512 is OS_AVX and the AVX-512 state test, so OS_AVX512 implies OS_AVX, whatever the flags were before |
| Detection.DetectVendorFlags | src/x86/cpu_x86.cpp:100-106 | vendor flags are never cleared; after a pass Vendor_Intel holds iff it held before or leaf 0 has EBX, EDX, ECX = 0x756e6547, 0x49656e69, 0x6c65746e, and Vendor_AMD likewise for 0x68747541, 0x69746e65, 0x444d4163 |
| Detection.FreshVendorFlags | src/x86/cpu_x86.cpp:100-106 | on a fresh object Vendor_Intel holds iff the vendor string is "GenuineIntel", Vendor_AMD iff it is "AuthenticAMD", never both, and any other string leaves both false |
| Detection.DetectHardwareFlag | src/x86/cpu_x86.cpp:116-161 | after a pass each hardware flag equals its table bit when its leaf's guard holds, and its prior value otherwise |
| Detection.FreshUnreachedFlags | src/x86/cpu_x86.cpp:108-161 | on a fresh object no hardware flag of an unreached leaf is set |
| Detection.FreshUnreachedGroups | src/x86/cpu_x86.cpp:108-161 | on a fresh object, signed nIds < 1 leaves all leaf-1 flags false, nIds < 7 all leaf-7 flags, unsigned nExIds < 0x80000001 all five extended flags |
| Detection.DetectIdempotent | src/x86/cpu_x86.cpp:94-162 | a second pass against the same host leaves every flag as the first pass left it |
| Detection.FreshSafeToUseAvx | src/x86/cpu_x86.cpp:221-222 | after a pass on a fresh object, AVX is safe iff leaf 1 is reached, leaf-1 ECX reports OSXSAVE and AVX, and XCR0 enables the SSE and AVX state |
| Detection.FreshSafeToUseAvx512 | src/x86/cpu_x86.cpp:221-223 | after a pass on a fresh object, AVX-512 is safe iff leaf 7 is reached and reports AVX512-F in EBX bit 16, the XGETBV guard holds and XCR0 enables the AVX-512 state |
| Detection.FreshAvx512ImpliesAvx | src/x86/cpu_x86.cpp:222-223 | on a fresh object, "Safe to use AVX512" implies "Safe to use AVX" |
| Detection.SafeNeedsOs | src/x86/cpu_x86.cpp:222-223 | each verdict is the hardware flag and the OS flag; without the OS flag it is false |
| Detection.HostQueriesGuarded | src/x86/cpu_x86.cpp:101-161 | detect_host's own CPUID calls include leaf 1, leaf 7 and leaf 0x80000001 exactly when their guards hold, and only its five leaves |
| Detection.DetectQueriesGuarded | src/x86/cpu_x86.cpp:94-162 | over a whole pass, leaf 1 is always queried (by the OS checks), leaves 7 and 0x80000001 exactly when their guards hold, XGETBV(0) exactly when leaf-1 ECX bits 27 and 28 are set |
| Detection.DetectQueriesOnly | src/x86/cpu_x86.cpp:94-162 | a pass issues no primitive call other than CPUID of its five leaves and XGETBV(0) |
| Detection.OsAvxQueryCounts | src/x86/cpu_x86.cpp:52-70 | detect_OS_AVX issues one CPUID, and one XGETBV iff the guard holds |
| Detection.OsAvx512QueryCounts | src/x86/cpu_x86.cpp:71-77 | detect_OS_AVX512 issues one CPUID and the XGETBVs of detect_OS_AVX, plus one more when that succeeds |
| Detection.HostQueryCounts | src/x86/cpu_x86.cpp:101-161 | detect_host itself issues three CPUIDs plus one per guard that holds, and no XGETBV |
| Detection.DetectQueryCounts | src/x86/cpu_x86.cpp:94-162 | one pass issues five CPUIDs plus one per guard that holds (five to eight), and zero, two or three XGETBVs |
| Vendor.GetVendorString | src/x86/cpu_x86.cpp:78-89 | returns exactly `VendorString` of the host's leaf-0 registers, and its only oracle call is one CPUID of leaf 0 |
| Vendor.AssembleVendor | src/x86/cpu_x86.cpp:80-88 | filling the 13-byte buffer with the three little-endian stores and the terminator, then reading it as a C string, gives exactly `VendorString` of the registers |
| Vendor.StoreLe | src/x86/cpu_x86.cpp:83-85 | `memcpy(buf + off, &reg, 4)` writes the four little-endian bytes of the register at off..off+3 and changes nothing else |
| Vendor.RawVendor | src/x86/cpu_x86.cpp:83-85 | the twelve copied bytes are those of EBX, then EDX, then ECX |
| Vendor.LeCharsInjective | src/x86/cpu_x86.cpp:83-85 | different register values leave different bytes in memory |
| Vendor.CString | src/x86/cpu_x86.cpp:88 | `std::string(name)` is the longest NUL-free prefix of the buffer, and it stops at a NUL when it stops early |
| Vendor.CStringTerminated | src/x86/cpu_x86.cpp:86-88 | the terminator at name[12] does not change the string |
| Vendor.CStringWithoutNul | src/x86/cpu_x86.cpp:88 | a buffer with no NUL is its own string |
| Vendor.VendorStringLength | src/x86/cpu_x86.cpp:78-89 | the vendor string has at most twelve characters, has twelve iff none of the twelve bytes is zero, and then is the twelve bytes |
| Vendor.VendorStringDeterminesRegs | src/x86/cpu_x86.cpp:78-89 | a twelve-character vendor string determines EBX, EDX and ECX |
| Vendor.IntelSpelling | src/x86/cpu_x86.cpp:102 | EBX, EDX, ECX = "Genu", "ineI", "ntel" give "GenuineIntel" |
| Vendor.AmdSpelling | src/x86/cpu_x86.cpp:104 | EBX, EDX, ECX = "Auth", "enti", "cAMD" give "AuthenticAMD" |
| Vendor.IntelSignature | src/x86/cpu_x86.cpp:101-103 | the vendor string is "GenuineIntel" iff the three registers have the Intel values |
| Vendor.AmdSignature | src/x86/cpu_x86.cpp:104-105 | the vendor string is "AuthenticAMD" iff the three registers have the AMD values |
| Scenarios.IntelAvxOnly | src/x86/cpu_x86.cpp:94-162 | an Intel host with XCR0 = 0x7 is reported Intel, OS AVX but not OS AVX-512, with SSE2, AVX512-VL and x64, AVX safe and AVX-512 not |
| Scenarios.IntelAvx512 | src/x86/cpu_x86.cpp:94-162 | the same host with XCR0 = 0xE7 has both verdicts Yes |
| Scenarios.IntelNoAvxState | src/x86/cpu_x86.cpp:52-77 | with XCR0 = 0x2 HW_AVX is set but OS_AVX is not, so AVX is not safe |
| Scenarios.NegativeMaximum | src/x86/cpu_x86.cpp:108-133 | leaf-0 EAX = 0x80000007 decodes neither standard leaf; detect_host itself does not query leaf 1, which only the OS checks query, and leaf 7 is not queried; with leaf-0x80000000 EAX = 0, leaf 0x80000001 is not queried either |
| Scenarios.IntelThenAmd | src/x86/cpu_x86.cpp:100-106 | one object run by DetectHost on an Intel host and then on an AMD host ends with both Vendor_Intel and Vendor_AMD true |

## Left out

- `detect_OS_x64` is defined in the platform files (`cpu_x86_Windows.ipp`, `cpu_x86_Linux.ipp`), which are not part of this model. `OS_x64` takes the host's `osX64` answer unchanged. It makes no entry in the call log.
- The `cpuid` and `xgetbv` intrinsics are foreign platform calls.
  - They are modelled as the methods of `Oracle`, which answer from a `Host` value.
  - The host's `Cpuid` answers the five leaves `detect_host` reads, and zeros for any other leaf.
  - The host's `Xgetbv` answers XCR0, and zero for any other register.
  - Sub-leaves (ECX on input) are not modelled; the source never sets them.
- The `int info[4]` array that `detect_host` reuses across queries is modelled as a `Regs` value for each query. The array's aliasing across the three blocks affects nothing, because each block reads only the answer to its own query.
- The thirty-two `HW_` fields are held in three record-valued fields of `CpuX86`, one per decoding block. A block's assignments update its record field by field.
- `detect_host` is split into methods for its parts: `DetectOs`, `DetectVendor` and `DetectFeatures`, which calls the three block methods. The order of calls is the source's.
- The log of primitive calls is the ghost field `log` of `Oracle`. Only the oracle's `Cpuid` and `Xgetbv` methods append to it, one entry per call. The oracle's `host` is an ordinary field, and the detector's methods read it only through those methods; Dafny does not enforce this. The functions `OsAvx` and `OsAvx512` give the calls of the OS checks as a value.
- The `memset(this, 0, sizeof(*this))` of the constructor is modelled as assigning false to every field.
- The `print(ostream&, const char*, bool)` and `print(ostream&)` output and `print_host` are text formatting and stream I/O. Only the two summary ANDs are modelled.
- The `#error` compiler and architecture guards are build-time only.
- `(int)1 << 31` in the `HW_AVX512_VL` line is read as the mask of bit 31, which is the value it has under two's complement.
- A pass does not overwrite every flag. The vendor flags are only ever set to true, and the flags of a leaf whose guard fails keep their earlier values (`Detection.DetectVendorFlags`, `Detection.DetectHardwareFlag`). So passes on an Intel host and then an AMD host leave both vendor flags set (`Scenarios.IntelThenAmd`).
- A pass issues five to eight CPUID queries and zero, two or three XGETBV calls (`Detection.DetectQueryCounts`). The OS checks query leaf 1 whatever `nIds` is, `detect_OS_AVX512` repeats `detect_OS_AVX`, and leaf 0 is queried twice.
- The vendor string is shorter than twelve characters when one of its bytes is zero, because the conversion from `char*` stops at the first zero byte (`Vendor.VendorStringLength`).
