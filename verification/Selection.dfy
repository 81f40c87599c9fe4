// SelectInstanceType of both drivers: sort the catalogue by capacity, take the
// first entry that covers the demand.
module Selection {
  import opened Records
  import opened Quantity
  import opened Ordering

  datatype InstanceSpec = InstanceSpec(name: string, vcpus: real, memoryMiB: real)

  datatype SelectError = ErrNoInstanceType | ErrParse

  datatype Selected = Selected(name: string) | Failed(error: SelectError)

  const KUBEVIRT_TYPES: seq<InstanceSpec> := [
    InstanceSpec("cx1.medium", 1.0, 2048.0), InstanceSpec("cx1.large", 2.0, 4096.0),
    InstanceSpec("cx1.xlarge", 4.0, 8192.0), InstanceSpec("cx1.2xlarge", 8.0, 16384.0),
    InstanceSpec("cx1.4xlarge", 16.0, 32768.0), InstanceSpec("cx1.8xlarge", 32.0, 65536.0),
    InstanceSpec("d1.micro", 1.0, 1024.0), InstanceSpec("d1.small", 1.0, 2048.0),
    InstanceSpec("d1.medium", 1.0, 4096.0), InstanceSpec("d1.large", 2.0, 8192.0),
    InstanceSpec("d1.xlarge", 4.0, 16384.0), InstanceSpec("d1.2xlarge", 8.0, 32768.0),
    InstanceSpec("d1.4xlarge", 16.0, 65536.0), InstanceSpec("d1.8xlarge", 32.0, 131072.0)]

  const EC2_TYPES: seq<InstanceSpec> := [
    InstanceSpec("c7i.large", 2.0, 4096.0), InstanceSpec("c7i.xlarge", 4.0, 8192.0),
    InstanceSpec("c7i.2xlarge", 8.0, 16384.0), InstanceSpec("c7i.4xlarge", 16.0, 32768.0),
    InstanceSpec("c7i.8xlarge", 32.0, 65536.0), InstanceSpec("c7i.12xlarge", 48.0, 98304.0),
    InstanceSpec("c7i.16xlarge", 64.0, 131072.0), InstanceSpec("c7i.24xlarge", 96.0, 196608.0),
    InstanceSpec("c7i.48xlarge", 192.0, 393216.0),
    InstanceSpec("m7i.large", 2.0, 8192.0), InstanceSpec("m7i.xlarge", 4.0, 16384.0),
    InstanceSpec("m7i.2xlarge", 8.0, 32768.0), InstanceSpec("m7i.4xlarge", 16.0, 65536.0),
    InstanceSpec("m7i.8xlarge", 32.0, 131072.0), InstanceSpec("m7i.12xlarge", 48.0, 196608.0),
    InstanceSpec("m7i.16xlarge", 64.0, 262144.0), InstanceSpec("m7i.24xlarge", 96.0, 393216.0),
    InstanceSpec("m7i.48xlarge", 192.0, 786432.0),
    InstanceSpec("r7i.large", 2.0, 16384.0), InstanceSpec("r7i.xlarge", 4.0, 32768.0),
    InstanceSpec("r7i.2xlarge", 8.0, 65536.0), InstanceSpec("r7i.4xlarge", 16.0, 131072.0),
    InstanceSpec("r7i.8xlarge", 32.0, 262144.0), InstanceSpec("r7i.12xlarge", 48.0, 393216.0),
    InstanceSpec("r7i.16xlarge", 64.0, 524288.0), InstanceSpec("r7i.24xlarge", 96.0, 786432.0),
    InstanceSpec("r7i.48xlarge", 192.0, 1572864.0)]

  // Fewer vCPUs first, less memory breaking ties.
  predicate SmallerEq(a: InstanceSpec, b: InstanceSpec) {
    a.vcpus < b.vcpus || (a.vcpus == b.vcpus && a.memoryMiB <= b.memoryMiB)
  }

  ghost predicate BySize(s: seq<InstanceSpec>) {
    forall i, j :: 0 <= i < j < |s| ==> SmallerEq(s[i], s[j])
  }

  predicate Covers(e: InstanceSpec, vcpus: real, memoryMiB: real) {
    e.vcpus >= vcpus && e.memoryMiB >= memoryMiB
  }

  // An entry of the catalogue that covers the demand, with the least capacity
  // of all that do.
  ghost predicate BestFit(e: InstanceSpec, types: seq<InstanceSpec>, vcpus: real, memoryMiB: real) {
    e in types && Covers(e, vcpus, memoryMiB) && forall f :: f in types && Covers(f, vcpus, memoryMiB) ==> SmallerEq(e, f)
  }

  // ---- Demand ----------------------------------------------------------------

  function Max(a: real, b: real): real { if a >= b then a else b }

  // An empty quantity asks for nothing.
  function Asked(value: string, parsed: Option<real>): Option<real> {
    if value == "" then Some(0.0) else parsed
  }

  function Larger(a: Option<real>, b: Option<real>): Option<real> {
    if a.None? || b.None? then None else Some(Max(a.value, b.value))
  }

  function CpuDemand(lib: Library, r: Requirements): Option<real> {
    Larger(Asked(r.cpuRequest, ParseCPU(lib, r.cpuRequest)), Asked(r.cpuLimit, ParseCPU(lib, r.cpuLimit)))
  }

  function MemoryDemand(lib: Library, r: Requirements): Option<real> {
    Larger(Asked(r.memoryRequest, ParseMemory(lib, r.memoryRequest)), Asked(r.memoryLimit, ParseMemory(lib, r.memoryLimit)))
  }

  predicate Empty(r: Requirements) {
    r.cpuRequest == "" && r.cpuLimit == "" && r.memoryRequest == "" && r.memoryLimit == ""
  }

  // ---- Selection ---------------------------------------------------------------

  lemma SizesCompare()
    ensures Compares(SmallerEq) && forall s: seq<InstanceSpec> :: Ordered(s, SmallerEq) <==> BySize(s)
  {
  }

  method SortBySize(a: array<InstanceSpec>)
    modifies a
    ensures BySize(a[..]) && multiset(a[..]) == multiset(old(a[..]))
  {
    SizesCompare();
    SortSlice(a, SmallerEq);
  }

  method FirstFit(types: seq<InstanceSpec>, vcpus: real, memoryMiB: real) returns (fit: Option<InstanceSpec>)
    ensures fit.Some? ==> BestFit(fit.value, types, vcpus, memoryMiB)
    ensures fit.None? <==> forall f :: f in types ==> !Covers(f, vcpus, memoryMiB)
  {
    var sorted := new InstanceSpec[|types|](i requires 0 <= i < |types| => types[i]);
    assert sorted[..] == types;
    SortBySize(sorted);
    forall f ensures f in sorted[..] <==> f in types {
      assert f in sorted[..] <==> f in multiset(sorted[..]);
      assert f in types <==> f in multiset(types);
    }
    for i := 0 to sorted.Length
      invariant forall j :: 0 <= j < i ==> !Covers(sorted[j], vcpus, memoryMiB)
    {
      if Covers(sorted[i], vcpus, memoryMiB) {
        assert sorted[i] in sorted[..];
        forall f | f in types && Covers(f, vcpus, memoryMiB) ensures SmallerEq(sorted[i], f) {
          var k :| 0 <= k < |sorted[..]| && sorted[..][k] == f;
        }
        return Some(sorted[i]);
      }
    }
    forall f | f in types ensures !Covers(f, vcpus, memoryMiB) {
      assert f in sorted[..];
    }
    return None;
  }

  // What a driver selects: its default when nothing is asked for, otherwise a
  // best fit, or none exactly when no entry covers the demand.
  ghost predicate Selects(
    types: seq<InstanceSpec>, lib: Library, resources: Option<Requirements>, fallback: Selected, result: Selected)
  {
    if resources.None? || Empty(resources.value) then result == fallback
    else
      var cpu, memory := CpuDemand(lib, resources.value), MemoryDemand(lib, resources.value);
      if cpu.None? || memory.None? then result == Failed(ErrParse)
      else
        match result
        case Selected(name) => exists e :: BestFit(e, types, cpu.value, memory.value) && e.name == name
        case Failed(error) =>
          error == ErrNoInstanceType && forall f :: f in types ==> !Covers(f, cpu.value, memory.value)
  }

  method AskedCpu(lib: Library, r: Requirements) returns (vcpus: Option<real>)
    ensures vcpus == CpuDemand(lib, r)
  {
    hide ParseCPU;
    NaturalDemand(lib, r);
    vcpus := Some(0.0);
    if r.cpuRequest != "" {
      vcpus := ParseCPU(lib, r.cpuRequest);
      if vcpus.None? { return; }
    }
    if r.cpuLimit != "" {
      var v := ParseCPU(lib, r.cpuLimit);
      if v.None? { return None; }
      vcpus := Some(Max(vcpus.value, v.value));
    }
  }

  method AskedMemory(lib: Library, r: Requirements) returns (memoryMiB: Option<real>)
    ensures memoryMiB == MemoryDemand(lib, r)
  {
    hide ParseMemory;
    NaturalDemand(lib, r);
    memoryMiB := Some(0.0);
    if r.memoryRequest != "" {
      memoryMiB := ParseMemory(lib, r.memoryRequest);
      if memoryMiB.None? { return; }
    }
    if r.memoryLimit != "" {
      var v := ParseMemory(lib, r.memoryLimit);
      if v.None? { return None; }
      memoryMiB := Some(Max(memoryMiB.value, v.value));
    }
  }

  method SelectFrom(types: seq<InstanceSpec>, lib: Library, r: Requirements) returns (result: Selected)
    requires !Empty(r)
    ensures Selects(types, lib, Some(r), result, result)
  {
    hide CpuDemand, MemoryDemand;
    var vcpus := AskedCpu(lib, r);
    if vcpus.None? { return Failed(ErrParse); }
    var memoryMiB := AskedMemory(lib, r);
    if memoryMiB.None? { return Failed(ErrParse); }
    var fit := FirstFit(types, vcpus.value, memoryMiB.value);
    if fit.None? { return Failed(ErrNoInstanceType); }
    return Selected(fit.value.name);
  }

  // What parses is not negative.
  lemma NaturalDemand(lib: Library, r: Requirements)
    ensures ParseCPU(lib, r.cpuRequest).Some? ==> ParseCPU(lib, r.cpuRequest).value >= 0.0
    ensures ParseCPU(lib, r.cpuLimit).Some? ==> ParseCPU(lib, r.cpuLimit).value >= 0.0
    ensures ParseMemory(lib, r.memoryRequest).Some? ==> ParseMemory(lib, r.memoryRequest).value >= 0.0
    ensures ParseMemory(lib, r.memoryLimit).Some? ==> ParseMemory(lib, r.memoryLimit).value >= 0.0
  {
    hide ParseCPU, ParseMemory;
    CpuIsNatural(lib, r.cpuRequest);
    CpuIsNatural(lib, r.cpuLimit);
    MemoryIsNatural(lib, r.memoryRequest);
    MemoryIsNatural(lib, r.memoryLimit);
  }

  method SelectKubeVirtType(lib: Library, resources: Option<Requirements>, defaultType: string) returns (result: Selected)
    ensures Selects(KUBEVIRT_TYPES, lib, resources,
                    if defaultType == "" then Failed(ErrNoInstanceType) else Selected(defaultType), result)
  {
    if resources.None? || Empty(resources.value) {
      if defaultType == "" { return Failed(ErrNoInstanceType); }
      return Selected(defaultType);
    }
    result := SelectFrom(KUBEVIRT_TYPES, lib, resources.value);
  }

  method SelectEc2Type(lib: Library, resources: Option<Requirements>, defaultType: string) returns (result: Selected)
    ensures Selects(EC2_TYPES, lib, resources, Selected(defaultType), result)
  {
    if resources.None? || Empty(resources.value) { return Selected(defaultType); }
    result := SelectFrom(EC2_TYPES, lib, resources.value);
  }

  // A selection in words: the default if neither CPU nor memory is asked for, in
  // request or limit; an error if some quantity given does not parse; otherwise
  // a best fit for the demand, or an error if nothing fits.
  lemma SelectsInWords(
    types: seq<InstanceSpec>, lib: Library, resources: Option<Requirements>, fallback: Selected, result: Selected)
    requires Selects(types, lib, resources, fallback, result)
    ensures
      var asked := resources.Some? && (resources.value.cpuRequest != "" || resources.value.cpuLimit != ""
                                       || resources.value.memoryRequest != "" || resources.value.memoryLimit != "");
      if !asked then result == fallback
      else if Unreadable(lib, resources.value) then result == Failed(ErrParse)
      else
        var cpu, memory := CpuDemand(lib, resources.value), MemoryDemand(lib, resources.value);
        cpu.Some? && memory.Some?
        && (if exists e :: e in types && Covers(e, cpu.value, memory.value)
            then exists e :: BestFit(e, types, cpu.value, memory.value) && result == Selected(e.name)
            else result == Failed(ErrNoInstanceType))
  {
    hide ParseCPU, ParseMemory;
  }

  // Some quantity is given that does not parse.
  predicate Unreadable(lib: Library, r: Requirements) {
    || (r.cpuRequest != "" && ParseCPU(lib, r.cpuRequest).None?) || (r.cpuLimit != "" && ParseCPU(lib, r.cpuLimit).None?)
    || (r.memoryRequest != "" && ParseMemory(lib, r.memoryRequest).None?) || (r.memoryLimit != "" && ParseMemory(lib, r.memoryLimit).None?)
  }

  // A best fit has enough of both, and of all that have, the fewest vCPUs and
  // then the least memory.
  lemma BestFitInWords(e: InstanceSpec, types: seq<InstanceSpec>, vcpus: real, memoryMiB: real)
    ensures BestFit(e, types, vcpus, memoryMiB) <==>
              && e in types && e.vcpus >= vcpus && e.memoryMiB >= memoryMiB
              && forall f :: f in types && f.vcpus >= vcpus && f.memoryMiB >= memoryMiB ==>
                   e.vcpus < f.vcpus || (e.vcpus == f.vcpus && e.memoryMiB <= f.memoryMiB)
  {
  }

  // ---- What follows for every selection ----------------------------------------

  // Requirements accepted at validation never fail to parse at selection.
  lemma AcceptedNeverFailsToParse(
    types: seq<InstanceSpec>, lib: Library, r: Requirements, fallback: Selected, result: Selected)
    requires Acceptable(lib, r) && fallback != Failed(ErrParse) && Selects(types, lib, Some(r), fallback, result)
    ensures result != Failed(ErrParse)
  {
  }

  // The demand is the larger of request and limit in each dimension, and it is
  // never negative.
  lemma DemandCoversBoth(lib: Library, r: Requirements)
    requires Acceptable(lib, r)
    ensures CpuDemand(lib, r).Some? && MemoryDemand(lib, r).Some?
    ensures r.cpuRequest != "" ==> CpuDemand(lib, r).value >= ParseCPU(lib, r.cpuRequest).value
    ensures r.cpuLimit != "" ==> CpuDemand(lib, r).value >= ParseCPU(lib, r.cpuLimit).value
    ensures r.memoryRequest != "" ==> MemoryDemand(lib, r).value >= ParseMemory(lib, r.memoryRequest).value
    ensures r.memoryLimit != "" ==> MemoryDemand(lib, r).value >= ParseMemory(lib, r.memoryLimit).value
    ensures CpuDemand(lib, r).value >= 0.0 && MemoryDemand(lib, r).value >= 0.0
    ensures || CpuDemand(lib, r).value == 0.0
            || (r.cpuRequest != "" && CpuDemand(lib, r) == ParseCPU(lib, r.cpuRequest))
            || (r.cpuLimit != "" && CpuDemand(lib, r) == ParseCPU(lib, r.cpuLimit))
    ensures || MemoryDemand(lib, r).value == 0.0
            || (r.memoryRequest != "" && MemoryDemand(lib, r) == ParseMemory(lib, r.memoryRequest))
            || (r.memoryLimit != "" && MemoryDemand(lib, r) == ParseMemory(lib, r.memoryLimit))
  {
    hide ParseCPU, ParseMemory;
    NaturalDemand(lib, r);
  }

  lemma CpuIsNatural(lib: Library, s: string)
    ensures ParseCPU(lib, s).Some? ==> ParseCPU(lib, s).value >= 0.0
  {
  }

  lemma PositiveMultipliers(e: (string, real))
    requires e in BINARY_SUFFIXES + DECIMAL_SUFFIXES
    ensures e.1 > 0.0
  {
  }

  lemma MemoryIsNatural(lib: Library, text: string)
    ensures ParseMemory(lib, text).Some? ==> ParseMemory(lib, text).value >= 0.0
  {
    hide FirstSuffix, HasSuffix, TrimSuffix, Scaled, BINARY_SUFFIXES, DECIMAL_SUFFIXES;
    var s := lib.trimSpace(text);
    var entry := FirstSuffix(BINARY_SUFFIXES + DECIMAL_SUFFIXES, s);
    if entry.Some? {
      PositiveMultipliers(entry.value);
      Product(Amount(lib, TrimSuffix(s, entry.value.0)), entry.value.1);
    } else {
      Product(Amount(lib, s), 1.0 / BYTES_PER_MIB);
    }
  }

  lemma Product(v: Option<real>, factor: real)
    requires factor > 0.0 && (v.Some? ==> v.value >= 0.0)
    ensures Scaled(v, factor).Some? ==> Scaled(v, factor).value >= 0.0
  {
  }

  // Asking for more never selects less, and what covers more covers less.
  lemma MoreNeverSelectsLess(
    types: seq<InstanceSpec>, e: InstanceSpec, f: InstanceSpec, vcpus: real, memory: real, vcpus': real, memory': real)
    requires vcpus <= vcpus' && memory <= memory'
    requires BestFit(e, types, vcpus, memory) && BestFit(f, types, vcpus', memory')
    ensures SmallerEq(e, f)
  {
  }

  // KubeVirt's largest type dominates its catalogue, EC2's likewise, so these
  // bounds say exactly when nothing fits.
  lemma FitsKubeVirt(vcpus: real, memory: real)
    ensures (exists e :: e in KUBEVIRT_TYPES && Covers(e, vcpus, memory)) <==> vcpus <= 32.0 && memory <= 131072.0
  {
    assert KUBEVIRT_TYPES[13] in KUBEVIRT_TYPES;
    forall e | e in KUBEVIRT_TYPES ensures e.vcpus <= 32.0 && e.memoryMiB <= 131072.0 {}
  }

  lemma FitsEc2(vcpus: real, memory: real)
    ensures (exists e :: e in EC2_TYPES && Covers(e, vcpus, memory)) <==> vcpus <= 192.0 && memory <= 1572864.0
  {
    assert |EC2_TYPES| == 27;
    hide EC2_TYPES;
    var f1, k1 := Ec2Shape(26);
    assert EC2_TYPES[26] in EC2_TYPES;
    forall e | e in EC2_TYPES ensures e.vcpus <= 192.0 && e.memoryMiB <= 1572864.0 {
      var i :| 0 <= i < |EC2_TYPES| && EC2_TYPES[i] == e;
      var f2, k2 := Ec2Shape(i);
    }
  }

  // The unstable sort leaves the EC2 selection no choice; KubeVirt's only tie
  // is between two types of one vCPU and 2 GiB.
  lemma Ec2FitIsUnique(e: InstanceSpec, f: InstanceSpec, vcpus: real, memory: real)
    requires BestFit(e, EC2_TYPES, vcpus, memory) && BestFit(f, EC2_TYPES, vcpus, memory)
    ensures e == f
  {
    hide EC2_TYPES;
    var i :| 0 <= i < |EC2_TYPES| && EC2_TYPES[i] == e;
    var j :| 0 <= j < |EC2_TYPES| && EC2_TYPES[j] == f;
    var f1, k1 := Ec2Shape(i);
    var f2, k2 := Ec2Shape(j);
  }

  const EC2_SIZES: seq<real> := [2.0, 4.0, 8.0, 16.0, 32.0, 48.0, 64.0, 96.0, 192.0]

  // Three families of nine sizes: 2, 4 and 8 GiB for each vCPU.
  lemma Ec2Shape(i: nat) returns (family: nat, k: nat)
    requires i < |EC2_TYPES|
    ensures |EC2_TYPES| == 27 && |EC2_SIZES| == 9 && k < 9 && family < 3 && i == 9 * family + k
    ensures EC2_TYPES[i].vcpus == EC2_SIZES[k]
    ensures family == 0 ==> EC2_TYPES[i].memoryMiB == EC2_SIZES[k] * 2048.0
    ensures family == 1 ==> EC2_TYPES[i].memoryMiB == EC2_SIZES[k] * 4096.0
    ensures family == 2 ==> EC2_TYPES[i].memoryMiB == EC2_SIZES[k] * 8192.0
  {
    assert |EC2_TYPES| == 27;
    hide EC2_TYPES, EC2_SIZES;
    if i < 9 {
      family, k := 0, i;
      Ec2ComputeShape(k);
    } else if i < 18 {
      family, k := 1, i - 9;
      Ec2GeneralShape(k);
    } else {
      family, k := 2, i - 18;
      Ec2MemoryShape(k);
    }
  }

  lemma Ec2ComputeShape(k: nat)
    requires k < 9
    ensures |EC2_SIZES| == 9 && |EC2_TYPES| == 27
    ensures EC2_TYPES[k].vcpus == EC2_SIZES[k] && EC2_TYPES[k].memoryMiB == EC2_SIZES[k] * 2048.0
  {
  }

  lemma Ec2GeneralShape(k: nat)
    requires k < 9
    ensures |EC2_SIZES| == 9 && |EC2_TYPES| == 27
    ensures EC2_TYPES[k + 9].vcpus == EC2_SIZES[k] && EC2_TYPES[k + 9].memoryMiB == EC2_SIZES[k] * 4096.0
  {
  }

  lemma Ec2MemoryShape(k: nat)
    requires k < 9
    ensures |EC2_SIZES| == 9 && |EC2_TYPES| == 27
    ensures EC2_TYPES[k + 18].vcpus == EC2_SIZES[k] && EC2_TYPES[k + 18].memoryMiB == EC2_SIZES[k] * 8192.0
  {
  }

  const KUBEVIRT_SIZES: seq<real> := [1.0, 2.0, 4.0, 8.0, 16.0, 32.0]

  // Six sizes of 2 GiB for each vCPU, six of 4 GiB, and two small ones between.
  lemma KubeVirtShape(i: nat)
    requires i < |KUBEVIRT_TYPES|
    ensures |KUBEVIRT_TYPES| == 14 && |KUBEVIRT_SIZES| == 6
    ensures KUBEVIRT_TYPES[i].vcpus == KUBEVIRT_SIZES[if i < 6 then i else if i < 8 then 0 else i - 8]
    ensures KUBEVIRT_TYPES[i].memoryMiB ==
            KUBEVIRT_TYPES[i].vcpus * (if i == 6 then 1024.0 else if i < 8 then 2048.0 else 4096.0)
    ensures KUBEVIRT_TYPES[0].name == "cx1.medium" && KUBEVIRT_TYPES[7].name == "d1.small"
  {
  }

  lemma KubeVirtFitIsUniqueButForOneTie(e: InstanceSpec, f: InstanceSpec, vcpus: real, memory: real)
    requires BestFit(e, KUBEVIRT_TYPES, vcpus, memory) && BestFit(f, KUBEVIRT_TYPES, vcpus, memory)
    ensures e == f || {e.name, f.name} == {"cx1.medium", "d1.small"}
  {
    hide KUBEVIRT_TYPES;
    var i :| 0 <= i < |KUBEVIRT_TYPES| && KUBEVIRT_TYPES[i] == e;
    var j :| 0 <= j < |KUBEVIRT_TYPES| && KUBEVIRT_TYPES[j] == f;
    KubeVirtShape(i);
    KubeVirtShape(j);
    assert i == j || (i == 0 && j == 7) || (i == 7 && j == 0);
  }

  // ---- Names ---------------------------------------------------------------------

  const EC2_SIZE_NAMES: seq<string> :=
    ["large", "xlarge", "2xlarge", "4xlarge", "8xlarge", "12xlarge", "16xlarge", "24xlarge", "48xlarge"]
  const KUBEVIRT_SIZE_NAMES: seq<string> := ["medium", "large", "xlarge", "2xlarge", "4xlarge", "8xlarge"]

  // The name of a type says its family and its size, and so its capacity.
  lemma Ec2Named(k: nat)
    requires k < 9
    ensures |EC2_SIZE_NAMES| == 9 && |EC2_TYPES| == 27
    ensures EC2_TYPES[k].name == "c7i." + EC2_SIZE_NAMES[k]
    ensures EC2_TYPES[9 + k].name == "m7i." + EC2_SIZE_NAMES[k]
    ensures EC2_TYPES[18 + k].name == "r7i." + EC2_SIZE_NAMES[k]
  {
    Ec2ComputeNamed(k);
    Ec2GeneralNamed(k);
    Ec2MemoryNamed(k);
    hide EC2_TYPES, EC2_SIZE_NAMES;
  }

  lemma Ec2ComputeNamed(k: nat)
    requires k < 9
    ensures |EC2_SIZE_NAMES| == 9 && |EC2_TYPES| == 27 && EC2_TYPES[k].name == "c7i." + EC2_SIZE_NAMES[k]
  {
  }

  lemma Ec2GeneralNamed(k: nat)
    requires k < 9
    ensures |EC2_SIZE_NAMES| == 9 && |EC2_TYPES| == 27 && EC2_TYPES[9 + k].name == "m7i." + EC2_SIZE_NAMES[k]
  {
  }

  lemma Ec2MemoryNamed(k: nat)
    requires k < 9
    ensures |EC2_SIZE_NAMES| == 9 && |EC2_TYPES| == 27 && EC2_TYPES[18 + k].name == "r7i." + EC2_SIZE_NAMES[k]
  {
  }

  lemma KubeVirtNamed(k: nat)
    requires k < 6
    ensures |KUBEVIRT_SIZE_NAMES| == 6 && |KUBEVIRT_TYPES| == 14
    ensures KUBEVIRT_TYPES[k].name == "cx1." + KUBEVIRT_SIZE_NAMES[k]
    ensures KUBEVIRT_TYPES[k + 8].name == "d1." + KUBEVIRT_SIZE_NAMES[k]
    ensures KUBEVIRT_TYPES[6].name == "d1.micro" && KUBEVIRT_TYPES[7].name == "d1.small"
  {
  }
}
