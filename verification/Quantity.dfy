// Kubernetes-style CPU and memory quantities, over exact reals.
module Quantity {
  import opened Records

  // What strconv.ParseFloat may accept.
  datatype Float = Finite(value: real) | NaN | Infinite(negative: bool)

  // The two string functions of Go's library the parsers rely on.
  datatype Library = Library(trimSpace: string -> string, parseFloat: string -> Option<Float>)

  function Amount(lib: Library, digits: string): Option<real> {
    match lib.parseFloat(digits)
    case Some(Finite(v)) => if v < 0.0 then None else Some(v)
    case _ => None
  }

  predicate HasSuffix(s: string, suffix: string) {
    |suffix| <= |s| && s[|s| - |suffix|..] == suffix
  }

  function TrimSuffix(s: string, suffix: string): string {
    if HasSuffix(s, suffix) then s[..|s| - |suffix|] else s
  }

  // In cores.
  function ParseCPU(lib: Library, text: string): Option<real> {
    var s := lib.trimSpace(text);
    if s == "" then None
    else if HasSuffix(s, "m") then
      match Amount(lib, TrimSuffix(s, "m"))
      case None => None
      case Some(v) => Some(v / 1000.0)
    else Amount(lib, s)
  }

  const BYTES_PER_MIB: real := 1048576.0

  // Suffixes with their multipliers to MiB, in the order they are tried.
  const BINARY_SUFFIXES: seq<(string, real)> := [
    ("Ei", 1048576.0 * 1048576.0), ("Pi", 1024.0 * 1048576.0), ("Ti", 1048576.0),
    ("Gi", 1024.0), ("Mi", 1.0), ("Ki", 1.0 / 1024.0)]

  const DECIMAL_SUFFIXES: seq<(string, real)> := [
    ("E", 1_000_000_000_000_000_000.0 / BYTES_PER_MIB), ("P", 1_000_000_000_000_000.0 / BYTES_PER_MIB),
    ("T", 1_000_000_000_000.0 / BYTES_PER_MIB), ("G", 1_000_000_000.0 / BYTES_PER_MIB),
    ("M", 1_000_000.0 / BYTES_PER_MIB), ("K", 1_000.0 / BYTES_PER_MIB), ("k", 1_000.0 / BYTES_PER_MIB)]

  // The first entry of a table whose suffix the text has.
  function FirstSuffix(table: seq<(string, real)>, s: string): (entry: Option<(string, real)>)
    ensures entry.Some? ==> entry.value in table && HasSuffix(s, entry.value.0)
    ensures entry.None? ==> forall e :: e in table ==> !HasSuffix(s, e.0)
  {
    if table == [] then None
    else if HasSuffix(s, table[0].0) then Some(table[0])
    else FirstSuffix(table[1..], s)
  }

  // In MiB.
  function ParseMemory(lib: Library, text: string): Option<real> {
    var s := lib.trimSpace(text);
    if s == "" then None
    else
      match FirstSuffix(BINARY_SUFFIXES + DECIMAL_SUFFIXES, s)
      case Some(entry) => Scaled(Amount(lib, TrimSuffix(s, entry.0)), entry.1)
      case None => Scaled(Amount(lib, s), 1.0 / BYTES_PER_MIB)
  }

  function Scaled(v: Option<real>, factor: real): Option<real> {
    if v.None? then None else Some(v.value * factor)
  }

  function Power(base: real, n: nat): real {
    if n == 0 then 1.0 else base * Power(base, n - 1)
  }

  // Every multiplier turns its suffix's number of bytes into MiB: powers of
  // 1024 for the binary suffixes, of 1000 for the decimal ones.
  lemma MultipliersAreUnits()
    ensures forall i :: 0 <= i < 6 ==> BINARY_SUFFIXES[i].1 * BYTES_PER_MIB == Power(1024.0, 6 - i)
    ensures forall i :: 0 <= i < 6 ==> DECIMAL_SUFFIXES[i].1 * BYTES_PER_MIB == Power(1000.0, 6 - i)
    ensures DECIMAL_SUFFIXES[6].1 == DECIMAL_SUFFIXES[5].1
  {
    Powers(1024.0);
    Powers(1000.0);
  }

  lemma Powers(b: real)
    ensures Power(b, 1) == b && Power(b, 2) == b * b && Power(b, 3) == b * (b * b)
    ensures Power(b, 4) == b * (b * (b * b)) && Power(b, 5) == b * (b * (b * (b * b)))
    ensures Power(b, 6) == b * (b * (b * (b * (b * b))))
  {
    assert Power(b, 1) == b * Power(b, 0);
    assert Power(b, 2) == b * Power(b, 1);
    assert Power(b, 3) == b * Power(b, 2);
    assert Power(b, 4) == b * Power(b, 3);
    assert Power(b, 5) == b * Power(b, 4);
  }

  // No text ends in two of the suffixes, so the order they are tried in and
  // the split into two tables decide nothing.
  lemma SuffixIsUnique(s: string, a: (string, real), b: (string, real))
    requires a in BINARY_SUFFIXES + DECIMAL_SUFFIXES && b in BINARY_SUFFIXES + DECIMAL_SUFFIXES
    requires HasSuffix(s, a.0) && HasSuffix(s, b.0)
    ensures a == b
  {
    assert s[|s| - 1] == a.0[|a.0| - 1] == b.0[|b.0| - 1];
    assert |a.0| == 2 <==> a.0[|a.0| - 1] == 'i';
    assert |b.0| == 2 <==> b.0[|b.0| - 1] == 'i';
    if |a.0| == 2 {
      assert s[|s| - 2] == a.0[0] == b.0[0];
    }
  }

  // Optional values that ParseCPU and ParseMemory accept.
  predicate Acceptable(lib: Library, r: Requirements) {
    && (r.cpuRequest != "" ==> ParseCPU(lib, r.cpuRequest).Some?)
    && (r.cpuLimit != "" ==> ParseCPU(lib, r.cpuLimit).Some?)
    && (r.memoryRequest != "" ==> ParseMemory(lib, r.memoryRequest).Some?)
    && (r.memoryLimit != "" ==> ParseMemory(lib, r.memoryLimit).Some?)
  }

  datatype Requirements = Requirements(cpuRequest: string, cpuLimit: string, memoryRequest: string, memoryLimit: string)

  // Collects the names of the fields that do not parse.
  method ValidateRequirements(lib: Library, r: Requirements) returns (errs: seq<string>)
    ensures errs == [] <==> Acceptable(lib, r)
  {
    errs := [];
    var cpu := [("cpu request", r.cpuRequest), ("cpu limit", r.cpuLimit)];
    var memory := [("memory request", r.memoryRequest), ("memory limit", r.memoryLimit)];
    for i := 0 to |cpu|
      invariant errs == [] <==> forall j :: 0 <= j < i ==> cpu[j].1 == "" || ParseCPU(lib, cpu[j].1).Some?
    {
      if cpu[i].1 != "" && ParseCPU(lib, cpu[i].1).None? { errs := errs + [cpu[i].0]; }
    }
    assert errs == [] <==> (forall j :: 0 <= j < 2 ==> cpu[j].1 == "" || ParseCPU(lib, cpu[j].1).Some?);
    assert cpu[0].1 == r.cpuRequest && cpu[1].1 == r.cpuLimit;
    ghost var cpuOk := errs == [];
    for i := 0 to |memory|
      invariant errs == [] <==> cpuOk && forall j :: 0 <= j < i ==> memory[j].1 == "" || ParseMemory(lib, memory[j].1).Some?
    {
      if memory[i].1 != "" && ParseMemory(lib, memory[i].1).None? { errs := errs + [memory[i].0]; }
    }
    assert memory[0].1 == r.memoryRequest && memory[1].1 == r.memoryLimit;
  }

  // ---- What is read -----------------------------------------------------------

  // The digits spell this number, which is not negative.
  ghost predicate Number(lib: Library, digits: string, v: real) {
    v >= 0.0 && lib.parseFloat(digits) == Some(Finite(v))
  }

  // An amount of cores: a number of them, or of thousandths before an "m".
  lemma CpuReads(lib: Library, text: string, cores: real)
    ensures
      var s := lib.trimSpace(text);
      ParseCPU(lib, text) == Some(cores) <==>
        s != "" && if s[|s| - 1] == 'm' then Number(lib, s[..|s| - 1], cores * 1000.0) else Number(lib, s, cores)
  {
  }

  // Bytes of each unit.
  const UNITS: seq<(string, real)> := [
    ("Ki", 1024.0), ("Mi", 1_048_576.0), ("Gi", 1_073_741_824.0), ("Ti", 1_099_511_627_776.0),
    ("Pi", 1_125_899_906_842_624.0), ("Ei", 1_152_921_504_606_846_976.0),
    ("k", 1_000.0), ("K", 1_000.0), ("M", 1_000_000.0), ("G", 1_000_000_000.0), ("T", 1_000_000_000_000.0),
    ("P", 1_000_000_000_000_000.0), ("E", 1_000_000_000_000_000_000.0)]

  lemma BinaryUnit(i: nat)
    requires i < 6
    ensures |BINARY_SUFFIXES| == 6 && |UNITS| == 13
    ensures BINARY_SUFFIXES[i].0 == UNITS[5 - i].0 && BINARY_SUFFIXES[i].1 * 1_048_576.0 == UNITS[5 - i].1
  {
  }

  lemma DecimalUnit(i: nat)
    requires i < 7
    ensures |DECIMAL_SUFFIXES| == 7 && |UNITS| == 13
    ensures DECIMAL_SUFFIXES[i].0 == UNITS[12 - i].0 && DECIMAL_SUFFIXES[i].1 * 1_048_576.0 == UNITS[12 - i].1
  {
  }

  // The tables the parser tries hold these units.
  lemma EntryHasUnit(e: (string, real)) returns (u: (string, real))
    requires e in BINARY_SUFFIXES + DECIMAL_SUFFIXES
    ensures u in UNITS && u.0 == e.0 && e.1 * 1_048_576.0 == u.1
  {
    BinaryUnit(0);
    DecimalUnit(0);
    hide BINARY_SUFFIXES, DECIMAL_SUFFIXES, UNITS;
    if e in BINARY_SUFFIXES {
      var i :| 0 <= i < 6 && BINARY_SUFFIXES[i] == e;
      BinaryUnit(i);
      u := UNITS[5 - i];
    } else {
      var i :| 0 <= i < 7 && DECIMAL_SUFFIXES[i] == e;
      DecimalUnit(i);
      u := UNITS[12 - i];
    }
  }

  lemma UnitOf(u: (string, real)) returns (e: (string, real))
    requires u in UNITS
    ensures e in BINARY_SUFFIXES + DECIMAL_SUFFIXES && e.0 == u.0 && e.1 * 1_048_576.0 == u.1
  {
    BinaryUnit(0);
    DecimalUnit(0);
    hide BINARY_SUFFIXES, DECIMAL_SUFFIXES, UNITS;
    var i :| 0 <= i < 13 && UNITS[i] == u;
    if i < 6 {
      BinaryUnit(5 - i);
      e := BINARY_SUFFIXES[5 - i];
    } else {
      DecimalUnit(12 - i);
      e := DECIMAL_SUFFIXES[12 - i];
    }
  }

  // The digits spell a number of units of so many bytes, which is this many MiB.
  ghost predicate Spells(lib: Library, digits: string, bytes: real, mib: real) {
    exists v :: Number(lib, digits, v) && mib * 1_048_576.0 == v * bytes
  }

  // A number before one of the units is so many units.
  lemma MemoryReads(lib: Library, text: string, u: (string, real), mib: real)
    requires u in UNITS && HasSuffix(lib.trimSpace(text), u.0)
    ensures
      var s := lib.trimSpace(text);
      ParseMemory(lib, text) == Some(mib) <==> Spells(lib, s[..|s| - |u.0|], u.1, mib)
  {
    hide FirstSuffix, UNITS, BINARY_SUFFIXES, DECIMAL_SUFFIXES;
    var s := lib.trimSpace(text);
    var e := UnitOf(u);
    var first := FirstSuffix(BINARY_SUFFIXES + DECIMAL_SUFFIXES, s);
    assert first == Some(e) by {
      if first.Some? { SuffixIsUnique(s, first.value, e); }
    }
    SuffixNotEmpty(s, u);
    hide HasSuffix;
    var digits := TrimSuffix(s, e.0);
    assert digits == s[..|s| - |u.0|];
    if Amount(lib, digits).Some? {
      var v := Amount(lib, digits).value;
      Rescaled(v, e.1, u.1, mib);
      assert Number(lib, digits, v);
    }
  }

  lemma SuffixNotEmpty(s: string, u: (string, real))
    requires u in UNITS && HasSuffix(s, u.0)
    ensures s != ""
  {
  }

  lemma Rescaled(v: real, factor: real, bytes: real, mib: real)
    requires factor * 1_048_576.0 == bytes
    ensures v * factor == mib <==> mib * 1_048_576.0 == v * bytes
  {
    assert (v * factor) * 1_048_576.0 == v * (factor * 1_048_576.0);
  }

  // Without a unit it is a number of bytes.
  lemma BytesRead(lib: Library, text: string, mib: real)
    requires forall u :: u in UNITS ==> !HasSuffix(lib.trimSpace(text), u.0)
    ensures
      var s := lib.trimSpace(text);
      ParseMemory(lib, text) == Some(mib) <==> s != "" && Number(lib, s, mib * 1_048_576.0)
  {
    hide FirstSuffix, UNITS, BINARY_SUFFIXES, DECIMAL_SUFFIXES, HasSuffix;
    var s := lib.trimSpace(text);
    var first := FirstSuffix(BINARY_SUFFIXES + DECIMAL_SUFFIXES, s);
    if first.Some? {
      var u := EntryHasUnit(first.value);
      assert false;
    }
  }
}
