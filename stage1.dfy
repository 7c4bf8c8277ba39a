/**
  The first stage: HLSL to DXIL or SPIR-V through the front end. The model
  covers what is prepared before the front end is called (the target profile, the
  macro table with its reserved string store, the argument list) and what is made
  of its answer (`ConvertDxcResult`). The front end itself is a function given by
  the caller.
 */
module Stage1 {
  import opened Wrappers
  import opened Text
  import opened Api
  import Reflect

  // ---------------------------------------------------------------------------
  // Target profile

  /** The two-letter code of a stage in a profile name. */
  function StageCode(stage: ShaderStage): (r: string)
    ensures |r| == 2
  {
    match stage
    case VertexShader => "vs"
    case PixelShader => "ps"
    case GeometryShader => "gs"
    case HullShader => "hs"
    case DomainShader => "ds"
    case ComputeShader => "cs"
  }

  /** The character `'0' + v` the profile uses for a version number. */
  function VersionChar(v: nat): (c: char)
    requires v < 64
    ensures c as int == '0' as int + v
    ensures v < 10 ==> IsDigit(c) && DigitValue(c) == v
  {
    ('0' as int + v) as char
  }

  /**
    `ShaderProfileName`: the stage code, `_`, the major version character, `_`,
    the minor version character (`vs_6_0`, `cs_6_2`, ...).
   */
  function ShaderProfileName(stage: ShaderStage, sm: ShaderModel): (r: string)
    ensures |r| == 6 && r[..2] == StageCode(stage) && r[2] == '_' && r[4] == '_'
    ensures r[3] as int == '0' as int + sm.Major() && r[5] as int == '0' as int + sm.Minor()
    ensures sm.Major() < 10 ==> IsDigit(r[3]) && DigitValue(r[3]) == sm.Major()
    ensures IsDigit(r[5]) && DigitValue(r[5]) == sm.Minor()
  {
    StageCode(stage) + "_" + [VersionChar(sm.Major())] + "_" + [VersionChar(sm.Minor())]
  }

  /** Reading a profile name back: the stage and shader model it names, if any. */
  function ParseProfile(p: string): Option<(ShaderStage, ShaderModel)> {
    if |p| != 6 || p[2] != '_' || p[4] != '_' then None
    else
      var major := p[3] as int - '0' as int;
      var minor := p[5] as int - '0' as int;
      var stage :=
        if p[..2] == "vs" then Some(VertexShader)
        else if p[..2] == "ps" then Some(PixelShader)
        else if p[..2] == "gs" then Some(GeometryShader)
        else if p[..2] == "hs" then Some(HullShader)
        else if p[..2] == "ds" then Some(DomainShader)
        else if p[..2] == "cs" then Some(ComputeShader)
        else None;
      if stage.None? || !(0 <= major < 64) || !(0 <= minor < 4) then None
      else Some((stage.value, ShaderModel(major as bv6, minor as bv2)))
  }

  /** The profile name determines the stage and the shader model. */
  lemma ShaderProfileNameRoundTrip(stage: ShaderStage, sm: ShaderModel)
    ensures ParseProfile(ShaderProfileName(stage, sm)) == Some((stage, sm))
  {
    var p := ShaderProfileName(stage, sm);
    assert (sm.Major() as bv6) == sm.majorVer && (sm.Minor() as bv2) == sm.minorVer;
  }

  lemma ShaderProfileNameInjective(s1: ShaderStage, m1: ShaderModel, s2: ShaderStage, m2: ShaderModel)
    requires ShaderProfileName(s1, m1) == ShaderProfileName(s2, m2)
    ensures s1 == s2 && m1 == m2
  {
    ShaderProfileNameRoundTrip(s1, m1);
    ShaderProfileNameRoundTrip(s2, m2);
  }

  lemma ShaderProfileNameExamples()
    ensures ShaderProfileName(VertexShader, ShaderModel(6, 0)) == "vs_6_0"
    ensures ShaderProfileName(ComputeShader, ShaderModel(6, 2)) == "cs_6_2"
    ensures ShaderProfileName(PixelShader, ShaderModel(5, 1)) == "ps_5_1"
  {
  }

  /** The profile of a compile: `lib_6_x` for a DXIL library; a SPIR-V library is not supported. */
  function TargetProfile(stage: ShaderStage, sm: ShaderModel, language: ShadingLanguage, asModule: bool)
    : (r: Result<string, Fault>)
    requires language.IsBinary()
    ensures r.Failure? <==> asModule && language == SpirV
    ensures r.Failure? ==> r.error == SpirVModuleUnsupported
    ensures r.Success? && asModule ==> r.value == "lib_6_x"
    ensures r.Success? && !asModule ==> r.value == ShaderProfileName(stage, sm)
  {
    if asModule then
      if language == Dxil then Success("lib_6_x") else Failure(SpirVModuleUnsupported)
    else Success(ShaderProfileName(stage, sm))
  }

  // ---------------------------------------------------------------------------
  // Macro table

  /** A front-end macro: pointers (indices) into the string store; a null value has no pointer. */
  datatype DxcDefine = DxcDefine(name: nat, value: Option<nat>)

  /** The string a pointer refers to (empty for one outside the store). */
  function Deref(store: seq<string>, p: nat): string {
    if p < |store| then store[p] else ""
  }

  function DerefDefine(store: seq<string>, d: DxcDefine): MacroDefine {
    MacroDefine(Deref(store, d.name), if d.value.Some? then Some(Deref(store, d.value.value)) else None)
  }

  /** The macros a table of pointers denotes. */
  function DerefDefines(store: seq<string>, ds: seq<DxcDefine>): (r: seq<MacroDefine>)
    ensures |r| == |ds| && forall i :: 0 <= i < |ds| ==> r[i] == DerefDefine(store, ds[i])
  {
    seq(|ds|, i requires 0 <= i < |ds| => DerefDefine(store, ds[i]))
  }

  /** Every pointer of the table points into the first `used` strings. */
  predicate PointersBelow(ds: seq<DxcDefine>, used: nat) {
    forall i :: 0 <= i < |ds| ==> ds[i].name < used && (ds[i].value.Some? ==> ds[i].value.value < used)
  }

  /** The number of strings a list of macros needs: one per name, one per value. */
  function StringsNeeded(defines: seq<MacroDefine>): (n: nat)
    ensures n <= 2 * |defines|
  {
    if defines == [] then 0
    else StringsNeeded(defines[..|defines| - 1]) + (if defines[|defines| - 1].value.Some? then 2 else 1)
  }

  /**
    The define loop of `CompileToBinary`: the string store is reserved for two
    strings per macro before the loop, each name and non-null value is pushed and
    a pointer to it taken. Since at most two strings per macro are pushed, the
    store never outgrows its reservation and the pointers taken stay valid: at the
    end they all point below `used` and denote the input macros.
   */
  method TranslateDefines(defines: seq<MacroDefine>) returns (store: array<string>, used: nat, dxcDefines: seq<DxcDefine>)
    ensures store.Length == 2 * |defines|
    ensures used == StringsNeeded(defines) && used <= store.Length
    ensures PointersBelow(dxcDefines, used)
    ensures DerefDefines(store[..used], dxcDefines) == defines
  {
    store := new string[2 * |defines|](_ => "");
    used := 0;
    dxcDefines := [];
    var i := 0;
    while i < |defines|
      invariant 0 <= i <= |defines|
      invariant used == StringsNeeded(defines[..i]) && used <= 2 * i
      invariant |dxcDefines| == i && PointersBelow(dxcDefines, used)
      invariant DerefDefines(store[..used], dxcDefines) == defines[..i]
    {
      ghost var before := store[..used];
      var define := defines[i];
      store[used] := define.name;
      var namePointer := used;
      used := used + 1;
      var valuePointer: Option<nat> := None;
      if define.value.Some? {
        store[used] := define.value.value;
        valuePointer := Some(used);
        used := used + 1;
      }
      var entry := DxcDefine(namePointer, valuePointer);
      DefineStep(defines, i, before, store[..used], dxcDefines, entry);
      dxcDefines := dxcDefines + [entry];
      i := i + 1;
    }
    assert defines[..|defines|] == defines;
  }

  /** One turn of the define loop: the new entry points to the strings just pushed, and the old ones keep theirs. */
  lemma DefineStep(defines: seq<MacroDefine>, i: nat, before: seq<string>, after: seq<string>, ds: seq<DxcDefine>, entry: DxcDefine)
    requires i < |defines|
    requires |before| == StringsNeeded(defines[..i]) && PointersBelow(ds, |before|)
    requires DerefDefines(before, ds) == defines[..i]
    requires |after| == |before| + (if defines[i].value.Some? then 2 else 1) && after[..|before|] == before
    requires entry.name == |before| && after[|before|] == defines[i].name
    requires defines[i].value.None? ==> entry.value.None?
    requires defines[i].value.Some? ==> entry.value == Some(|before| + 1) && after[|before| + 1] == defines[i].value.value
    ensures |after| == StringsNeeded(defines[..i + 1])
    ensures PointersBelow(ds + [entry], |after|)
    ensures DerefDefines(after, ds + [entry]) == defines[..i + 1]
  {
    assert defines[..i + 1][..i] == defines[..i];
    DerefExtends(before, after, ds);
    var r := DerefDefines(after, ds + [entry]);
    assert forall k :: 0 <= k < i ==> r[k] == DerefDefines(after, ds)[k];
    assert r[i] == defines[i];
  }

  /** Pointers into a prefix of the store keep their meaning when the store grows. */
  lemma DerefExtends(before: seq<string>, after: seq<string>, ds: seq<DxcDefine>)
    requires |before| <= |after| && after[..|before|] == before
    requires PointersBelow(ds, |before|)
    ensures DerefDefines(after, ds) == DerefDefines(before, ds)
  {
    assert forall i :: 0 <= i < |ds| ==> DerefDefine(after, ds[i]) == DerefDefine(before, ds[i]);
  }

  // ---------------------------------------------------------------------------
  // Argument list

  /** The optimisation argument as the source builds it: code units `-`, `O`, `'0' + level`, for any level below 4. */
  function OptimizationArgAsWritten(level: int): (r: Result<seq<int>, Fault>)
    ensures r.Success? <==> level < 4
    ensures r.Success? ==> r.value == ['-' as int, 'O' as int, '0' as int + level]
  {
    if level < 4 then Success(['-' as int, 'O' as int, '0' as int + level]) else Failure(InvalidOptimizationLevel)
  }

  /** The optimisation argument `-O0` to `-O3`; any other level is rejected. */
  function OptimizationArg(level: int): (r: Result<string, Fault>)
    ensures r.Success? <==> 0 <= level < 4
    ensures r.Success? ==> |r.value| == 3 && r.value[..2] == "-O" && IsDigit(r.value[2]) && DigitValue(r.value[2]) == level
  {
    if 0 <= level < 4 then Success("-O" + [DigitChar(level)]) else Failure(InvalidOptimizationLevel)
  }

  /** A level of -1 passes the source's guard and gives `-O/`, which names no level; the corrected rule rejects it. */
  lemma NegativeOptimizationLevel()
    ensures OptimizationArgAsWritten(-1) == Success(['-' as int, 'O' as int, '/' as int])
    ensures !IsDigit('/')
    ensures OptimizationArg(-1) == Failure(InvalidOptimizationLevel)
  {
  }

  /** On the levels 0 to 3 the two agree. */
  lemma OptimizationArgAgrees(level: int)
    requires 0 <= level < 4
    ensures OptimizationArgAsWritten(level).Success? && OptimizationArg(level).Success?
    ensures OptimizationArgAsWritten(level).value == seq(3, i requires 0 <= i < 3 => OptimizationArg(level).value[i] as int)
  {
  }

  /** `-Od` when optimisations are disabled, otherwise the level's argument. */
  function OptimizationChoice(options: Options): (r: Result<string, Fault>)
    ensures r.Success? <==> options.disableOptimizations || 0 <= options.optimizationLevel < 4
    ensures r.Success? ==> |r.value| == 3 && r.value[..2] == "-O"
    ensures r.Success? ==> (r.value == "-Od" <==> options.disableOptimizations)
  {
    if options.disableOptimizations then Success("-Od") else OptimizationArg(options.optimizationLevel)
  }

  /** The arguments before the binding shifts: matrix packing, 16-bit types, debug info, optimisation. */
  function LeadingArgs(options: Options, optimization: string): seq<string> {
    (if options.packMatricesInRowMajor then ["-Zpr"] else ["-Zpc"])
    + (if options.enable16bitTypes then ["-enable-16bit-types"] else [])
    + (if options.enableDebugInfo then ["-Zi"] else [])
    + [optimization]
  }

  /** A binding shift: `flag`, the amount, `all` for a positive amount, nothing otherwise. */
  function ShiftArgs(flag: string, amount: int): (r: seq<string>)
    ensures amount > 0 ==> r == [flag, NatToString(amount), "all"]
    ensures amount <= 0 ==> r == []
  {
    if amount > 0 then [flag, NatToString(amount), "all"] else []
  }

  const CBufferShift := "-fvk-b-shift"
  const UABufferShift := "-fvk-u-shift"
  const SamplerShift := "-fvk-s-shift"
  const TextureShift := "-fvk-t-shift"

  /** The shift flags in the source's order: constant buffers, UAVs, samplers, textures. */
  const ShiftFlags := [CBufferShift, UABufferShift, SamplerShift, TextureShift]

  function ShiftAmounts(options: Options): seq<int> {
    [options.shiftAllCBuffersBindings, options.shiftAllUABuffersBindings,
     options.shiftAllSamplersBindings, options.shiftAllTexturesBindings]
  }

  /** The shift groups of `flags` with their `amounts`, one after the other. */
  function Shifts(flags: seq<string>, amounts: seq<int>): seq<string>
    requires |flags| == |amounts|
  {
    if flags == [] then [] else ShiftArgs(flags[0], amounts[0]) + Shifts(flags[1..], amounts[1..])
  }

  function AllShiftArgs(options: Options): seq<string> {
    Shifts(ShiftFlags, ShiftAmounts(options))
  }

  /** The shift section is the four groups, constant buffers first. */
  lemma AllShiftArgsGroups(options: Options)
    ensures AllShiftArgs(options) ==
      ShiftArgs(CBufferShift, options.shiftAllCBuffersBindings)
      + ShiftArgs(UABufferShift, options.shiftAllUABuffersBindings)
      + ShiftArgs(SamplerShift, options.shiftAllSamplersBindings)
      + ShiftArgs(TextureShift, options.shiftAllTexturesBindings)
  {
    var f := ShiftFlags;
    var a := ShiftAmounts(options);
    var g0, g1, g2, g3 := ShiftArgs(f[0], a[0]), ShiftArgs(f[1], a[1]), ShiftArgs(f[2], a[2]), ShiftArgs(f[3], a[3]);
    assert Shifts(f[3..], a[3..]) == g3 by {
      assert f[3..][1..] == [] && a[3..][1..] == [];
      assert g3 + [] == g3;
    }
    assert f[2..][1..] == f[3..] && a[2..][1..] == a[3..];
    assert Shifts(f[2..], a[2..]) == g2 + g3;
    assert f[1..][1..] == f[2..] && a[1..][1..] == a[2..];
    assert Shifts(f[1..], a[1..]) == g1 + (g2 + g3);
    assert Shifts(f, a) == g0 + (g1 + (g2 + g3));
    ConcatAssoc4([], g0, g1, g2, g3);
    assert g0 + (g1 + (g2 + g3)) == g0 + g1 + g2 + g3;
  }

  function TargetArgs(language: ShadingLanguage): seq<string> {
    if language == Dxil then [] else ["-spirv"]
  }

  /** The argument list of a front-end compile, or the error that stops it before the compile. */
  function DxcArguments(options: Options, language: ShadingLanguage): (r: Result<seq<string>, Fault>)
    ensures r.Failure? ==> r.error == SixteenBitTypesNeedShaderModel62 || r.error == InvalidOptimizationLevel
    ensures r.Success? ==> |r.value| >= 2 && r.value[0] == (if options.packMatricesInRowMajor then "-Zpr" else "-Zpc")
    ensures r.Success? && language != Dxil ==> r.value[|r.value| - 1] == "-spirv"
  {
    var lead :- CheckedLeadingArgs(options);
    Success(lead + AllShiftArgs(options) + TargetArgs(language))
  }

  /** The leading arguments, after the 16-bit gate and the optimisation-level check. */
  function CheckedLeadingArgs(options: Options): Result<seq<string>, Fault> {
    if options.enable16bitTypes && !options.shaderModel.GreaterEq(MinSixteenBitModel) then
      Failure(SixteenBitTypesNeedShaderModel62)
    else
      var optimization :- OptimizationChoice(options);
      Success(LeadingArgs(options, optimization))
  }

  /** No decimal number is spelled like a flag. */
  lemma FlagIsNoNumber(flag: string, n: nat)
    requires flag != [] && flag[0] == '-'
    ensures NatToString(n) != flag
  {
    assert IsDigit(NatToString(n)[0]);
  }

  /** A flag other than the group's own is not among that shift group. */
  lemma NotInShiftGroup(flag: string, groupFlag: string, amount: int)
    requires flag != [] && flag[0] == '-' && flag != groupFlag
    ensures flag !in ShiftArgs(groupFlag, amount)
  {
    if amount > 0 {
      FlagIsNoNumber(flag, amount);
      assert flag != "all";
    }
  }

  /** A flag that is none of the groups' flags is not among their arguments. */
  lemma {:induction false} NotInShifts(flag: string, flags: seq<string>, amounts: seq<int>)
    requires |flags| == |amounts| && flag != [] && flag[0] == '-' && flag !in flags
    ensures flag !in Shifts(flags, amounts)
  {
    if flags != [] {
      assert flags[0] in flags;
      NotInShiftGroup(flag, flags[0], amounts[0]);
      assert forall x :: x in flags[1..] ==> x in flags;
      NotInShifts(flag, flags[1..], amounts[1..]);
    }
  }

  /** A flag that is not twelve characters long is not among the shift arguments. */
  lemma NotAShiftArg(flag: string, options: Options)
    requires flag != [] && flag[0] == '-' && |flag| != 12
    ensures flag !in AllShiftArgs(options)
  {
    NotInShifts(flag, ShiftFlags, ShiftAmounts(options));
  }

  /** The leading arguments: which flags they hold, ending with the optimisation, none twelve characters long. */
  lemma LeadingArgsMeaning(options: Options, optimization: string)
    requires |optimization| == 3 && optimization[..2] == "-O"
    ensures var lead := LeadingArgs(options, optimization);
      lead != [] && lead[0] == (if options.packMatricesInRowMajor then "-Zpr" else "-Zpc")
      && "-Zpr" !in lead[1..] && "-Zpc" !in lead[1..]
      && ("-enable-16bit-types" in lead <==> options.enable16bitTypes)
      && ("-Zi" in lead <==> options.enableDebugInfo)
      && ("-Od" in lead <==> optimization == "-Od")
      && optimization in lead && "-spirv" !in lead
      && lead[|lead| - 1] == optimization
      && forall k :: 0 <= k < |lead| ==> |lead[k]| != 12
  {
    var m := if options.packMatricesInRowMajor then ["-Zpr"] else ["-Zpc"];
    var h := if options.enable16bitTypes then ["-enable-16bit-types"] else [];
    var d := if options.enableDebugInfo then ["-Zi"] else [];
    var lead := LeadingArgs(options, optimization);
    assert optimization[1] == 'O';
    assert optimization != "-Zi" && optimization != "-Zpr" && optimization != "-Zpc" && optimization != "-spirv";
    assert lead == m + h + d + [optimization];
    assert lead[1..] == h + d + [optimization];
  }

  /** A non-empty run of shift groups ends with `all`. */
  lemma {:induction false} ShiftsEndWithAll(flags: seq<string>, amounts: seq<int>)
    requires |flags| == |amounts|
    ensures var shifts := Shifts(flags, amounts); shifts != [] ==> shifts[|shifts| - 1] == "all"
  {
    if flags != [] {
      ShiftsEndWithAll(flags[1..], amounts[1..]);
    }
  }

  /** The argument list fails exactly for 16-bit types below shader model 6.2 (checked first) or an optimisation level outside 0 to 3. */
  lemma DxcArgumentsFaults(options: Options, language: ShadingLanguage)
    ensures DxcArguments(options, language).Success? <==>
      (options.enable16bitTypes ==> options.shaderModel.GreaterEq(MinSixteenBitModel))
      && (options.disableOptimizations || 0 <= options.optimizationLevel < 4)
    ensures options.enable16bitTypes && !options.shaderModel.GreaterEq(MinSixteenBitModel) ==>
      DxcArguments(options, language) == Failure(SixteenBitTypesNeedShaderModel62)
  {
  }

  /** A successful argument list is the leading arguments, the shifts and the target arguments, in that order. */
  lemma DxcArgumentsParts(options: Options, language: ShadingLanguage)
    requires DxcArguments(options, language).Success?
    ensures OptimizationChoice(options).Success?
    ensures DxcArguments(options, language).value ==
      LeadingArgs(options, OptimizationChoice(options).value) + AllShiftArgs(options) + TargetArgs(language)
  {
  }

  /** A flag absent from the middle part is in the whole exactly when it is in an outer part. */
  lemma FlagInParts(lead: seq<string>, shifts: seq<string>, target: seq<string>, flag: string)
    requires flag !in shifts
    ensures flag in lead + shifts + target <==> flag in lead || flag in target
  {
  }

  /**
    A successful argument list starts with exactly one of `-Zpr` / `-Zpc`, and
    holds `-enable-16bit-types`, `-Zi` and `-Od` exactly when asked, and the
    level's argument when optimisations are on.
   */
  lemma DxcArgumentsFlags(options: Options, language: ShadingLanguage)
    requires DxcArguments(options, language).Success?
    ensures var args := DxcArguments(options, language).value;
      args[0] == (if options.packMatricesInRowMajor then "-Zpr" else "-Zpc")
      && "-Zpr" !in args[1..] && "-Zpc" !in args[1..]
      && ("-enable-16bit-types" in args <==> options.enable16bitTypes)
      && ("-Zi" in args <==> options.enableDebugInfo)
      && ("-Od" in args <==> options.disableOptimizations)
      && (!options.disableOptimizations ==> OptimizationArg(options.optimizationLevel).value in args)
  {
    DxcArgumentsParts(options, language);
    var optimization := OptimizationChoice(options).value;
    var lead := LeadingArgs(options, optimization);
    var shifts := AllShiftArgs(options);
    var target := TargetArgs(language);
    var args := DxcArguments(options, language).value;
    LeadingArgsMeaning(options, optimization);
    assert args[1..] == lead[1..] + shifts + target;
    NotAShiftArg("-Zpr", options);
    NotAShiftArg("-Zpc", options);
    NotAShiftArg("-enable-16bit-types", options);
    NotAShiftArg("-Zi", options);
    NotAShiftArg("-Od", options);
    FlagInParts(lead[1..], shifts, target, "-Zpr");
    FlagInParts(lead[1..], shifts, target, "-Zpc");
    FlagInParts(lead, shifts, target, "-enable-16bit-types");
    FlagInParts(lead, shifts, target, "-Zi");
    FlagInParts(lead, shifts, target, "-Od");
  }

  /** A successful argument list holds `-spirv`, as its last argument, exactly when the target is not DXIL. */
  lemma DxcArgumentsTarget(options: Options, language: ShadingLanguage)
    requires DxcArguments(options, language).Success?
    ensures var args := DxcArguments(options, language).value;
      ("-spirv" in args <==> language != Dxil) && (args[|args| - 1] == "-spirv" <==> language != Dxil)
  {
    DxcArgumentsParts(options, language);
    var optimization := OptimizationChoice(options).value;
    var lead := LeadingArgs(options, optimization);
    var shifts := AllShiftArgs(options);
    var target := TargetArgs(language);
    var args := DxcArguments(options, language).value;
    LeadingArgsMeaning(options, optimization);
    NotAShiftArg("-spirv", options);
    FlagInParts(lead, shifts, target, "-spirv");
    if language == Dxil {
      assert args == lead + shifts;
      if shifts == [] {
        assert args[|args| - 1] == lead[|lead| - 1];
      } else {
        assert args[|args| - 1] == shifts[|shifts| - 1];
        ShiftsEndWithAll(ShiftFlags, ShiftAmounts(options));
      }
    }
  }

  /** The value that follows the first occurrence of `flag`, read as a number. */
  function ShiftValue(args: seq<string>, flag: string): Option<nat> {
    if |args| < 2 then None
    else if args[0] == flag then (if AllDigits(args[1]) then Some(DecimalValue(args[1])) else None)
    else ShiftValue(args[1..], flag)
  }

  lemma {:induction false} ShiftValueSkips(a: seq<string>, b: seq<string>, flag: string)
    requires flag !in a
    ensures ShiftValue(a + b, flag) == ShiftValue(b, flag)
  {
    if a != [] {
      assert a[0] in a && a[0] != flag;
      assert forall x :: x in a[1..] ==> x in a;
      ShiftValueSkips(a[1..], b, flag);
      if |a + b| >= 2 {
        assert (a + b)[0] == a[0];
        assert (a + b)[1..] == a[1..] + b;
        assert ShiftValue(a + b, flag) == ShiftValue(a[1..] + b, flag);
      } else {
        assert b == [];
        assert ShiftValue(a + b, flag) == None;
        assert ShiftValue(b, flag) == None;
      }
    } else {
      assert a + b == b;
    }
  }

  lemma {:induction false} ShiftValueAbsent(a: seq<string>, flag: string)
    requires flag !in a
    ensures ShiftValue(a, flag) == None
  {
    if |a| >= 2 {
      ShiftValueAbsent(a[1..], flag);
    }
  }

  /** One shift group between arguments that never hold its flag reads back as its amount. */
  lemma ReadBackOne(flag: string, amount: int, before: seq<string>, after: seq<string>)
    requires flag != [] && flag[0] == '-'
    requires flag !in before && flag !in after
    ensures ShiftValue(before + ShiftArgs(flag, amount) + after, flag) == (if amount > 0 then Some(amount as nat) else None)
  {
    var group := ShiftArgs(flag, amount);
    assert before + group + after == before + (group + after);
    ShiftValueSkips(before, group + after, flag);
    if amount > 0 {
      NatToStringRoundTrip(amount);
    } else {
      assert group + after == after;
      ShiftValueAbsent(after, flag);
    }
  }

  /** A twelve-character flag is not among the leading or target arguments. */
  lemma ShiftFlagNotLeading(flag: string, options: Options, language: ShadingLanguage)
    requires |flag| == 12 && OptimizationChoice(options).Success?
    ensures flag !in LeadingArgs(options, OptimizationChoice(options).value) && flag !in TargetArgs(language)
  {
    LeadingArgsMeaning(options, OptimizationChoice(options).value);
  }

  /** In a run of shift groups with distinct flags, followed by arguments without the flag, group `k` reads back as its amount. */
  lemma {:induction false} ShiftsReadBackAt(flags: seq<string>, amounts: seq<int>, rest: seq<string>, k: nat)
    requires |flags| == |amounts| && k < |flags|
    requires forall i :: 0 <= i < |flags| ==> flags[i] != [] && flags[i][0] == '-'
    requires forall i, j :: 0 <= i < j < |flags| ==> flags[i] != flags[j]
    requires flags[k] !in rest
    ensures ShiftValue(Shifts(flags, amounts) + rest, flags[k]) == (if amounts[k] > 0 then Some(amounts[k] as nat) else None)
  {
    var head := ShiftArgs(flags[0], amounts[0]);
    var tail := Shifts(flags[1..], amounts[1..]);
    assert Shifts(flags, amounts) + rest == head + (tail + rest);
    if k == 0 {
      assert forall j :: 0 <= j < |flags[1..]| ==> flags[1..][j] == flags[j + 1];
      assert flags[0] !in flags[1..];
      NotInShifts(flags[0], flags[1..], amounts[1..]);
      ReadBackOne(flags[0], amounts[0], [], tail + rest);
      assert [] + head + (tail + rest) == head + (tail + rest);
    } else {
      NotInShiftGroup(flags[k], flags[0], amounts[0]);
      ShiftValueSkips(head, tail + rest, flags[k]);
      ShiftsReadBackAt(flags[1..], amounts[1..], rest, k - 1);
    }
  }

  /** The four flags are distinct twelve-character flags. */
  lemma ShiftFlagsDistinct()
    ensures forall i :: 0 <= i < |ShiftFlags| ==> |ShiftFlags[i]| == 12 && ShiftFlags[i][0] == '-'
    ensures forall i, j :: 0 <= i < j < |ShiftFlags| ==> ShiftFlags[i] != ShiftFlags[j]
  {
    assert CBufferShift[5] == 'b' && UABufferShift[5] == 'u' && SamplerShift[5] == 's' && TextureShift[5] == 't';
  }

  /** Shift `k` reads back from the whole argument list as its amount. */
  lemma ShiftReadBack(options: Options, language: ShadingLanguage, k: nat)
    requires DxcArguments(options, language).Success? && k < 4
    ensures var amount := ShiftAmounts(options)[k];
      ShiftValue(DxcArguments(options, language).value, ShiftFlags[k]) == (if amount > 0 then Some(amount as nat) else None)
  {
    DxcArgumentsParts(options, language);
    ShiftFlagsDistinct();
    var flag := ShiftFlags[k];
    var lead := LeadingArgs(options, OptimizationChoice(options).value);
    var shifts := AllShiftArgs(options);
    var target := TargetArgs(language);
    ShiftFlagNotLeading(flag, options, language);
    assert lead + shifts + target == lead + (shifts + target);
    ShiftValueSkips(lead, shifts + target, flag);
    ShiftsReadBackAt(ShiftFlags, ShiftAmounts(options), target, k);
  }

  /** Each shift reads back from the argument list: present with its amount exactly when positive. */
  lemma ShiftsReadBack(options: Options, language: ShadingLanguage)
    requires DxcArguments(options, language).Success?
    ensures var args := DxcArguments(options, language).value;
      ShiftValue(args, CBufferShift) == (if options.shiftAllCBuffersBindings > 0 then Some(options.shiftAllCBuffersBindings as nat) else None)
      && ShiftValue(args, UABufferShift) == (if options.shiftAllUABuffersBindings > 0 then Some(options.shiftAllUABuffersBindings as nat) else None)
      && ShiftValue(args, SamplerShift) == (if options.shiftAllSamplersBindings > 0 then Some(options.shiftAllSamplersBindings as nat) else None)
      && ShiftValue(args, TextureShift) == (if options.shiftAllTexturesBindings > 0 then Some(options.shiftAllTexturesBindings as nat) else None)
  {
    ShiftReadBack(options, language, 0);
    ShiftReadBack(options, language, 1);
    ShiftReadBack(options, language, 2);
    ShiftReadBack(options, language, 3);
  }

  lemma ConcatAssoc4(x: seq<string>, a: seq<string>, b: seq<string>, c: seq<string>, d: seq<string>)
    ensures x + a + b + c + d == x + (a + b + c + d)
  {
    assert x + a + b == x + (a + b);
    assert x + (a + b) + c == x + (a + b + c);
  }

  /** The pushes before the binding shifts, stopping at the 16-bit gate or an invalid optimisation level. */
  method PushLeadingArgs(options: Options) returns (r: Result<seq<string>, Fault>)
    ensures r == CheckedLeadingArgs(options)
  {
    var args: seq<string> := [];
    if options.packMatricesInRowMajor {
      args := args + ["-Zpr"];
    } else {
      args := args + ["-Zpc"];
    }
    if options.enable16bitTypes {
      if options.shaderModel.GreaterEq(MinSixteenBitModel) {
        args := args + ["-enable-16bit-types"];
      } else {
        return Failure(SixteenBitTypesNeedShaderModel62);
      }
    }
    ghost var m := if options.packMatricesInRowMajor then ["-Zpr"] else ["-Zpc"];
    ghost var h := if options.enable16bitTypes then ["-enable-16bit-types"] else [];
    assert args == m + h;
    if options.enableDebugInfo {
      args := args + ["-Zi"];
    }
    ghost var d := if options.enableDebugInfo then ["-Zi"] else [];
    assert args == m + h + d;
    var optimization := OptimizationChoice(options);
    if optimization.Failure? {
      return Failure(optimization.error);
    }
    args := args + [optimization.value];
    r := Success(args);
  }

  /** The three pushes of one binding shift, for a positive amount. */
  method PushShift(args: seq<string>, flag: string, amount: int) returns (r: seq<string>)
    ensures r == args + ShiftArgs(flag, amount)
  {
    r := args;
    if amount > 0 {
      r := r + [flag, NatToString(amount), "all"];
    }
  }

  /** The argument pushes of `CompileToBinary`, one after the other in the source's order. */
  method BuildArguments(options: Options, language: ShadingLanguage) returns (r: Result<seq<string>, Fault>)
    ensures r == DxcArguments(options, language)
  {
    var lead := PushLeadingArgs(options);
    if lead.Failure? {
      return Failure(lead.error);
    }
    var args := PushShift(lead.value, CBufferShift, options.shiftAllCBuffersBindings);
    args := PushShift(args, UABufferShift, options.shiftAllUABuffersBindings);
    args := PushShift(args, SamplerShift, options.shiftAllSamplersBindings);
    args := PushShift(args, TextureShift, options.shiftAllTexturesBindings);
    ConcatAssoc4(lead.value, ShiftArgs(CBufferShift, options.shiftAllCBuffersBindings),
      ShiftArgs(UABufferShift, options.shiftAllUABuffersBindings),
      ShiftArgs(SamplerShift, options.shiftAllSamplersBindings),
      ShiftArgs(TextureShift, options.shiftAllTexturesBindings));
    AllShiftArgsGroups(options);
    assert args == lead.value + AllShiftArgs(options);
    ghost var shifted := args;
    if language != Dxil {
      args := args + ["-spirv"];
    }
    assert args == shifted + TargetArgs(language);
    r := Success(args);
  }

  /** With the default options a vertex shader compiles with `-Zpr -O3` under profile `vs_6_0`. */
  lemma DefaultArguments()
    ensures DxcArguments(DefaultOptions, Dxil) == Success(["-Zpr", "-O3"])
    ensures DxcArguments(DefaultOptions, SpirV) == Success(["-Zpr", "-O3", "-spirv"])
    ensures TargetProfile(VertexShader, DefaultOptions.shaderModel, Dxil, false) == Success("vs_6_0")
  {
    assert DigitChar(3) == '3' && VersionChar(6) == '6' && VersionChar(0) == '0';
    assert "-O" + ['3'] == "-O3";
    assert OptimizationChoice(DefaultOptions) == Success("-O3");
    assert LeadingArgs(DefaultOptions, "-O3") == ["-Zpr", "-O3"];
    assert "vs" + "_" + ['6'] + "_" + ['0'] == "vs_6_0";
    AllShiftArgsGroups(DefaultOptions);
    assert AllShiftArgs(DefaultOptions) == [];
    assert ["-Zpr", "-O3"] + [] + [] == ["-Zpr", "-O3"];
    assert ["-Zpr", "-O3"] + [] + ["-spirv"] == ["-Zpr", "-O3", "-spirv"];
  }
  // ---------------------------------------------------------------------------
  // The front end and its result

  /** Everything handed to the front end's `Compile`. */
  datatype Invocation = Invocation(
    source: string,
    fileName: string,
    entryPoint: string,
    profile: string,
    arguments: seq<string>,
    defines: seq<MacroDefine>)

  /** The front end's answer: whether the status succeeded, its error buffer and its program blob. */
  datatype DxcOutcome = DxcOutcome(succeeded: bool, errors: Option<seq<bv8>>, program: Option<seq<bv8>>)

  /**
    `ConvertDxcResult` on a value-initialised result: the diagnostics are copied
    whenever the front end gave an error buffer, even on success, and the program
    is taken only when the status succeeded; `hasError` is cleared only by a
    program. DXIL reflection is gathered for a DXIL, non-library target when asked
    and when the build has it (`reflect` is `None` where it does not).
   */
  function ConvertDxcResult(outcome: DxcOutcome, language: ShadingLanguage, asModule: bool, needReflection: bool,
                            reflect: Option<seq<bv8> -> Reflect.Reflection>): (r: ResultDesc)
    ensures r.hasError <==> !(outcome.succeeded && outcome.program.Some?)
    ensures r.errorWarningMsg == outcome.errors.GetOr([])
    ensures r.target == (if outcome.succeeded && outcome.program.Some? then outcome.program.value else [])
    ensures !r.isText
    ensures r.reflection != Reflect.NoReflection ==>
      outcome.succeeded && needReflection && language == Dxil && !asModule && reflect.Some?
    ensures outcome.succeeded && needReflection && language == Dxil && !asModule && reflect.Some? ==>
      r.reflection == reflect.value(outcome.program.GetOr([]))
  {
    var target := if outcome.succeeded && outcome.program.Some? then outcome.program.value else [];
    var wantReflection := outcome.succeeded && needReflection && language == Dxil && !asModule && reflect.Some?;
    var reflection := if wantReflection then reflect.value(outcome.program.GetOr([])) else Reflect.NoReflection;
    ResultDesc(target, false, outcome.errors.GetOr([]), !(outcome.succeeded && outcome.program.Some?), reflection)
  }

  /** The caller-supplied pieces of a stage-1 compile. */
  datatype FrontEnd = FrontEnd(compile: Invocation -> DxcOutcome, reflect: Option<seq<bv8> -> Reflect.Reflection>)

  /**
    `CompileToBinary`: the profile, the macros, the source length check (at least
    four bytes), the arguments, then the front end and the conversion of its answer.
   */
  function CompileToBinarySpec(source: SourceDesc, options: Options, language: ShadingLanguage, asModule: bool, fe: FrontEnd)
    : (r: Result<ResultDesc, Fault>)
    requires language.IsBinary() && source.entryPoint.Some?
    ensures asModule && language == SpirV ==> r == Failure(SpirVModuleUnsupported)
    ensures r.Failure? ==> r.error in {SpirVModuleUnsupported, SourceTooShort, SixteenBitTypesNeedShaderModel62, InvalidOptimizationLevel}
    ensures !(asModule && language == SpirV) && |source.source| < 4 ==> r == Failure(SourceTooShort)
  {
    var profile :- TargetProfile(source.stage, options.shaderModel, language, asModule);
    if |source.source| < 4 then Failure(SourceTooShort)
    else
      var args :- DxcArguments(options, language);
      var outcome := fe.compile(Invocation(source.source, source.fileName, source.entryPoint.value, profile, args, source.defines));
      Success(ConvertDxcResult(outcome, language, asModule, options.needReflection, fe.reflect))
  }

  /** A stage-1 compile stops before the front end exactly on an unsupported library, a short source or bad options. */
  lemma CompileToBinaryFaults(source: SourceDesc, options: Options, language: ShadingLanguage, asModule: bool, fe: FrontEnd)
    requires language.IsBinary() && source.entryPoint.Some?
    ensures CompileToBinarySpec(source, options, language, asModule, fe).Failure? <==>
      (asModule && language == SpirV) || |source.source| < 4 || DxcArguments(options, language).Failure?
    ensures CompileToBinarySpec(source, options, language, asModule, fe).Success? ==>
      var o := fe.compile(Invocation(source.source, source.fileName, source.entryPoint.value,
        TargetProfile(source.stage, options.shaderModel, language, asModule).value,
        DxcArguments(options, language).value, source.defines));
      (CompileToBinarySpec(source, options, language, asModule, fe).value.hasError <==> !(o.succeeded && o.program.Some?))
  {
  }

  method CompileToBinary(source: SourceDesc, options: Options, language: ShadingLanguage, asModule: bool, fe: FrontEnd)
    returns (r: Result<ResultDesc, Fault>)
    requires language.IsBinary() && source.entryPoint.Some?
    ensures r == CompileToBinarySpec(source, options, language, asModule, fe)
  {
    var profile := TargetProfile(source.stage, options.shaderModel, language, asModule);
    if profile.Failure? {
      return Failure(profile.error);
    }
    var store, used, dxcDefines := TranslateDefines(source.defines);
    if |source.source| < 4 {
      return Failure(SourceTooShort);
    }
    var args := BuildArguments(options, language);
    if args.Failure? {
      return Failure(args.error);
    }
    var defines := DerefDefines(store[..used], dxcDefines);
    var outcome := fe.compile(Invocation(source.source, source.fileName, source.entryPoint.value, profile.value, args.value, defines));
    r := Success(ConvertDxcResult(outcome, language, asModule, options.needReflection, fe.reflect));
  }

  // ---------------------------------------------------------------------------
  // Include names

  /** The include handler drops a leading `./` from a requested file name. */
  function IncludeName(fileName: string): (r: string)
    ensures StartsWith(fileName, "./") ==> "./" + r == fileName
    ensures !StartsWith(fileName, "./") ==> r == fileName
  {
    if |fileName| >= 2 && fileName[0] == '.' && fileName[1] == '/' then fileName[2..] else fileName
  }

  lemma IncludeNameStripsOnce(name: string)
    ensures IncludeName("./" + name) == name
  {
    assert ("./" + name)[2..] == name;
  }
}
