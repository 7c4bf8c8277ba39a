/**
  The command-line tool's own logic: the stage and target name tables, the
  splitting of `name=value` defines into a reserved string store, the default
  output name, and the assembly of the source, target and option records from
  the parsed command line. Option parsing itself, reading the input file and
  writing the output are outside the model; the parsed options and the file's
  text (or its absence) are inputs.
 */
module Cmd {
  import opened Wrappers
  import opened Api
  import Seqs
  import Stage1

  // ---------------------------------------------------------------------------
  // Name tables

  function StageName(stage: ShaderStage): string {
    match stage
    case VertexShader => "vs"
    case PixelShader => "ps"
    case GeometryShader => "gs"
    case HullShader => "hs"
    case DomainShader => "ds"
    case ComputeShader => "cs"
  }

  /** The `--stage` table; any other name is invalid. */
  function ParseStage(name: string): Option<ShaderStage> {
    if name == "vs" then Some(VertexShader)
    else if name == "ps" then Some(PixelShader)
    else if name == "gs" then Some(GeometryShader)
    else if name == "hs" then Some(HullShader)
    else if name == "ds" then Some(DomainShader)
    else if name == "cs" then Some(ComputeShader)
    else None
  }

  /** The stage table is one-to-one: each stage's name parses back to it, and only those six names parse. */
  lemma StageNamesRoundTrip(stage: ShaderStage, name: string)
    ensures ParseStage(StageName(stage)) == Some(stage)
    ensures ParseStage(name).Some? ==> StageName(ParseStage(name).value) == name
  {
  }

  function TargetName(language: ShadingLanguage): string {
    match language
    case Dxil => "dxil"
    case SpirV => "spirv"
    case Hlsl => "hlsl"
    case Glsl => "glsl"
    case Essl => "essl"
    case MslMacOS => "msl_macos"
    case MslIOS => "msl_ios"
  }

  /** The `--target` table; any other name is invalid. */
  function ParseTarget(name: string): Option<ShadingLanguage> {
    if name == "dxil" then Some(Dxil)
    else if name == "spirv" then Some(SpirV)
    else if name == "hlsl" then Some(Hlsl)
    else if name == "glsl" then Some(Glsl)
    else if name == "essl" then Some(Essl)
    else if name == "msl_macos" then Some(MslMacOS)
    else if name == "msl_ios" then Some(MslIOS)
    else None
  }

  /** The target table is one-to-one: each language's name parses back to it, and only those seven names parse. */
  lemma TargetNamesRoundTrip(language: ShadingLanguage, name: string)
    ensures ParseTarget(TargetName(language)) == Some(language)
    ensures ParseTarget(name).Some? ==> TargetName(ParseTarget(name).value) == name
  {
    assert "msl_macos"[4] == 'm' && "msl_ios"[4] == 'i';
  }

  // ---------------------------------------------------------------------------
  // Output name

  /** `extMap`, indexed by language. */
  function Extension(language: ShadingLanguage): string {
    match language
    case Dxil => "dxil"
    case SpirV => "spv"
    case Hlsl => "hlsl"
    case Glsl => "glsl"
    case Essl => "essl"
    case MslMacOS => "msl"
    case MslIOS => "msl"
  }

  /** The output file: the one given, or the input name, a dot and the language's extension. */
  function OutputName(input: string, output: Option<string>, language: ShadingLanguage): (r: string)
    ensures output.Some? ==> r == output.value
    ensures output.None? ==> |r| == |input| + 1 + |Extension(language)|
    ensures output.None? ==> r[..|input|] == input && r[|input|] == '.' && r[|input| + 1..] == Extension(language)
  {
    if output.Some? then output.value else input + "." + Extension(language)
  }

  /** Every extension is non-empty and dot-free; only the two MSL targets share one. */
  lemma ExtensionsDistinct(a: ShadingLanguage, b: ShadingLanguage)
    ensures Extension(a) != [] && '.' !in Extension(a)
    ensures Extension(a) == Extension(b) ==> a == b || (a.IsMsl() && b.IsMsl())
  {
  }

  // ---------------------------------------------------------------------------
  // Defines

  /** `find('=')`: the first position of `c`, if any. */
  function Find(s: string, c: char): (r: Option<nat>)
    ensures r.Some? ==> r.value < |s| && s[r.value] == c && c !in s[..r.value]
    ensures r.None? <==> c !in s
  {
    if s == [] then None
    else if s[0] == c then Some(0)
    else
      var rest := Find(s[1..], c);
      assert s == [s[0]] + s[1..];
      if rest.Some? then Some(rest.value + 1) else None
  }

  /** A `-D` argument: split at its first `=` into name and value (which may hold more `=`), or a name alone. */
  function SplitDefine(define: string): (r: MacroDefine) {
    match Find(define, '=')
    case Some(p) => MacroDefine(define[..p], Some(define[p + 1..]))
    case None => MacroDefine(define, None)
  }

  /** How a macro is written on the command line. */
  function JoinDefine(m: MacroDefine): string {
    if m.value.Some? then m.name + "=" + m.value.value else m.name
  }

  /**
    Splitting undoes writing, and writing undoes splitting: a define with an
    `=` splits into a name without `=` and the rest, and one without `=` is a
    name with a null value.
   */
  lemma SplitDefineRoundTrip(define: string, m: MacroDefine)
    ensures JoinDefine(SplitDefine(define)) == define
    ensures '=' in define <==> SplitDefine(define).value.Some?
    ensures '=' !in SplitDefine(define).name
    ensures '=' !in m.name ==> SplitDefine(JoinDefine(m)) == m
  {
    var p := Find(define, '=');
    if p.Some? {
      assert define == define[..p.value] + "=" + define[p.value + 1..];
    }
    if '=' !in m.name && m.value.Some? {
      var joined := JoinDefine(m);
      assert joined[..|m.name|] == m.name && joined[|m.name|] == '=';
      assert joined[|m.name| + 1..] == m.value.value;
      FindFirst(joined, '=', |m.name|);
    }
  }

  /** A character found at `p` with none before it is what `Find` returns. */
  lemma {:induction false} FindFirst(s: string, c: char, p: nat)
    requires p < |s| && s[p] == c && c !in s[..p]
    ensures Find(s, c) == Some(p)
  {
    if p > 0 {
      assert s[..p][0] == s[0];
      assert s[1..][..p - 1] == s[..p][1..];
      FindFirst(s[1..], c, p - 1);
    }
  }

  /** One define pushed onto the store: its name, then its value when it has one. */
  method PushDefine(store: array<string>, used: nat, define: string) returns (entry: Stage1.DxcDefine, next: nat)
    requires used + 2 <= store.Length
    modifies store
    ensures next == used + (if SplitDefine(define).value.Some? then 2 else 1)
    ensures store[..used] == old(store[..used])
    ensures entry.name == used && store[used] == SplitDefine(define).name
    ensures SplitDefine(define).value.None? ==> entry.value.None?
    ensures SplitDefine(define).value.Some? ==> entry.value == Some(used + 1) && store[used + 1] == SplitDefine(define).value.value
  {
    var split := Find(define, '=');
    if split.Some? {
      store[used] := define[..split.value];
      store[used + 1] := define[split.value + 1..];
      entry := Stage1.DxcDefine(used, Some(used + 1));
      next := used + 2;
    } else {
      store[used] := define;
      entry := Stage1.DxcDefine(used, None);
      next := used + 1;
    }
  }

  /**
    The define loop: the string store is reserved for two strings per define,
    each define's name and value (when it has one) are pushed and pointers
    taken; the pointers all fall within the store and denote the split defines, in order.
   */
  method SplitDefines(defines: seq<string>) returns (macroStrings: array<string>, used: nat, macroDefines: seq<Stage1.DxcDefine>)
    ensures macroStrings.Length == 2 * |defines|
    ensures used <= macroStrings.Length && |macroDefines| == |defines|
    ensures Stage1.PointersBelow(macroDefines, used)
    ensures Stage1.DerefDefines(macroStrings[..used], macroDefines) == Seqs.Map(SplitDefine, defines)
  {
    ghost var macros := Seqs.Map(SplitDefine, defines);
    macroStrings := new string[2 * |defines|](_ => "");
    used := 0;
    macroDefines := [];
    for i := 0 to |defines|
      invariant used == Stage1.StringsNeeded(macros[..i]) && used <= 2 * i
      invariant |macroDefines| == i && Stage1.PointersBelow(macroDefines, used)
      invariant Stage1.DerefDefines(macroStrings[..used], macroDefines) == macros[..i]
    {
      ghost var before := macroStrings[..used];
      var entry, next := PushDefine(macroStrings, used, defines[i]);
      assert macroStrings[..next][..used] == before;
      used := next;
      Stage1.DefineStep(macros, i, before, macroStrings[..used], macroDefines, entry);
      macroDefines := macroDefines + [entry];
    }
    assert macros[..|defines|] == macros;
  }

  // ---------------------------------------------------------------------------
  // The command line

  /** The parsed options, each with its default when not given: entry `main`, target `dxil`, version empty, level 3, shader model 6.0. */
  datatype CommandLine = CommandLine(
    entry: string,
    input: Option<string>,
    output: Option<string>,
    stage: Option<string>,
    target: string,
    version: string,
    defines: seq<string>,
    rowMajor: bool,
    halfTypes: bool,
    debugInfo: bool,
    optimization: int,
    majorShaderModel: int,
    minorShaderModel: int,
    textureBindShift: int,
    samplerBindShift: int,
    cbufferBindShift: int,
    uabufferBindShift: int)

  /** Everything the tool hands to the compiler, and where it writes the result. */
  datatype Invocation = Invocation(source: SourceDesc, target: TargetDesc, options: Options, outputName: string)

  /** The tool's exit code for a rejected command line or an unreadable input. */
  const ExitFailure := 1

  /** The 6-bit and 2-bit fields take the low bits of the numbers given. */
  function ShaderModelOf(major: int, minor: int): (sm: ShaderModel)
    ensures sm.Major() == major % 64 && sm.Minor() == minor % 4
  {
    ShaderModel((major % 64) as bv6, (minor % 4) as bv2)
  }

  /** The compile options: the flags given, optimisations never disabled, no reflection and no inherited sampler bindings. */
  function OptionsOf(cl: CommandLine): (o: Options)
    ensures o.packMatricesInRowMajor == cl.rowMajor && o.enable16bitTypes == cl.halfTypes && o.enableDebugInfo == cl.debugInfo
    ensures !o.disableOptimizations && o.optimizationLevel == cl.optimization
    ensures o.shaderModel == ShaderModelOf(cl.majorShaderModel, cl.minorShaderModel)
    ensures o.shiftAllTexturesBindings == cl.textureBindShift && o.shiftAllSamplersBindings == cl.samplerBindShift
    ensures o.shiftAllCBuffersBindings == cl.cbufferBindShift && o.shiftAllUABuffersBindings == cl.uabufferBindShift
    ensures !o.inheritCombinedSamplerBindings && !o.needReflection
  {
    Options(cl.rowMajor, cl.halfTypes, cl.debugInfo, false, cl.optimization,
      ShaderModelOf(cl.majorShaderModel, cl.minorShaderModel),
      cl.textureBindShift, cl.samplerBindShift, cl.cbufferBindShift, cl.uabufferBindShift, false, false)
  }

  /**
    `main` up to the compile: a missing input or stage, an unknown stage or
    target name, or an unreadable input file ends the tool with exit code 1;
    otherwise the records hold the parsed values, an empty version becomes a
    null one, and the defines are split in order.
   */
  method PrepareInvocation(cl: CommandLine, inputText: Option<string>) returns (r: Result<Invocation, int>)
    ensures r.Failure? <==>
      cl.input.None? || cl.stage.None? || ParseStage(cl.stage.value).None? || ParseTarget(cl.target).None? || inputText.None?
    ensures r.Failure? ==> r.error == ExitFailure
    ensures r.Success? ==>
      var inv := r.value;
      inv.source == SourceDesc(inputText.value, cl.input.value, Some(cl.entry), ParseStage(cl.stage.value).value,
                               Seqs.Map(SplitDefine, cl.defines))
      && inv.target == TargetDesc(ParseTarget(cl.target).value, if cl.version == [] then None else Some(cl.version), false)
      && inv.options == OptionsOf(cl)
      && inv.outputName == OutputName(cl.input.value, cl.output, ParseTarget(cl.target).value)
  {
    if cl.input.None? || cl.stage.None? {
      return Failure(ExitFailure);
    }
    var source := SourceDesc([], cl.input.value, None, VertexShader, []);
    var target := TargetDesc(Dxil, if cl.version == [] then None else Some(cl.version), false);
    var stage := ParseStage(cl.stage.value);
    if stage.None? {
      return Failure(ExitFailure);
    }
    source := source.(stage := stage.value);
    source := source.(entryPoint := Some(cl.entry));
    var language := ParseTarget(cl.target);
    if language.None? {
      return Failure(ExitFailure);
    }
    target := target.(language := language.value);
    var outputName := OutputName(cl.input.value, cl.output, target.language);
    if inputText.None? {
      return Failure(ExitFailure);
    }
    source := source.(source := inputText.value);
    var macroStrings, used, macroDefines := SplitDefines(cl.defines);
    source := source.(defines := Stage1.DerefDefines(macroStrings[..used], macroDefines));
    r := Success(Invocation(source, target, OptionsOf(cl), outputName));
  }

  /**
    The exit code once the compile has been tried (`None` when it threw): only
    a non-empty target that cannot be written fails; a compile error or an
    exception is reported and still ends with 0.
   */
  function ExitCode(compiled: Option<ResultDesc>, outputOpens: bool): (code: int)
    ensures code == ExitFailure <==> compiled.Some? && |compiled.value.target| > 0 && !outputOpens
    ensures code == 0 || code == ExitFailure
    ensures compiled.None? || (compiled.value.hasError && compiled.value.target == []) ==> code == 0
  {
    if compiled.Some? && |compiled.value.target| > 0 && !outputOpens then ExitFailure else 0
  }
}
