/**
  The public data of the compiler interface: shader stages, shading languages,
  the packed shader model and its ordering, compile options and their defaults,
  the source, target and result descriptions, and the errors a compile raises.
 */
module Api {
  import opened Wrappers
  import Reflect

  datatype ShaderStage = VertexShader | PixelShader | GeometryShader | HullShader | DomainShader | ComputeShader

  datatype ShadingLanguage = Dxil | SpirV | Hlsl | Glsl | Essl | MslMacOS | MslIOS
  {
    /** The languages the front end emits itself; every other one is cross-compiled from SPIR-V. */
    predicate IsBinary() {
      this == Dxil || this == SpirV
    }

    predicate IsMsl() {
      this == MslMacOS || this == MslIOS
    }
  }

  /** A shader model packed into one byte: a 6-bit major and a 2-bit minor version. */
  datatype ShaderModel = ShaderModel(majorVer: bv6, minorVer: bv2)
  {
    /** `FullVersion`: the major version shifted past the two minor bits, or-ed with the minor. */
    function FullVersion(): (r: nat)
      ensures r == Major() * 4 + Minor()
      ensures r < 256
    {
      (((majorVer as bv8) << 2) | (minorVer as bv8)) as nat
    }

    function Major(): (r: nat)
      ensures r < 64
    {
      majorVer as nat
    }

    function Minor(): (r: nat)
      ensures r < 4
    {
      minorVer as nat
    }

    predicate Less(other: ShaderModel) {
      FullVersion() < other.FullVersion()
    }

    predicate Equal(other: ShaderModel) {
      FullVersion() == other.FullVersion()
    }

    predicate Greater(other: ShaderModel) {
      other.Less(this)
    }

    predicate LessEq(other: ShaderModel) {
      Less(other) || Equal(other)
    }

    predicate GreaterEq(other: ShaderModel) {
      Greater(other) || Equal(other)
    }
  }

  /** Two shader models have the same packed version exactly when they are the same pair. */
  lemma FullVersionInjective(a: ShaderModel, b: ShaderModel)
    ensures a.FullVersion() == b.FullVersion() <==> a == b
    ensures a.Equal(b) <==> a == b
  {
    if a.FullVersion() == b.FullVersion() {
      assert a.Major() == a.FullVersion() / 4 && b.Major() == b.FullVersion() / 4;
      assert a.Minor() == a.FullVersion() % 4 && b.Minor() == b.FullVersion() % 4;
    }
  }

  /** `<` on shader models is the lexicographic order on (major, minor). */
  lemma LessIsLexicographic(a: ShaderModel, b: ShaderModel)
    ensures a.Less(b) <==> (a.Major() < b.Major() || (a.Major() == b.Major() && a.Minor() < b.Minor()))
  {
    var fa, fb := a.FullVersion(), b.FullVersion();
    assert fa == a.Major() * 4 + a.Minor() && fb == b.Major() * 4 + b.Minor();
  }

  /** The five operators form one total order: exactly one of <, ==, > holds, and <=, >= are its closures. */
  lemma ComparisonsAreOneTotalOrder(a: ShaderModel, b: ShaderModel, c: ShaderModel)
    ensures (a.Less(b) && !a.Equal(b) && !a.Greater(b))
         || (!a.Less(b) && a.Equal(b) && !a.Greater(b))
         || (!a.Less(b) && !a.Equal(b) && a.Greater(b))
    ensures a.Greater(b) <==> b.Less(a)
    ensures a.LessEq(b) <==> !a.Greater(b)
    ensures a.GreaterEq(b) <==> !a.Less(b)
    ensures a.LessEq(b) && b.LessEq(a) ==> a == b
    ensures a.Less(b) && b.Less(c) ==> a.Less(c)
    ensures a.LessEq(b) && b.LessEq(c) ==> a.LessEq(c)
  {
    FullVersionInjective(a, b);
  }

  /** The 16-bit type gate `shaderModel >= {6, 2}`. */
  const MinSixteenBitModel := ShaderModel(6, 2)

  /** The gate lets a shader model through exactly from 6.2 on: 6.0 and 6.1 fail, 6.2 and 6.3 pass. */
  lemma SixteenBitGate(sm: ShaderModel)
    ensures sm.GreaterEq(MinSixteenBitModel) <==> (sm.Major() > 6 || (sm.Major() == 6 && sm.Minor() >= 2))
    ensures !ShaderModel(6, 0).GreaterEq(MinSixteenBitModel) && !ShaderModel(6, 1).GreaterEq(MinSixteenBitModel)
    ensures ShaderModel(6, 2).GreaterEq(MinSixteenBitModel) && ShaderModel(6, 3).GreaterEq(MinSixteenBitModel)
  {
    LessIsLexicographic(MinSixteenBitModel, sm);
    FullVersionInjective(sm, MinSixteenBitModel);
  }

  /** Compile-wide options. */
  datatype Options = Options(
    packMatricesInRowMajor: bool,
    enable16bitTypes: bool,
    enableDebugInfo: bool,
    disableOptimizations: bool,
    optimizationLevel: int,
    shaderModel: ShaderModel,
    shiftAllTexturesBindings: int,
    shiftAllSamplersBindings: int,
    shiftAllCBuffersBindings: int,
    shiftAllUABuffersBindings: int,
    inheritCombinedSamplerBindings: bool,
    needReflection: bool)

  /** The default member values: row-major, no 16-bit types, no debug info, optimised at level 3 for shader model 6.0. */
  const DefaultOptions := Options(true, false, false, false, 3, ShaderModel(6, 0), 0, 0, 0, 0, false, false)

  /** A macro definition; a null value means `#define name` with no value. */
  datatype MacroDefine = MacroDefine(name: string, value: Option<string>)

  datatype SourceDesc = SourceDesc(
    source: string,
    fileName: string,
    entryPoint: Option<string>,
    stage: ShaderStage,
    defines: seq<MacroDefine>)

  datatype TargetDesc = TargetDesc(language: ShadingLanguage, version: Option<string>, asModule: bool)

  /** A compile result; an empty byte sequence stands for an empty (null) blob. */
  datatype ResultDesc = ResultDesc(
    target: seq<bv8>,
    isText: bool,
    errorWarningMsg: seq<bv8>,
    hasError: bool,
    reflection: Reflect.Reflection)

  /** A value-initialised `ResultDesc{}`. */
  const EmptyResult := ResultDesc([], false, [], false, Reflect.NoReflection)

  /**
    A compile that does not return: a thrown exception (`std::runtime_error`, a
    failed argument check, `std::invalid_argument` from `std::stoi`) or a branch
    the source marks unreachable.
   */
  datatype Fault =
    | SixteenBitTypesNeedShaderModel62
    | InvalidOptimizationLevel
    | SourceTooShort
    | SpirVModuleUnsupported
    | InvalidVersion
    | UnsupportedVariableType
    | UnsupportedBuiltin
    | UnsupportedComponentType
}
