/**
  Stage 2 of a compile: turning the SPIR-V that the front end produced into
  HLSL, GLSL, ESSL or MSL text. The source checks the stage, language and
  version combination, prepares the transpiler (legacy varying names, option
  records, MSL bindings, combined image-samplers and their names), runs it, and
  reports what it produced or the error it raised. `ConvertBinary` decides
  whether a stage-1 result needs this at all.
 */
module Stage2 {
  import opened Wrappers
  import opened Text
  import opened Spirv
  import opened SpirvCross
  import opened Api
  import Reflect
  import SpirvReflection
  import Seqs

  // ---------------------------------------------------------------------------
  // Diagnostics

  const NewLine: bv8 := 10

  /** `AppendError`: the old diagnostics, a line break when there were any, then the message; the result is marked failed. */
  function AppendError(result: ResultDesc, msg: string): (r: ResultDesc)
    ensures r.hasError
    ensures r.target == result.target && r.isText == result.isText && r.reflection == result.reflection
    ensures result.errorWarningMsg != [] ==> r.errorWarningMsg == result.errorWarningMsg + [NewLine] + Text.Bytes(msg)
    ensures result.errorWarningMsg == [] ==> r.errorWarningMsg == Text.Bytes(msg)
  {
    var separator := if result.errorWarningMsg != [] then [NewLine] else [];
    result.(errorWarningMsg := result.errorWarningMsg + separator + Text.Bytes(msg), hasError := true)
  }

  lemma BytesConcat(a: string, b: string)
    ensures Text.Bytes(a + b) == Text.Bytes(a) + Text.Bytes(b)
  {
  }

  /**
    Two messages appended in turn read as one message of two lines, once the
    diagnostics hold any text; the earlier diagnostics are never lost.
   */
  lemma AppendErrorAccumulates(result: ResultDesc, first: string, second: string)
    requires result.errorWarningMsg != [] || first != []
    ensures AppendError(AppendError(result, first), second) == AppendError(result, first + "\n" + second)
    ensures AppendError(result, first).errorWarningMsg[..|result.errorWarningMsg|] == result.errorWarningMsg
  {
    BytesConcat(first, "\n");
    BytesConcat(first + "\n", second);
    assert Text.Bytes("\n") == [NewLine];
    var once := AppendError(result, first);
    assert once.errorWarningMsg != [] by {
      assert |once.errorWarningMsg| >= |Text.Bytes(first)|;
    }
    var separator := if result.errorWarningMsg != [] then [NewLine] else [];
    assert AppendError(once, second).errorWarningMsg
      == result.errorWarningMsg + separator + Text.Bytes(first) + [NewLine] + Text.Bytes(second);
  }

  // ---------------------------------------------------------------------------
  // Version and gates

  /** `std::stoi` of the version: 0 without a version, an error when the text does not start with a digit. */
  function VersionNumber(version: Option<string>): (r: Result<nat, Fault>)
    ensures version.None? ==> r == Success(0)
    ensures version.Some? ==> (r.Failure? <==> ParseLeadingNumber(version.value).None?)
    ensures version.Some? && r.Success? ==> r.value == DecimalValue(LeadingDigits(version.value))
    ensures version.Some? && version.value != [] && AllDigits(version.value) ==> r == Success(DecimalValue(version.value))
  {
    if version.None? then Success(0)
    else
      match ParseLeadingNumber(version.value)
      case None => Failure(InvalidVersion)
      case Some(n) => Success(n)
  }

  /** A version with a suffix, such as ESSL's `310es`, is read as its leading number. */
  lemma VersionWithSuffix()
    ensures VersionNumber(Some("310es")) == Success(310)
    ensures VersionNumber(Some("es")).Failure?
  {
    ParseDigitsThenText("310", "es");
    assert "310" + "es" == "310es";
    assert DecimalValue("310") == 310 by {
      assert "310"[..2] == "31" && "31"[..1] == "3" && "3"[..0] == "";
    }
  }

  const UnsupportedHlslStages := "GS, HS, and DS has not been supported yet."
  const HlslGsNeeds40 := "HLSL shader model earlier than 4.0 doesn't have GS or CS."
  const HlslCsNeeds50 := "CS in HLSL shader model earlier than 5.0 is not supported."
  const HlslHsDsNeeds50 := "HLSL shader model earlier than 5.0 doesn't have HS or DS."
  const MslNoGs := "MSL doesn't have GS."
  const HlslNeeds30 := "HLSL shader model earlier than 3.0 is not supported."

  /** The stage checks made before the transpiler is set up, in the source's order. */
  function EarlyGate(stage: ShaderStage, language: ShadingLanguage, intVersion: nat): Option<string>
    requires !language.IsBinary()
  {
    match language
    case Hlsl =>
      if stage == GeometryShader || stage == HullShader || stage == DomainShader then Some(UnsupportedHlslStages)
      else if stage == GeometryShader && intVersion < 40 then Some(HlslGsNeeds40)
      else if stage == ComputeShader && intVersion < 50 then Some(HlslCsNeeds50)
      else if (stage == HullShader || stage == DomainShader) && intVersion < 50 then Some(HlslHsDsNeeds50)
      else None
    case Glsl => None
    case Essl => None
    case _ =>
      if stage == GeometryShader then Some(MslNoGs) else None
  }

  /**
    HLSL refuses geometry, hull and domain shaders, and compute shaders below
    version 50; MSL refuses geometry shaders; nothing else stops early. The
    version checks for geometry (below 40) and for hull and domain shaders
    (below 50) can never fire: the first HLSL check has already stopped them.
   */
  lemma EarlyGates(stage: ShaderStage, language: ShadingLanguage, intVersion: nat)
    requires !language.IsBinary()
    ensures var r := EarlyGate(stage, language, intVersion);
      (r == Some(UnsupportedHlslStages) <==>
        language == Hlsl && (stage == GeometryShader || stage == HullShader || stage == DomainShader))
      && (r == Some(HlslCsNeeds50) <==> language == Hlsl && stage == ComputeShader && intVersion < 50)
      && (r == Some(MslNoGs) <==> language.IsMsl() && stage == GeometryShader)
      && r != Some(HlslGsNeeds40) && r != Some(HlslHsDsNeeds50)
      && (r.None? <==>
        (language == Hlsl ==> (stage == VertexShader || stage == PixelShader || (stage == ComputeShader && intVersion >= 50)))
        && (language.IsMsl() ==> stage != GeometryShader))
  {
    assert |UnsupportedHlslStages| == 42 && |HlslCsNeeds50| == 58 && |MslNoGs| == 20 && |HlslGsNeeds40| == 57;
    assert HlslGsNeeds40[31] == '4' && HlslHsDsNeeds50[31] == '5';
  }

  /** The execution model a stage's entry point is registered with. */
  function StageModel(stage: ShaderStage): (m: ExecutionModel)
    ensures m != Kernel
  {
    match stage
    case VertexShader => Vertex
    case HullShader => TessellationControl
    case DomainShader => TessellationEvaluation
    case GeometryShader => Geometry
    case PixelShader => Fragment
    case ComputeShader => GLCompute
  }

  lemma StageModelInjective(a: ShaderStage, b: ShaderStage)
    requires StageModel(a) == StageModel(b)
    ensures a == b
  {
  }

  // ---------------------------------------------------------------------------
  // Option records

  /**
    The common options: the version when one is given (the transpiler's own
    otherwise), ES exactly for ESSL, separate shader objects and non-zero base
    instances on, the remaining switches off, and the 420pack extension for
    GLSL without a version or from version 420.
   */
  function CommonOptionsFor(defaults: CommonOptions, language: ShadingLanguage, version: Option<string>, intVersion: nat)
    : (r: CommonOptions)
    ensures r.version == (if version.Some? then intVersion else defaults.version)
    ensures r.es <==> language == Essl
    ensures r.enable420packExtension <==> language == Glsl && (version.None? || r.version >= 420)
    ensures !r.forceTemporary && r.separateShaderObjects && !r.flattenMultidimensionalArrays
    ensures !r.vulkanSemantics && !r.fixupClipspace && !r.flipVertY && r.supportNonzeroBaseInstance
  {
    var v := if version.Some? then intVersion else defaults.version;
    CommonOptions(v, language == Essl, false, true, false, language == Glsl && (version.None? || v >= 420),
      false, false, false, true)
  }

  /** With a version the 420pack rule reads the given number; without one it holds for every GLSL target. */
  lemma Pack420Rule(defaults: CommonOptions, language: ShadingLanguage, version: Option<string>, intVersion: nat)
    ensures version.Some? ==>
      (CommonOptionsFor(defaults, language, version, intVersion).enable420packExtension <==> language == Glsl && intVersion >= 420)
    ensures version.None? ==>
      (CommonOptionsFor(defaults, language, version, intVersion).enable420packExtension <==> language == Glsl)
  {
  }

  /** The MSL options: the version when one is given, no texture swizzling, and the platform of the target. */
  function MslOptionsFor(defaults: MslOptions, language: ShadingLanguage, version: Option<string>, intVersion: nat)
    : (r: MslOptions)
    requires language.IsMsl()
    ensures r.mslVersion == (if version.Some? then intVersion else defaults.mslVersion)
    ensures !r.swizzleTextureSamples
    ensures r.platform == IOS <==> language == MslIOS
  {
    MslOptions(if version.Some? then intVersion else defaults.mslVersion, false,
      if language == MslIOS then IOS else MacOS)
  }

  /** The backend constructed for a target language. */
  function BackendFor(language: ShadingLanguage): (b: Backend)
    requires !language.IsBinary()
    ensures b == GlslBackend <==> language == Glsl || language == Essl
    ensures b == HlslBackend <==> language == Hlsl
    ensures b == MslBackend <==> language.IsMsl()
  {
    match language
    case Hlsl => HlslBackend
    case Glsl => GlslBackend
    case Essl => GlslBackend
    case _ => MslBackend
  }

  /** GLSL and ESSL always combine images with samplers; HLSL does so from its shader model 30 down. */
  predicate NeedsCombinedSamplers(language: ShadingLanguage, hlslShaderModel: nat) {
    language == Glsl || language == Essl || (language == Hlsl && hlslShaderModel <= 30)
  }

  // ---------------------------------------------------------------------------
  // Legacy varying names

  const VaryingPrefix := "varying_"

  /**
    The legacy GLSL rename of one interface variable: a vertex-shader output
    named `out_var_` or `out.var.` plus a rest, and a pixel-shader input named
    `in_var_` or `in.var.` plus a rest, become `varying_` plus that rest.
   */
  function LegacyName(stage: ShaderStage, storage: StorageClass, name: string): (r: Option<string>)
    ensures r.Some? ==> StartsWith(r.value, VaryingPrefix)
    ensures r.Some? ==> (stage == VertexShader && storage == Output) || (stage == PixelShader && storage == Input)
  {
    if stage == VertexShader && storage == Output && (StartsWith(name, "out_var_") || StartsWith(name, "out.var.")) then
      Some(VaryingPrefix + name[8..])
    else if stage == PixelShader && storage == Input && (StartsWith(name, "in_var_") || StartsWith(name, "in.var.")) then
      Some(VaryingPrefix + name[7..])
    else None
  }

  /** A vertex output and a pixel input with the same rest get the same name, whichever separator the compiler used. */
  lemma LegacyNamesMatch(rest: string)
    ensures LegacyName(VertexShader, Output, "out_var_" + rest) == Some(VaryingPrefix + rest)
    ensures LegacyName(VertexShader, Output, "out.var." + rest) == Some(VaryingPrefix + rest)
    ensures LegacyName(PixelShader, Input, "in_var_" + rest) == Some(VaryingPrefix + rest)
    ensures LegacyName(PixelShader, Input, "in.var." + rest) == Some(VaryingPrefix + rest)
    ensures LegacyName(VertexShader, Input, "out_var_" + rest) == None
    ensures LegacyName(PixelShader, Output, "in_var_" + rest) == None
  {
    assert ("out_var_" + rest)[..8] == "out_var_" && ("out_var_" + rest)[8..] == rest;
    assert ("out.var." + rest)[..8] == "out.var." && ("out.var." + rest)[8..] == rest;
    assert ("in_var_" + rest)[..7] == "in_var_" && ("in_var_" + rest)[7..] == rest;
    assert ("in.var." + rest)[..7] == "in.var." && ("in.var." + rest)[7..] == rest;
  }

  /** What one interface variable's name becomes: its legacy name, or unchanged. */
  function RenameOne(names: map<Id, string>, v: InterfaceVar, stage: ShaderStage): map<Id, string> {
    var renamed := LegacyName(stage, v.storage, NameOf(names, v.id));
    if renamed.Some? then names[v.id := renamed.value] else names
  }

  /** The name table after the legacy rename of each variable in turn. */
  function LegacyRenames(names: map<Id, string>, vars: seq<InterfaceVar>, stage: ShaderStage): map<Id, string> {
    if vars == [] then names
    else RenameOne(LegacyRenames(names, vars[..|vars| - 1], stage), vars[|vars| - 1], stage)
  }

  function VarIds(vars: seq<InterfaceVar>): seq<Id> { Seqs.Map((x: InterfaceVar) => x.id, vars) }

  predicate Distinct(ids: seq<Id>) {
    forall i, j :: 0 <= i < j < |ids| ==> ids[i] != ids[j]
  }

  /**
    Over distinct variables, each variable ends with its own name renamed (or
    kept), and every other id keeps its name.
   */
  lemma {:induction false} LegacyRenamesEffect(names: map<Id, string>, vars: seq<InterfaceVar>, stage: ShaderStage)
    requires Distinct(VarIds(vars))
    ensures forall id :: id !in VarIds(vars) ==> NameOf(LegacyRenames(names, vars, stage), id) == NameOf(names, id)
    ensures forall k :: 0 <= k < |vars| ==>
      var old_ := NameOf(names, vars[k].id);
      NameOf(LegacyRenames(names, vars, stage), vars[k].id) == LegacyName(stage, vars[k].storage, old_).GetOr(old_)
  {
    if vars != [] {
      var front := vars[..|vars| - 1];
      var last := vars[|vars| - 1];
      var ids := VarIds(vars);
      assert VarIds(front) == ids[..|vars| - 1];
      assert ids[|vars| - 1] == last.id;
      LegacyRenamesEffect(names, front, stage);
      var inner := LegacyRenames(names, front, stage);
      assert LegacyRenames(names, vars, stage) == RenameOne(inner, last, stage);
      var frontIds := ids[..|vars| - 1];
      assert last.id !in frontIds by {
        forall k | 0 <= k < |frontIds|
          ensures frontIds[k] != last.id
        {
          assert ids[k] != ids[|vars| - 1];
        }
      }
      forall id | id !in ids
        ensures NameOf(RenameOne(inner, last, stage), id) == NameOf(names, id)
      {
        assert id !in frontIds;
      }
      forall k | 0 <= k < |vars| - 1
        ensures NameOf(RenameOne(inner, last, stage), vars[k].id)
          == LegacyName(stage, vars[k].storage, NameOf(names, vars[k].id)).GetOr(NameOf(names, vars[k].id))
      {
        assert vars[k] == front[k];
        assert ids[k] != ids[|vars| - 1];
      }
    }
  }

  // ---------------------------------------------------------------------------
  // Bindings and combined samplers

  function ResourceIds(rs: seq<Resource>): seq<Id> { Seqs.Map((x: Resource) => x.id, rs) }

  /** The decorations after the MSL loop that gives the k-th resource binding `k`. */
  function BindSequentially(decorations: map<(Id, Decoration), nat>, rs: seq<Resource>): map<(Id, Decoration), nat> {
    if rs == [] then decorations
    else BindSequentially(decorations, rs[..|rs| - 1])[(rs[|rs| - 1].id, Binding) := |rs| - 1]
  }

  /** Over distinct resources the k-th has binding `k`, and every other decoration is untouched. */
  lemma {:induction false} BindingsSequential(decorations: map<(Id, Decoration), nat>, rs: seq<Resource>)
    requires Distinct(ResourceIds(rs))
    ensures forall k :: 0 <= k < |rs| ==> DecorationOf(BindSequentially(decorations, rs), rs[k].id, Binding) == k
    ensures forall id, d :: (d != Binding || id !in ResourceIds(rs)) ==>
      DecorationOf(BindSequentially(decorations, rs), id, d) == DecorationOf(decorations, id, d)
  {
    if rs != [] {
      var front := rs[..|rs| - 1];
      assert ResourceIds(front) == ResourceIds(rs)[..|rs| - 1];
      BindingsSequential(decorations, front);
      forall k | 0 <= k < |rs| - 1
        ensures DecorationOf(BindSequentially(decorations, rs), rs[k].id, Binding) == k
      {
        assert rs[k] == front[k];
        assert ResourceIds(rs)[k] != ResourceIds(rs)[|rs| - 1];
      }
      forall id, d | d != Binding || id !in ResourceIds(rs)
        ensures DecorationOf(BindSequentially(decorations, rs), id, d) == DecorationOf(decorations, id, d)
      {
        assert ResourceIds(rs)[|rs| - 1] == rs[|rs| - 1].id;
        assert forall x :: x in ResourceIds(front) ==> x in ResourceIds(rs);
      }
    }
  }

  /** Descriptor set 0 and binding 0 for an id the transpiler returned, nothing for id 0. */
  function BindAtZero(decorations: map<(Id, Decoration), nat>, id: Id): (r: map<(Id, Decoration), nat>)
    ensures id != 0 ==> DecorationOf(r, id, DescriptorSet) == 0 && DecorationOf(r, id, Binding) == 0
    ensures forall other, d :: (other != id || (d != DescriptorSet && d != Binding)) ==>
      DecorationOf(r, other, d) == DecorationOf(decorations, other, d)
    ensures id == 0 ==> r == decorations
  {
    if id != 0 then decorations[(id, DescriptorSet) := 0][(id, Binding) := 0] else decorations
  }

  const CombinedPrefix := "SPIRV_Cross_Combined"

  function CombinedName(names: map<Id, string>, c: CombinedSampler): string {
    CombinedPrefix + NameOf(names, c.imageId) + NameOf(names, c.samplerId)
  }

  /** The name table after each combined image-sampler in turn is named after its image and sampler. */
  function CombinedRenames(names: map<Id, string>, cs: seq<CombinedSampler>): map<Id, string> {
    if cs == [] then names
    else
      var before := CombinedRenames(names, cs[..|cs| - 1]);
      before[cs[|cs| - 1].combinedId := CombinedName(before, cs[|cs| - 1])]
  }

  function CombinedIds(cs: seq<CombinedSampler>): seq<Id> { Seqs.Map((x: CombinedSampler) => x.combinedId, cs) }

  /** No combined id is also the image or sampler of a combined image-sampler. */
  predicate FreshCombinedIds(cs: seq<CombinedSampler>) {
    forall k, j :: 0 <= k < |cs| && 0 <= j < |cs| ==> cs[k].combinedId != cs[j].imageId && cs[k].combinedId != cs[j].samplerId
  }

  /**
    When the combined ids are distinct and new, each is named
    `SPIRV_Cross_Combined` + its image's name + its sampler's name, and every
    other id keeps its name.
   */
  lemma {:induction false} CombinedNamesEffect(names: map<Id, string>, cs: seq<CombinedSampler>)
    requires Distinct(CombinedIds(cs)) && FreshCombinedIds(cs)
    ensures forall id :: id !in CombinedIds(cs) ==> NameOf(CombinedRenames(names, cs), id) == NameOf(names, id)
    ensures forall k :: 0 <= k < |cs| ==>
      NameOf(CombinedRenames(names, cs), cs[k].combinedId)
        == CombinedPrefix + NameOf(names, cs[k].imageId) + NameOf(names, cs[k].samplerId)
  {
    if cs != [] {
      var front := cs[..|cs| - 1];
      var last := cs[|cs| - 1];
      assert CombinedIds(front) == CombinedIds(cs)[..|cs| - 1];
      assert Distinct(CombinedIds(front)) && FreshCombinedIds(front);
      CombinedNamesEffect(names, front);
      var before := CombinedRenames(names, front);
      assert last.imageId !in CombinedIds(front) && last.samplerId !in CombinedIds(front) by {
        forall k | 0 <= k < |front|
          ensures CombinedIds(front)[k] != last.imageId && CombinedIds(front)[k] != last.samplerId
        {
          assert front[k] == cs[k];
        }
      }
      assert NameOf(before, last.imageId) == NameOf(names, last.imageId);
      assert NameOf(before, last.samplerId) == NameOf(names, last.samplerId);
      forall id | id !in CombinedIds(cs)
        ensures NameOf(CombinedRenames(names, cs), id) == NameOf(names, id)
      {
        assert CombinedIds(cs)[|cs| - 1] == last.combinedId;
        assert forall x :: x in CombinedIds(front) ==> x in CombinedIds(cs);
      }
      forall k | 0 <= k < |cs| - 1
        ensures NameOf(CombinedRenames(names, cs), cs[k].combinedId)
          == CombinedPrefix + NameOf(names, cs[k].imageId) + NameOf(names, cs[k].samplerId)
      {
        assert cs[k] == front[k];
        assert CombinedIds(cs)[k] != CombinedIds(cs)[|cs| - 1];
      }
    }
  }

  /** Two decoration tables agree on one (id, decoration) pair: both carry it with the same value, or neither carries it. */
  predicate SameDecoration(a: map<(Id, Decoration), nat>, b: map<(Id, Decoration), nat>, id: Id, d: Decoration) {
    ((id, d) in a <==> (id, d) in b) && DecorationOf(a, id, d) == DecorationOf(b, id, d)
  }

  /** What a combined id's descriptor set or binding becomes: the image's when it carries one, its own otherwise. */
  function InheritedValue(decorations: map<(Id, Decoration), nat>, c: CombinedSampler, d: Decoration): nat {
    if (c.imageId, d) in decorations then decorations[(c.imageId, d)] else DecorationOf(decorations, c.combinedId, d)
  }

  /** One step of the inheritance touches only the combined id's descriptor set and binding. */
  lemma InheritOneEffect(decorations: map<(Id, Decoration), nat>, c: CombinedSampler)
    requires c.combinedId != c.imageId
    ensures forall id, d :: (id != c.combinedId || (d != DescriptorSet && d != Binding)) ==>
      SameDecoration(InheritOne(decorations, c), decorations, id, d)
    ensures DecorationOf(InheritOne(decorations, c), c.combinedId, DescriptorSet) == InheritedValue(decorations, c, DescriptorSet)
    ensures DecorationOf(InheritOne(decorations, c), c.combinedId, Binding) == InheritedValue(decorations, c, Binding)
  {
  }

  /**
    When the combined ids are distinct and new, inheriting gives each combined
    id its image's descriptor set and binding (where the image has them), and
    changes nothing else.
   */
  lemma {:induction false} InheritedBindingsEffect(decorations: map<(Id, Decoration), nat>, cs: seq<CombinedSampler>)
    requires Distinct(CombinedIds(cs)) && FreshCombinedIds(cs)
    ensures forall id, d :: (id !in CombinedIds(cs) || (d != DescriptorSet && d != Binding)) ==>
      SameDecoration(InheritedBindings(decorations, cs), decorations, id, d)
    ensures forall k :: 0 <= k < |cs| ==>
      DecorationOf(InheritedBindings(decorations, cs), cs[k].combinedId, DescriptorSet) == InheritedValue(decorations, cs[k], DescriptorSet)
      && DecorationOf(InheritedBindings(decorations, cs), cs[k].combinedId, Binding) == InheritedValue(decorations, cs[k], Binding)
  {
    if cs != [] {
      var front := cs[..|cs| - 1];
      var last := cs[|cs| - 1];
      assert CombinedIds(front) == CombinedIds(cs)[..|cs| - 1];
      assert Distinct(CombinedIds(front)) && FreshCombinedIds(front);
      InheritedBindingsEffect(decorations, front);
      var before := InheritedBindings(decorations, front);
      assert last.combinedId != last.imageId;
      InheritOneEffect(before, last);
      assert last.imageId !in CombinedIds(front) && last.combinedId !in CombinedIds(front) by {
        forall k | 0 <= k < |front|
          ensures CombinedIds(front)[k] != last.imageId && CombinedIds(front)[k] != last.combinedId
        {
          assert front[k] == cs[k];
          assert CombinedIds(cs)[k] != CombinedIds(cs)[|cs| - 1];
        }
      }
      assert SameDecoration(before, decorations, last.imageId, DescriptorSet);
      assert SameDecoration(before, decorations, last.imageId, Binding);
      assert SameDecoration(before, decorations, last.combinedId, DescriptorSet);
      assert SameDecoration(before, decorations, last.combinedId, Binding);
      forall id, d | id !in CombinedIds(cs) || (d != DescriptorSet && d != Binding)
        ensures SameDecoration(InheritedBindings(decorations, cs), decorations, id, d)
      {
        assert CombinedIds(cs)[|cs| - 1] == last.combinedId;
        assert forall x :: x in CombinedIds(front) ==> x in CombinedIds(cs);
        assert SameDecoration(before, decorations, id, d);
      }
      forall k | 0 <= k < |cs| - 1
        ensures DecorationOf(InheritedBindings(decorations, cs), cs[k].combinedId, DescriptorSet) == InheritedValue(decorations, cs[k], DescriptorSet)
        ensures DecorationOf(InheritedBindings(decorations, cs), cs[k].combinedId, Binding) == InheritedValue(decorations, cs[k], Binding)
      {
        assert cs[k] == front[k];
        assert CombinedIds(cs)[k] != CombinedIds(cs)[|cs| - 1];
      }
    }
  }

  // ---------------------------------------------------------------------------
  // The whole preparation

  /** Where the preparation ends: an early return with a message, or a configured transpiler. */
  datatype Preparation = Halted(message: string) | Ready(config: TranspilerConfig)

  /** The HLSL shader model: the version when one is given, the transpiler's own otherwise (and for other languages). */
  function HlslShaderModelFor(language: ShadingLanguage, version: Option<string>, intVersion: nat, default: nat): nat {
    if language == Hlsl && version.Some? then intVersion else default
  }

  /** The name table the transpiler ends with. */
  function PreparedNames(info: ModuleInfo, stage: ShaderStage, language: ShadingLanguage, intVersion: nat, combined: bool)
    : map<Id, string>
  {
    var legacy := if (language == Glsl || language == Essl) && intVersion <= 300 then
      LegacyRenames(info.names, info.activeInterfaceVariables, stage)
    else info.names;
    if combined then CombinedRenames(legacy, info.combinedSamplers) else legacy
  }

  /** The decoration table the transpiler ends with. */
  function PreparedDecorations(info: ModuleInfo, language: ShadingLanguage, combined: bool, inherit: bool)
    : map<(Id, Decoration), nat>
  {
    var msl := if language.IsMsl() then
      BindSequentially(BindSequentially(info.decorations, info.resources.separateImages), info.resources.separateSamplers)
    else info.decorations;
    var dummy := if combined then BindAtZero(msl, info.dummySampler) else msl;
    var inherited := if combined && inherit then InheritedBindings(dummy, info.combinedSamplers) else dummy;
    if language == Hlsl then BindAtZero(inherited, info.numWorkgroupsBuiltin) else inherited
  }

  /**
    The transpiler set up by `CrossCompile` for a module, or the message of the
    check that stops it: the early stage gates, then (with a version) HLSL below 30.
   */
  function Prepare(words: seq<Word>, info: ModuleInfo, source: SourceDesc, options: Options, target: TargetDesc, intVersion: nat)
    : (r: Preparation)
    requires !target.language.IsBinary() && source.entryPoint.Some?
    ensures r.Halted? <==>
      (EarlyGate(source.stage, target.language, intVersion).Some? || (target.language == Hlsl && target.version.Some? && intVersion < 30))
    ensures r.Ready? ==>
      r.config.words == words && r.config.backend == BackendFor(target.language)
      && r.config.entryPoint == source.entryPoint.value && r.config.model == StageModel(source.stage)
  {
    var language := target.language;
    var gate := EarlyGate(source.stage, language, intVersion);
    if gate.Some? then Halted(gate.value)
    else
      var common := CommonOptionsFor(info.commonDefaults, language, target.version, intVersion);
      if language == Hlsl && target.version.Some? && common.version < 30 then Halted(HlslNeeds30)
      else
        var hlslShaderModel := HlslShaderModelFor(language, target.version, intVersion, info.hlslShaderModelDefault);
        var msl := if language.IsMsl() then MslOptionsFor(info.mslDefaults, language, target.version, intVersion) else info.mslDefaults;
        var combined := NeedsCombinedSamplers(language, hlslShaderModel);
        Ready(TranspilerConfig(BackendFor(language), words,
          PreparedNames(info, source.stage, language, intVersion, combined),
          PreparedDecorations(info, language, combined, options.inheritCombinedSamplerBindings),
          source.entryPoint.value, StageModel(source.stage), common, hlslShaderModel, msl, combined))
  }

  /**
    The preparation stops exactly at an early gate or, with a version, at HLSL
    below 30; otherwise the transpiler runs the source's entry point and stage
    model with the option records, and combines samplers exactly for GLSL,
    ESSL and HLSL up to shader model 30.
   */
  lemma PrepareOutcome(words: seq<Word>, info: ModuleInfo, source: SourceDesc, options: Options, target: TargetDesc, intVersion: nat)
    requires !target.language.IsBinary() && source.entryPoint.Some?
    ensures var p := Prepare(words, info, source, options, target, intVersion);
      var gate := EarlyGate(source.stage, target.language, intVersion);
      (p.Halted? <==> gate.Some? || (target.language == Hlsl && target.version.Some? && intVersion < 30))
      && (gate.Some? ==> p == Halted(gate.value))
      && (gate.None? && p.Halted? ==> p.message == HlslNeeds30)
    ensures var p := Prepare(words, info, source, options, target, intVersion);
      p.Ready? ==>
        p.config.entryPoint == source.entryPoint.value && p.config.model == StageModel(source.stage)
        && p.config.words == words && p.config.backend == BackendFor(target.language)
        && p.config.common == CommonOptionsFor(info.commonDefaults, target.language, target.version, intVersion)
        && (p.config.combinedSamplersBuilt <==>
          target.language == Glsl || target.language == Essl
          || (target.language == Hlsl && (if target.version.Some? then intVersion else info.hlslShaderModelDefault) <= 30))
        && p.config.decorations == PreparedDecorations(info, target.language, p.config.combinedSamplersBuilt, options.inheritCombinedSamplerBindings)
  {
  }

  /**
    For MSL, over distinct image ids and distinct sampler ids that do not
    overlap, the k-th separate image and the k-th separate sampler get binding `k`.
   */
  lemma MslSequentialBindings(words: seq<Word>, info: ModuleInfo, source: SourceDesc, options: Options, target: TargetDesc, intVersion: nat)
    requires target.language.IsMsl() && source.entryPoint.Some?
    requires Distinct(ResourceIds(info.resources.separateImages)) && Distinct(ResourceIds(info.resources.separateSamplers))
    requires forall x :: x in ResourceIds(info.resources.separateImages) ==> x !in ResourceIds(info.resources.separateSamplers)
    requires Prepare(words, info, source, options, target, intVersion).Ready?
    ensures var decorations := Prepare(words, info, source, options, target, intVersion).config.decorations;
      (forall k :: 0 <= k < |info.resources.separateImages| ==>
        DecorationOf(decorations, info.resources.separateImages[k].id, Binding) == k)
      && (forall k :: 0 <= k < |info.resources.separateSamplers| ==>
        DecorationOf(decorations, info.resources.separateSamplers[k].id, Binding) == k)
  {
    var images := info.resources.separateImages;
    var samplers := info.resources.separateSamplers;
    var first := BindSequentially(info.decorations, images);
    BindingsSequential(info.decorations, images);
    BindingsSequential(first, samplers);
    forall k | 0 <= k < |images|
      ensures DecorationOf(BindSequentially(first, samplers), images[k].id, Binding) == k
    {
      assert ResourceIds(images)[k] == images[k].id;
    }
  }

  // ---------------------------------------------------------------------------
  // Running the transpiler

  /** The foreign side of stage 2: SPIRV-Cross's parse of a module and its `compile()`. */
  datatype CrossBackend = CrossBackend(parse: seq<Word> -> ModuleInfo, emit: TranspilerConfig -> EmitOutcome)

  /** The bytes the words are read from: a whole number of 32-bit words (`size / 4` of them). */
  function WholeWords(bytes: seq<bv8>): (r: seq<bv8>)
    ensures |r| % 4 == 0 && |r| <= |bytes| && |bytes| - |r| < 4 && r == bytes[..|r|]
  {
    bytes[..|bytes| - |bytes| % 4]
  }

  /** The result `CrossCompile` starts from: text, with the stage-1 diagnostics. */
  function StartResult(binary: ResultDesc): (r: ResultDesc)
    ensures r.isText && r.target == [] && r.errorWarningMsg == binary.errorWarningMsg && r.reflection == Reflect.NoReflection
  {
    EmptyResult.(isText := true, errorWarningMsg := binary.errorWarningMsg)
  }

  /** The result once the transpiler has run: its text and (when asked) reflection, or its error in place of the diagnostics. */
  function Finish(start: ResultDesc, config: TranspilerConfig, info: ModuleInfo, options: Options, emit: TranspilerConfig -> EmitOutcome)
    : (r: Result<ResultDesc, Fault>)
    ensures r.Failure? ==> options.needReflection && emit(config).Emitted?
    ensures r.Success? ==> r.value.isText == start.isText && (r.value.hasError <==> emit(config).CompilerError?)
    ensures r.Success? && emit(config).CompilerError? ==>
      r.value.target == start.target && r.value.errorWarningMsg == Text.Bytes(emit(config).message)
    ensures r.Success? && emit(config).Emitted? ==>
      r.value.target == Text.Bytes(emit(config).text) && r.value.errorWarningMsg == start.errorWarningMsg
    ensures r.Success? && emit(config).Emitted? && options.needReflection ==>
      var data := SpirvReflection.ReflectionOf(config.names, config.decorations, info, config.model);
      data.Success? && r.value.reflection == Reflect.Reflection(Some(data.value))
  {
    match emit(config)
    case CompilerError(message) => Success(start.(errorWarningMsg := Text.Bytes(message), hasError := true))
    case Emitted(text) =>
      if options.needReflection then
        var data :- SpirvReflection.ReflectionOf(config.names, config.decorations, info, config.model);
        Success(start.(target := Text.Bytes(text), hasError := false, reflection := Reflect.Reflection(Some(data))))
      else Success(start.(target := Text.Bytes(text), hasError := false))
  }

  /** `CrossCompile`: the version, the preparation, and the transpiler's answer. */
  function CrossCompileSpec(binary: ResultDesc, source: SourceDesc, options: Options, target: TargetDesc, cross: CrossBackend)
    : (r: Result<ResultDesc, Fault>)
    requires !target.language.IsBinary() && source.entryPoint.Some?
    ensures VersionNumber(target.version).Failure? ==> r == Failure(InvalidVersion)
    ensures r.Success? ==> r.value.isText
    ensures r.Success? && !r.value.hasError ==> r.value.errorWarningMsg == binary.errorWarningMsg
  {
    var intVersion :- VersionNumber(target.version);
    var words := Words(WholeWords(binary.target));
    var info := cross.parse(words);
    match Prepare(words, info, source, options, target, intVersion)
    case Halted(message) => Success(AppendError(StartResult(binary), message))
    case Ready(config) => Finish(StartResult(binary), config, info, options, cross.emit)
  }

  /**
    Every stage-2 result is text. A check that stops the preparation gives an
    empty target, `hasError` and the stage-1 diagnostics plus the message; a
    transpiler error replaces the diagnostics with its own text; a transpiler
    success keeps the stage-1 diagnostics and clears `hasError`. An unreadable
    version stops the compile.
   */
  lemma CrossCompileOutcome(binary: ResultDesc, source: SourceDesc, options: Options, target: TargetDesc, cross: CrossBackend)
    requires !target.language.IsBinary() && source.entryPoint.Some?
    ensures var r := CrossCompileSpec(binary, source, options, target, cross);
      (r.Failure? && VersionNumber(target.version).Failure? ==> r.error == InvalidVersion)
      && (VersionNumber(target.version).Failure? ==> r.Failure?)
    ensures var r := CrossCompileSpec(binary, source, options, target, cross);
      r.Success? ==> r.value.isText
    ensures VersionNumber(target.version).Success? ==>
      var intVersion := VersionNumber(target.version).value;
      var words := Words(WholeWords(binary.target));
      var p := Prepare(words, cross.parse(words), source, options, target, intVersion);
      var r := CrossCompileSpec(binary, source, options, target, cross);
      (p.Halted? ==> r == Success(AppendError(StartResult(binary), p.message)))
      && (p.Ready? && cross.emit(p.config).CompilerError? ==>
        r.Success? && r.value.hasError && r.value.target == [] && r.value.errorWarningMsg == Text.Bytes(cross.emit(p.config).message))
      && (p.Ready? && cross.emit(p.config).Emitted? && r.Success? ==>
        !r.value.hasError && r.value.target == Text.Bytes(cross.emit(p.config).text)
        && r.value.errorWarningMsg == binary.errorWarningMsg)
  {
  }

  /** An HLSL compute shader without a version stops: the missing version counts as 0. */
  lemma HlslComputeNeedsVersion(binary: ResultDesc, source: SourceDesc, options: Options, cross: CrossBackend)
    requires source.entryPoint.Some? && source.stage == ComputeShader
    ensures var r := CrossCompileSpec(binary, source, options, TargetDesc(Hlsl, None, false), cross);
      r.Success? && r.value.hasError && r.value.target == []
      && (binary.errorWarningMsg == [] ==> r.value.errorWarningMsg == Text.Bytes(HlslCsNeeds50))
  {
  }

  // ---------------------------------------------------------------------------
  // The method

  /** The legacy rename loop over the active interface variables. */
  method RenameLegacyVaryings(t: Transpiler, vars: seq<InterfaceVar>, stage: ShaderStage)
    modifies t`names
    ensures t.names == LegacyRenames(old(t.names), vars, stage)
  {
    ghost var start := t.names;
    for i := 0 to |vars|
      invariant t.names == LegacyRenames(start, vars[..i], stage)
    {
      assert vars[..i + 1][..i] == vars[..i];
      var v := vars[i];
      var name := NameOf(t.names, v.id);
      var renamed := LegacyName(stage, v.storage, name);
      if renamed.Some? {
        t.SetName(v.id, renamed.value);
      }
    }
    assert vars[..|vars|] == vars;
  }

  /** An MSL counter loop: the k-th resource gets binding `k`. */
  method BindInOrder(t: Transpiler, rs: seq<Resource>)
    modifies t`decorations
    ensures t.decorations == BindSequentially(old(t.decorations), rs)
  {
    ghost var start := t.decorations;
    var binding := 0;
    while binding < |rs|
      invariant binding <= |rs|
      invariant t.decorations == BindSequentially(start, rs[..binding])
    {
      assert rs[..binding + 1][..binding] == rs[..binding];
      t.SetDecoration(rs[binding].id, Binding, binding);
      binding := binding + 1;
    }
    assert rs[..|rs|] == rs;
  }

  /** Descriptor set 0 and binding 0 for an id the transpiler returned, nothing for id 0. */
  method PlaceAtZero(t: Transpiler, id: Id)
    modifies t`decorations
    ensures t.decorations == BindAtZero(old(t.decorations), id)
  {
    if id != 0 {
      t.SetDecoration(id, DescriptorSet, 0);
      t.SetDecoration(id, Binding, 0);
    }
  }

  /** The naming loop over the combined image-samplers. */
  method NameCombinedSamplers(t: Transpiler, cs: seq<CombinedSampler>)
    modifies t`names
    ensures t.names == CombinedRenames(old(t.names), cs)
  {
    ghost var start := t.names;
    for i := 0 to |cs|
      invariant t.names == CombinedRenames(start, cs[..i])
    {
      assert cs[..i + 1][..i] == cs[..i];
      t.SetName(cs[i].combinedId, CombinedPrefix + NameOf(t.names, cs[i].imageId) + NameOf(t.names, cs[i].samplerId));
    }
    assert cs[..|cs|] == cs;
  }

  /** The backend-specific part: the HLSL shader model (or the version check that stops it), or the MSL options and bindings. */
  method ConfigureBackend(t: Transpiler, info: ModuleInfo, language: ShadingLanguage, version: Option<string>, intVersion: nat)
    returns (halted: bool, combined: bool)
    requires !language.IsBinary()
    modifies t`hlslShaderModel, t`msl, t`decorations
    ensures halted <==> language == Hlsl && version.Some? && intVersion < 30
    ensures !halted ==>
      combined == NeedsCombinedSamplers(language, HlslShaderModelFor(language, version, intVersion, old(t.hlslShaderModel)))
      && t.hlslShaderModel == HlslShaderModelFor(language, version, intVersion, old(t.hlslShaderModel))
      && t.msl == (if language.IsMsl() then MslOptionsFor(old(t.msl), language, version, intVersion) else old(t.msl))
      && t.decorations == (if language.IsMsl() then
           BindSequentially(BindSequentially(old(t.decorations), info.resources.separateImages), info.resources.separateSamplers)
         else old(t.decorations))
  {
    combined := language == Glsl || language == Essl;
    halted := false;
    if language == Hlsl {
      var shaderModel := t.hlslShaderModel;
      if version.Some? {
        if intVersion < 30 {
          return true, combined;
        }
        shaderModel := intVersion;
      }
      if shaderModel <= 30 {
        combined := true;
      }
      t.SetHlslShaderModel(shaderModel);
    } else if language.IsMsl() {
      t.SetMslOptions(MslOptionsFor(t.msl, language, version, intVersion));
      BindInOrder(t, info.resources.separateImages);
      BindInOrder(t, info.resources.separateSamplers);
    }
  }

  /** The steps after the backend options: the dummy sampler, the combined image-samplers and their names, the HLSL work-group builtin. */
  method ConfigureSamplers(t: Transpiler, info: ModuleInfo, language: ShadingLanguage, combined: bool, inherit: bool)
    requires t.info == info
    modifies t`names, t`decorations, t`combinedSamplersBuilt
    ensures t.names == (if combined then CombinedRenames(old(t.names), info.combinedSamplers) else old(t.names))
    ensures var dummy := if combined then BindAtZero(old(t.decorations), info.dummySampler) else old(t.decorations);
      var inherited := if combined && inherit then InheritedBindings(dummy, info.combinedSamplers) else dummy;
      t.decorations == (if language == Hlsl then BindAtZero(inherited, info.numWorkgroupsBuiltin) else inherited)
    ensures t.combinedSamplersBuilt == (combined || old(t.combinedSamplersBuilt))
  {
    if combined {
      PlaceAtZero(t, info.dummySampler);
      t.BuildCombinedImageSamplers();
      if inherit {
        t.InheritCombinedSamplerBindings();
      }
      NameCombinedSamplers(t, info.combinedSamplers);
    }
    if language == Hlsl {
      PlaceAtZero(t, info.numWorkgroupsBuiltin);
    }
  }

  /** Past the checks, the preparation is this configuration. */
  lemma PrepareReady(words: seq<Word>, info: ModuleInfo, source: SourceDesc, options: Options, target: TargetDesc, intVersion: nat)
    requires !target.language.IsBinary() && source.entryPoint.Some?
    requires EarlyGate(source.stage, target.language, intVersion).None?
    requires !(target.language == Hlsl && target.version.Some? && intVersion < 30)
    ensures var language := target.language;
      var hlslShaderModel := HlslShaderModelFor(language, target.version, intVersion, info.hlslShaderModelDefault);
      var combined := NeedsCombinedSamplers(language, hlslShaderModel);
      Prepare(words, info, source, options, target, intVersion) == Ready(TranspilerConfig(BackendFor(language), words,
        PreparedNames(info, source.stage, language, intVersion, combined),
        PreparedDecorations(info, language, combined, options.inheritCombinedSamplerBindings),
        source.entryPoint.value, StageModel(source.stage),
        CommonOptionsFor(info.commonDefaults, language, target.version, intVersion), hlslShaderModel,
        if language.IsMsl() then MslOptionsFor(info.mslDefaults, language, target.version, intVersion) else info.mslDefaults,
        combined))
  {
  }

  /** `CrossCompileSpec` once the version is read: the preparation's message, or the transpiler's answer. */
  lemma CrossCompileSpecSteps(binary: ResultDesc, source: SourceDesc, options: Options, target: TargetDesc, cross: CrossBackend)
    requires !target.language.IsBinary() && source.entryPoint.Some?
    requires VersionNumber(target.version).Success?
    ensures var intVersion := VersionNumber(target.version).value;
      var words := Words(WholeWords(binary.target));
      var info := cross.parse(words);
      var p := Prepare(words, info, source, options, target, intVersion);
      CrossCompileSpec(binary, source, options, target, cross)
        == if p.Halted? then Success(AppendError(StartResult(binary), p.message))
           else Finish(StartResult(binary), p.config, info, options, cross.emit)
  {
  }

  /**
    The transpiler's construction and configuration, call by call, past the
    early gates: what it is left holding, or the HLSL version check that stops it.
   */
  method Configure(words: seq<Word>, info: ModuleInfo, source: SourceDesc, options: Options, target: TargetDesc, intVersion: nat)
    returns (p: Preparation)
    requires !target.language.IsBinary() && source.entryPoint.Some?
    requires EarlyGate(source.stage, target.language, intVersion).None?
    ensures p == Prepare(words, info, source, options, target, intVersion)
  {
    var language := target.language;
    var t := new Transpiler(BackendFor(language), words, info);
    if (language == Glsl || language == Essl) && intVersion <= 300 {
      RenameLegacyVaryings(t, info.activeInterfaceVariables, source.stage);
    }
    t.SetEntryPoint(source.entryPoint.value, StageModel(source.stage));
    t.SetCommonOptions(CommonOptionsFor(t.common, language, target.version, intVersion));
    var halted, combined := ConfigureBackend(t, info, language, target.version, intVersion);
    if halted {
      return Halted(HlslNeeds30);
    }
    ConfigureSamplers(t, info, language, combined, options.inheritCombinedSamplerBindings);
    PrepareReady(words, info, source, options, target, intVersion);
    ghost var hlslShaderModel := HlslShaderModelFor(language, target.version, intVersion, info.hlslShaderModelDefault);
    assert combined == NeedsCombinedSamplers(language, hlslShaderModel);
    assert t.names == PreparedNames(info, source.stage, language, intVersion, combined);
    assert t.decorations == PreparedDecorations(info, language, combined, options.inheritCombinedSamplerBindings);
    assert t.common == CommonOptionsFor(info.commonDefaults, language, target.version, intVersion);
    assert t.hlslShaderModel == hlslShaderModel;
    assert t.msl == if language.IsMsl() then MslOptionsFor(info.mslDefaults, language, target.version, intVersion) else info.mslDefaults;
    assert t.combinedSamplersBuilt == combined;
    p := Ready(t.Config());
  }

  /** `CrossCompile`: the version, the early gates, the configured transpiler and its answer. */
  method CrossCompile(binary: ResultDesc, source: SourceDesc, options: Options, target: TargetDesc, cross: CrossBackend)
    returns (r: Result<ResultDesc, Fault>)
    requires !target.language.IsBinary() && source.entryPoint.Some?
    ensures r == CrossCompileSpec(binary, source, options, target, cross)
  {
    var ret := StartResult(binary);
    var version := VersionNumber(target.version);
    if version.Failure? {
      return Failure(version.error);
    }
    var intVersion := version.value;
    var words := Words(WholeWords(binary.target));
    var info := cross.parse(words);
    CrossCompileSpecSteps(binary, source, options, target, cross);
    var gate := EarlyGate(source.stage, target.language, intVersion);
    if gate.Some? {
      assert Prepare(words, info, source, options, target, intVersion) == Halted(gate.value);
      return Success(AppendError(ret, gate.value));
    }
    var p := Configure(words, info, source, options, target, intVersion);
    if p.Halted? {
      return Success(AppendError(ret, p.message));
    }
    r := Finish(ret, p.config, info, options, cross.emit);
  }

  // ---------------------------------------------------------------------------
  // Routing

  /**
    `ConvertBinary`: a failed stage-1 result, a library target and a DXIL or
    SPIR-V target take the stage-1 result as it is; every other target is
    cross-compiled from it.
   */
  function ConvertBinary(binary: ResultDesc, source: SourceDesc, options: Options, target: TargetDesc, cross: CrossBackend)
    : (r: Result<ResultDesc, Fault>)
    requires source.entryPoint.Some?
    ensures binary.hasError || target.asModule || target.language.IsBinary() ==> r == Success(binary)
    ensures !(binary.hasError || target.asModule || target.language.IsBinary()) && r.Success? ==> r.value.isText
  {
    if binary.hasError || target.asModule || target.language.IsBinary() then Success(binary)
    else
      CrossCompileOutcome(binary, source, options, target, cross);
      CrossCompileSpec(binary, source, options, target, cross)
  }
}
