/**
  Reflection gathered from a transpiler (`ReflectionImpl(const spirv_cross::Compiler&)`):
  resources and constant buffers, stage input/output signatures with their
  system-value semantics, patch constants, and the stage metadata the execution
  modes give.
 */
module SpirvReflection {
  import opened Wrappers
  import opened Seqs
  import opened Text
  import opened Spirv
  import opened SpirvCross
  import opened Reflect
  import Api

  type Fault = Api.Fault

  // ---------------------------------------------------------------------------
  // Built-in semantics

  /** The built-ins the semantic table lists; any other built-in is unsupported. */
  predicate KnownBuiltIn(b: BuiltIn) {
    b in {Position, FragCoord, FragDepth, VertexId, VertexIndex, InstanceId, InstanceIndex, SampleId, SampleMask,
          TessLevelInner, TessLevelOuter, GlobalInvocationId, LocalInvocationId, LocalInvocationIndex, WorkgroupId,
          FrontFacing, InvocationId, PrimitiveId, TessCoord}
  }

  /** `ExtractBuiltInemantic`: the HLSL system-value semantic of a built-in; empty for one with no signature entry. */
  function BuiltInSemantic(b: BuiltIn): (r: Result<string, Fault>)
    ensures r.Success? <==> KnownBuiltIn(b)
    ensures r.Success? && r.value != [] ==> StartsWith(r.value, "SV_") && !IsDigit(r.value[|r.value| - 1])
    ensures r.Success? && r.value == [] <==>
      b in {GlobalInvocationId, LocalInvocationId, LocalInvocationIndex, WorkgroupId, FrontFacing, InvocationId, PrimitiveId, TessCoord}
  {
    match b
    case Position => Success("SV_Position")
    case FragCoord => Success("SV_Position")
    case FragDepth => Success("SV_Depth")
    case VertexId => Success("SV_VertexID")
    case VertexIndex => Success("SV_VertexID")
    case InstanceId => Success("SV_InstanceID")
    case InstanceIndex => Success("SV_InstanceID")
    case SampleId => Success("SV_SampleIndex")
    case SampleMask => Success("SV_Coverage")
    case TessLevelInner => Success("SV_InsideTessFactor")
    case TessLevelOuter => Success("SV_TessFactor")
    case GlobalInvocationId => Success("")
    case LocalInvocationId => Success("")
    case LocalInvocationIndex => Success("")
    case WorkgroupId => Success("")
    case FrontFacing => Success("")
    case InvocationId => Success("")
    case PrimitiveId => Success("")
    case TessCoord => Success("")
    case _ => Failure(Api.UnsupportedBuiltin)
  }

  // ---------------------------------------------------------------------------
  // Semantic name and index

  /** Where the trailing run of decimal digits of `s` starts; 0 when `s` is all digits. */
  function TrailingDigitsStart(s: string): (p: nat)
    ensures p <= |s|
    ensures AllDigits(s[p..])
    ensures p > 0 ==> !IsDigit(s[p - 1])
  {
    if s == [] then 0
    else if IsDigit(s[|s| - 1]) then
      var p := TrailingDigitsStart(s[..|s| - 1]);
      assert s[p..] == s[..|s| - 1][p..] + [s[|s| - 1]];
      p
    else |s|
  }

  /**
    A semantic split into its name and index: the name without its trailing
    digits and the value of those digits (0 when there are none). A semantic made
    only of digits leaves the name empty and the index 0.
   */
  function SplitSemantic(s: string): (r: (string, nat))
    ensures StartsWith(s, r.0) && (r.0 == [] || !IsDigit(r.0[|r.0| - 1]))
    ensures r.0 != [] ==> AllDigits(s[|r.0|..]) && r.1 == DecimalValue(s[|r.0|..])
    ensures r.0 == [] ==> r.1 == 0
  {
    var p := TrailingDigitsStart(s);
    if p == 0 then ("", 0) else (s[..p], DecimalValue(s[p..]))
  }

  /** A name that does not end in a digit, followed by the digits of `n`, splits back into the name and `n`. */
  lemma SplitSemanticRoundTrip(name: string, n: nat)
    requires name != [] && !IsDigit(name[|name| - 1])
    ensures SplitSemantic(name + NatToString(n)) == (name, n)
    ensures SplitSemantic(name) == (name, 0)
  {
    var digits := NatToString(n);
    TrailingDigitsOver(name, digits);
    assert (name + digits)[..|name|] == name;
    assert (name + digits)[|name|..] == digits;
    NatToStringRoundTrip(n);
    TrailingDigitsOver(name, []);
    assert name + [] == name;
  }

  /** Appending digits to a name that ends in a non-digit puts the split right after the name. */
  lemma {:induction false} TrailingDigitsOver(name: string, digits: string)
    requires name != [] && !IsDigit(name[|name| - 1]) && AllDigits(digits)
    ensures TrailingDigitsStart(name + digits) == |name|
  {
    if digits == [] {
      assert name + digits == name;
    } else {
      var s := name + digits;
      assert s[..|s| - 1] == name + digits[..|digits| - 1];
      TrailingDigitsOver(name, digits[..|digits| - 1]);
    }
  }

  /** The system-value semantics never carry an index: they split into themselves and 0. */
  lemma BuiltInSemanticsSplitWhole(b: BuiltIn)
    requires BuiltInSemantic(b).Success? && BuiltInSemantic(b).value != []
    ensures SplitSemantic(BuiltInSemantic(b).value) == (BuiltInSemantic(b).value, 0)
  {
    var s := BuiltInSemantic(b).value;
    SplitSemanticRoundTrip(s, 0);
  }

  /**
    The reverse-iterator loop of `ExtractParameter`: scans from the end for the
    last non-digit, then takes the name before the digits and `atoi` of the digits.
   */
  method ExtractSemantic(semantic: string) returns (name: string, index: nat)
    ensures (name, index) == SplitSemantic(semantic)
  {
    name, index := "", 0;
    var i := |semantic|;
    while i > 0
      invariant 0 <= i <= |semantic|
      invariant AllDigits(semantic[i..])
      invariant TrailingDigitsStart(semantic) == TrailingDigitsStart(semantic[..i])
      invariant name == "" && index == 0
    {
      if !IsDigit(semantic[i - 1]) {
        assert TrailingDigitsStart(semantic[..i]) == i;
        var indexPart := semantic[i..];
        if indexPart == [] {
          index := 0;
        } else {
          index := DecimalValue(indexPart);
        }
        name := semantic[..i];
        return;
      }
      assert semantic[..i][..i - 1] == semantic[..i - 1];
      assert semantic[i - 1..] == [semantic[i - 1]] + semantic[i..];
      i := i - 1;
    }
    assert semantic[..0] == [];
  }

  // ---------------------------------------------------------------------------
  // Signature parameters

  /** The component mask of a `vecsize`-component parameter: X, then Y, Z, W as the size allows. */
  function ComponentMask(vecsize: nat): bv8 {
    var x: bv8 := if vecsize > 0 then MaskX else 0;
    var xy := if vecsize > 1 then x | MaskY else x;
    var xyz := if vecsize > 2 then xy | MaskZ else xy;
    if vecsize > 3 then xyz | MaskW else xyz
  }

  /** The mask has exactly the first min(vecsize, 4) of the X, Y, Z, W bits. */
  lemma ComponentMaskBits(vecsize: nat)
    ensures (ComponentMask(vecsize) & MaskX != 0) <==> vecsize > 0
    ensures (ComponentMask(vecsize) & MaskY != 0) <==> vecsize > 1
    ensures (ComponentMask(vecsize) & MaskZ != 0) <==> vecsize > 2
    ensures (ComponentMask(vecsize) & MaskW != 0) <==> vecsize > 3
    ensures ComponentMask(vecsize) & 0xF0 == 0
  {
    if vecsize == 0 {
      assert ComponentMask(vecsize) == 0;
    } else if vecsize == 1 {
      assert ComponentMask(vecsize) == 1;
    } else if vecsize == 2 {
      assert ComponentMask(vecsize) == 3;
    } else if vecsize == 3 {
      assert ComponentMask(vecsize) == 7;
    } else {
      assert ComponentMask(vecsize) == 15;
    }
  }

  /** The component type of a parameter: 32-bit uint, int or float; any other base type is unsupported. */
  function ComponentType(t: BaseType): (r: Result<DataType, Fault>)
    ensures r.Success? <==> t in {BaseType.UInt, BaseType.Int, BaseType.Float}
    ensures r == Success(DataType.Uint) <==> t == BaseType.UInt
    ensures r == Success(DataType.Int) <==> t == BaseType.Int
    ensures r == Success(DataType.Float) <==> t == BaseType.Float
  {
    match t
    case UInt => Success(DataType.Uint)
    case Int => Success(DataType.Int)
    case Float => Success(DataType.Float)
    case _ => Failure(Api.UnsupportedComponentType)
  }

  /** `ExtractParameter`: a signature entry for `res` under `semantic`. */
  function ExtractParameter(decorations: map<(Id, Decoration), nat>, res: Resource, semantic: string)
    : (r: Result<SignatureParameterDesc, Fault>)
    ensures r.Success? <==> ComponentType(res.resourceType.baseType).Success?
    ensures r.Success? ==>
      (r.value.semantic, r.value.semanticIndex) == SplitSemantic(semantic)
      && r.value.mask == ComponentMask(res.resourceType.vecsize)
      && r.value.location == DecorationOf(decorations, res.id, Location)
      && Success(r.value.componentType) == ComponentType(res.resourceType.baseType)
  {
    var split := SplitSemantic(semantic);
    var componentType :- ComponentType(res.resourceType.baseType);
    Success(SignatureParameterDesc(split.0, split.1, DecorationOf(decorations, res.id, Location), componentType,
      ComponentMask(res.resourceType.vecsize)))
  }

  /** `type.array[0]`, the number of tessellation factors; 0 for a non-array. */
  function FirstDimension(t: SpirType): nat {
    if t.dims == [] then 0 else t.dims[0]
  }

  /** One patch-constant entry per tessellation factor: index `k` (or 0) and a one-component mask. */
  function TessFactorEntries(p: SignatureParameterDesc, count: nat, indexed: bool, mask: bv8): (r: seq<SignatureParameterDesc>)
    ensures |r| == count
    ensures forall k :: 0 <= k < count ==>
      r[k] == p.(semanticIndex := if indexed then k else 0, mask := mask)
  {
    seq(count, k requires 0 <= k < count => p.(semanticIndex := if indexed then k else 0, mask := mask))
  }

  /**
    A built-in input: nothing for a built-in without a semantic; the inner and
    outer tessellation levels expand to patch constants (outer ones indexed, with
    mask W; inner ones at index 0, with mask X); any other built-in is one input.
   */
  function BuiltInInputEntry(decorations: map<(Id, Decoration), nat>, input: BuiltInResource)
    : (r: Result<(seq<SignatureParameterDesc>, seq<SignatureParameterDesc>), Fault>)
    ensures r.Failure? <==> (BuiltInSemantic(input.builtin).Failure?
      || (BuiltInSemantic(input.builtin).value != [] && ComponentType(input.resource.resourceType.baseType).Failure?))
    ensures r.Success? && input.builtin != TessLevelOuter && input.builtin != TessLevelInner ==>
      |r.value.0| <= 1 && r.value.1 == []
    ensures BuiltInSemantic(input.builtin) == Success([]) ==> r == Success(([], []))
    ensures r.Success? && BuiltInSemantic(input.builtin).value != [] ==>
      var p := ExtractParameter(decorations, input.resource, BuiltInSemantic(input.builtin).value);
      p.Success?
      && (input.builtin != TessLevelOuter && input.builtin != TessLevelInner ==> r.value == ([p.value], []))
      && (input.builtin == TessLevelOuter ==> forall k :: 0 <= k < |r.value.1| ==>
            r.value.1[k] == p.value.(semanticIndex := k, mask := MaskW))
      && (input.builtin == TessLevelInner ==> forall k :: 0 <= k < |r.value.1| ==>
            r.value.1[k] == p.value.(semanticIndex := 0, mask := MaskX))
    ensures r.Success? && input.builtin == TessLevelOuter ==>
      r.value.0 == [] && |r.value.1| == FirstDimension(input.resource.resourceType)
      && forall k :: 0 <= k < |r.value.1| ==> r.value.1[k].semanticIndex == k && r.value.1[k].mask == MaskW
    ensures r.Success? && input.builtin == TessLevelInner ==>
      r.value.0 == [] && |r.value.1| == FirstDimension(input.resource.resourceType)
      && forall k :: 0 <= k < |r.value.1| ==> r.value.1[k].semanticIndex == 0 && r.value.1[k].mask == MaskX
  {
    var semantic :- BuiltInSemantic(input.builtin);
    if semantic == [] then Success(([], []))
    else
      var p :- ExtractParameter(decorations, input.resource, semantic);
      var count := FirstDimension(input.resource.resourceType);
      if input.builtin == TessLevelOuter then Success(([], TessFactorEntries(p, count, true, MaskW)))
      else if input.builtin == TessLevelInner then Success(([], TessFactorEntries(p, count, false, MaskX)))
      else Success(([p], []))
  }

  /** A stage input: a patch constant when it carries `Patch`, otherwise an input. */
  function StageInputEntry(names: map<Id, string>, decorations: map<(Id, Decoration), nat>, input: Resource)
    : (r: Result<(seq<SignatureParameterDesc>, seq<SignatureParameterDesc>), Fault>)
    ensures r.Success? <==> ComponentType(input.resourceType.baseType).Success?
    ensures r.Success? ==>
      var p := ExtractParameter(decorations, input, NameOf(names, input.id));
      p.Success? && (HasFlag(decorations, input.id, Patch) ==> r.value == ([], [p.value]))
      && (!HasFlag(decorations, input.id, Patch) ==> r.value == ([p.value], []))
  {
    var p :- ExtractParameter(decorations, input, NameOf(names, input.id));
    if HasFlag(decorations, input.id, Patch) then Success(([], [p])) else Success(([p], []))
  }

  /**
    A built-in output: nothing without a semantic; the tessellation levels expand
    to patch constants indexed 0, 1, ... (mask W outer, X inner); any other is one output.
   */
  function BuiltInOutputEntry(decorations: map<(Id, Decoration), nat>, output: BuiltInResource)
    : (r: Result<(seq<SignatureParameterDesc>, seq<SignatureParameterDesc>), Fault>)
    ensures r.Failure? <==> (BuiltInSemantic(output.builtin).Failure?
      || (BuiltInSemantic(output.builtin).value != [] && ComponentType(output.resource.resourceType.baseType).Failure?))
    ensures r.Success? && output.builtin != TessLevelOuter && output.builtin != TessLevelInner ==>
      |r.value.0| <= 1 && r.value.1 == []
    ensures BuiltInSemantic(output.builtin) == Success([]) ==> r == Success(([], []))
    ensures r.Success? && BuiltInSemantic(output.builtin).value != [] ==>
      var p := ExtractParameter(decorations, output.resource, BuiltInSemantic(output.builtin).value);
      p.Success?
      && (output.builtin != TessLevelOuter && output.builtin != TessLevelInner ==> r.value == ([p.value], []))
      && (output.builtin == TessLevelOuter || output.builtin == TessLevelInner ==> forall k :: 0 <= k < |r.value.1| ==>
            r.value.1[k] == p.value.(semanticIndex := k, mask := if output.builtin == TessLevelOuter then MaskW else MaskX))
    ensures r.Success? && (output.builtin == TessLevelOuter || output.builtin == TessLevelInner) ==>
      r.value.0 == [] && |r.value.1| == FirstDimension(output.resource.resourceType)
      && forall k :: 0 <= k < |r.value.1| ==>
        r.value.1[k].semanticIndex == k && r.value.1[k].mask == (if output.builtin == TessLevelOuter then MaskW else MaskX)
  {
    var semantic :- BuiltInSemantic(output.builtin);
    if semantic == [] then Success(([], []))
    else
      var p :- ExtractParameter(decorations, output.resource, semantic);
      var count := FirstDimension(output.resource.resourceType);
      if output.builtin == TessLevelOuter then Success(([], TessFactorEntries(p, count, true, MaskW)))
      else if output.builtin == TessLevelInner then Success(([], TessFactorEntries(p, count, true, MaskX)))
      else Success(([p], []))
  }

  /** A stage output: always one output. */
  function StageOutputEntry(names: map<Id, string>, decorations: map<(Id, Decoration), nat>, output: Resource)
    : (r: Result<(seq<SignatureParameterDesc>, seq<SignatureParameterDesc>), Fault>)
    ensures r.Success? <==> ComponentType(output.resourceType.baseType).Success?
    ensures r.Success? ==>
      var p := ExtractParameter(decorations, output, NameOf(names, output.id));
      p.Success? && r.value == ([p.value], [])
  {
    var p :- ExtractParameter(decorations, output, NameOf(names, output.id));
    Success(([p], []))
  }

  function BuiltInInputStep(decorations: map<(Id, Decoration), nat>): BuiltInResource -> Result<(seq<SignatureParameterDesc>, seq<SignatureParameterDesc>), Fault> {
    input => BuiltInInputEntry(decorations, input)
  }

  function StageInputStep(names: map<Id, string>, decorations: map<(Id, Decoration), nat>): Resource -> Result<(seq<SignatureParameterDesc>, seq<SignatureParameterDesc>), Fault> {
    input => StageInputEntry(names, decorations, input)
  }

  function BuiltInOutputStep(decorations: map<(Id, Decoration), nat>): BuiltInResource -> Result<(seq<SignatureParameterDesc>, seq<SignatureParameterDesc>), Fault> {
    output => BuiltInOutputEntry(decorations, output)
  }

  function StageOutputStep(names: map<Id, string>, decorations: map<(Id, Decoration), nat>): Resource -> Result<(seq<SignatureParameterDesc>, seq<SignatureParameterDesc>), Fault> {
    output => StageOutputEntry(names, decorations, output)
  }

  /** The tessellation levels expand to `array[0]` entries with the source's index and mask. */
  lemma TessLevelExpansion(decorations: map<(Id, Decoration), nat>, b: BuiltInResource)
    requires b.builtin in {TessLevelOuter, TessLevelInner}
    requires ComponentType(b.resource.resourceType.baseType).Success?
    ensures var inputs := BuiltInInputEntry(decorations, b);
      inputs.Success? && inputs.value.0 == [] && |inputs.value.1| == FirstDimension(b.resource.resourceType)
      && forall k :: 0 <= k < |inputs.value.1| ==>
        inputs.value.1[k].semantic == BuiltInSemantic(b.builtin).value
        && inputs.value.1[k].semanticIndex == (if b.builtin == TessLevelOuter then k else 0)
        && inputs.value.1[k].mask == (if b.builtin == TessLevelOuter then MaskW else MaskX)
    ensures var outputs := BuiltInOutputEntry(decorations, b);
      outputs.Success? && outputs.value.0 == [] && |outputs.value.1| == FirstDimension(b.resource.resourceType)
      && forall k :: 0 <= k < |outputs.value.1| ==>
        outputs.value.1[k].semanticIndex == k
        && outputs.value.1[k].mask == (if b.builtin == TessLevelOuter then MaskW else MaskX)
  {
    BuiltInSemanticsSplitWhole(b.builtin);
  }

  // ---------------------------------------------------------------------------
  // Types and constant buffers

  /** The vector or matrix suffix of a type name: `N` for an N-vector, `CxR` for a matrix. */
  function ShapeSuffix(columns: nat, vecsize: nat): string {
    if columns == 1 then (if vecsize > 1 then NatToString(vecsize) else "")
    else NatToString(columns) + "x" + NatToString(vecsize)
  }

  /** The data type and base name of a SPIR-V base type; a struct is named after its type id. */
  function BaseTypeName(names: map<Id, string>, t: SpirType): Result<(DataType, string), Fault> {
    match t.baseType
    case Boolean => Success((DataType.Bool, "bool"))
    case Int => Success((DataType.Int, "int"))
    case UInt => Success((DataType.Uint, "uint"))
    case Float => Success((DataType.Float, "float"))
    case Half => Success((DataType.Half, "half"))
    case Short => Success((DataType.Int16, "int16_t"))
    case UShort => Success((DataType.Uint16, "uint16_t"))
    case Struct => Success((DataType.Struct, NameOf(names, t.self)))
    case Void => Success((DataType.Void, "void"))
    case Other => Failure(Api.UnsupportedVariableType)
  }

  /**
    The type of struct member `m` (`VariableTypeImpl`): its name with shape suffix,
    rows and columns (swapped under `ColMajor`), elements and stride from its
    first array dimension, and for a struct its own members.
   */
  function MemberType(names: map<Id, string>, m: SpirMember): (r: Result<VariableType, Fault>)
    decreases m, 1
    ensures r.Success? ==>
      var t := m.memberType;
      r.value.rows == (if m.colMajor then t.vecsize else t.columns)
      && r.value.columns == (if m.colMajor then t.columns else t.vecsize)
      && r.value.elements == FirstDimension(t)
      && r.value.elementStride == (if t.dims == [] then 0 else m.arrayStride)
      && (r.value.dataType == DataType.Struct <==> t.baseType == BaseType.Struct)
      && (t.baseType != BaseType.Struct ==> r.value.members == [])
      && (t.baseType == BaseType.Struct ==> |r.value.members| == |t.members|)
    ensures r.Success? <==>
      (BaseTypeName(names, m.memberType).Success?
       && (m.memberType.baseType == BaseType.Struct ==> Members(names, m.memberType.members).Success?))
    ensures r.Success? ==>
      var base := BaseTypeName(names, m.memberType);
      base.Success?
      && r.value.name == base.value.1 + ShapeSuffix(m.memberType.columns, m.memberType.vecsize)
      && r.value.dataType == base.value.0
    ensures r.Success? && m.memberType.baseType == BaseType.Struct ==>
      Success(r.value.members) == Members(names, m.memberType.members)
  {
    var t := m.memberType;
    var base :- BaseTypeName(names, t);
    var members :- if t.baseType == BaseType.Struct then Members(names, t.members) else Success([]);
    var rows := if m.colMajor then t.vecsize else t.columns;
    var columns := if m.colMajor then t.columns else t.vecsize;
    var stride := if t.dims == [] then 0 else m.arrayStride;
    Success(VariableType(base.1 + ShapeSuffix(t.columns, t.vecsize), base.0, rows, columns, FirstDimension(t), stride, members))
  }

  /** The variables of a struct's members, in order, each with its name, type, offset and declared size. */
  function Members(names: map<Id, string>, ms: seq<SpirMember>): (r: Result<seq<VariableDesc>, Fault>)
    decreases ms, 0
    ensures r.Success? ==> |r.value| == |ms|
    ensures r.Success? ==> forall k :: 0 <= k < |ms| ==>
      r.value[k].name == ms[k].name && r.value[k].offset == ms[k].offset && r.value[k].size == ms[k].declaredSize
      && Success(r.value[k].varType) == MemberType(names, ms[k])
  {
    if ms == [] then Success([])
    else
      var head :- MemberType(names, ms[0]);
      var tail :- Members(names, ms[1..]);
      assert forall k :: 1 <= k < |ms| ==> ms[1..][k - 1] == ms[k];
      Success([VariableDesc(ms[0].name, head, ms[0].offset, ms[0].declaredSize)] + tail)
  }

  /** `ConstantBufferImpl`: a uniform block's name, declared size and member variables. */
  function ConstantBufferOf(names: map<Id, string>, res: Resource): (r: Result<ConstantBuffer, Fault>)
    ensures r.Success? ==>
      r.value.name == NameOf(names, res.id) && r.value.size == res.resourceType.declaredSize
      && Success(r.value.variables) == Members(names, res.resourceType.members)
  {
    var variables :- Members(names, res.resourceType.members);
    Success(ConstantBuffer.ConstantBuffer(NameOf(names, res.id), res.resourceType.declaredSize, variables))
  }

  /** The `float3`, `float4x4` and `int` names the shape suffix gives. */
  lemma ShapeSuffixExamples()
    ensures ShapeSuffix(1, 3) == "3" && ShapeSuffix(4, 4) == "4x4" && ShapeSuffix(1, 1) == ""
  {
    assert NatToString(3) == "3";
    assert NatToString(4) == "4";
  }

  /** A `float3` member, a column-major `float4x4` member and a member of an unsupported base type. */
  lemma MemberTypeExamples(names: map<Id, string>, storage: StorageClass)
    ensures var vec := SpirType(BaseType.Float, 7, 3, 1, [], storage, 12, []);
      var r := MemberType(names, SpirMember("v", vec, 0, 12, false, 0));
      r.Success? && r.value.name == "float3" && r.value.dataType == DataType.Float
      && r.value.rows == 1 && r.value.columns == 3
    ensures var mat := SpirType(BaseType.Float, 8, 4, 4, [], storage, 64, []);
      var r := MemberType(names, SpirMember("m", mat, 16, 64, true, 0));
      r.Success? && r.value.name == "float4x4" && r.value.rows == 4 && r.value.columns == 4
    ensures MemberType(names, SpirMember("x", SpirType(BaseType.Other, 9, 1, 1, [], storage, 8, []), 0, 8, false, 0)).Failure?
  {
    ShapeSuffixExamples();
    assert "float" + "3" == "float3";
    assert "float" + "4x4" == "float4x4";
  }

  // ---------------------------------------------------------------------------
  // Resources

  /** `ExtractReflection`: name, descriptor set as space, binding as bind point, one binding. */
  function ResourceOf(names: map<Id, string>, decorations: map<(Id, Decoration), nat>, id: Id, kind: ShaderResourceType)
    : (r: ResourceDesc)
    ensures r.name == NameOf(names, id) && r.resourceType == kind && r.bindCount == 1
    ensures r.space == DecorationOf(decorations, id, DescriptorSet) && r.bindPoint == DecorationOf(decorations, id, Binding)
  {
    ResourceDesc(NameOf(names, id), kind, DecorationOf(decorations, id, DescriptorSet), DecorationOf(decorations, id, Binding), 1)
  }

  /** A storage buffer is writable when it is an SSBO block without `NonWritable`. */
  predicate IsSsboBlock(decorations: map<(Id, Decoration), nat>, t: SpirType) {
    t.storage == StorageBuffer || (t.storage == Uniform && HasFlag(decorations, t.self, BufferBlock))
  }

  function StorageBufferKind(decorations: map<(Id, Decoration), nat>, res: Resource): (k: ShaderResourceType)
    ensures k == UnorderedAccessView <==> IsSsboBlock(decorations, res.resourceType) && !res.nonWritableBlock
    ensures k == UnorderedAccessView || k == ShaderResourceView
  {
    if IsSsboBlock(decorations, res.resourceType) then
      if res.nonWritableBlock then ShaderResourceView else UnorderedAccessView
    else ShaderResourceView
  }

  function UniformBufferEntry(names: map<Id, string>, decorations: map<(Id, Decoration), nat>, res: Resource)
    : Result<(seq<ResourceDesc>, seq<ConstantBuffer>), Fault>
  {
    var cbuffer :- ConstantBufferOf(names, res);
    Success(([ResourceOf(names, decorations, res.id, ShaderResourceType.ConstantBuffer)], [cbuffer]))
  }

  function UniformBufferStep(names: map<Id, string>, decorations: map<(Id, Decoration), nat>)
    : Resource -> Result<(seq<ResourceDesc>, seq<ConstantBuffer>), Fault>
  {
    res => UniformBufferEntry(names, decorations, res)
  }

  function StorageBufferStep(names: map<Id, string>, decorations: map<(Id, Decoration), nat>): Resource -> ResourceDesc {
    (res: Resource) => ResourceOf(names, decorations, res.id, StorageBufferKind(decorations, res))
  }

  function FixedKindStep(names: map<Id, string>, decorations: map<(Id, Decoration), nat>, kind: ShaderResourceType)
    : Resource -> ResourceDesc
  {
    (res: Resource) => ResourceOf(names, decorations, res.id, kind)
  }

  /** Sampled images are textures numbered 0, 1, ... in their own bind-point sequence. */
  function SampledImageEntries(names: map<Id, string>, decorations: map<(Id, Decoration), nat>, images: seq<Resource>)
    : (r: seq<ResourceDesc>)
    ensures |r| == |images|
    ensures forall k :: 0 <= k < |images| ==> r[k] == ResourceOf(names, decorations, images[k].id, Texture).(bindPoint := k)
  {
    seq(|images|, k requires 0 <= k < |images| => ResourceOf(names, decorations, images[k].id, Texture).(bindPoint := k))
  }

  /** The resource list, in the order uniform, storage buffers, storage images, separate images and samplers, sampled images. */
  function OtherResources(names: map<Id, string>, decorations: map<(Id, Decoration), nat>, rs: ShaderResources)
    : seq<ResourceDesc>
  {
    Map(StorageBufferStep(names, decorations), rs.storageBuffers)
    + Map(FixedKindStep(names, decorations, UnorderedAccessView), rs.storageImages)
    + Map(FixedKindStep(names, decorations, Texture), rs.separateImages)
    + Map(FixedKindStep(names, decorations, Sampler), rs.separateSamplers)
    + SampledImageEntries(names, decorations, rs.sampledImages)
  }

  // ---------------------------------------------------------------------------
  // Stage metadata

  /** Control points to tessellator domain: 2 lines, 3 triangles, 4 quads. */
  function DomainOfControlPoints(n: nat): TessellatorDomain {
    if n == 2 then TessellatorDomain.Line
    else if n == 3 then TessellatorDomain.Triangle
    else if n == 4 then TessellatorDomain.Quad
    else TessellatorDomain.Undefined
  }

  /** The partitioning of a hull shader as the source writes it: the third test repeats the second. */
  function PartitioningAsWritten(modes: set<ExecutionMode>): TessellatorPartitioning {
    if SpacingEqual in modes then TessellatorPartitioning.Integer
    else if SpacingFractionalOdd in modes then TessellatorPartitioning.FractionalOdd
    else if SpacingFractionalOdd in modes then TessellatorPartitioning.FractionalEven
    else TessellatorPartitioning.Undefined
  }

  /** The partitioning of a hull shader: equal, fractional-odd or fractional-even spacing. */
  function Partitioning(modes: set<ExecutionMode>): (r: TessellatorPartitioning)
    ensures r == TessellatorPartitioning.FractionalEven <==>
      SpacingFractionalEven in modes && SpacingEqual !in modes && SpacingFractionalOdd !in modes
  {
    if SpacingEqual in modes then TessellatorPartitioning.Integer
    else if SpacingFractionalOdd in modes then TessellatorPartitioning.FractionalOdd
    else if SpacingFractionalEven in modes then TessellatorPartitioning.FractionalEven
    else TessellatorPartitioning.Undefined
  }

  /** The as-written partitioning never reports fractional-even spacing. */
  lemma PartitioningAsWrittenNeverFractionalEven(modes: set<ExecutionMode>)
    ensures PartitioningAsWritten(modes) != TessellatorPartitioning.FractionalEven
    ensures PartitioningAsWritten({SpacingFractionalEven}) == TessellatorPartitioning.Undefined
    ensures Partitioning({SpacingFractionalEven}) == TessellatorPartitioning.FractionalEven
  {
  }

  /** The two agree on every mode set but one with fractional-even spacing alone. */
  lemma PartitioningAgrees(modes: set<ExecutionMode>)
    requires SpacingFractionalEven !in modes || SpacingEqual in modes || SpacingFractionalOdd in modes
    ensures Partitioning(modes) == PartitioningAsWritten(modes)
  {
  }

  function HullInputPrimitive(modes: set<ExecutionMode>): PrimitiveTopology {
    if InputPoints in modes then Patches(1)
    else if InputLines in modes then Patches(2)
    else if ExecutionMode.Triangles in modes then Patches(3)
    else PrimitiveTopology.Undefined
  }

  function HullOutputPrimitive(modes: set<ExecutionMode>): TessellatorOutputPrimitive {
    if VertexOrderCw in modes then TriangleCW
    else if VertexOrderCcw in modes then TriangleCCW
    else TessellatorOutputPrimitive.Undefined
  }

  function GeometryInput(modes: set<ExecutionMode>): PrimitiveTopology {
    if InputPoints in modes then Points
    else if InputLines in modes then Lines
    else if ExecutionMode.Triangles in modes then PrimitiveTopology.Triangles
    else if InputLinesAdjacency in modes then LinesAdj
    else if InputTrianglesAdjacency in modes then TrianglesAdj
    else PrimitiveTopology.Undefined
  }

  function GeometryOutput(modes: set<ExecutionMode>): PrimitiveTopology {
    if OutputPoints in modes then Points
    else if OutputLineStrip in modes then LineStrip
    else if OutputTriangleStrip in modes then TriangleStrip
    else PrimitiveTopology.Undefined
  }

  /** A block size comes from its specialisation constant when there is one, otherwise from `LocalSize`. */
  function BlockSize(spec: SpecConstant, literal: nat): nat {
    if spec.id != 0 then spec.constantId else literal
  }

  /** The stage metadata the execution model and modes give; every other field keeps its default. */
  function StageMetadataOf(model: ExecutionModel, info: ModuleInfo): (r: StageMetadata)
    ensures model !in {TessellationControl, TessellationEvaluation} ==>
      r.hsDSTessellatorDomain == TessellatorDomain.Undefined && r.hsDSNumControlPoints == 0
      && r.hsPartitioning == TessellatorPartitioning.Undefined
    ensures model !in {TessellationControl, Geometry} ==> r.gsHSInputPrimitive == PrimitiveTopology.Undefined
    ensures model != GLCompute ==> r.csBlockSizeX == 0 && r.csBlockSizeY == 0 && r.csBlockSizeZ == 0
    ensures r.hsPartitioning == Partitioning(info.modes) || r.hsPartitioning == TessellatorPartitioning.Undefined
  {
    var modes := info.modes;
    match model
    case TessellationControl =>
      var points := if OutputVertices in modes then info.outputVertices else 0;
      var domain := if OutputVertices in modes then DomainOfControlPoints(points) else TessellatorDomain.Undefined;
      NoStageMetadata.(hsDSNumControlPoints := points, hsDSTessellatorDomain := domain,
        gsHSInputPrimitive := HullInputPrimitive(modes), hsOutputPrimitive := HullOutputPrimitive(modes),
        hsPartitioning := Partitioning(modes))
    case TessellationEvaluation =>
      if Isolines in modes then NoStageMetadata.(hsDSTessellatorDomain := TessellatorDomain.Line, hsDSNumControlPoints := 2)
      else if ExecutionMode.Triangles in modes then NoStageMetadata.(hsDSTessellatorDomain := TessellatorDomain.Triangle, hsDSNumControlPoints := 3)
      else if Quads in modes then NoStageMetadata.(hsDSTessellatorDomain := TessellatorDomain.Quad, hsDSNumControlPoints := 4)
      else NoStageMetadata
    case Geometry =>
      NoStageMetadata.(
        gsMaxNumOutputVertices := if OutputVertices in modes then info.outputVertices else 0,
        gsNumInstances := if Invocations in modes then info.invocations else 0,
        gsHSInputPrimitive := GeometryInput(modes),
        gsOutputTopology := GeometryOutput(modes))
    case GLCompute =>
      NoStageMetadata.(
        csBlockSizeX := BlockSize(info.workGroupSizeSpec.0, info.localSize.0),
        csBlockSizeY := BlockSize(info.workGroupSizeSpec.1, info.localSize.1),
        csBlockSizeZ := BlockSize(info.workGroupSizeSpec.2, info.localSize.2))
    case _ => NoStageMetadata
  }

  /** The partitioning part of the execution-mode switch as the source writes it. */
  function StageMetadataAsWritten(model: ExecutionModel, info: ModuleInfo): (r: StageMetadata)
    ensures r == StageMetadataOf(model, info).(hsPartitioning := r.hsPartitioning)
    ensures r.hsPartitioning != TessellatorPartitioning.FractionalEven
  {
    var m := StageMetadataOf(model, info);
    if model == TessellationControl then m.(hsPartitioning := PartitioningAsWritten(info.modes)) else m
  }

  /** The tessellator domain and the control-point count always agree: 2 for lines, 3 triangles, 4 quads. */
  lemma DomainMatchesControlPoints(model: ExecutionModel, info: ModuleInfo)
    ensures var m := StageMetadataOf(model, info);
      (m.hsDSTessellatorDomain == TessellatorDomain.Line ==> m.hsDSNumControlPoints == 2)
      && (m.hsDSTessellatorDomain == TessellatorDomain.Triangle ==> m.hsDSNumControlPoints == 3)
      && (m.hsDSTessellatorDomain == TessellatorDomain.Quad ==> m.hsDSNumControlPoints == 4)
  {
  }

  // ---------------------------------------------------------------------------
  // The whole reflection

  /** The resource pass: uniform buffers (each with its constant buffer), then the other resource lists. */
  function ResourcesOf(names: map<Id, string>, decorations: map<(Id, Decoration), nat>, rs: ShaderResources)
    : (r: Result<(seq<ResourceDesc>, seq<ConstantBuffer>), Fault>)
    ensures r.Success? <==> forall k :: 0 <= k < |rs.uniformBuffers| ==> UniformBufferStep(names, decorations)(rs.uniformBuffers[k]).Success?
    ensures r.Success? ==> |r.value.1| == |rs.uniformBuffers|
    ensures r.Success? ==>
      |r.value.0| == |rs.uniformBuffers| + |rs.storageBuffers| + |rs.storageImages|
        + |rs.separateImages| + |rs.separateSamplers| + |rs.sampledImages|
  {
    SplitConcatSucceeds(UniformBufferStep(names, decorations), rs.uniformBuffers);
    var uniform :- SplitConcat(UniformBufferStep(names, decorations), rs.uniformBuffers);
    UniformBuffersPaired(names, decorations, rs.uniformBuffers);
    OtherResourcesLayout(names, decorations, rs);
    Success((uniform.0 + OtherResources(names, decorations, rs), uniform.1))
  }

  /** A signature pass's result: inputs, outputs and patch constants. */
  datatype Signatures = Signatures(inputs: seq<SignatureParameterDesc>, outputs: seq<SignatureParameterDesc>,
                                   patchConstants: seq<SignatureParameterDesc>)

  /**
    The signature pass: built-in inputs, stage inputs, built-in outputs and stage
    outputs, each adding to the inputs or outputs and to the patch constants.
   */
  function SignaturesOf(names: map<Id, string>, decorations: map<(Id, Decoration), nat>, rs: ShaderResources)
    : (r: Result<Signatures, Fault>)
    ensures r.Success? <==>
      (forall k :: 0 <= k < |rs.builtinInputs| ==> BuiltInInputEntry(decorations, rs.builtinInputs[k]).Success?)
      && (forall k :: 0 <= k < |rs.stageInputs| ==> StageInputEntry(names, decorations, rs.stageInputs[k]).Success?)
      && (forall k :: 0 <= k < |rs.builtinOutputs| ==> BuiltInOutputEntry(decorations, rs.builtinOutputs[k]).Success?)
      && (forall k :: 0 <= k < |rs.stageOutputs| ==> StageOutputEntry(names, decorations, rs.stageOutputs[k]).Success?)
    ensures r.Success? ==> |r.value.outputs| >= |rs.stageOutputs|
    ensures r.Success? ==>
      var builtinIn := SplitConcat(BuiltInInputStep(decorations), rs.builtinInputs);
      var stageIn := SplitConcat(StageInputStep(names, decorations), rs.stageInputs);
      var builtinOut := SplitConcat(BuiltInOutputStep(decorations), rs.builtinOutputs);
      var stageOut := SplitConcat(StageOutputStep(names, decorations), rs.stageOutputs);
      builtinIn.Success? && stageIn.Success? && builtinOut.Success? && stageOut.Success?
      && r.value.inputs == builtinIn.value.0 + stageIn.value.0
      && r.value.outputs == builtinOut.value.0 + stageOut.value.0
      && r.value.patchConstants == builtinIn.value.1 + stageIn.value.1 + builtinOut.value.1
  {
    SplitConcatSucceeds(BuiltInInputStep(decorations), rs.builtinInputs);
    SplitConcatSucceeds(StageInputStep(names, decorations), rs.stageInputs);
    SplitConcatSucceeds(BuiltInOutputStep(decorations), rs.builtinOutputs);
    SplitConcatSucceeds(StageOutputStep(names, decorations), rs.stageOutputs);
    StageOutputsHaveNoPatches(names, decorations, rs.stageOutputs);
    var builtinIn :- SplitConcat(BuiltInInputStep(decorations), rs.builtinInputs);
    var stageIn :- SplitConcat(StageInputStep(names, decorations), rs.stageInputs);
    var builtinOut :- SplitConcat(BuiltInOutputStep(decorations), rs.builtinOutputs);
    var stageOut :- SplitConcat(StageOutputStep(names, decorations), rs.stageOutputs);
    Success(Signatures(builtinIn.0 + stageIn.0, builtinOut.0 + stageOut.0, builtinIn.1 + stageIn.1 + builtinOut.1 + stageOut.1))
  }

  /**
    `ReflectionImpl(compiler)`: the resource pass, the signature pass, then the
    stage metadata of the current execution model.
   */
  function ReflectionOf(names: map<Id, string>, decorations: map<(Id, Decoration), nat>, info: ModuleInfo, model: ExecutionModel)
    : (r: Result<ReflectionData, Fault>)
    ensures r.Success? <==> ResourcesOf(names, decorations, info.resources).Success? && SignaturesOf(names, decorations, info.resources).Success?
    ensures r.Success? ==>
      (r.value.resources, r.value.constantBuffers) == ResourcesOf(names, decorations, info.resources).value
      && r.value.inputParams == SignaturesOf(names, decorations, info.resources).value.inputs
      && r.value.outputParams == SignaturesOf(names, decorations, info.resources).value.outputs
      && r.value.patchConstantParams == SignaturesOf(names, decorations, info.resources).value.patchConstants
      && r.value.metadata == StageMetadataOf(model, info)
  {
    var resources :- ResourcesOf(names, decorations, info.resources);
    var signatures :- SignaturesOf(names, decorations, info.resources);
    Success(ReflectionData(resources.0, resources.1, signatures.inputs, signatures.outputs, signatures.patchConstants,
      StageMetadataOf(model, info)))
  }

  /** Each uniform buffer gives one `ConstantBuffer` resource and one constant buffer, in order. */
  lemma {:induction false} UniformBuffersPaired(names: map<Id, string>, decorations: map<(Id, Decoration), nat>, ubs: seq<Resource>)
    requires SplitConcat(UniformBufferStep(names, decorations), ubs).Success?
    ensures var r := SplitConcat(UniformBufferStep(names, decorations), ubs).value;
      |r.0| == |ubs| && |r.1| == |ubs|
      && forall k :: 0 <= k < |ubs| ==>
        r.0[k] == ResourceOf(names, decorations, ubs[k].id, ShaderResourceType.ConstantBuffer)
        && Success(r.1[k]) == ConstantBufferOf(names, ubs[k])
  {
    if ubs != [] {
      UniformBuffersPaired(names, decorations, ubs[1..]);
      assert forall k :: 1 <= k < |ubs| ==> ubs[1..][k - 1] == ubs[k];
    }
  }

  /** Every descriptor binds a single register. */
  predicate SingleBindings(ds: seq<ResourceDesc>) {
    forall k :: 0 <= k < |ds| ==> ds[k].bindCount == 1
  }

  /** The non-uniform resources: as many as their lists hold, storage buffers first with their kind, each bound once. */
  lemma OtherResourcesLayout(names: map<Id, string>, decorations: map<(Id, Decoration), nat>, rs: ShaderResources)
    ensures var others := OtherResources(names, decorations, rs);
      |others| == |rs.storageBuffers| + |rs.storageImages| + |rs.separateImages| + |rs.separateSamplers| + |rs.sampledImages|
      && (forall k :: 0 <= k < |rs.storageBuffers| ==> others[k].resourceType == StorageBufferKind(decorations, rs.storageBuffers[k]))
      && SingleBindings(others)
  {
    var a := Map(StorageBufferStep(names, decorations), rs.storageBuffers);
    var b := Map(FixedKindStep(names, decorations, UnorderedAccessView), rs.storageImages);
    var c := Map(FixedKindStep(names, decorations, Texture), rs.separateImages);
    var d := Map(FixedKindStep(names, decorations, Sampler), rs.separateSamplers);
    var e := SampledImageEntries(names, decorations, rs.sampledImages);
    assert SingleBindings(a) && SingleBindings(b) && SingleBindings(c) && SingleBindings(d) && SingleBindings(e);
    SingleBindingsConcat(a, b);
    SingleBindingsConcat(a + b, c);
    SingleBindingsConcat(a + b + c, d);
    SingleBindingsConcat(a + b + c + d, e);
  }

  lemma SingleBindingsConcat(x: seq<ResourceDesc>, y: seq<ResourceDesc>)
    requires SingleBindings(x) && SingleBindings(y)
    ensures SingleBindings(x + y)
  {
    assert forall k :: |x| <= k < |x + y| ==> (x + y)[k] == y[k - |x|];
  }

  /**
    The resource list of a reflection: one constant buffer per uniform buffer
    and as many resources as the six lists hold, in their order; storage buffers
    are UAVs exactly when writable SSBO blocks; every bind count is 1.
   */
  lemma ResourceLayout(names: map<Id, string>, decorations: map<(Id, Decoration), nat>, rs: ShaderResources)
    requires ResourcesOf(names, decorations, rs).Success?
    ensures var (resources, constantBuffers) := ResourcesOf(names, decorations, rs).value;
      var u := |rs.uniformBuffers|;
      var s := |rs.storageBuffers|;
      |constantBuffers| == u
      && |resources| == u + s + |rs.storageImages| + |rs.separateImages| + |rs.separateSamplers| + |rs.sampledImages|
      && |constantBuffers| <= |resources|
      && (forall k :: 0 <= k < u ==>
            resources[k].resourceType == ShaderResourceType.ConstantBuffer
            && Success(constantBuffers[k]) == ConstantBufferOf(names, rs.uniformBuffers[k]))
      && (forall k :: 0 <= k < s ==>
            (resources[u + k].resourceType == UnorderedAccessView <==>
             IsSsboBlock(decorations, rs.storageBuffers[k].resourceType) && !rs.storageBuffers[k].nonWritableBlock))
      && SingleBindings(resources)
  {
    var uniform := SplitConcat(UniformBufferStep(names, decorations), rs.uniformBuffers).value;
    UniformBuffersPaired(names, decorations, rs.uniformBuffers);
    var others := OtherResources(names, decorations, rs);
    OtherResourcesLayout(names, decorations, rs);
    assert SingleBindings(uniform.0);
    SingleBindingsConcat(uniform.0, others);
    var resources := uniform.0 + others;
    assert forall k :: 0 <= k < |uniform.0| ==> resources[k] == uniform.0[k];
    assert forall k :: 0 <= k < |rs.storageBuffers| ==> resources[|uniform.0| + k] == others[k];
  }

  // ---------------------------------------------------------------------------
  // The constructor's loops

  /** The sampled-image loop with its `combinedBinding` counter. */
  method AppendSampledImages(acc: seq<ResourceDesc>, names: map<Id, string>, decorations: map<(Id, Decoration), nat>, images: seq<Resource>)
    returns (r: seq<ResourceDesc>)
    ensures r == acc + SampledImageEntries(names, decorations, images)
  {
    r := acc;
    var combinedBinding := 0;
    while combinedBinding < |images|
      invariant 0 <= combinedBinding <= |images|
      invariant r == acc + SampledImageEntries(names, decorations, images[..combinedBinding])
    {
      var desc := ResourceOf(names, decorations, images[combinedBinding].id, Texture);
      desc := desc.(bindPoint := combinedBinding);
      assert images[..combinedBinding + 1][..combinedBinding] == images[..combinedBinding];
      r := r + [desc];
      combinedBinding := combinedBinding + 1;
    }
    assert images[..|images|] == images;
  }

  /** The resource loops of the constructor, in the source's order. */
  method BuildResources(names: map<Id, string>, decorations: map<(Id, Decoration), nat>, rs: ShaderResources)
    returns (r: Result<(seq<ResourceDesc>, seq<ConstantBuffer>), Fault>)
    ensures r == ResourcesOf(names, decorations, rs)
  {
    var uniform := AppendSplit([], [], rs.uniformBuffers, UniformBufferStep(names, decorations));
    if uniform.Failure? {
      return Failure(uniform.error);
    }
    ghost var spec := SplitConcat(UniformBufferStep(names, decorations), rs.uniformBuffers);
    assert uniform.value == spec.value by {
      assert [] + spec.value.0 == spec.value.0 && [] + spec.value.1 == spec.value.1;
    }
    var resources := uniform.value.0;
    resources := AppendEach(resources, rs.storageBuffers, StorageBufferStep(names, decorations));
    resources := AppendEach(resources, rs.storageImages, FixedKindStep(names, decorations, UnorderedAccessView));
    resources := AppendEach(resources, rs.separateImages, FixedKindStep(names, decorations, Texture));
    resources := AppendEach(resources, rs.separateSamplers, FixedKindStep(names, decorations, Sampler));
    ghost var beforeSampled := resources;
    resources := AppendSampledImages(resources, names, decorations, rs.sampledImages);
    ghost var a := Map(StorageBufferStep(names, decorations), rs.storageBuffers);
    ghost var b := Map(FixedKindStep(names, decorations, UnorderedAccessView), rs.storageImages);
    ghost var c := Map(FixedKindStep(names, decorations, Texture), rs.separateImages);
    ghost var d := Map(FixedKindStep(names, decorations, Sampler), rs.separateSamplers);
    ghost var e := SampledImageEntries(names, decorations, rs.sampledImages);
    assert beforeSampled == spec.value.0 + a + b + c + d;
    assert resources == beforeSampled + e;
    assert OtherResources(names, decorations, rs) == a + b + c + d + e;
    ConcatAssoc5(spec.value.0, a, b, c, d, e);
    r := Success((resources, uniform.value.1));
  }

  lemma ConcatAssoc5<T>(u: seq<T>, a: seq<T>, b: seq<T>, c: seq<T>, d: seq<T>, e: seq<T>)
    ensures u + a + b + c + d + e == u + (a + b + c + d + e)
  {
    assert u + a + b == u + (a + b);
    assert u + (a + b) + c == u + (a + b + c);
    assert u + (a + b + c) + d == u + (a + b + c + d);
  }

  /** The input, output and patch-constant loops of the constructor, in the source's order. */
  method BuildSignatures(names: map<Id, string>, decorations: map<(Id, Decoration), nat>, rs: ShaderResources)
    returns (r: Result<Signatures, Fault>)
    ensures r == SignaturesOf(names, decorations, rs)
  {
    ghost var builtinIn := SplitConcat(BuiltInInputStep(decorations), rs.builtinInputs);
    ghost var stageIn := SplitConcat(StageInputStep(names, decorations), rs.stageInputs);
    ghost var builtinOut := SplitConcat(BuiltInOutputStep(decorations), rs.builtinOutputs);
    ghost var stageOut := SplitConcat(StageOutputStep(names, decorations), rs.stageOutputs);
    var inputs := AppendSplit([], [], rs.builtinInputs, BuiltInInputStep(decorations));
    if inputs.Failure? {
      return Failure(inputs.error);
    }
    assert inputs.value == builtinIn.value by {
      assert [] + builtinIn.value.0 == builtinIn.value.0 && [] + builtinIn.value.1 == builtinIn.value.1;
    }
    inputs := AppendSplit(inputs.value.0, inputs.value.1, rs.stageInputs, StageInputStep(names, decorations));
    if inputs.Failure? {
      assert stageIn.Failure?;
      return Failure(inputs.error);
    }
    var outputs := AppendSplit([], inputs.value.1, rs.builtinOutputs, BuiltInOutputStep(decorations));
    if outputs.Failure? {
      assert builtinOut.Failure?;
      return Failure(outputs.error);
    }
    assert outputs.value.0 == builtinOut.value.0 by {
      assert [] + builtinOut.value.0 == builtinOut.value.0;
    }
    assert outputs.value.1 == builtinIn.value.1 + stageIn.value.1 + builtinOut.value.1;
    outputs := AppendSplit(outputs.value.0, outputs.value.1, rs.stageOutputs, StageOutputStep(names, decorations));
    if outputs.Failure? {
      assert stageOut.Failure?;
      return Failure(outputs.error);
    }
    r := Success(Signatures(inputs.value.0, outputs.value.0, outputs.value.1));
  }

  /** The reflection constructor: resources, signatures, then the execution-mode switch. */
  method BuildReflection(names: map<Id, string>, decorations: map<(Id, Decoration), nat>, info: ModuleInfo, model: ExecutionModel)
    returns (r: Result<ReflectionData, Fault>)
    ensures r == ReflectionOf(names, decorations, info, model)
  {
    var resources := BuildResources(names, decorations, info.resources);
    if resources.Failure? {
      return Failure(resources.error);
    }
    var signatures := BuildSignatures(names, decorations, info.resources);
    if signatures.Failure? {
      return Failure(signatures.error);
    }
    r := Success(ReflectionData(resources.value.0, resources.value.1, signatures.value.inputs, signatures.value.outputs,
      signatures.value.patchConstants, StageMetadataOf(model, info)));
  }

  /** Stage outputs never produce patch constants: each gives exactly one output. */
  lemma {:induction false} StageOutputsHaveNoPatches(names: map<Id, string>, decorations: map<(Id, Decoration), nat>, outs: seq<Resource>)
    ensures SplitConcat(StageOutputStep(names, decorations), outs).Success? ==>
      SplitConcat(StageOutputStep(names, decorations), outs).value.1 == []
      && |SplitConcat(StageOutputStep(names, decorations), outs).value.0| == |outs|
  {
    if outs != [] {
      StageOutputsHaveNoPatches(names, decorations, outs[1..]);
    }
  }

  /** How many of the stage inputs carry `Patch`. */
  function PatchCount(decorations: map<(Id, Decoration), nat>, ins: seq<Resource>): nat {
    if ins == [] then 0
    else (if HasFlag(decorations, ins[0].id, Patch) then 1 else 0) + PatchCount(decorations, ins[1..])
  }

  /**
    The stage-input walk sends each `Patch` input to the patch constants and every
    other one to the inputs; with no `Patch` input, the inputs are the named
    entries in order.
   */
  lemma {:induction false} StageInputsRouted(names: map<Id, string>, decorations: map<(Id, Decoration), nat>, ins: seq<Resource>)
    requires SplitConcat(StageInputStep(names, decorations), ins).Success?
    ensures var r := SplitConcat(StageInputStep(names, decorations), ins).value;
      |r.1| == PatchCount(decorations, ins) && |r.0| + |r.1| == |ins|
    ensures (forall k :: 0 <= k < |ins| ==> !HasFlag(decorations, ins[k].id, Patch)) ==>
      var r := SplitConcat(StageInputStep(names, decorations), ins).value;
      r.1 == [] && |r.0| == |ins|
      && forall k :: 0 <= k < |ins| ==>
        var p := ExtractParameter(decorations, ins[k], NameOf(names, ins[k].id));
        p.Success? && r.0[k] == p.value
  {
    if ins != [] {
      StageInputsRouted(names, decorations, ins[1..]);
      assert forall k :: 1 <= k < |ins| ==> ins[1..][k - 1] == ins[k];
    }
  }
}
