/**
  The normalised, read-only reflection snapshot (`Reflection` and its nested
  `ConstantBuffer`, `VariableType`, `VariableDesc`, `ResourceDesc` and
  `SignatureParameterDesc`) with its bounded lookup accessors.
 */
module Reflect {
  import opened Wrappers
  import Seqs

  datatype DataType = Void | Bool | Int | Uint | Float | Half | Int16 | Uint16 | Struct

  /** A variable's type; a struct's members are themselves variables, so the type is a tree. */
  datatype VariableType = VariableType(
    name: string,
    dataType: DataType,
    rows: nat,
    columns: nat,
    elements: nat,
    elementStride: nat,
    members: seq<VariableDesc>)
  {
    /** `MemberByIndex`: the member at `index`, or null past the end. */
    function MemberByIndex(index: nat): (r: Option<VariableDesc>)
      ensures r.Some? <==> index < |members|
      ensures r.Some? ==> r.value == members[index]
    {
      if index < |members| then Some(members[index]) else None
    }

    /** `MemberByName`: the first member called `name`, or null when none is. */
    function MemberByName(name: string): (r: Option<VariableDesc>)
      ensures r.None? <==> forall k :: 0 <= k < |members| ==> members[k].name != name
      ensures r.Some? ==> exists k :: 0 <= k < |members| && members[k] == r.value && FirstNamed(VariableNames(members), name, k)
    {
      var k := FindFirst(VariableNames(members), name);
      if k.Some? then Some(members[k.value]) else None
    }
  }

  datatype VariableDesc = VariableDesc(name: string, varType: VariableType, offset: nat, size: nat)

  datatype ConstantBuffer = ConstantBuffer(name: string, size: nat, variables: seq<VariableDesc>)
  {
    /** `VariableByIndex`: the variable at `index`, or null past the end. */
    function VariableByIndex(index: nat): (r: Option<VariableDesc>)
      ensures r.Some? <==> index < |variables|
      ensures r.Some? ==> r.value == variables[index]
    {
      if index < |variables| then Some(variables[index]) else None
    }

    /** `VariableByName`: the first variable called `name`, or null when none is. */
    function VariableByName(name: string): (r: Option<VariableDesc>)
      ensures r.None? <==> forall k :: 0 <= k < |variables| ==> variables[k].name != name
      ensures r.Some? ==> exists k :: 0 <= k < |variables| && variables[k] == r.value && FirstNamed(VariableNames(variables), name, k)
    {
      var k := FindFirst(VariableNames(variables), name);
      if k.Some? then Some(variables[k.value]) else None
    }
  }

  datatype ShaderResourceType = ConstantBuffer | Texture | Sampler | ShaderResourceView | UnorderedAccessView

  datatype ResourceDesc = ResourceDesc(
    name: string,
    resourceType: ShaderResourceType,
    space: nat,
    bindPoint: nat,
    bindCount: nat)

  /** Component-mask bits of a signature parameter. */
  const MaskX: bv8 := 1
  const MaskY: bv8 := 2
  const MaskZ: bv8 := 4
  const MaskW: bv8 := 8

  datatype SignatureParameterDesc = SignatureParameterDesc(
    semantic: string,
    semanticIndex: nat,
    location: nat,
    componentType: DataType,
    mask: bv8)

  datatype PrimitiveTopology =
    | Undefined
    | Points
    | Lines
    | LineStrip
    | Triangles
    | TriangleStrip
    | LinesAdj
    | TrianglesAdj
    | Patches(controlPoints: nat)

  datatype TessellatorOutputPrimitive = Undefined | Point | Line | TriangleCW | TriangleCCW

  datatype TessellatorPartitioning = Undefined | Integer | Pow2 | FractionalOdd | FractionalEven

  datatype TessellatorDomain = Undefined | Line | Triangle | Quad

  /** The geometry, tessellation and compute facts a stage's execution modes give. */
  datatype StageMetadata = StageMetadata(
    gsHSInputPrimitive: PrimitiveTopology,
    gsOutputTopology: PrimitiveTopology,
    gsMaxNumOutputVertices: nat,
    gsNumInstances: nat,
    hsOutputPrimitive: TessellatorOutputPrimitive,
    hsPartitioning: TessellatorPartitioning,
    hsDSTessellatorDomain: TessellatorDomain,
    hsDSNumControlPoints: nat,
    csBlockSizeX: nat,
    csBlockSizeY: nat,
    csBlockSizeZ: nat)

  /** What the reflection constructor leaves for a stage without special execution modes. */
  const NoStageMetadata := StageMetadata(
    PrimitiveTopology.Undefined, PrimitiveTopology.Undefined, 0, 0,
    TessellatorOutputPrimitive.Undefined, TessellatorPartitioning.Undefined, TessellatorDomain.Undefined, 0,
    0, 0, 0)

  /** The data behind a valid `Reflection` (the source's `ReflectionImpl`). */
  datatype ReflectionData = ReflectionData(
    resources: seq<ResourceDesc>,
    constantBuffers: seq<ConstantBuffer>,
    inputParams: seq<SignatureParameterDesc>,
    outputParams: seq<SignatureParameterDesc>,
    patchConstantParams: seq<SignatureParameterDesc>,
    metadata: StageMetadata)
  {
    /** `ResourceByIndex`: the resource at `index`, or null past the end. */
    function ResourceByIndex(index: nat): (r: Option<ResourceDesc>)
      ensures r.Some? <==> index < |resources|
      ensures r.Some? ==> r.value == resources[index]
    {
      if index < |resources| then Some(resources[index]) else None
    }

    /** `ResourceByName`: the first resource called `name`, or null when none is. */
    function ResourceByName(name: string): (r: Option<ResourceDesc>)
      ensures r.None? <==> forall k :: 0 <= k < |resources| ==> resources[k].name != name
      ensures r.Some? ==> exists k :: 0 <= k < |resources| && resources[k] == r.value && FirstNamed(ResourceNames(resources), name, k)
    {
      var k := FindFirst(ResourceNames(resources), name);
      if k.Some? then Some(resources[k.value]) else None
    }

    /**
      `ConstantBufferByIndex`, bounded by the number of constant buffers. The
      source bounds it by the number of resources instead; see
      `ConstantBufferByIndexAsWritten`.
     */
    function ConstantBufferByIndex(index: nat): (r: Option<ConstantBuffer>)
      ensures r.Some? <==> index < |constantBuffers|
      ensures r.Some? ==> r.value == constantBuffers[index]
    {
      if index < |constantBuffers| then Some(constantBuffers[index]) else None
    }

    /** The lookup as the source writes it: the guard tests the resource count. */
    function ConstantBufferByIndexAsWritten(index: nat): (r: Lookup<ConstantBuffer>)
      ensures r.OutOfBounds? <==> |constantBuffers| <= index < |resources|
      ensures r.Found? <==> index < |resources| && index < |constantBuffers|
      ensures r.Found? ==> r.value == constantBuffers[index]
      ensures r.NotFound? <==> |resources| <= index
    {
      if index < |resources| then
        if index < |constantBuffers| then Found(constantBuffers[index]) else OutOfBounds
      else NotFound
    }

    /** `ConstantBufferByName`: the first constant buffer called `name`, or null when none is. */
    function ConstantBufferByName(name: string): (r: Option<ConstantBuffer>)
      ensures r.None? <==> forall k :: 0 <= k < |constantBuffers| ==> constantBuffers[k].name != name
      ensures r.Some? ==>
        exists k :: 0 <= k < |constantBuffers| && constantBuffers[k] == r.value && FirstNamed(ConstantBufferNames(constantBuffers), name, k)
    {
      var k := FindFirst(ConstantBufferNames(constantBuffers), name);
      if k.Some? then Some(constantBuffers[k.value]) else None
    }

    /** `InputParameter`: the input parameter at `index`, or null past the end. */
    function InputParameter(index: nat): (r: Option<SignatureParameterDesc>)
      ensures r.Some? <==> index < |inputParams|
      ensures r.Some? ==> r.value == inputParams[index]
    {
      if index < |inputParams| then Some(inputParams[index]) else None
    }

    /** `OutputParameter`: the output parameter at `index`, or null past the end. */
    function OutputParameter(index: nat): (r: Option<SignatureParameterDesc>)
      ensures r.Some? <==> index < |outputParams|
      ensures r.Some? ==> r.value == outputParams[index]
    {
      if index < |outputParams| then Some(outputParams[index]) else None
    }

    /** `HSDSPatchConstantParameter`: the patch-constant parameter at `index`, or null past the end. */
    function HSDSPatchConstantParameter(index: nat): (r: Option<SignatureParameterDesc>)
      ensures r.Some? <==> index < |patchConstantParams|
      ensures r.Some? ==> r.value == patchConstantParams[index]
    {
      if index < |patchConstantParams| then Some(patchConstantParams[index]) else None
    }
  }

  /** The outcome of a raw array read behind a bounds test. */
  datatype Lookup<T> = Found(value: T) | NotFound | OutOfBounds

  /** A `Reflection` object: null data when no reflection was gathered. */
  datatype Reflection = Reflection(impl: Option<ReflectionData>)
  {
    /** `Valid`: there is reflection data behind the object. */
    predicate Valid() {
      impl.Some?
    }
  }

  const NoReflection := Reflection(None)

  /** Index `k` holds the first occurrence of `name` in `names`. */
  predicate FirstNamed(names: seq<string>, name: string, k: nat) {
    k < |names| && names[k] == name && forall j :: 0 <= j < k ==> names[j] != name
  }

  /** The `strcmp` walk of the by-name accessors: the first index whose name equals `name`. */
  function FindFirst(names: seq<string>, name: string): (r: Option<nat>)
    ensures r.None? <==> forall k :: 0 <= k < |names| ==> names[k] != name
    ensures r.Some? ==> FirstNamed(names, name, r.value)
  {
    if names == [] then None
    else if names[0] == name then Some(0)
    else
      var rest := FindFirst(names[1..], name);
      assert forall k :: 1 <= k < |names| ==> names[1..][k - 1] == names[k];
      if rest.Some? then Some(rest.value + 1) else None
  }

  // The name lists a lookup searches are projections through the shared `Seqs.Map`.
  function VariableNames(vs: seq<VariableDesc>): seq<string> { Seqs.Map((v: VariableDesc) => v.name, vs) }
  function ResourceNames(rs: seq<ResourceDesc>): seq<string> { Seqs.Map((r: ResourceDesc) => r.name, rs) }
  function ConstantBufferNames(cbs: seq<ConstantBuffer>): seq<string> { Seqs.Map((cb: ConstantBuffer) => cb.name, cbs) }

  /**
    Where there are at least as many resources as constant buffers (which the
    reflection builder guarantees), the as-written lookup either over-reads or
    gives the corrected lookup's answer.
   */
  lemma ConstantBufferByIndexAgrees(data: ReflectionData, index: nat)
    requires |data.constantBuffers| <= |data.resources|
    ensures data.ConstantBufferByIndexAsWritten(index).Found? ==> data.ConstantBufferByIndex(index) == Some(data.ConstantBufferByIndexAsWritten(index).value)
    ensures data.ConstantBufferByIndexAsWritten(index).NotFound? ==> data.ConstantBufferByIndex(index).None?
    ensures data.ConstantBufferByIndexAsWritten(index).OutOfBounds? <==> (data.ConstantBufferByIndex(index).None? && index < |data.resources|)
  {
  }

  /**
    A shader with one storage buffer and no constant buffer: index 0 passes the
    source's guard and reads past the end of the constant-buffer list.
   */
  lemma ConstantBufferByIndexOverreads()
    ensures var data := ReflectionData([ResourceDesc("buffer", ShaderResourceView, 0, 0, 1)], [], [], [], [], NoStageMetadata);
      data.ConstantBufferByIndexAsWritten(0) == OutOfBounds && data.ConstantBufferByIndex(0) == None
  {
  }
}
