/**
  The SPIR-V-to-source transpiler as the core sees it. Everything SPIRV-Cross
  works out by parsing a module (its resource lists, types, execution modes,
  combined image-samplers, starting options) is an input record, `ModuleInfo`;
  the name and decoration tables and the options that the core edits live in a
  `Transpiler` object, whose final state is what the foreign `compile()` turns
  into source text.
 */
module SpirvCross {
  import opened Wrappers
  import opened Spirv

  /** `SPIRType::BaseType`; `Other` is every base type the core does not handle (64-bit, images, ...). */
  datatype BaseType = Void | Boolean | Short | UShort | Int | UInt | Half | Float | Struct | Other

  /**
    A SPIR-V type as SPIRV-Cross describes it: base type, its own id, vector size,
    column count, array dimensions, storage class, declared size, and for a struct
    its members.
   */
  datatype SpirType = SpirType(
    baseType: BaseType,
    self: Id,
    vecsize: nat,
    columns: nat,
    dims: seq<nat>,
    storage: StorageClass,
    declaredSize: nat,
    members: seq<SpirMember>)

  /**
    Member `i` of a struct, with what the transpiler answers about it: its name,
    type, offset, declared size, whether it carries `ColMajor`, and its array stride.
   */
  datatype SpirMember = SpirMember(
    name: string,
    memberType: SpirType,
    offset: nat,
    declaredSize: nat,
    colMajor: bool,
    arrayStride: nat)

  /** `spirv_cross::Resource`: a variable id and its type; `nonWritableBlock` is `NonWritable` in its buffer-block flags. */
  datatype Resource = Resource(id: Id, resourceType: SpirType, nonWritableBlock: bool)

  datatype BuiltInResource = BuiltInResource(builtin: BuiltIn, resource: Resource)

  /** `get_shader_resources()`. */
  datatype ShaderResources = ShaderResources(
    uniformBuffers: seq<Resource>,
    storageBuffers: seq<Resource>,
    storageImages: seq<Resource>,
    separateImages: seq<Resource>,
    separateSamplers: seq<Resource>,
    sampledImages: seq<Resource>,
    stageInputs: seq<Resource>,
    stageOutputs: seq<Resource>,
    builtinInputs: seq<BuiltInResource>,
    builtinOutputs: seq<BuiltInResource>)

  datatype InterfaceVar = InterfaceVar(id: Id, storage: StorageClass)

  datatype CombinedSampler = CombinedSampler(combinedId: Id, imageId: Id, samplerId: Id)

  /** A work-group size specialisation constant; id 0 means there is none. */
  datatype SpecConstant = SpecConstant(id: Id, constantId: nat)

  /** `CompilerGLSL::Options`, the fields the core sets. */
  datatype CommonOptions = CommonOptions(
    version: nat,
    es: bool,
    forceTemporary: bool,
    separateShaderObjects: bool,
    flattenMultidimensionalArrays: bool,
    enable420packExtension: bool,
    vulkanSemantics: bool,
    fixupClipspace: bool,
    flipVertY: bool,
    supportNonzeroBaseInstance: bool)

  datatype MslPlatform = IOS | MacOS

  datatype MslOptions = MslOptions(mslVersion: nat, swizzleTextureSamples: bool, platform: MslPlatform)

  /** Which backend was constructed over the module. */
  datatype Backend = GlslBackend | HlslBackend | MslBackend

  /** What SPIRV-Cross parses out of a module, and what its helpers return for it. */
  datatype ModuleInfo = ModuleInfo(
    names: map<Id, string>,
    decorations: map<(Id, Decoration), nat>,
    defaultEntryPoint: string,
    defaultModel: ExecutionModel,
    activeInterfaceVariables: seq<InterfaceVar>,
    resources: ShaderResources,
    modes: set<ExecutionMode>,
    outputVertices: nat,
    invocations: nat,
    localSize: (nat, nat, nat),
    workGroupSizeSpec: (SpecConstant, SpecConstant, SpecConstant),
    commonDefaults: CommonOptions,
    hlslShaderModelDefault: nat,
    mslDefaults: MslOptions,
    dummySampler: Id,
    combinedSamplers: seq<CombinedSampler>,
    numWorkgroupsBuiltin: Id)

  /** `get_name`: the name of an id, empty when it has none. */
  function NameOf(names: map<Id, string>, id: Id): (r: string)
    ensures id in names ==> r == names[id]
    ensures id !in names ==> r == ""
  {
    if id in names then names[id] else ""
  }

  /** `get_decoration`: a decoration's value, zero when the id does not carry it. */
  function DecorationOf(decorations: map<(Id, Decoration), nat>, id: Id, d: Decoration): (r: nat)
    ensures (id, d) in decorations ==> r == decorations[(id, d)]
    ensures (id, d) !in decorations ==> r == 0
  {
    if (id, d) in decorations then decorations[(id, d)] else 0
  }

  /**
    Whether an id carries a flag decoration (`Patch`, `BufferBlock`): the flag
    bit of SPIR-V-Cross's decoration bitset, which `get_decoration` reads as 1.
   */
  predicate HasFlag(decorations: map<(Id, Decoration), nat>, id: Id, d: Decoration) {
    DecorationOf(decorations, id, d) != 0
  }

  /** One combined image-sampler's inheritance: its id takes the image's descriptor set and binding, where the image has them. */
  function InheritOne(decorations: map<(Id, Decoration), nat>, c: CombinedSampler): map<(Id, Decoration), nat> {
    var withSet := if (c.imageId, DescriptorSet) in decorations
      then decorations[(c.combinedId, DescriptorSet) := decorations[(c.imageId, DescriptorSet)]]
      else decorations;
    if (c.imageId, Binding) in withSet then withSet[(c.combinedId, Binding) := withSet[(c.imageId, Binding)]] else withSet
  }

  /** The decoration table after the inheritance of each combined image-sampler in turn. */
  function InheritedBindings(decorations: map<(Id, Decoration), nat>, cs: seq<CombinedSampler>): map<(Id, Decoration), nat> {
    if cs == [] then decorations else InheritOne(InheritedBindings(decorations, cs[..|cs| - 1]), cs[|cs| - 1])
  }

  /** Everything the transpiler's `compile()` depends on. */
  datatype TranspilerConfig = TranspilerConfig(
    backend: Backend,
    words: seq<Word>,
    names: map<Id, string>,
    decorations: map<(Id, Decoration), nat>,
    entryPoint: string,
    model: ExecutionModel,
    common: CommonOptions,
    hlslShaderModel: nat,
    msl: MslOptions,
    combinedSamplersBuilt: bool)

  /** The outcome of `compile()`: source text, or a thrown `spirv_cross::CompilerError`. */
  datatype EmitOutcome = Emitted(text: string) | CompilerError(message: string)

  /** A `CompilerGLSL`, `CompilerHLSL` or `CompilerMSL` constructed over one module. */
  class Transpiler {
    const backend: Backend
    const words: seq<Word>
    const info: ModuleInfo
    var names: map<Id, string>
    var decorations: map<(Id, Decoration), nat>
    var entryPoint: string
    var model: ExecutionModel
    var common: CommonOptions
    var hlslShaderModel: nat
    var msl: MslOptions
    var combinedSamplersBuilt: bool

    /** Parsing a module: names, decorations and options start as the module gives them. */
    constructor (backend: Backend, words: seq<Word>, info: ModuleInfo)
      ensures this.backend == backend && this.words == words && this.info == info
      ensures names == info.names && decorations == info.decorations
      ensures entryPoint == info.defaultEntryPoint && model == info.defaultModel
      ensures common == info.commonDefaults && hlslShaderModel == info.hlslShaderModelDefault && msl == info.mslDefaults
      ensures !combinedSamplersBuilt
    {
      this.backend := backend;
      this.words := words;
      this.info := info;
      names := info.names;
      decorations := info.decorations;
      entryPoint := info.defaultEntryPoint;
      model := info.defaultModel;
      common := info.commonDefaults;
      hlslShaderModel := info.hlslShaderModelDefault;
      msl := info.mslDefaults;
      combinedSamplersBuilt := false;
    }

    /** The state `compile()` sees. */
    function Config(): TranspilerConfig
      reads this
    {
      TranspilerConfig(backend, words, names, decorations, entryPoint, model, common, hlslShaderModel, msl,
        combinedSamplersBuilt)
    }

    /** `set_name`. */
    method SetName(id: Id, name: string)
      modifies this`names
      ensures names == old(names)[id := name]
    {
      names := names[id := name];
    }

    /** `set_decoration`. */
    method SetDecoration(id: Id, d: Decoration, value: nat)
      modifies this`decorations
      ensures decorations == old(decorations)[(id, d) := value]
    {
      decorations := decorations[(id, d) := value];
    }

    /** `set_entry_point`. */
    method SetEntryPoint(name: string, m: ExecutionModel)
      modifies this`entryPoint, this`model
      ensures entryPoint == name && model == m
    {
      entryPoint, model := name, m;
    }

    /** `set_common_options`. */
    method SetCommonOptions(opts: CommonOptions)
      modifies this`common
      ensures common == opts
    {
      common := opts;
    }

    /** `set_hlsl_options`, of which the core sets the shader model. */
    method SetHlslShaderModel(sm: nat)
      modifies this`hlslShaderModel
      ensures hlslShaderModel == sm
    {
      hlslShaderModel := sm;
    }

    /** `set_msl_options`. */
    method SetMslOptions(opts: MslOptions)
      modifies this`msl
      ensures msl == opts
    {
      msl := opts;
    }

    /** `build_combined_image_samplers`. */
    method BuildCombinedImageSamplers()
      modifies this`combinedSamplersBuilt
      ensures combinedSamplersBuilt
    {
      combinedSamplersBuilt := true;
    }

    /**
      `spirv_cross_util::inherit_combined_sampler_bindings`: for each combined
      image-sampler in turn, the combined id takes the image's descriptor set
      and the image's binding, each only when the image carries it.
     */
    method InheritCombinedSamplerBindings()
      modifies this`decorations
      ensures decorations == InheritedBindings(old(decorations), info.combinedSamplers)
    {
      ghost var start := decorations;
      var cs := info.combinedSamplers;
      for i := 0 to |cs|
        invariant decorations == InheritedBindings(start, cs[..i])
      {
        assert cs[..i + 1][..i] == cs[..i];
        var c := cs[i];
        if (c.imageId, DescriptorSet) in decorations {
          SetDecoration(c.combinedId, DescriptorSet, DecorationOf(decorations, c.imageId, DescriptorSet));
        }
        if (c.imageId, Binding) in decorations {
          SetDecoration(c.combinedId, Binding, DecorationOf(decorations, c.imageId, Binding));
        }
      }
      assert cs[..|cs|] == cs;
    }
  }
}
