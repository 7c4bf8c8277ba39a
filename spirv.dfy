/**
  The pieces of SPIR-V the core looks at: result ids, storage classes,
  decorations, built-ins, execution models and modes, and the 32-bit word layout
  of a module (section 2.3 of the SPIR-V specification).
 */
module Spirv {

  /** A result id; id 0 is never a valid id, and SPIRV-Cross returns it for "none". */
  type Id = nat

  /** Storage classes (section 3.7 of the SPIR-V specification). */
  datatype StorageClass =
    | UniformConstant
    | Input
    | Uniform
    | Output
    | Workgroup
    | CrossWorkgroup
    | Private
    | Function
    | Generic
    | PushConstant
    | AtomicCounter
    | Image
    | StorageBuffer

  /** The decorations the core reads or writes (section 3.20 of the SPIR-V specification). */
  datatype Decoration = ColMajor | BufferBlock | Patch | Location | Binding | DescriptorSet | NonWritable

  /** Built-in variables (section 3.21 of the SPIR-V specification); `Other` is any built-in not listed. */
  datatype BuiltIn =
    | Position
    | PointSize
    | ClipDistance
    | CullDistance
    | VertexId
    | InstanceId
    | PrimitiveId
    | InvocationId
    | Layer
    | ViewportIndex
    | TessLevelOuter
    | TessLevelInner
    | TessCoord
    | PatchVertices
    | FragCoord
    | PointCoord
    | FrontFacing
    | SampleId
    | SamplePosition
    | SampleMask
    | FragDepth
    | HelperInvocation
    | NumWorkgroups
    | WorkgroupSize
    | WorkgroupId
    | LocalInvocationId
    | GlobalInvocationId
    | LocalInvocationIndex
    | VertexIndex
    | InstanceIndex
    | Other(code: nat)

  /** Execution models (section 3.3 of the SPIR-V specification). */
  datatype ExecutionModel = Vertex | TessellationControl | TessellationEvaluation | Geometry | Fragment | GLCompute | Kernel

  /** Execution modes (section 3.6 of the SPIR-V specification) that bear on reflection. */
  datatype ExecutionMode =
    | Invocations
    | SpacingEqual
    | SpacingFractionalEven
    | SpacingFractionalOdd
    | VertexOrderCw
    | VertexOrderCcw
    | PointMode
    | LocalSize
    | InputPoints
    | InputLines
    | InputLinesAdjacency
    | Triangles
    | InputTrianglesAdjacency
    | Quads
    | Isolines
    | OutputVertices
    | OutputPoints
    | OutputLineStrip
    | OutputTriangleStrip

  /** A 32-bit word of a SPIR-V module. */
  type Word = bv32

  /** The word stored in four bytes, least significant byte first (the host order the source relies on). */
  function WordAt(b0: bv8, b1: bv8, b2: bv8, b3: bv8): Word {
    (b0 as bv32) | ((b1 as bv32) << 8) | ((b2 as bv32) << 16) | ((b3 as bv32) << 24)
  }

  /** The four bytes of a word, least significant first. */
  function WordBytes(w: Word): (r: seq<bv8>)
    ensures |r| == 4
  {
    [(w & 0xFF) as bv8, ((w >> 8) & 0xFF) as bv8, ((w >> 16) & 0xFF) as bv8, (w >> 24) as bv8]
  }

  /** A byte payload read as words: `size / 4` of them, taken four bytes at a time. */
  function Words(bytes: seq<bv8>): (r: seq<Word>)
    requires |bytes| % 4 == 0
    ensures |r| == |bytes| / 4
  {
    if bytes == [] then [] else [WordAt(bytes[0], bytes[1], bytes[2], bytes[3])] + Words(bytes[4..])
  }

  function Bytes(words: seq<Word>): (r: seq<bv8>)
    ensures |r| == 4 * |words|
  {
    if words == [] then [] else WordBytes(words[0]) + Bytes(words[1..])
  }

  lemma WordBytesRoundTrip(w: Word)
    ensures var b := WordBytes(w); WordAt(b[0], b[1], b[2], b[3]) == w
  {
  }

  lemma BytesWordRoundTrip(b0: bv8, b1: bv8, b2: bv8, b3: bv8)
    ensures WordBytes(WordAt(b0, b1, b2, b3)) == [b0, b1, b2, b3]
  {
  }

  /** Reading a word-aligned payload as words loses nothing: writing the words back gives the bytes. */
  lemma {:induction false} WordsRoundTrip(bytes: seq<bv8>)
    requires |bytes| % 4 == 0
    ensures Bytes(Words(bytes)) == bytes
  {
    if bytes != [] {
      WordsRoundTrip(bytes[4..]);
      BytesWordRoundTrip(bytes[0], bytes[1], bytes[2], bytes[3]);
      assert bytes == bytes[..4] + bytes[4..];
    }
  }

  /** Writing words as bytes and reading them back gives the words. */
  lemma {:induction false} BytesRoundTrip(words: seq<Word>)
    ensures Words(Bytes(words)) == words
  {
    if words != [] {
      BytesRoundTrip(words[1..]);
      WordBytesRoundTrip(words[0]);
      var b := Bytes(words);
      assert b[4..] == Bytes(words[1..]);
    }
  }
}
