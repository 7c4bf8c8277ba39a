# ShaderConductor, modelled in Dafny

ShaderConductor compiles HLSL to other shading languages in two stages.
First the DXC front end compiles HLSL to a DXIL or SPIR-V binary. Then
SPIRV-Cross cross-compiles the SPIR-V binary to HLSL, GLSL, ESSL or MSL.
This project models the deterministic logic around those two native
compilers and proves properties of it:

- the owned byte buffer `Blob`;
- the stage-1 profile name, argument list and macro table;
- the conversion of the front end's answer and the routing of a binary to its target;
- the multi-target `Compile`, which builds each binary kind once;
- the stage-2 configuration of the transpiler: stage gates, option records, legacy GLSL names, MSL bindings, combined image-samplers;
- the normalised reflection of a SPIR-V module, and its lookup accessors;
- the packed `ShaderModel` and its order;
- the command-line tool's name tables, define splitting and output name.

The native compilers are parameters. `Stage1.FrontEnd` is DXC's `Compile`
and, optionally, its DXIL reflection. `Stage2.CrossBackend` is SPIRV-Cross's
parse of a module (`SpirvCross.ModuleInfo`) and its `compile()`. The model
states what the core does with what they return.

Modules, one file each:

- `wrappers.dfy`, `Wrappers`: Option and Result.
- `seqs.dfy`, `Seqs`: map and push loops.
- `text.dfy`, `Text`: digits, `to_string`, the leading-digit reading of `stoi`/`atoi`, byte strings.
- `api.dfy`, `Api`: the public records, `ShaderModel`, the `Fault` a compile throws.
- `blob.dfy`, `Blobs`: class `Blob`.
- `spirv.dfy`, `Spirv`: SPIR-V enums and 32-bit words.
- `spirv_cross.dfy`, `SpirvCross`: the transpiler as a class over a name table and a decoration table.
- `reflection.dfy`, `Reflect`: the reflection snapshot and its accessors.
- `dxil_reflection.dfy`, `DxilReflection`: the DXIL member-size arithmetic.
- `spirv_reflection.dfy`, `SpirvReflection`: the SPIR-V reflection builder.
- `stage1.dfy`, `Stage1`: `CompileToBinary`.
- `stage2.dfy`, `Stage2`: `AppendError`, `CrossCompile`, `ConvertBinary`.
- `dispatch.dfy`, `Dispatch`: `Compiler::Compile`.
- `cmd.dfy`, `Cmd`: the command-line tool.

Where the source changes state step by step, the model is a method proved
equal to a specification function. The properties are lemmas about those
functions. This holds for:

- `Blob`;
- the argument, define and binding loops;
- the transpiler calls;
- the reflection loops;
- the write of `results[i]`;
- the command line's define loop.

Code and header differ in places. The header describes an older interface:
an abstract `Blob`, a single `Msl`, and no binding shifts, `needReflection`
or `asModule`. The data shapes follow the code. Only `ShaderModel` and the
`Options` defaults come from the header.

A SPIRV-Cross `CompilerError` raised by `compile()` replaces the stage-1
diagnostics rather than adding to them (`Stage2.CrossCompileOutcome`). Errors
thrown by the foreign calls outside that `try` are not modelled (see
"## Left out").

Two of the HLSL gates can never fire: geometry below 4.0, and hull/domain
below 5.0. The gate before them has already returned for those stages
(`Stage2.EarlyGates`).

## Model

| member | source | states |
|---|---|---|
| `Api.ShaderModel.FullVersion` | Include/ShaderConductor/ShaderConductor.hpp:105-111 | the packed byte is major * 4 + minor, below 256 |
| `Api.ShaderModel.Major` | Include/ShaderConductor/ShaderConductor.hpp:105 | the major version fits its 6 bits |
| `Api.ShaderModel.Minor` | Include/ShaderConductor/ShaderConductor.hpp:106 | the minor version fits its 2 bits |
| `Api.FullVersionInjective` | Include/ShaderConductor/ShaderConductor.hpp:108-120 | equal packed versions (and `==`) hold exactly for equal (major, minor) pairs |
| `Api.LessIsLexicographic` | Include/ShaderConductor/ShaderConductor.hpp:113-116 | `<` is the lexicographic order on (major, minor) |
| `Api.ComparisonsAreOneTotalOrder` | Include/ShaderConductor/ShaderConductor.hpp:113-132 | exactly one of <, ==, > holds; > is swapped <; <= and >= are the complements of > and <; antisymmetry and transitivity |
| `Api.SixteenBitGate` | Source/Core/ShaderConductor.cpp:500 | `>= {6, 2}` passes exactly from 6.2 on: 6.0 and 6.1 fail, 6.2 and 6.3 pass |
| `Blobs.Blob.Data` | Source/Core/ShaderConductor.cpp:976-979 | null for an empty blob, otherwise a non-empty buffer whose size fits 32 bits |
| `Blobs.Blob.Size` | Source/Core/ShaderConductor.cpp:981-984 | zero exactly when `Data` is null, otherwise the buffer's length |
| `Blobs.Blob.Bytes` | Source/Core/ShaderConductor.cpp:976-984 | the bytes held: `Size` of them, equal to `Data`'s buffer |
| `Blobs.Blob.Empty` | Source/Core/ShaderConductor.cpp:919 | a default blob holds nothing |
| `Blobs.Blob.FromData` | Source/Core/ShaderConductor.cpp:921-924 | the blob holds the first `size` bytes, or nothing for null data or size 0 |
| `Blobs.Blob.Copy` | Source/Core/ShaderConductor.cpp:926-929 | a copy holds an equal buffer of its own |
| `Blobs.Blob.Move` | Source/Core/ShaderConductor.cpp:931-934 | the new blob takes the buffer and the source is left empty |
| `Blobs.Blob.Clear` | Source/Core/ShaderConductor.cpp:961-965 | `Reset()` leaves the blob empty |
| `Blobs.Blob.Reset` | Source/Core/ShaderConductor.cpp:967-974 | empty for null data or size 0; otherwise `Size == size` and the bytes equal the input's first `size` bytes |
| `Blobs.Blob.CopyAssign` | Source/Core/ShaderConductor.cpp:941-948 | the target holds the source's buffer and the source is unchanged; a self-assignment changes nothing |
| `Blobs.Blob.MoveAssign` | Source/Core/ShaderConductor.cpp:950-959 | a move takes the buffer and empties the source; a self-move changes nothing |
| `Text.NatToString` | Source/Core/ShaderConductor.cpp:534 | `to_wstring` of a non-negative number: non-empty, all digits, no leading zero |
| `Text.NatToStringRoundTrip` | Source/Core/ShaderConductor.cpp:534 | reading back the decimal spelling gives the number |
| `Text.NatToStringInjective` | Source/Core/ShaderConductor.cpp:1157 | different numbers are spelled differently |
| `Text.ParseLeadingNumber` | Source/Core/ShaderConductor.cpp:610 | `stoi` fails exactly on text that does not start with a digit; otherwise its value is that of the leading digit run |
| `Text.ParseDigitsThenText` | Source/Core/ShaderConductor.cpp:610 | a digit run followed by text starting with a non-digit reads as the digit run's value |
| `Text.Bytes` | Source/Core/ShaderConductor.cpp:311-312 | one byte per character, equal to it for narrow characters |
| `Spirv.Words` | Source/Core/ShaderConductor.cpp:613-614 | a payload is read as `size / 4` little-endian words |
| `Spirv.WordsRoundTrip` | Source/Core/ShaderConductor.cpp:600 | a word-aligned payload read as words and written back is the payload |
| `Spirv.WordBytesRoundTrip` | Source/Core/ShaderConductor.cpp:613-614 | the four little-endian bytes of a word read back as the word |
| `Spirv.BytesWordRoundTrip` | Source/Core/ShaderConductor.cpp:613-614 | four bytes read as a word and written back are the same bytes |
| `Spirv.BytesRoundTrip` | Source/Core/ShaderConductor.cpp:613 | words written as bytes and read back are the words |
| `SpirvCross.NameOf` | Source/Core/ShaderConductor.cpp:665 | `get_name` is the stored name of an id, or empty |
| `SpirvCross.DecorationOf` | Source/Core/ShaderConductor.cpp:2646-2647 | `get_decoration` is the stored value, or 0 |
| `SpirvCross.Transpiler.constructor` | Source/Core/ShaderConductor.cpp:645 | a transpiler over a module starts with the module's names, decorations and default options |
| `SpirvCross.Transpiler.SetName` | Source/Core/ShaderConductor.cpp:669 | one id's name is replaced; nothing else changes |
| `SpirvCross.Transpiler.SetDecoration` | Source/Core/ShaderConductor.cpp:789 | one (id, decoration) value is replaced; nothing else changes |
| `SpirvCross.Transpiler.SetEntryPoint` | Source/Core/ShaderConductor.cpp:729 | the entry point and execution model are set |
| `SpirvCross.Transpiler.SetCommonOptions` | Source/Core/ShaderConductor.cpp:746 | the common option record is replaced |
| `SpirvCross.Transpiler.SetHlslShaderModel` | Source/Core/ShaderConductor.cpp:768 | the HLSL shader model is replaced |
| `SpirvCross.Transpiler.SetMslOptions` | Source/Core/ShaderConductor.cpp:782 | the MSL option record is replaced |
| `SpirvCross.Transpiler.BuildCombinedImageSamplers` | Source/Core/ShaderConductor.cpp:812 | the combined image-samplers are built |
| `SpirvCross.Transpiler.InheritCombinedSamplerBindings` | Source/Core/ShaderConductor.cpp:814-817 | each combined id takes its image's descriptor set and binding where the image has them, in list order; nothing else changes |
| `Reflect.VariableType.MemberByIndex` | Source/Core/ShaderConductor.cpp:1220-1228 | member i exactly when i < the member count, else null |
| `Reflect.VariableType.MemberByName` | Source/Core/ShaderConductor.cpp:1230-1241 | the first member with that name, null exactly when no member has it |
| `Reflect.ConstantBuffer.VariableByIndex` | Source/Core/ShaderConductor.cpp:1437-1445 | variable i exactly when i < the variable count, else null |
| `Reflect.ConstantBuffer.VariableByName` | Source/Core/ShaderConductor.cpp:1447-1458 | the first variable with that name, null exactly when none has it |
| `Reflect.ReflectionData.ResourceByIndex` | Source/Core/ShaderConductor.cpp:2420-2428 | resource i exactly when i < the resource count, else null |
| `Reflect.ReflectionData.ResourceByName` | Source/Core/ShaderConductor.cpp:2430-2441 | the first resource with that name, null exactly when none has it |
| `Reflect.ReflectionData.ConstantBufferByIndex` | Source/Core/ShaderConductor.cpp:2448-2456 | constant buffer i exactly when i < the constant-buffer count (the corrected bound) |
| `Reflect.ReflectionData.ConstantBufferByIndexAsWritten` | Source/Core/ShaderConductor.cpp:2450-2452 | the guard tests the resource count: indices between the two counts over-read |
| `Reflect.ReflectionData.ConstantBufferByName` | Source/Core/ShaderConductor.cpp:2458-2469 | the first constant buffer with that name, null exactly when none has it |
| `Reflect.ReflectionData.InputParameter` | Source/Core/ShaderConductor.cpp:2476-2484 | input parameter i exactly when i < the input count, else null |
| `Reflect.ReflectionData.OutputParameter` | Source/Core/ShaderConductor.cpp:2491-2499 | output parameter i exactly when i < the output count, else null |
| `Reflect.ReflectionData.HSDSPatchConstantParameter` | Source/Core/ShaderConductor.cpp:2541-2549 | patch-constant parameter i exactly when i < their count, else null |
| `Reflect.FindFirst` | Source/Core/ShaderConductor.cpp:2432-2438 | the `strcmp` walk finds the first index with an equal name, none exactly when no name is equal |
| `Reflect.ConstantBufferByIndexAgrees` | Source/Core/ShaderConductor.cpp:2448-2456 | with no more constant buffers than resources, the as-written lookup over-reads or agrees with the corrected one |
| `Reflect.ConstantBufferByIndexOverreads` | Source/Core/ShaderConductor.cpp:2450-2452 | one storage buffer and no constant buffer: index 0 passes the guard and over-reads |
| `DxilReflection.MemberSizeLayout` | Source/Core/ShaderConductor.cpp:1045-1053 | a non-array member is rows * columns * 4 bytes; an array member is its padded footprint less the last row's padding, never more than the footprint |
| `DxilReflection.MemberSizeExamples` | Source/Tests/ReflectionTest.cpp:836-869 | `float` is 4 bytes, `float4` 16, and `float3[4]` 60 with stride 16 |
| `DxilReflection.ElementStride` | Source/Core/ShaderConductor.cpp:1072-1079 | a multiple of 16: zero for a non-array, 16 bytes per row for an array |
| `DxilReflection.MemberSize` | Source/Core/ShaderConductor.cpp:1045-1053 | a multiple of 4, at least rows * columns * 4, exactly that for a non-array or one-element array |
| `SpirvReflection.BuiltInSemantic` | Source/Core/ShaderConductor.cpp:2588-2642 | a known built-in maps to an `SV_` semantic without a trailing digit, or to nothing; any other built-in fails |
| `SpirvReflection.TrailingDigitsStart` | Source/Core/ShaderConductor.cpp:2660-2664 | the split point: digits after it, a non-digit (or the start) before it |
| `SpirvReflection.SplitSemanticRoundTrip` | Source/Core/ShaderConductor.cpp:2656-2676 | a name not ending in a digit, followed by the digits of n, splits back into the name and n |
| `SpirvReflection.TrailingDigitsOver` | Source/Core/ShaderConductor.cpp:2660-2664 | digits appended to a name ending in a non-digit are exactly what the backward scan takes |
| `SpirvReflection.SplitSemantic` | Source/Core/ShaderConductor.cpp:2659-2677 | the name is a prefix ending in a non-digit (or empty); the rest is all digits and the index is their value; an empty name gives index 0 |
| `SpirvReflection.BuiltInSemanticsSplitWhole` | Source/Core/ShaderConductor.cpp:2133-2137 | a built-in semantic splits into itself and index 0 |
| `SpirvReflection.ExtractSemantic` | Source/Core/ShaderConductor.cpp:2659-2677 | the reverse-iterator loop gives the name without its trailing digits and their value |
| `SpirvReflection.ComponentMaskBits` | Source/Core/ShaderConductor.cpp:2697-2712 | the mask has X, Y, Z, W exactly for the first min(vecsize, 4) components and no other bits |
| `SpirvReflection.ComponentType` | Source/Core/ShaderConductor.cpp:2680-2695 | uint, int and float map to Uint, Int and Float; any other base type fails |
| `SpirvReflection.ExtractParameter` | Source/Core/ShaderConductor.cpp:2656-2715 | a parameter entry with the split semantic, component type, mask and `Location`; fails exactly on an unsupported component type |
| `SpirvReflection.TessFactorEntries` | Source/Core/ShaderConductor.cpp:2144-2158 | `array[0]` entries, each with its index (or 0) and the one-component mask |
| `SpirvReflection.TessLevelExpansion` | Source/Core/ShaderConductor.cpp:2140-2159 | tessellation levels expand to `array[0]` patch constants: outer with mask W, inner with mask X |
| `SpirvReflection.BuiltInInputEntry` | Source/Core/ShaderConductor.cpp:2131-2166 | fails exactly when the built-in has no semantic or a non-empty semantic has an unsupported component type; an empty semantic gives no entry; any other built-in gives exactly its `ExtractParameter` entry as an input; outer levels give that entry indexed with mask W, inner levels at index 0 with mask X, as patch constants |
| `SpirvReflection.BuiltInOutputEntry` | Source/Core/ShaderConductor.cpp:2183-2252 | fails exactly as for inputs; an empty semantic gives no entry; any other built-in gives exactly its `ExtractParameter` entry as an output; both tessellation levels give that entry indexed, with masks W and X, as patch constants |
| `SpirvReflection.StageInputEntry` | Source/Core/ShaderConductor.cpp:2168-2180 | fails exactly on an unsupported component type; the entry named after the variable goes to the patch constants when it carries `Patch`, otherwise to the inputs |
| `SpirvReflection.StageOutputEntry` | Source/Core/ShaderConductor.cpp:2254-2260 | fails exactly on an unsupported component type; otherwise the entry named after the variable, as an output |
| `SpirvReflection.StageInputsRouted` | Source/Core/ShaderConductor.cpp:2168-2180 | over all stage inputs, as many patch constants as `Patch` inputs and the rest as inputs; with no `Patch` input, the inputs are the named entries in order |
| `SpirvReflection.MemberType` | Source/Core/ShaderConductor.cpp:1083-1183 | fails exactly on an unsupported base type or a failing struct member; the name is the base name plus the vector or `CxR` suffix, the data type that of the base type; rows and columns swapped under `ColMajor`; elements and stride from the array; a struct's members are its `Members` |
| `SpirvReflection.Members` | Source/Core/ShaderConductor.cpp:1122-1135 | one variable per struct member, in order, with its name, type, offset and declared size |
| `SpirvReflection.ConstantBufferOf` | Source/Core/ShaderConductor.cpp:1397-1420 | a uniform block's name, declared size and member variables |
| `SpirvReflection.ShapeSuffixExamples` | Source/Core/ShaderConductor.cpp:1148-1157 | a 3-vector is suffixed `3`, a 4x4 matrix `4x4`, a scalar nothing |
| `SpirvReflection.MemberTypeExamples` | Source/Core/ShaderConductor.cpp:1083-1183 | a float 3-vector member is `float3` (1 x 3), a column-major float 4x4 matrix `float4x4` (4 x 4), and an unsupported base type fails |
| `SpirvReflection.ResourceOf` | Source/Core/ShaderConductor.cpp:2644-2654 | name, descriptor set as space, binding as bind point, bind count 1 |
| `SpirvReflection.StorageBufferKind` | Source/Core/ShaderConductor.cpp:2067-2087 | a storage buffer is a UAV exactly when it is a writable SSBO block, otherwise an SRV |
| `SpirvReflection.SampledImageEntries` | Source/Core/ShaderConductor.cpp:2119-2129 | the k-th sampled image is a texture with bind point k |
| `SpirvReflection.Partitioning` | Source/Core/ShaderConductor.cpp:2318-2329 | the corrected partitioning: equal, fractional-odd or fractional-even spacing, in that priority |
| `SpirvReflection.PartitioningAsWrittenNeverFractionalEven` | Source/Core/ShaderConductor.cpp:2326 | as written, fractional-even is never reported; fractional-even spacing alone gives Undefined |
| `SpirvReflection.PartitioningAgrees` | Source/Core/ShaderConductor.cpp:2318-2325 | the two agree except on fractional-even spacing alone |
| `SpirvReflection.StageMetadataOf` | Source/Core/ShaderConductor.cpp:2262-2412 | the execution-mode switch with the corrected partitioning test (see Findings): each field keeps its default outside the models that set it |
| `SpirvReflection.StageMetadataAsWritten` | Source/Core/ShaderConductor.cpp:2318-2329 | the as-written switch differs only in a partitioning that is never fractional-even |
| `SpirvReflection.DomainMatchesControlPoints` | Source/Core/ShaderConductor.cpp:2276-2347 | the tessellator domain and the control-point count agree: lines 2, triangles 3, quads 4 |
| `SpirvReflection.ReflectionOf` | Source/Core/ShaderConductor.cpp:2047-2413 | the reflection is the resource pass, the signature pass and the stage metadata with the corrected partitioning (see Findings); it fails exactly when a pass fails |
| `SpirvReflection.UniformBuffersPaired` | Source/Core/ShaderConductor.cpp:2051-2060 | each uniform buffer gives one ConstantBuffer resource and one constant buffer, in order |
| `SpirvReflection.OtherResourcesLayout` | Source/Core/ShaderConductor.cpp:2062-2129 | as many entries as the five other lists hold, storage buffers first with their kind, each bound once |
| `SpirvReflection.ResourceLayout` | Source/Core/ShaderConductor.cpp:2049-2129 | one constant buffer per uniform buffer; resources in the order of the six lists |
| `SpirvReflection.ResourcesOf` | Source/Core/ShaderConductor.cpp:2049-2129 | succeeds exactly when every uniform buffer's members convert; one constant buffer per uniform buffer; as many resources as the six lists hold |
| `SpirvReflection.AppendSampledImages` | Source/Core/ShaderConductor.cpp:2119-2129 | the `combinedBinding` counter loop appends the sampled-image entries |
| `SpirvReflection.BuildResources` | Source/Core/ShaderConductor.cpp:2051-2129 | the resource loops compute the resource pass |
| `SpirvReflection.SignaturesOf` | Source/Core/ShaderConductor.cpp:2131-2260 | succeeds exactly when every built-in and stage variable of the four lists converts; inputs are the built-in then the stage input entries, outputs the built-in then the stage output entries, patch constants those of built-in inputs, stage inputs and built-in outputs, each in order |
| `SpirvReflection.BuildSignatures` | Source/Core/ShaderConductor.cpp:2131-2260 | the signature loops compute the signature pass |
| `SpirvReflection.BuildReflection` | Source/Core/ShaderConductor.cpp:2047-2413 | the constructor computes `ReflectionOf` |
| `SpirvReflection.StageOutputsHaveNoPatches` | Source/Core/ShaderConductor.cpp:2254-2260 | stage outputs never produce patch constants |
| `Stage1.StageCode` | Source/Core/ShaderConductor.cpp:334-362 | the six two-letter stage codes, pairwise distinct |
| `Stage1.VersionChar` | Source/Core/ShaderConductor.cpp:365-367 | the character `'0' + v` |
| `Stage1.ShaderProfileName` | Source/Core/ShaderConductor.cpp:331-370 | stage code, `_`, major character, `_`, minor character |
| `Stage1.ShaderProfileNameRoundTrip` | Source/Core/ShaderConductor.cpp:331-370 | a profile name reads back as its stage and shader model |
| `Stage1.ShaderProfileNameInjective` | Source/Core/ShaderConductor.cpp:331-370 | different (stage, model) pairs give different profiles |
| `Stage1.ShaderProfileNameExamples` | Source/Core/ShaderConductor.cpp:336-367 | `vs_6_0`, `cs_6_2` and `ps_5_1`: the stage code, then the major and minor digits |
| `Stage1.TargetProfile` | Source/Core/ShaderConductor.cpp:427-442 | `lib_6_x` for a DXIL library, a fault for a SPIR-V library, otherwise the profile name |
| `Stage1.DerefDefines` | Source/Core/ShaderConductor.cpp:449-472 | the macros a pointer table denotes, entry by entry |
| `Stage1.StringsNeeded` | Source/Core/ShaderConductor.cpp:448 | at most two strings per macro |
| `Stage1.TranslateDefines` | Source/Core/ShaderConductor.cpp:444-472 | store reserved to 2n, all pointers inside the used part, and they denote the input macros in order |
| `Stage1.DefineStep` | Source/Core/ShaderConductor.cpp:451-471 | one turn of the define loop keeps the earlier pointers' meaning and adds the new macro |
| `Stage1.DerefExtends` | Source/Core/ShaderConductor.cpp:446-448 | pointers into a prefix keep their meaning when the store grows |
| `Stage1.OptimizationArgAsWritten` | Source/Core/ShaderConductor.cpp:521-528 | as written, any level below 4 gives `-O` and the code unit `'0' + level`; 4 and above fault |
| `Stage1.OptimizationArg` | Source/Core/ShaderConductor.cpp:521-528 | the corrected rule: `-O0` to `-O3`, any other level faults |
| `Stage1.NegativeOptimizationLevel` | Source/Core/ShaderConductor.cpp:521-523 | level -1 passes the guard as written and gives `-O/`; the corrected rule rejects it |
| `Stage1.OptimizationArgAgrees` | Source/Core/ShaderConductor.cpp:521-523 | on levels 0 to 3 the two agree |
| `Stage1.OptimizationChoice` | Source/Core/ShaderConductor.cpp:515-529 | `-Od` when optimisations are disabled, otherwise the corrected level rule (see Findings): `-O0` to `-O3`, a fault for any other level |
| `Stage1.ShiftArgs` | Source/Core/ShaderConductor.cpp:531-536 | flag, amount, `all` for a positive amount; nothing otherwise |
| `Stage1.AllShiftArgsGroups` | Source/Core/ShaderConductor.cpp:531-557 | the shift section is the b, u, s, t groups in that order |
| `Stage1.DxcArgumentsFaults` | Source/Core/ShaderConductor.cpp:498-528 | with the corrected level rule (see Findings), the arguments fail exactly on 16-bit types below 6.2 (checked first) or an optimised level outside 0 to 3 |
| `Stage1.DxcArguments` | Source/Core/ShaderConductor.cpp:485-575 | only the 16-bit or the level fault; on success the packing flag is first and `-spirv` is last for a non-DXIL target |
| `Stage1.DxcArgumentsParts` | Source/Core/ShaderConductor.cpp:485-575 | the arguments are the leading flags, the shifts and the target flag, in order |
| `Stage1.DxcArgumentsFlags` | Source/Core/ShaderConductor.cpp:489-529 | exactly one of `-Zpr`/`-Zpc`, first; `-enable-16bit-types`, `-Zi` and `-Od` exactly when asked; the level's argument when optimising |
| `Stage1.DxcArgumentsTarget` | Source/Core/ShaderConductor.cpp:559-575 | `-spirv` is present, and last, exactly when the target is not DXIL |
| `Stage1.LeadingArgsMeaning` | Source/Core/ShaderConductor.cpp:489-529 | the leading arguments start with the packing flag, hold the 16-bit, debug and `-Od` flags exactly when asked, end with the optimisation, and hold no `-spirv` |
| `Stage1.ShiftFlagsDistinct` | Source/Core/ShaderConductor.cpp:533-554 | the four shift flags are distinct twelve-character flags |
| `Stage1.ShiftsReadBackAt` | Source/Core/ShaderConductor.cpp:531-557 | in a run of shift groups with distinct flags, group k reads back as its amount exactly when positive |
| `Stage1.ShiftReadBack` | Source/Core/ShaderConductor.cpp:531-557 | each shift's flag is followed by its amount |
| `Stage1.ShiftsReadBack` | Source/Core/ShaderConductor.cpp:531-557 | each shift is present with its amount exactly when positive |
| `Stage1.PushLeadingArgs` | Source/Core/ShaderConductor.cpp:489-529 | the pushes before the shifts give the checked leading arguments |
| `Stage1.PushShift` | Source/Core/ShaderConductor.cpp:531-536 | one shift's three pushes |
| `Stage1.BuildArguments` | Source/Core/ShaderConductor.cpp:485-575 | the argument pushes compute the argument list |
| `Stage1.DefaultArguments` | Include/ShaderConductor/ShaderConductor.hpp:146-155 | the default options give `-Zpr -O3` and profile `vs_6_0` for a vertex shader |
| `Stage1.ConvertDxcResult` | Source/Core/ShaderConductor.cpp:377-420 | diagnostics copied whenever given, even on success; `hasError` false exactly when the status succeeded with a program; a reflection is made from the program exactly for successful DXIL non-library builds that ask for one |
| `Stage1.CompileToBinaryFaults` | Source/Core/ShaderConductor.cpp:422-594 | with the corrected level rule, a stage-1 compile throws exactly on a SPIR-V library, a source under 4 bytes or bad options; otherwise `hasError` reflects the front end's answer |
| `Stage1.CompileToBinary` | Source/Core/ShaderConductor.cpp:422-594 | the method computes the stage-1 compile, with the corrected level rule |
| `Stage1.CompileToBinarySpec` | Source/Core/ShaderConductor.cpp:422-594 | a SPIR-V library faults first, then a source under 4 bytes; the only faults are those and the argument faults |
| `Stage1.IncludeName` | Source/Core/ShaderConductor.cpp:212-215 | a leading `./` is dropped from an include name |
| `Stage1.IncludeNameStripsOnce` | Source/Core/ShaderConductor.cpp:212-215 | only one `./` is dropped; a name without it is unchanged |
| `Stage2.AppendError` | Source/Core/ShaderConductor.cpp:300-314 | old diagnostics + a newline exactly when they are non-empty + the message; `hasError` set; other fields kept |
| `Stage2.AppendErrorAccumulates` | Source/Core/ShaderConductor.cpp:300-314 | two appends read as one two-line message; earlier diagnostics are kept as a prefix |
| `Stage2.VersionNumber` | Source/Core/ShaderConductor.cpp:607-611 | 0 without a version, the value of the version's leading digits, or a fault for text that does not start with a digit |
| `Stage2.VersionWithSuffix` | Source/Core/ShaderConductor.cpp:607-611 | `"310es"` reads as 310 and `"es"` faults |
| `Stage2.EarlyGates` | Source/Core/ShaderConductor.cpp:620-697 | HLSL refuses GS/HS/DS and CS below 50; MSL refuses GS; nothing else stops; the GS-below-40 and HS/DS-below-50 gates are dead |
| `Stage2.StageModel` | Source/Core/ShaderConductor.cpp:699-728 | each stage registers its own execution model |
| `Stage2.StageModelInjective` | Source/Core/ShaderConductor.cpp:699-728 | different stages get different execution models |
| `Stage2.CommonOptionsFor` | Source/Core/ShaderConductor.cpp:731-746 | the version when given, ES exactly for ESSL, 420pack by its rule, and the fixed switches |
| `Stage2.Pack420Rule` | Source/Core/ShaderConductor.cpp:740-741 | 420pack exactly for GLSL with no version or a version of at least 420 |
| `Stage2.MslOptionsFor` | Source/Core/ShaderConductor.cpp:772-782 | the version when given, no swizzling, iOS exactly for the iOS target |
| `Stage2.BackendFor` | Source/Core/ShaderConductor.cpp:645-692 | GLSL backend for GLSL/ESSL, HLSL for HLSL, MSL for both MSL targets |
| `Stage2.LegacyName` | Source/Core/ShaderConductor.cpp:663-680 | only VS outputs and PS inputs are renamed, always to a `varying_` name |
| `Stage2.LegacyNamesMatch` | Source/Core/ShaderConductor.cpp:666-677 | `out_var_`, `out.var.`, `in_var_` and `in.var.` + rest all become `varying_` + rest; wrong stage or storage is not renamed |
| `Stage2.LegacyRenamesEffect` | Source/Core/ShaderConductor.cpp:654-682 | each variable gets its legacy name or keeps its own; every other id keeps its name |
| `Stage2.BindingsSequential` | Source/Core/ShaderConductor.cpp:786-798 | the k-th resource gets binding k; every other decoration is untouched |
| `Stage2.BindAtZero` | Source/Core/ShaderConductor.cpp:801-809 | a non-zero id gets descriptor set 0 and binding 0; nothing else changes |
| `Stage2.CombinedNamesEffect` | Source/Core/ShaderConductor.cpp:820-824 | each combined id is named `SPIRV_Cross_Combined` + image name + sampler name; other ids keep theirs |
| `Stage2.InheritedBindingsEffect` | Source/Core/ShaderConductor.cpp:814-817 | over distinct fresh combined ids, each takes its image's descriptor set and binding when present, else keeps its own; every other decoration is unchanged |
| `Stage2.PrepareOutcome` | Source/Core/ShaderConductor.cpp:620-826 | preparation stops exactly at an early gate or HLSL below 30 with a version; otherwise entry, model, options, decorations (bindings, dummy sampler, inherited bindings) and sampler combining as the source sets them |
| `Stage2.Prepare` | Source/Core/ShaderConductor.cpp:620-836 | halts exactly at an early gate or HLSL below 30 with a version; when ready it holds the words, backend, entry point and execution model |
| `Stage2.MslSequentialBindings` | Source/Core/ShaderConductor.cpp:784-798 | for MSL the k-th separate image and the k-th separate sampler get binding k |
| `Stage2.WholeWords` | Source/Core/ShaderConductor.cpp:600 | the bytes read are a whole number of words, less than a word short of the payload |
| `Stage2.StartResult` | Source/Core/ShaderConductor.cpp:602-605 | a text result with the stage-1 diagnostics and nothing else |
| `Stage2.CrossCompileOutcome` | Source/Core/ShaderConductor.cpp:596-856 | text always; a gate gives an empty target, `hasError` and diagnostics + message; a `CompilerError` from `compile()` replaces the diagnostics; success keeps them |
| `Stage2.Finish` | Source/Core/ShaderConductor.cpp:838-856 | fails only when reflection is asked and fails; a compiler error keeps the target and replaces the diagnostics; emitted text becomes the target with diagnostics kept and, when asked, the reflection (corrected partitioning) |
| `Stage2.CrossCompileSpec` | Source/Core/ShaderConductor.cpp:596-856 | a non-numeric version faults; every result is text; a result without error keeps the stage-1 diagnostics |
| `Stage2.HlslComputeNeedsVersion` | Source/Core/ShaderConductor.cpp:607-638 | an HLSL compute shader without a version stops with the CS message |
| `Stage2.RenameLegacyVaryings` | Source/Core/ShaderConductor.cpp:657-681 | the loop leaves the name table at the legacy renames |
| `Stage2.BindInOrder` | Source/Core/ShaderConductor.cpp:786-791 | the counter loop leaves the decorations at the sequential bindings |
| `Stage2.PlaceAtZero` | Source/Core/ShaderConductor.cpp:803-808 | the two `set_decoration` calls for a non-zero id |
| `Stage2.NameCombinedSamplers` | Source/Core/ShaderConductor.cpp:820-824 | the naming loop leaves the name table at the combined names |
| `Stage2.ConfigureBackend` | Source/Core/ShaderConductor.cpp:748-799 | the HLSL shader model (or the below-30 stop), or the MSL options and bindings |
| `Stage2.ConfigureSamplers` | Source/Core/ShaderConductor.cpp:801-836 | the dummy sampler, combined image-samplers, their inherited bindings when asked and their names, the work-group builtin |
| `Stage2.PrepareReady` | Source/Core/ShaderConductor.cpp:699-836 | past the gates the preparation is the configured transpiler |
| `Stage2.CrossCompileSpecSteps` | Source/Core/ShaderConductor.cpp:607-856 | once the version is read, the outcome is the preparation's message or the transpiler's answer |
| `Stage2.Configure` | Source/Core/ShaderConductor.cpp:645-836 | the transpiler calls, one by one, compute the preparation |
| `Stage2.CrossCompile` | Source/Core/ShaderConductor.cpp:596-856 | the method computes the stage-2 compile |
| `Stage2.ConvertBinary` | Source/Core/ShaderConductor.cpp:858-892 | a failed, library or DXIL/SPIR-V result passes through unchanged; everything else is cross-compiled to text |
| `Dispatch.WithDefaultEntry` | Source/Core/ShaderConductor.cpp:2919-2923 | a null or empty entry point becomes `main`; a given one is kept |
| `Dispatch.CallLogMeaning` | Source/Core/ShaderConductor.cpp:2929-2964 | each binary built at most once: full DXIL iff some DXIL target, DXIL library iff some DXIL library target, SPIR-V iff some non-DXIL target |
| `Dispatch.ModuleBuildImpliesDxilBuild` | Source/Core/ShaderConductor.cpp:2934-2941 | the library build never comes without the full DXIL build |
| `Dispatch.BinaryFor` | Source/Core/ShaderConductor.cpp:2968-2983 | a target's binary: DXIL library, full DXIL or SPIR-V by its kind |
| `Dispatch.Convert` | Source/Core/ShaderConductor.cpp:2968-2983 | DXIL targets take the full or library DXIL binary as is; SPIR-V, library or failed SPIR-V results pass through; the rest become text |
| `Dispatch.ConvertAllPointwise` | Source/Core/ShaderConductor.cpp:2966-2986 | result i is target i's conversion from its own binary |
| `Dispatch.ConvertAll` | Source/Core/ShaderConductor.cpp:2966-2986 | on success one result per target, each that target's conversion |
| `Dispatch.DxilOnlyBuildsOnce` | Source/Core/ShaderConductor.cpp:2949-2964 | only non-library DXIL targets make one full DXIL build and nothing else |
| `Dispatch.Compile` | Source/Core/ShaderConductor.cpp:2916-2987 | the results are the conversions in order; a fault leaves the later results untouched; the logged builds are the call log |
| `Dispatch.CompileSpec` | Source/Core/ShaderConductor.cpp:2916-2987 | on success the binaries were built and result i is target i's conversion |
| `Dispatch.BuildAll` | Source/Core/ShaderConductor.cpp:2948-2964 | the three guarded builds compute the binaries and log each call |
| `Dispatch.ConvertInto` | Source/Core/ShaderConductor.cpp:2966-2986 | the loop writes each target's conversion to `results[i]` and stops at a fault |
| `Dispatch.ConvertAllStops` | Source/Core/ShaderConductor.cpp:2966-2986 | a failure in the first n targets is the whole list's failure |
| `Cmd.StageNamesRoundTrip` | Source/Tools/ShaderConductorCmd.cpp:88-117 | the six stage names map one-to-one to the stages; nothing else parses |
| `Cmd.TargetNamesRoundTrip` | Source/Tools/ShaderConductorCmd.cpp:122-154 | the seven target names map one-to-one to the languages; nothing else parses |
| `Cmd.OutputName` | Source/Tools/ShaderConductorCmd.cpp:156-167 | the given output name, or input + `.` + the language's extension |
| `Cmd.ExtensionsDistinct` | Source/Tools/ShaderConductorCmd.cpp:159 | extensions are non-empty and dot-free; only the two MSL targets share one |
| `Cmd.Find` | Source/Tools/ShaderConductorCmd.cpp:199 | `find('=')` gives the first position of the character, none exactly when it is absent |
| `Cmd.SplitDefineRoundTrip` | Source/Tools/ShaderConductorCmd.cpp:199-214 | split at the first `=` into a name without `=` and a value; no `=` gives a null value; splitting and joining undo each other |
| `Cmd.FindFirst` | Source/Tools/ShaderConductorCmd.cpp:199 | a character at p with none before it is what `find` returns |
| `Cmd.PushDefine` | Source/Tools/ShaderConductorCmd.cpp:199-214 | one define's pushes: its name, then its value when it has one |
| `Cmd.SplitDefines` | Source/Tools/ShaderConductorCmd.cpp:185-221 | store reserved to 2n, all pointers inside the used part, and they denote the split defines in order |
| `Cmd.ShaderModelOf` | Source/Tools/ShaderConductorCmd.cpp:228-229 | the bit-fields keep the numbers modulo 64 and 4 |
| `Cmd.OptionsOf` | Source/Tools/ShaderConductorCmd.cpp:223-233 | the parsed flags and numbers; optimisations never disabled; no reflection or inherited bindings |
| `Cmd.PrepareInvocation` | Source/Tools/ShaderConductorCmd.cpp:69-233 | exit code 1 exactly for a missing input or stage, an unknown stage or target, or an unreadable file; otherwise the parsed records, with an empty version as null |
| `Cmd.ExitCode` | Source/Tools/ShaderConductorCmd.cpp:235-264 | only a target that cannot be written exits 1; compile errors and exceptions exit 0 |

## Left out

- The `Dxcompiler` singleton and `DllMain` (library loading, COM creation, teardown) are operating-system lifecycle code.
- The include handler's COM plumbing, reference count and UTF-16 conversion are foreign code. So is the file reading of the default include callback. Only the `./` strip is modelled.
- The DXC, SPIRV-Cross and container-reflection calls are foreign. Their answers are parameters: `Stage1.FrontEnd`, `Stage2.CrossBackend`, and `SpirvCross.ModuleInfo` for what SPIRV-Cross's introspection returns.
- The D3D12 walk of the DXIL reflection constructor is a COM table walk and is left out. Only its member-size and stride arithmetic are modelled. `MakeDxilReflection` is the optional `reflect` parameter.
- Exceptions thrown by foreign calls outside the `try` of the cross-compile are not modelled. These are the `CompilerError` of the SPIRV-Cross constructors' parse (ShaderConductor.cpp:645, 650, 692) and of `set_entry_point` on a missing entry point (:729), and the `IFT` throws on failing DXC results (:381, :398, :475, :586). `Stage2.CrossBackend`, `Stage1.DxcOutcome` and the transpiler's setters are total.
- Stage1.CompileToBinaryFaults: "throws exactly on" counts only the faults the model raises itself; a failing DXC call that `IFT` turns into an exception is not among them.
- Stage2.CrossCompileSpec: its faults are those of the model's own checks; a SPIRV-Cross parse or entry-point error thrown outside the `try` is not modelled.
- `Compiler::Link`, `LinkSupport` and `Disassemble` are round-trips through foreign objects. Their shared use of `ConvertBinary` is modelled.
- Text.ParseLeadingNumber: does not model `stoi`'s leading whitespace, sign or overflow. `atoi` on semantic digits is unbounded for the same reason.
- Stage1.VersionChar: a major version of 10 or more gives a non-digit profile character, as in the source. No lemma looks at such profiles.
- Stage1.CompileToBinary: the source length is the length of the string. An embedded NUL, which `strlen` would stop at, is not modelled.
- Text.Bytes: characters are stored modulo 256. UTF-8 encoding of non-ASCII messages is not modelled.
- Stage1.TranslateDefines: the UTF-8 to UTF-16 conversion of macro names and values is not modelled. The strings are kept as they are.
- Stage2.WholeWords: the assertion that the payload is a whole number of words is not a precondition. Trailing bytes are dropped, as `size / 4` does.
- The reflection accessors that only return a stored field (`NumResources`, `GSMaxNumOutputVertices` and the like) are the fields of `Reflect.ReflectionData` and need no separate member.
- An accessor on an invalid `Reflection` dereferences null in the source. `Reflect.Reflection` keeps its data optional, and the accessors live on the data.
- SpirvReflection.ReflectionOf: resource and semantic names are whole strings. Their truncation by `strncpy` into fixed-size arrays is not modelled.
- Blobs.Blob.Data: returns the buffer's contents rather than an address. Aliasing between a blob and the memory it was copied from is not modelled.
- The command line's option parser, reading the input file, writing the output and console messages are I/O. The parsed options and the file's text (or its absence) are inputs to `Cmd.PrepareInvocation`. Whether the output file opens is an input to `Cmd.ExitCode`.
- Cmd.PrepareInvocation: ShaderConductorCmd.cpp:53 and :56 both declare the short option `D` (`define` and `debuginfo`). How the option parser resolves the clash is the parser's business and is not in the source. The model takes `defines` and `debugInfo` as independent parsed inputs.
- Cmd.OptionsOf: `int` options are unbounded; their range as 32-bit `int` is not modelled.
- The C# wrapper, the native bridge, the tests and the build script are outside the core.

- Stage1.OptimizationChoice: applies the corrected level rule, so a negative level faults. As written, the source passes it and emits `-O/` (see Findings; `Stage1.OptimizationArgAsWritten` models the source).
- Stage1.DxcArgumentsFaults: states the corrected level rule. As written, a negative level does not fault.
- Stage1.CompileToBinaryFaults: states the corrected level rule. As written, a negative level does not throw.
- Stage1.CompileToBinary: computes the stage-1 compile under the corrected level rule, not the `-O/` argument of the source.
- SpirvReflection.StageMetadataOf: reports `FractionalEven` for fractional-even spacing, where the source reports `Undefined` (see Findings; `SpirvReflection.StageMetadataAsWritten` relates the two).
- SpirvReflection.ReflectionOf: uses the corrected partitioning of `StageMetadataOf`.
- Stage2.Finish: the reflection it attaches uses the corrected partitioning.
- Stage2.Finish: a `CompilerError` thrown while building the SPIR-V reflection is caught in the source after the target was set, which gives `hasError` with a non-empty target. The model's introspection never throws, and a failing reflection step is a `Fault` that leaves the compile. That case is not modelled.
- `spirv_cross_util::inherit_combined_sampler_bindings` is not part of this model. It is modelled by its documented effect: the combined id copies the image's descriptor set and binding where the image has them.

## Findings

| source | as written | input that shows it | evidently intended | confidence | as-written member | corrected member |
|---|---|---|---|---|---|---|
| Source/Core/ShaderConductor.cpp:2326 | the third partitioning test repeats `SpacingFractionalOdd`, so `FractionalEven` is never set | a hull shader whose only spacing mode is `SpacingFractionalEven` gets `Undefined` | test `SpacingFractionalEven` and report `FractionalEven` | high, not executed | `SpirvReflection.PartitioningAsWrittenNeverFractionalEven` | `SpirvReflection.Partitioning` |
| Source/Core/ShaderConductor.cpp:2450 | `ConstantBufferByIndex` bounds the index by the resource count but reads the constant-buffer list | a shader with one storage buffer and no constant buffer, index 0 | bound the index by the constant-buffer count | high, not executed | `Reflect.ConstantBufferByIndexOverreads` | `Reflect.ReflectionData.ConstantBufferByIndex` |
| Source/Core/ShaderConductor.cpp:521 | the level guard is only `< 4`, so a negative level passes and gives a code unit below `'0'` | `optimizationLevel = -1` gives `-O/` | accept only levels 0 to 3 | medium, not executed | `Stage1.NegativeOptimizationLevel` | `Stage1.OptimizationArg` |
