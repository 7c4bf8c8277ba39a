/**
  `Compiler::Compile` over several targets: the entry point defaults to
  `main`, each kind of stage-1 binary (full DXIL, DXIL library, SPIR-V) is
  built at most once and only when some target needs it, and each target's
  result is the conversion of its own binary.
 */
module Dispatch {
  import opened Wrappers
  import opened Api
  import Stage1
  import Stage2

  /** A missing or empty entry point becomes `main`. */
  function WithDefaultEntry(source: SourceDesc): (r: SourceDesc)
    ensures r.entryPoint.Some? && r.entryPoint.value != []
    ensures source.entryPoint.Some? && source.entryPoint.value != [] ==> r == source
    ensures (source.entryPoint.None? || source.entryPoint.value == []) ==> r == source.(entryPoint := Some("main"))
  {
    if source.entryPoint.None? || source.entryPoint.value == [] then source.(entryPoint := Some("main")) else source
  }

  predicate HasDxil(targets: seq<TargetDesc>) {
    exists i :: 0 <= i < |targets| && targets[i].language == Dxil
  }

  predicate HasDxilModule(targets: seq<TargetDesc>) {
    exists i :: 0 <= i < |targets| && targets[i].language == Dxil && targets[i].asModule
  }

  predicate HasSpirV(targets: seq<TargetDesc>) {
    exists i :: 0 <= i < |targets| && targets[i].language != Dxil
  }

  /** One stage-1 compile: the language it produces and whether it builds a library. */
  datatype BinaryKind = BinaryKind(language: ShadingLanguage, asModule: bool)

  /** The stage-1 compiles made for a list of targets, in the order the source makes them. */
  function CallLog(targets: seq<TargetDesc>): seq<BinaryKind> {
    (if HasDxil(targets) then [BinaryKind(Dxil, false)] else [])
    + (if HasDxilModule(targets) then [BinaryKind(Dxil, true)] else [])
    + (if HasSpirV(targets) then [BinaryKind(SpirV, false)] else [])
  }

  /**
    Each binary is built at most once; the full DXIL binary iff some target is
    DXIL (a library target included), the DXIL library iff some DXIL target is a
    library, and the SPIR-V binary iff some target is not DXIL.
   */
  lemma CallLogMeaning(targets: seq<TargetDesc>)
    ensures var log := CallLog(targets);
      (forall i, j :: 0 <= i < j < |log| ==> log[i] != log[j])
      && (BinaryKind(Dxil, false) in log <==> exists i :: 0 <= i < |targets| && targets[i].language == Dxil)
      && (BinaryKind(Dxil, true) in log <==>
        exists i :: 0 <= i < |targets| && targets[i].language == Dxil && targets[i].asModule)
      && (BinaryKind(SpirV, false) in log <==> exists i :: 0 <= i < |targets| && targets[i].language != Dxil)
      && (forall k :: k in log ==> k.language.IsBinary())
  {
  }

  /** A library target is a DXIL target, so the library build never comes without the full DXIL build. */
  lemma ModuleBuildImpliesDxilBuild(targets: seq<TargetDesc>)
    ensures BinaryKind(Dxil, true) in CallLog(targets) ==> BinaryKind(Dxil, false) in CallLog(targets)
  {
    CallLogMeaning(targets);
  }

  /** The three stage-1 results; a binary nobody needs stays a value-initialised result. */
  datatype Binaries = Binaries(dxil: ResultDesc, dxilModule: ResultDesc, spirv: ResultDesc)

  function BuildIf(needed: bool, source: SourceDesc, options: Options, kind: BinaryKind, fe: Stage1.FrontEnd)
    : Result<ResultDesc, Fault>
    requires kind.language.IsBinary() && source.entryPoint.Some?
  {
    if needed then Stage1.CompileToBinarySpec(source, options, kind.language, kind.asModule, fe) else Success(EmptyResult)
  }

  /** The binaries the targets need, built in the source's order; the first failure stops the rest. */
  function BuildBinaries(source: SourceDesc, options: Options, targets: seq<TargetDesc>, fe: Stage1.FrontEnd)
    : Result<Binaries, Fault>
    requires source.entryPoint.Some?
  {
    var dxil :- BuildIf(HasDxil(targets), source, options, BinaryKind(Dxil, false), fe);
    var dxilModule :- BuildIf(HasDxilModule(targets), source, options, BinaryKind(Dxil, true), fe);
    var spirv :- BuildIf(HasSpirV(targets), source, options, BinaryKind(SpirV, false), fe);
    Success(Binaries(dxil, dxilModule, spirv))
  }

  /** The binary a target is converted from. */
  function BinaryFor(target: TargetDesc, b: Binaries): (r: ResultDesc)
    ensures target.language == Dxil && target.asModule ==> r == b.dxilModule
    ensures target.language == Dxil && !target.asModule ==> r == b.dxil
    ensures target.language != Dxil ==> r == b.spirv
  {
    if target.language == Dxil then (if target.asModule then b.dxilModule else b.dxil) else b.spirv
  }

  /** The conversion of one target from its own binary. */
  function Convert(source: SourceDesc, options: Options, target: TargetDesc, b: Binaries, cross: Stage2.CrossBackend)
    : (r: Result<ResultDesc, Fault>)
    requires source.entryPoint.Some?
    ensures target.language == Dxil && !target.asModule ==> r == Success(b.dxil)
    ensures target.language == Dxil && target.asModule ==> r == Success(b.dxilModule)
    ensures target.language != Dxil && (target.language == SpirV || target.asModule || b.spirv.hasError) ==> r == Success(b.spirv)
    ensures !target.language.IsBinary() && !target.asModule && !b.spirv.hasError && r.Success? ==> r.value.isText
  {
    Stage2.ConvertBinary(BinaryFor(target, b), source, options, target, cross)
  }

  /** The results of the targets converted in order; the first failure stops the rest. */
  function ConvertAll(source: SourceDesc, options: Options, targets: seq<TargetDesc>, b: Binaries, cross: Stage2.CrossBackend)
    : (r: Result<seq<ResultDesc>, Fault>)
    requires source.entryPoint.Some?
    ensures r.Success? ==> |r.value| == |targets|
    ensures r.Success? ==> forall i :: 0 <= i < |targets| ==>
      Convert(source, options, targets[i], b, cross).Success? && r.value[i] == Convert(source, options, targets[i], b, cross).value
  {
    if targets == [] then Success([])
    else
      var front :- ConvertAll(source, options, targets[..|targets| - 1], b, cross);
      var last :- Convert(source, options, targets[|targets| - 1], b, cross);
      assert forall i :: 0 <= i < |targets| - 1 ==> targets[..|targets| - 1][i] == targets[i];
      Success(front + [last])
  }

  /** Result `i` depends only on target `i` and the binary of its kind: it is that target's conversion. */
  lemma {:induction false} ConvertAllPointwise(source: SourceDesc, options: Options, targets: seq<TargetDesc>, b: Binaries,
                                               cross: Stage2.CrossBackend)
    requires source.entryPoint.Some?
    ensures var r := ConvertAll(source, options, targets, b, cross);
      (r.Success? <==> forall i :: 0 <= i < |targets| ==> Convert(source, options, targets[i], b, cross).Success?)
      && (r.Success? ==> |r.value| == |targets|)
      && (r.Success? ==> forall i :: 0 <= i < |targets| ==> r.value[i] == Convert(source, options, targets[i], b, cross).value)
  {
    if targets != [] {
      var front := targets[..|targets| - 1];
      ConvertAllPointwise(source, options, front, b, cross);
      assert forall i :: 0 <= i < |front| ==> front[i] == targets[i];
    }
  }

  /** `Compile` over several targets, as a value. */
  function CompileSpec(source: SourceDesc, options: Options, targets: seq<TargetDesc>, fe: Stage1.FrontEnd,
                       cross: Stage2.CrossBackend)
    : (r: Result<seq<ResultDesc>, Fault>)
    ensures r.Success? ==> |r.value| == |targets|
    ensures r.Success? ==>
      var s := WithDefaultEntry(source);
      BuildBinaries(s, options, targets, fe).Success?
      && forall i :: 0 <= i < |targets| ==>
        var converted := Convert(s, options, targets[i], BuildBinaries(s, options, targets, fe).value, cross);
        converted.Success? && r.value[i] == converted.value
  {
    var s := WithDefaultEntry(source);
    var b :- BuildBinaries(s, options, targets, fe);
    ConvertAll(s, options, targets, b, cross)
  }

  /** A list of targets that are all DXIL and none a library makes the full DXIL build alone. */
  lemma DxilOnlyBuildsOnce(targets: seq<TargetDesc>)
    requires targets != [] && forall i :: 0 <= i < |targets| ==> targets[i] == TargetDesc(Dxil, targets[i].version, false)
    ensures CallLog(targets) == [BinaryKind(Dxil, false)]
  {
    assert targets[0].language == Dxil;
  }

  /**
    `Compile`: the flags, the binaries built once each (the stage-1 compiles
    are logged in `log`), then `results[i]` for each target in order. A
    failure stops the compile; the results before it are already written.
   */
  method Compile(source: SourceDesc, options: Options, targets: seq<TargetDesc>, results: array<ResultDesc>,
                 fe: Stage1.FrontEnd, cross: Stage2.CrossBackend)
    returns (fault: Option<Fault>, ghost log: seq<BinaryKind>)
    requires results.Length == |targets|
    modifies results
    ensures var spec := CompileSpec(source, options, targets, fe, cross);
      (fault.None? <==> spec.Success?)
      && (fault.None? ==> results[..] == spec.value)
      && (fault.Some? ==> fault.value == spec.error)
    ensures var s := WithDefaultEntry(source);
      var built := BuildBinaries(s, options, targets, fe);
      fault.Some? ==> exists n :: (0 <= n <= |targets| && results[n..] == old(results[n..])
        && (n > 0 ==> built.Success?)
        && (forall i :: 0 <= i < n ==> built.Success? && Convert(s, options, targets[i], built.value, cross) == Success(results[i])))
    ensures log <= CallLog(targets)
    ensures BuildBinaries(WithDefaultEntry(source), options, targets, fe).Success? ==> log == CallLog(targets)
  {
    var s := WithDefaultEntry(source);
    var hasDxil, hasDxilModule, hasSpirV := false, false, false;
    for i := 0 to |targets|
      invariant hasDxil == HasDxil(targets[..i])
      invariant hasDxilModule == HasDxilModule(targets[..i])
      invariant hasSpirV == HasSpirV(targets[..i])
    {
      assert forall j :: 0 <= j < i ==> targets[..i + 1][j] == targets[..i][j];
      assert targets[..i + 1][i] == targets[i];
      if targets[i].language == Dxil {
        hasDxil := true;
        if targets[i].asModule {
          hasDxilModule := true;
        }
      } else {
        hasSpirV := true;
      }
    }
    assert targets[..|targets|] == targets;
    var b: Binaries;
    fault, log, b := BuildAll(s, options, targets, hasDxil, hasDxilModule, hasSpirV, fe);
    if fault.Some? {
      assert results[0..] == old(results[0..]);
      return;
    }
    fault := ConvertInto(s, options, targets, b, results, cross);
  }

  /** The three guarded stage-1 compiles, each logged. */
  method BuildAll(s: SourceDesc, options: Options, targets: seq<TargetDesc>, hasDxil: bool, hasDxilModule: bool, hasSpirV: bool,
                  fe: Stage1.FrontEnd)
    returns (fault: Option<Fault>, ghost log: seq<BinaryKind>, b: Binaries)
    requires s.entryPoint.Some?
    requires hasDxil == HasDxil(targets) && hasDxilModule == HasDxilModule(targets) && hasSpirV == HasSpirV(targets)
    ensures var spec := BuildBinaries(s, options, targets, fe);
      (fault.None? <==> spec.Success?) && (fault.None? ==> b == spec.value) && (fault.Some? ==> fault.value == spec.error)
    ensures log <= CallLog(targets) && (fault.None? ==> log == CallLog(targets))
  {
    log := [];
    b := Binaries(EmptyResult, EmptyResult, EmptyResult);
    var dxil, dxilModule, spirv := EmptyResult, EmptyResult, EmptyResult;
    if hasDxil {
      var r := Stage1.CompileToBinary(s, options, Dxil, false, fe);
      log := log + [BinaryKind(Dxil, false)];
      if r.Failure? {
        return Some(r.error), log, b;
      }
      dxil := r.value;
    }
    if hasDxilModule {
      var r := Stage1.CompileToBinary(s, options, Dxil, true, fe);
      log := log + [BinaryKind(Dxil, true)];
      if r.Failure? {
        return Some(r.error), log, b;
      }
      dxilModule := r.value;
    }
    if hasSpirV {
      var r := Stage1.CompileToBinary(s, options, SpirV, false, fe);
      log := log + [BinaryKind(SpirV, false)];
      if r.Failure? {
        return Some(r.error), log, b;
      }
      spirv := r.value;
    }
    b := Binaries(dxil, dxilModule, spirv);
    fault := None;
  }

  /** The loop that writes `results[i]` from target `i` and its binary. */
  method ConvertInto(s: SourceDesc, options: Options, targets: seq<TargetDesc>, b: Binaries, results: array<ResultDesc>,
                     cross: Stage2.CrossBackend)
    returns (fault: Option<Fault>)
    requires s.entryPoint.Some? && results.Length == |targets|
    modifies results
    ensures var spec := ConvertAll(s, options, targets, b, cross);
      (fault.None? <==> spec.Success?)
      && (fault.None? ==> results[..] == spec.value)
      && (fault.Some? ==> fault.value == spec.error)
    ensures fault.Some? ==> exists n :: (0 <= n < |targets| && results[n..] == old(results[n..])
      && forall i :: 0 <= i < n ==> Convert(s, options, targets[i], b, cross) == Success(results[i]))
  {
    for i := 0 to |targets|
      invariant ConvertAll(s, options, targets[..i], b, cross).Success?
      invariant results[..i] == ConvertAll(s, options, targets[..i], b, cross).value
      invariant forall k :: i <= k < results.Length ==> results[k] == old(results[k])
      invariant forall j :: 0 <= j < i ==> Convert(s, options, targets[j], b, cross) == Success(results[j])
    {
      assert targets[..i + 1][..i] == targets[..i];
      var converted := Convert(s, options, targets[i], b, cross);
      if converted.Failure? {
        ConvertAllStops(s, options, targets, b, cross, i + 1);
        assert targets[..i + 1][i] == targets[i];
        assert results[i..] == old(results[i..]);
        return Some(converted.error);
      }
      results[i] := converted.value;
      assert results[..i + 1] == results[..i] + [converted.value];
    }
    assert targets[..|targets|] == targets;
    assert results[..] == results[..|targets|];
    fault := None;
  }

  /** A failure among the first `n` targets is the failure of the whole list. */
  lemma {:induction false} ConvertAllStops(s: SourceDesc, options: Options, targets: seq<TargetDesc>, b: Binaries,
                                           cross: Stage2.CrossBackend, n: nat)
    requires s.entryPoint.Some? && n <= |targets|
    requires ConvertAll(s, options, targets[..n], b, cross).Failure?
    ensures ConvertAll(s, options, targets, b, cross) == ConvertAll(s, options, targets[..n], b, cross)
    decreases |targets| - n
  {
    if n < |targets| {
      var longer := targets[..n + 1];
      assert longer[..n] == targets[..n];
      assert ConvertAll(s, options, longer, b, cross) == ConvertAll(s, options, targets[..n], b, cross);
      ConvertAllStops(s, options, targets, b, cross, n + 1);
    } else {
      assert targets[..n] == targets;
    }
  }
}
