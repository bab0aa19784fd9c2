/** The command-line helpers of the resampling benchmark: the argument
    record, membership tests, the underscore-to-space rewrite, the 1-D
    transform restriction, the argument validation and the transform
    defaults applied before the run. */
module ResampleArguments {
  import Text
  import opened Outcomes

  const ValidInterpolators: seq<string> := ["Nearest", "Linear", "BSpline"]
  const ValidTransforms: seq<string> := ["Identity", "Affine", "Translation", "BSpline", "Euler", "Similarity"]
  const ValidTransformPrecisions: seq<string> := ["float", "double"]

  /** The benchmark's argument record. */
  class Parameters {
    var timingsFileName: string
    var iterations: int
    var threads: int
    var inputFileName: string
    var imageSizes: seq<int>
    var outputFileNames: seq<string>
    var interpolator: string
    var extrapolator: string
    var transforms: seq<string>
    var useCompositeTransform: bool
    var splineOrderInterpolator: int
    var transformsPrecision: string

    constructor ()
      ensures timingsFileName == "" && iterations == 1 && threads == 0 && inputFileName == ""
      ensures imageSizes == [] && outputFileNames == []
      ensures interpolator == "Linear" && extrapolator == "" && transforms == []
      ensures !useCompositeTransform && splineOrderInterpolator == 3 && transformsPrecision == "float"
      // the defaults pass ValidateArguments
      ensures ArgumentsAcceptable(imageSizes, inputFileName, iterations, interpolator,
                                  extrapolator, transforms, transformsPrecision)
    {
      timingsFileName := "";
      iterations := 1;
      threads := 0;
      inputFileName := "";
      imageSizes := [];
      outputFileNames := [];
      interpolator := "Linear";
      extrapolator := "";
      transforms := [];
      useCompositeTransform := false;
      splineOrderInterpolator := 3;
      transformsPrecision := "float";
    }
  }

  /** `str` equals some element of `vec` (std::any_of over the vector). */
  function IsStringInVector(str: string, vec: seq<string>): (found: bool)
    ensures found <==> exists i :: 0 <= i < |vec| && vec[i] == str
  {
    if vec == [] then false
    else vec[0] == str || IsStringInVector(str, vec[1..])
  }

  /** Every argument is one of the allowed strings; true for no arguments. */
  method AreAllStringsInVector(args: seq<string>, allowed: seq<string>) returns (result: bool)
    ensures result <==> forall a :: a in args ==> a in allowed
  {
    result := true;
    for i := 0 to |args|
      invariant result <==> forall j :: 0 <= j < i ==> args[j] in allowed
    {
      var found := IsStringInVector(args[i], allowed);
      result := result && found;
    }
  }

  /** The first '_' becomes ' '; nothing else changes, and a string with no
      '_' is returned as it was. */
  function ReplaceUnderscoreWithSpace(arg: string): (r: string)
    ensures |r| == |arg|
    ensures (forall i :: 0 <= i < |arg| ==> arg[i] != '_') ==> r == arg
    ensures forall i :: 0 <= i < |arg| && arg[i] == '_' ==>
      exists p :: 0 <= p <= i && arg[p] == '_' && r[p] == ' '
        && (forall j :: 0 <= j < p ==> arg[j] != '_')
        && (forall j :: 0 <= j < |arg| && j != p ==> r[j] == arg[j])
  {
    match Text.Find(arg, "_")
    case None =>
      UnderscoreAbsent(arg);
      arg
    case Some(pos) =>
      FirstUnderscore(arg, pos);
      arg[pos := ' ']
  }

  lemma UnderscoreAbsent(arg: string)
    requires Text.Find(arg, "_").None?
    ensures forall i :: 0 <= i < |arg| ==> arg[i] != '_'
  {
    forall i | 0 <= i < |arg|
      ensures arg[i] != '_'
    {
      assert !Text.OccursAt(arg, "_", i);
      assert arg[i..i + 1] == [arg[i]];
    }
  }

  lemma FirstUnderscore(arg: string, pos: nat)
    requires Text.Find(arg, "_") == Some(pos)
    ensures pos < |arg| && arg[pos] == '_'
    ensures forall j :: 0 <= j < pos ==> arg[j] != '_'
  {
    assert Text.OccursAt(arg, "_", pos);
    assert arg[pos..pos + 1][0] == arg[pos];
    forall j | 0 <= j < pos
      ensures arg[j] != '_'
    {
      assert !Text.OccursAt(arg, "_", j);
      assert arg[j..j + 1] == [arg[j]];
    }
  }

  /** The 1-D run rejects the transforms that exist only in 2-D and 3-D. */
  predicate Only2D3D(transform: string) {
    transform == "Euler" || transform == "Similarity"
  }

  /** True iff the dimension is 1 and some requested transform is Euler or
      Similarity; the scan stops at the first such transform. */
  method HasNotSupportedTransform1D(p: Parameters, dimension: nat) returns (notSupportFor1D: bool)
    ensures notSupportFor1D <==> dimension == 1 && exists i :: 0 <= i < |p.transforms| && Only2D3D(p.transforms[i])
  {
    notSupportFor1D := false;
    if dimension == 1 {
      var i := 0;
      while i < |p.transforms|
        invariant 0 <= i <= |p.transforms|
        invariant !notSupportFor1D
        invariant forall j :: 0 <= j < i ==> !Only2D3D(p.transforms[j])
      {
        if p.transforms[i] == "Euler" || p.transforms[i] == "Similarity" {
          notSupportFor1D := true;
          break;
        }
        i := i + 1;
      }
    }
  }

  /** The conditions under which the benchmark accepts its arguments: at
      most three image sizes, all positive; not both sizes and an input
      file; at least one iteration; a known interpolator; no extrapolator
      or "Nearest"; only known transforms; a known precision. */
  predicate ArgumentsAcceptable(imageSizes: seq<int>, inputFileName: string, iterations: int,
                                interpolator: string, extrapolator: string,
                                transforms: seq<string>, transformsPrecision: string)
  {
    && |imageSizes| <= 3
    && (forall i :: 0 <= i < |imageSizes| ==> imageSizes[i] > 0)
    && (imageSizes == [] || inputFileName == "")
    && iterations >= 1
    && interpolator in ValidInterpolators
    && (extrapolator == "" || extrapolator == "Nearest")
    && (forall t :: t in transforms ==> t in ValidTransforms)
    && transformsPrecision in ValidTransformPrecisions
  }

  /** The checks in the order the benchmark makes them; the first failing
      one rejects the arguments. */
  method ValidateArguments(p: Parameters) returns (valid: bool)
    ensures valid <==> ArgumentsAcceptable(p.imageSizes, p.inputFileName, p.iterations, p.interpolator,
                                           p.extrapolator, p.transforms, p.transformsPrecision)
  {
    var inputSizesProvidedAndValid := false;
    if |p.imageSizes| > 3 {
      return false;
    }
    for i := 0 to |p.imageSizes|
      invariant forall j :: 0 <= j < i ==> p.imageSizes[j] > 0
      invariant inputSizesProvidedAndValid <==> i > 0
    {
      if p.imageSizes[i] > 0 {
        inputSizesProvidedAndValid := true;
      } else {
        return false;
      }
    }
    if inputSizesProvidedAndValid && p.inputFileName != "" {
      return false;
    }
    if p.iterations < 1 {
      return false;
    }
    if !IsStringInVector(p.interpolator, ValidInterpolators) {
      return false;
    }
    if p.extrapolator != "" {
      if p.extrapolator != "Nearest" {
        return false;
      }
    }
    var transformsKnown := AreAllStringsInVector(p.transforms, ValidTransforms);
    if !transformsKnown {
      return false;
    }
    if !IsStringInVector(p.transformsPrecision, ValidTransformPrecisions) {
      return false;
    }
    return true;
  }

  /** The transform list and composite flag after AdjustTransformParameters:
      no transform means Identity alone, several mean a composite transform. */
  function AdjustedTransforms(transforms: seq<string>, useCompositeTransform: bool): (r: (seq<string>, bool))
    ensures r.0 != []
    ensures transforms != [] ==> r.0 == transforms
    ensures |r.0| > 1 ==> r.1
    ensures |transforms| <= 1 ==> r.1 == useCompositeTransform
  {
    if transforms == [] then (["Identity"], useCompositeTransform)
    else if |transforms| > 1 then (transforms, true)
    else (transforms, useCompositeTransform)
  }

  /** Adjusting twice is adjusting once, and adjusting never turns accepted
      arguments into rejected ones. */
  lemma AdjustIdempotentAndSafe(transforms: seq<string>, useCompositeTransform: bool,
                                imageSizes: seq<int>, inputFileName: string, iterations: int,
                                interpolator: string, extrapolator: string, transformsPrecision: string)
    ensures var r := AdjustedTransforms(transforms, useCompositeTransform);
      AdjustedTransforms(r.0, r.1) == r
    ensures ArgumentsAcceptable(imageSizes, inputFileName, iterations, interpolator, extrapolator, transforms, transformsPrecision) ==>
      ArgumentsAcceptable(imageSizes, inputFileName, iterations, interpolator, extrapolator,
                          AdjustedTransforms(transforms, useCompositeTransform).0, transformsPrecision)
  {
  }

  method AdjustTransformParameters(p: Parameters)
    modifies p
    ensures (p.transforms, p.useCompositeTransform) == AdjustedTransforms(old(p.transforms), old(p.useCompositeTransform))
    ensures p.timingsFileName == old(p.timingsFileName) && p.iterations == old(p.iterations)
    ensures p.threads == old(p.threads) && p.inputFileName == old(p.inputFileName)
    ensures p.imageSizes == old(p.imageSizes) && p.outputFileNames == old(p.outputFileNames)
    ensures p.interpolator == old(p.interpolator) && p.extrapolator == old(p.extrapolator)
    ensures p.splineOrderInterpolator == old(p.splineOrderInterpolator)
    ensures p.transformsPrecision == old(p.transformsPrecision)
  {
    if p.transforms == [] {
      p.transforms := ["Identity"];
    } else if |p.transforms| > 1 {
      p.useCompositeTransform := true;
    }
  }
}
