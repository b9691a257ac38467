/** Shape configuration of the RIFE runtime (padded_dimension, tensor_size and
    configure_shape in dev/windows/mpv/rife_runtime.cpp): padding of the source,
    choice of an optimization profile and sizes of the tensors.
    What TensorRT answers is a parameter. */
module ShapeProfiles {
  import opened Wrappers
  import opened Basics

  const TEXTURE_LIMIT := 16384
  const SIZE_MAX := 0xFFFF_FFFF_FFFF_FFFF
  const INT64_MAX := 0x7FFF_FFFF_FFFF_FFFF

  const UHD_HEIGHT := 2176
  const UHD_WIDTH := 3840
  const DCI_WIDTH := 4096
  const MID_WIDTH := 2560

  // ---------------------------------------------------------------- padding

  predicate Padded(source: nat, alignment: nat, padded: nat) {
    && alignment > 0 && padded % alignment == 0 && source <= padded <= TEXTURE_LIMIT
    && forall q: nat :: q % alignment == 0 && source <= q ==> padded <= q
  }

  /** The least multiple of the alignment that is not below the source, if the
      texture limit allows one. */
  method PaddedDimension(source: nat, alignment: nat) returns (padded: Option<nat>)
    ensures padded.Some? <==> source > 0 && (alignment == 64 || alignment == 128) && source <= TEXTURE_LIMIT
    ensures padded.Some? ==> Padded(source, alignment, padded.value)
  {
    if source == 0 || (alignment != 64 && alignment != 128) {
      return None;
    }
    var value := (source + alignment - 1) / alignment * alignment;
    LeastMultiple(source, alignment);
    if value > TEXTURE_LIMIT {
      return None;
    }
    return Some(value);
  }

  lemma LeastMultiple(source: nat, alignment: nat)
    requires alignment == 64 || alignment == 128
    ensures var value := (source + alignment - 1) / alignment * alignment;
      && value % alignment == 0 && source <= value
      && (forall q: nat :: q % alignment == 0 && source <= q ==> value <= q)
      && (value <= TEXTURE_LIMIT <==> source <= TEXTURE_LIMIT)
  {
  }

  // ---------------------------------------------------------------- tensor sizes

  datatype DataType = Float | Half | Int8 | Int32 | Bool | UInt8 | Fp8 | Bf16 | Int64 | Int4 | Fp4 | Other

  function DataTypeSize(t: DataType): nat {
    match t
    case Float => 4
    case Half => 2
    case Int32 => 4
    case Bf16 => 2
    case Int64 => 8
    case Other => 0
    case _ => 1
  }

  function Product(dims: seq<int>): int {
    if dims == [] then 1 else Product(dims[..|dims| - 1]) * dims[|dims| - 1]
  }

  predicate Positive(dims: seq<int>) {
    forall i | 0 <= i < |dims| :: dims[i] > 0
  }

  lemma {:induction false} PrefixProduct(dims: seq<int>, k: nat)
    requires k <= |dims| && Positive(dims)
    ensures 1 <= Product(dims[..k]) <= Product(dims)
    decreases |dims|
  {
    var last := |dims| - 1;
    if k < |dims| {
      PrefixProduct(dims[..last], k);
      assert dims[..last][..k] == dims[..k];
      TimesPositive(Product(dims[..last]), dims[last]);
    } else if k > 0 {
      PrefixProduct(dims[..last], last);
      assert dims[..last][..last] == dims[..last] && dims[..k] == dims;
      TimesPositive(Product(dims[..last]), dims[last]);
    }
  }

  lemma TimesPositive(x: int, d: int)
    requires x > 0 && d > 0
    ensures x <= x * d
  {
  }

  lemma DivisionGuard(elements: nat, dimension: nat)
    requires dimension > 0
    ensures elements > SIZE_MAX / dimension <==> elements * dimension > SIZE_MAX
  {
    if elements <= SIZE_MAX / dimension {
      MulMonotone(elements, SIZE_MAX / dimension, dimension);
    } else {
      MulMonotone(SIZE_MAX / dimension + 1, elements, dimension);
    }
  }

  /** Succeeds exactly when the true product fits a size_t, and then returns it. */
  method TensorSize(dims: seq<int>, t: DataType) returns (bytes: Option<nat>)
    ensures bytes.Some? <==>
      Positive(dims) && DataTypeSize(t) > 0 && Product(dims) * DataTypeSize(t) <= SIZE_MAX
    ensures bytes.Some? ==> bytes.value == Product(dims) * DataTypeSize(t)
  {
    var elements := 1;
    for index := 0 to |dims|
      invariant Positive(dims[..index])
      invariant 1 <= elements == Product(dims[..index]) <= SIZE_MAX
    {
      if dims[index] <= 0 {
        return None;
      }
      assert dims[..index + 1] == dims[..index] + [dims[index]];
      DivisionGuard(elements, dims[index]);
      if elements > SIZE_MAX / dims[index] {
        TooLarge(dims, index + 1, t);
        return None;
      }
      TimesPositive(elements, dims[index]);
      elements := elements * dims[index];
    }
    assert dims[..|dims|] == dims;
    var elementSize := DataTypeSize(t);
    if elementSize == 0 {
      return None;
    }
    DivisionGuard(elements, elementSize);
    if elements > SIZE_MAX / elementSize {
      return None;
    }
    return Some(elements * elementSize);
  }

  lemma TooLarge(dims: seq<int>, k: nat, t: DataType)
    requires k <= |dims| && Product(dims[..k]) > SIZE_MAX
    ensures Positive(dims) && DataTypeSize(t) > 0 ==> Product(dims) * DataTypeSize(t) > SIZE_MAX
  {
    if Positive(dims) && DataTypeSize(t) > 0 {
      PrefixProduct(dims, k);
      TimesPositive(Product(dims), DataTypeSize(t));
    }
  }

  // ---------------------------------------------------------------- profiles

  /** Minimum, optimum and maximum shape, as [1, 11, height, width] each. */
  datatype Profile = Profile(min: seq<int>, opt: seq<int>, max: seq<int>)

  function Shape(height: int, width: int): seq<int> {
    [1, 11, height, width]
  }

  function MidHeight(alignment: nat): nat
    requires alignment > 0
  {
    (1440 + alignment - 1) / alignment * alignment
  }

  /** The four profiles an engine has to expose, the last one optionally. */
  function Contract(alignment: nat): (profiles: seq<Profile>)
    requires alignment > 0
    ensures |profiles| == 4
  {
    var least, mid := Shape(alignment, alignment), Shape(MidHeight(alignment), MID_WIDTH);
    var uhd := Shape(UHD_HEIGHT, UHD_WIDTH);
    [ Profile(least, uhd, Shape(TEXTURE_LIMIT, TEXTURE_LIMIT)),
      Profile(least, mid, mid),
      Profile(least, uhd, Shape(UHD_HEIGHT, DCI_WIDTH)),
      Profile(uhd, uhd, uhd) ]
  }

  predicate Accepted(profiles: seq<Profile>, alignment: nat) {
    alignment > 0 && 3 <= |profiles| <= 4 && profiles == Contract(alignment)[..|profiles|]
  }

  predicate Admits(p: Profile, height: nat, width: nat)
    requires |p.min| == 4 && |p.max| == 4
  {
    p.min[3] <= width <= p.max[3] && p.min[2] <= height <= p.max[2]
  }

  /** Number of aligned shapes that the profile admits. */
  function Span(p: Profile, alignment: nat): int
    requires |p.min| == 4 && |p.max| == 4 && alignment > 0
  {
    ((p.max[3] - p.min[3]) / alignment + 1) * ((p.max[2] - p.min[2]) / alignment + 1)
  }

  /** The choice among the first count profiles, in closed form. */
  function Best(count: nat, alignment: nat, height: nat, width: nat): (profile: nat)
    requires alignment > 0
  {
    if count > 3 && height == UHD_HEIGHT && width == UHD_WIDTH then 3
    else if count > 1 && width <= MID_WIDTH && height <= MidHeight(alignment) then 1
    else if count > 2 && width <= DCI_WIDTH && height <= UHD_HEIGHT then 2
    else 0
  }

  lemma AlignedMinimum(n: nat, alignment: nat)
    requires n > 0 && alignment > 0 && n % alignment == 0
    ensures n >= alignment
  {
  }

  lemma Spans(alignment: nat)
    requires alignment == 64 || alignment == 128
    ensures var ps := Contract(alignment);
      1 == Span(ps[3], alignment) < Span(ps[1], alignment) < Span(ps[2], alignment) < SIZE_MAX
  {
    assert MidHeight(64) == 1472 && MidHeight(128) == 1536;
    assert Span(Contract(64)[1], 64) == 920 && Span(Contract(64)[2], 64) == 2176;
    assert Span(Contract(128)[1], 128) == 240 && Span(Contract(128)[2], 128) == 544;
  }

  /** Padded to the alignment of the engine, within the texture limit. */
  predicate ValidShape(height: nat, width: nat, alignment: nat) {
    && (alignment == 64 || alignment == 128)
    && alignment <= height <= TEXTURE_LIMIT && alignment <= width <= TEXTURE_LIMIT
  }

  /** The loop over the spans finds the closed-form choice. */
  method SelectProfile(profiles: seq<Profile>, alignment: nat, height: nat, width: nat) returns (selected: nat)
    requires Accepted(profiles, alignment) && ValidShape(height, width, alignment)
    ensures selected == Best(|profiles|, alignment, height, width) < |profiles|
  {
    Spans(alignment);
    selected := 0;
    var selectedSpan := SIZE_MAX;
    for profile := 1 to |profiles|
      invariant selected == Best(profile, alignment, height, width) < profile
      invariant selectedSpan == if selected == 0 then SIZE_MAX else Span(profiles[selected], alignment)
    {
      if Admits(profiles[profile], height, width) && Span(profiles[profile], alignment) < selectedSpan {
        selected := profile;
        selectedSpan := Span(profiles[profile], alignment);
      }
    }
  }

  /** The choice admits the shape; no other specialised profile that admits it has a
      span as small, and the universal profile is left for shapes that none admits. */
  lemma BestIsTightest(profiles: seq<Profile>, alignment: nat, height: nat, width: nat, other: nat)
    requires Accepted(profiles, alignment) && ValidShape(height, width, alignment)
    requires 1 <= other < |profiles|
    ensures var best := Best(|profiles|, alignment, height, width);
      && best < |profiles| && Admits(profiles[best], height, width)
      && (Admits(profiles[other], height, width) && other != best ==>
            best != 0 && Span(profiles[best], alignment) < Span(profiles[other], alignment))
  {
    Spans(alignment);
  }

  // ---------------------------------------------------------------- the whole configuration

  /** What the engine exposes and what TensorRT answers for the padded shape. */
  datatype Engine = Engine(stream: bool, profiles: seq<Profile>, acceptsProfile: bool, acceptsShape: bool,
                           infersShapes: bool, input: seq<int>, output: seq<int>, inputType: DataType,
                           outputType: DataType, deviceMemory: nat)

  datatype Configured = Configured(profile: nat, height: nat, width: nat, inputBytes: nat, outputBytes: nat)

  predicate Resolves(engine: Engine, height: nat, width: nat) {
    && engine.input == [1, 11, height, width] && engine.output == [1, 3, height, width]
    && DataTypeSize(engine.inputType) > 0 && DataTypeSize(engine.outputType) > 0
  }

  predicate EngineWorks(engine: Engine, alignment: nat) {
    && engine.stream && Accepted(engine.profiles, alignment)
    && engine.acceptsProfile && engine.acceptsShape && engine.infersShapes
    && 0 < engine.deviceMemory <= INT64_MAX
  }

  lemma ProductOfFour(a: nat, b: nat, c: nat, d: nat)
    ensures Product([a, b, c, d]) == a * b * c * d
  {
    assert [a, b, c, d][..3] == [a, b, c] && [a, b, c][..2] == [a, b] && [a, b][..1] == [a] && [a][..0] == [];
    assert Product([a]) == a;
    assert Product([a, b]) == a * b;
    assert Product([a, b, c]) == a * b * c;
  }

  lemma ShapesFit(height: nat, width: nat, channels: nat, elementSize: nat)
    requires height <= TEXTURE_LIMIT && width <= TEXTURE_LIMIT && channels <= 11 && elementSize <= 8
    ensures channels * height * width * elementSize <= SIZE_MAX
  {
    MulMonotone(channels, 11, height);
    MulMonotone(channels * height, 11 * TEXTURE_LIMIT, width);
    MulMonotone(channels * height * width, 11 * TEXTURE_LIMIT * TEXTURE_LIMIT, elementSize);
  }

  /** Succeeds exactly for a source within the texture limit on a working engine, with
      the least padded shape, the closed-form profile and the true tensor sizes. */
  method ConfigureShape(engine: Engine, sourceWidth: nat, sourceHeight: nat, alignment: nat)
    returns (r: Option<Configured>)
    ensures r.Some? ==>
      && Padded(sourceWidth, alignment, r.value.width) && Padded(sourceHeight, alignment, r.value.height)
      && ValidShape(r.value.height, r.value.width, alignment)
      && EngineWorks(engine, alignment) && Resolves(engine, r.value.height, r.value.width)
      && r.value.profile == Best(|engine.profiles|, alignment, r.value.height, r.value.width)
      && r.value.inputBytes == 11 * r.value.height * r.value.width * DataTypeSize(engine.inputType)
      && r.value.outputBytes == 3 * r.value.height * r.value.width * DataTypeSize(engine.outputType)
    ensures r.None? ==> forall width, height ::
      !(&& sourceWidth > 0 && sourceHeight > 0 && (alignment == 64 || alignment == 128)
        && Padded(sourceWidth, alignment, width) && Padded(sourceHeight, alignment, height)
        && EngineWorks(engine, alignment) && Resolves(engine, height, width))
  {
    var paddedWidth := PaddedDimension(sourceWidth, alignment);
    var paddedHeight := PaddedDimension(sourceHeight, alignment);
    if paddedWidth.None? || paddedHeight.None? {
      return None;
    }
    var width, height := paddedWidth.value, paddedHeight.value;
    AlignedMinimum(width, alignment);
    AlignedMinimum(height, alignment);
    if !engine.stream || !Accepted(engine.profiles, alignment) {
      return None;
    }
    var selected := SelectProfile(engine.profiles, alignment, height, width);
    if !engine.acceptsProfile || !engine.acceptsShape || !engine.infersShapes {
      return None;
    }
    if engine.input != [1, 11, height, width] || engine.output != [1, 3, height, width] {
      return None;
    }
    ProductOfFour(1, 11, height, width);
    ProductOfFour(1, 3, height, width);
    ShapesFit(height, width, 11, DataTypeSize(engine.inputType));
    ShapesFit(height, width, 3, DataTypeSize(engine.outputType));
    var inputBytes := TensorSize(engine.input, engine.inputType);
    var outputBytes := TensorSize(engine.output, engine.outputType);
    if inputBytes.None? || outputBytes.None? || !(0 < engine.deviceMemory <= INT64_MAX) {
      return None;
    }
    return Some(Configured(selected, height, width, inputBytes.value, outputBytes.value));
  }
}
