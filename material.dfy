/**
 * `CPUTMaterialDX11` and `CPUTShaderParameters`: how a material learns,
 * from the reflection of each shader stage, which textures, samplers,
 * buffers, UAVs and constant buffers the stage declares, and how it fills
 * the stage's bind slots from the names in its configuration block.
 *
 * Direct3D objects are opaque values here: a reflection is the sequence of
 * its input bind descriptors, a loaded asset is a `Resource` holding the
 * views it hands out, and the asset library is a map from the request
 * (kind, decorated name, sRGB flag) to the asset it returns.
 */
module Material {
  import opened Wrappers

  /** `D3D_SHADER_INPUT_TYPE`; the kinds the material does not use are `OtherInput`. */
  datatype InputKind =
    | SitTexture | SitSampler | SitCBuffer
    | SitTBuffer | SitStructured | SitByteAddress
    | SitUavRwTyped | SitUavRwStructured | SitUavRwByteAddress
    | SitUavAppendStructured | SitUavConsumeStructured | SitUavRwStructuredWithCounter
    | OtherInput

  /** `D3D11_SHADER_INPUT_BIND_DESC`, the fields the material reads. */
  datatype BindDesc = BindDesc(kind: InputKind, name: string, bindPoint: nat)

  /** The five parameter lists of `CPUTShaderParameters`. */
  datatype Category = TextureParam | SamplerParam | BufferParam | UavParam | ConstantBufferParam

  /** The list a descriptor of each kind is entered in, if any. */
  function CategoryOf(kind: InputKind): Option<Category>
  {
    match kind
    case SitTexture => Some(TextureParam)
    case SitSampler => Some(SamplerParam)
    case SitCBuffer => Some(ConstantBufferParam)
    case SitTBuffer | SitStructured | SitByteAddress => Some(BufferParam)
    case SitUavRwTyped | SitUavRwStructured | SitUavRwByteAddress
      | SitUavAppendStructured | SitUavConsumeStructured | SitUavRwStructuredWithCounter => Some(UavParam)
    case OtherInput => None
  }


  /** The descriptors of one category, in reflection order. */
  function Selected(descs: seq<BindDesc>, c: Category): (r: seq<BindDesc>)
    ensures |r| <= |descs|
  {
    if descs == [] then [] else
      Selected(descs[..|descs| - 1], c)
      + (if CategoryOf(descs[|descs| - 1].kind) == Some(c) then [descs[|descs| - 1]] else [])
  }

  /** One more descriptor joins its own category's selection and no other. */
  lemma SelectedStep(descs: seq<BindDesc>, i: nat, c: Category)
    requires i < |descs|
    ensures Selected(descs[..i + 1], c)
      == Selected(descs[..i], c) + (if CategoryOf(descs[i].kind) == Some(c) then [descs[i]] else [])
  {
    assert descs[..i + 1][..i] == descs[..i];
  }

  /** `SelectedStep` for the five categories at once. */
  lemma SelectedSteps(descs: seq<BindDesc>, i: nat)
    requires i < |descs|
    ensures forall c ::
      Selected(descs[..i + 1], c) == Selected(descs[..i], c) + (if CategoryOf(descs[i].kind) == Some(c) then [descs[i]] else [])
  {
    forall c
      ensures Selected(descs[..i + 1], c) == Selected(descs[..i], c) + (if CategoryOf(descs[i].kind) == Some(c) then [descs[i]] else [])
    {
      SelectedStep(descs, i, c);
    }
  }

  /** Every selected descriptor has the category and comes from the input; every input one of the category is selected. */
  lemma {:induction false} SelectedMembers(descs: seq<BindDesc>, c: Category)
    ensures forall d :: d in Selected(descs, c) <==> d in descs && CategoryOf(d.kind) == Some(c)
    decreases |descs|
  {
    if descs != [] {
      SelectedMembers(descs[..|descs| - 1], c);
      assert descs == descs[..|descs| - 1] + [descs[|descs| - 1]];
    }
  }

  /** The five selections split the classified descriptors: their sizes add up to the number of classified ones. */
  lemma {:induction false} SelectedPartition(descs: seq<BindDesc>)
    ensures |Selected(descs, TextureParam)| + |Selected(descs, SamplerParam)| + |Selected(descs, BufferParam)|
      + |Selected(descs, UavParam)| + |Selected(descs, ConstantBufferParam)| == |descs| - |Unclassified(descs)|
    decreases |descs|
  {
    if descs != [] {
      SelectedPartition(descs[..|descs| - 1]);
    }
  }

  /** The descriptors no list takes. */
  function Unclassified(descs: seq<BindDesc>): (r: seq<BindDesc>)
    ensures |r| <= |descs|
  {
    if descs == [] then [] else
      Unclassified(descs[..|descs| - 1])
      + (if CategoryOf(descs[|descs| - 1].kind).None? then [descs[|descs| - 1]] else [])
  }

  /** A name list and bind-point list start with the names and bind points of `sel`, in order. */
  predicate Lists(names: seq<string>, bindPoints: seq<nat>, sel: seq<BindDesc>)
  {
    |sel| <= |names| && |sel| <= |bindPoints|
    && forall k :: 0 <= k < |sel| ==> names[k] == sel[k].name && bindPoints[k] == sel[k].bindPoint
  }

  /** A configuration entry: its text, and what `ValueAsBool` makes of it. */
  datatype ConfigEntry = ConfigEntry(text: string, flag: bool)

  /** A `CPUTConfigBlock`: an entry is valid exactly when its name is present. */
  type ConfigBlock = map<string, ConfigEntry>

  /** The texture loaded when a texture's configured name is empty. */
  const DEFAULT_TEXTURE: string := "default.dds"

  /** `GetValueByName` on the material's own block, then on the global block when the local entry is invalid. */
  function Resolve(local: ConfigBlock, global: ConfigBlock, tag: string): Option<string>
  {
    if tag in local then Some(local[tag].text)
    else if tag in global then Some(global[tag].text)
    else None
  }

  /** A tag is found exactly when one of the two blocks has it; the local entry shadows the global one. */
  lemma ResolveLocalFirst(local: ConfigBlock, global: ConfigBlock, tag: string)
    ensures Resolve(local, global, tag).Some? <==> tag in local || tag in global
    ensures tag in local ==> forall g: ConfigBlock :: Resolve(local, g, tag) == Some(local[tag].text)
    ensures tag !in local ==> Resolve(local, global, tag) == Resolve(map[], global, tag)
  {
  }

  /**
   * Per-mesh and per-model names: a leading '@' appends the model and mesh
   * suffixes, a leading '#' the model suffix; any other name, the empty one
   * included, is left alone.
   */
  function Decorate(name: string, modelSuffix: string, meshSuffix: string): (r: string)
    ensures |r| >= |name| && r[..|name|] == name
    ensures |name| > 0 && name[0] == '@' ==> r[|name|..] == modelSuffix + meshSuffix
    ensures |name| > 0 && name[0] == '#' ==> r[|name|..] == modelSuffix
    ensures (|name| == 0 || (name[0] != '@' && name[0] != '#')) ==> r == name
  {
    if |name| > 0 && name[0] == '@' then name + modelSuffix + meshSuffix
    else if |name| > 0 && name[0] == '#' then name + modelSuffix
    else name
  }

  /** A decorated name keeps its first character, so decorating it again appends the same suffix again. */
  lemma DecorateAgain(name: string, modelSuffix: string, meshSuffix: string)
    ensures var once := Decorate(name, modelSuffix, meshSuffix);
      Decorate(once, modelSuffix, meshSuffix)
        == once + Decorate(name, modelSuffix, meshSuffix)[|name|..]
  {
    var once := Decorate(name, modelSuffix, meshSuffix);
    if |name| > 0 {
      assert once[0] == name[0];
    }
  }

  /** `tag + "sRGB"` in the material's own block decides the texture's sRGB flag; absent, it is true. */
  function SrgbFlag(local: ConfigBlock, tag: string): bool
  {
    var key := tag + "sRGB";
    if key in local then local[key].flag else true
  }

  /** An opaque view or buffer object a resource hands out. */
  datatype View = View(id: nat)

  /**
   * A loaded texture or buffer: its shader resource view, its unordered
   * access view and its native buffer, each possibly null.
   */
  datatype Resource = Resource(srv: Option<View>, uav: Option<View>, native: Option<View>)

  /** What a bind pass asks the asset library for. */
  datatype Request = Request(category: Category, name: string, srgb: bool)

  /** The asset library: the asset each request yields, when it yields one. */
  type AssetLibrary = map<Request, Resource>

  /**
   * The request for the parameter tagged `tag`: its resolved name (an
   * empty texture name replaced by the default texture), decorated; the
   * sRGB flag matters for textures only.
   */
  function RequestFor(c: Category, local: ConfigBlock, global: ConfigBlock, tag: string, modelSuffix: string, meshSuffix: string): (q: Request)
    requires Resolve(local, global, tag).Some?
    ensures q.category == c
    ensures c == TextureParam ==> q.srgb == SrgbFlag(local, tag)
    ensures q.name == Decorate(if c == TextureParam && Resolve(local, global, tag).value == "" then DEFAULT_TEXTURE
                               else Resolve(local, global, tag).value, modelSuffix, meshSuffix)
  {
    var v := Resolve(local, global, tag).value;
    var n := if c == TextureParam && v == "" then DEFAULT_TEXTURE else v;
    Request(c, Decorate(n, modelSuffix, meshSuffix), c == TextureParam && SrgbFlag(local, tag))
  }

  /**
   * An empty configured texture asks for the default texture, undecorated;
   * an empty buffer, UAV or constant-buffer value asks for the empty name;
   * any other value is the prefix of the name asked for.
   */
  lemma RequestedName(c: Category, local: ConfigBlock, global: ConfigBlock, tag: string, modelSuffix: string, meshSuffix: string)
    requires Resolve(local, global, tag).Some?
    ensures var v := Resolve(local, global, tag).value;
      var q := RequestFor(c, local, global, tag, modelSuffix, meshSuffix);
      && (v == "" && c == TextureParam ==> q.name == DEFAULT_TEXTURE)
      && (v == "" && c != TextureParam ==> q.name == "")
      && (v != "" ==> |q.name| >= |v| && q.name[..|v|] == v)
  {
    assert DEFAULT_TEXTURE[0] == 'd';
  }

  /** The requests for the first `|tags|` parameters of a list. */
  function Requests(c: Category, local: ConfigBlock, global: ConfigBlock, tags: seq<string>, modelSuffix: string, meshSuffix: string): (qs: seq<Request>)
    requires forall k :: 0 <= k < |tags| ==> Resolve(local, global, tags[k]).Some?
    ensures |qs| == |tags|
    ensures forall k :: 0 <= k < |tags| ==> qs[k] == RequestFor(c, local, global, tags[k], modelSuffix, meshSuffix)
  {
    seq(|tags|, k requires 0 <= k < |tags| => RequestFor(c, local, global, tags[k], modelSuffix, meshSuffix))
  }

  /** A resource slot after its parameter is bound: kept when already loaded, else fetched from the library. */
  function Acquire(existing: Option<Resource>, q: Request, library: AssetLibrary): Resource
    requires existing.Some? || q in library
  {
    if existing.Some? then existing.value else library[q]
  }

  /** The resource array after the first `|qs|` parameters are bound. */
  function AcquiredAll(resources: seq<Option<Resource>>, qs: seq<Request>, library: AssetLibrary): (r: seq<Option<Resource>>)
    requires |qs| <= |resources|
    requires forall k :: 0 <= k < |qs| ==> resources[k].Some? || qs[k] in library
    ensures |r| == |resources|
    ensures forall k :: 0 <= k < |qs| ==> r[k] == Some(Acquire(resources[k], qs[k], library))
    ensures forall k :: |qs| <= k < |resources| ==> r[k] == resources[k]
  {
    seq(|resources|, k requires 0 <= k < |resources| =>
      if k < |qs| then Some(Acquire(resources[k], qs[k], library)) else resources[k])
  }

  /** The view of a resource that a bind pass of category `c` puts in a slot. */
  function ViewOf(c: Category, r: Resource): Option<View>
  {
    match c
    case UavParam => r.uav
    case ConstantBufferParam => r.native
    case _ => r.srv
  }

  /** The views of the first `n` resources. */
  function Views(c: Category, resources: seq<Option<Resource>>): (vs: seq<Option<View>>)
    ensures |vs| == |resources|
    ensures forall k :: 0 <= k < |resources| && resources[k].Some? ==> vs[k] == ViewOf(c, resources[k].value)
  {
    seq(|resources|, k requires 0 <= k < |resources| => if resources[k].Some? then ViewOf(c, resources[k].value) else None)
  }

  /** Slot writes `slots[bindPoints[k]] := views[k]`, in order. */
  function Filled(slots: seq<Option<View>>, bindPoints: seq<nat>, views: seq<Option<View>>): (r: seq<Option<View>>)
    requires |bindPoints| == |views|
    requires forall k :: 0 <= k < |bindPoints| ==> bindPoints[k] < |slots|
    ensures |r| == |slots|
    decreases |bindPoints|
  {
    if bindPoints == [] then slots
    else
      var n := |bindPoints| - 1;
      Filled(slots, bindPoints[..n], views[..n])[bindPoints[n] := views[n]]
  }

  /** The last position of `j` in a list that holds it. */
  function LastIndex(xs: seq<nat>, j: nat): (k: nat)
    requires j in xs
    ensures k < |xs| && xs[k] == j
    ensures forall m :: k < m < |xs| ==> xs[m] != j
  {
    if xs[|xs| - 1] == j then |xs| - 1
    else
      assert j in xs[..|xs| - 1] by {
        var m :| 0 <= m < |xs| && xs[m] == j;
        assert xs[..|xs| - 1][m] == j;
      }
      LastIndex(xs[..|xs| - 1], j)
  }

  /**
   * After the writes, a slot named by some bind point holds the view of the
   * last parameter bound there; every other slot keeps its old content.
   */
  lemma {:induction false} FilledSlot(slots: seq<Option<View>>, bindPoints: seq<nat>, views: seq<Option<View>>, j: nat)
    requires |bindPoints| == |views|
    requires forall k :: 0 <= k < |bindPoints| ==> bindPoints[k] < |slots|
    requires j < |slots|
    ensures j in bindPoints ==> Filled(slots, bindPoints, views)[j] == views[LastIndex(bindPoints, j)]
    ensures j !in bindPoints ==> Filled(slots, bindPoints, views)[j] == slots[j]
    decreases |bindPoints|
  {
    if bindPoints != [] {
      var n := |bindPoints| - 1;
      FilledSlot(slots, bindPoints[..n], views[..n], j);
      if bindPoints[n] != j {
        assert j in bindPoints <==> j in bindPoints[..n] by {
          assert bindPoints == bindPoints[..n] + [bindPoints[n]];
        }
        if j in bindPoints {
          assert LastIndex(bindPoints, j) == LastIndex(bindPoints[..n], j);
        }
      }
    }
  }

  /** One more write extends the fold. */
  lemma FilledStep(slots: seq<Option<View>>, bindPoints: seq<nat>, views: seq<Option<View>>, i: nat)
    requires |bindPoints| == |views| && i < |bindPoints|
    requires forall k :: 0 <= k < |bindPoints| ==> bindPoints[k] < |slots|
    ensures Filled(slots, bindPoints[..i + 1], views[..i + 1])
      == Filled(slots, bindPoints[..i], views[..i])[bindPoints[i] := views[i]]
  {
    assert bindPoints[..i + 1][..i] == bindPoints[..i];
    assert views[..i + 1][..i] == views[..i];
  }

  /** One more bind: the slots after `i + 1` binds are those after `i` with the view of resource `i` written at its bind point. */
  lemma FilledViewsStep(c: Category, slots: seq<Option<View>>, bindPoints: seq<nat>, resources: seq<Option<Resource>>, i: nat)
    requires i < |bindPoints| && i < |resources| && resources[i].Some?
    requires forall k :: 0 <= k < |bindPoints| ==> bindPoints[k] < |slots|
    ensures Filled(slots, bindPoints[..i + 1], Views(c, resources[..i + 1]))
      == Filled(slots, bindPoints[..i], Views(c, resources[..i]))[bindPoints[i] := ViewOf(c, resources[i].value)]
  {
    var vs := Views(c, resources[..i + 1]);
    assert bindPoints[..i + 1][..i] == bindPoints[..i];
    assert vs[..i] == Views(c, resources[..i]);
  }

  /** One more acquisition: binding parameter `i` loads its resource slot and leaves the others alone. */
  lemma AcquiredStep(resources: seq<Option<Resource>>, qs: seq<Request>, library: AssetLibrary, i: nat)
    requires i < |qs| <= |resources|
    requires forall k :: 0 <= k < |qs| ==> resources[k].Some? || qs[k] in library
    ensures AcquiredAll(resources, qs[..i], library)[i := Some(Acquire(resources[i], qs[i], library))]
      == AcquiredAll(resources, qs[..i + 1], library)
  {
  }

  /** `CPUTShaderParameters`: the parameter lists of one shader stage and its bind slots. */
  class ShaderParameters {
    var textureParameterName: array<string>
    var textureParameterBindPoint: array<nat>
    var textureParameterCount: nat
    var samplerParameterName: array<string>
    var samplerParameterBindPoint: array<nat>
    var samplerParameterCount: nat
    var bufferParameterName: array<string>
    var bufferParameterBindPoint: array<nat>
    var bufferParameterCount: nat
    var uavParameterName: array<string>
    var uavParameterBindPoint: array<nat>
    var uavParameterCount: nat
    var constantBufferParameterName: array<string>
    var constantBufferParameterBindPoint: array<nat>
    var constantBufferParameterCount: nat

    /** How many parameters of each bound list the last bind pass went through. */
    var textureCount: nat
    var bufferCount: nat
    var uavCount: nat
    var constantBufferCount: nat

    /** `mppBindViews`, `mppBindUAVs` and `mppBindConstantBuffers`. */
    const bindViews: array<Option<View>>
    const bindUavs: array<Option<View>>
    const bindConstantBuffers: array<Option<View>>

    function NamesOf(c: Category): array<string>
      reads this
    {
      match c
      case TextureParam => textureParameterName
      case SamplerParam => samplerParameterName
      case BufferParam => bufferParameterName
      case UavParam => uavParameterName
      case ConstantBufferParam => constantBufferParameterName
    }

    function BindPointsOf(c: Category): array<nat>
      reads this
    {
      match c
      case TextureParam => textureParameterBindPoint
      case SamplerParam => samplerParameterBindPoint
      case BufferParam => bufferParameterBindPoint
      case UavParam => uavParameterBindPoint
      case ConstantBufferParam => constantBufferParameterBindPoint
    }

    function ParameterCountOf(c: Category): nat
      reads this
    {
      match c
      case TextureParam => textureParameterCount
      case SamplerParam => samplerParameterCount
      case BufferParam => bufferParameterCount
      case UavParam => uavParameterCount
      case ConstantBufferParam => constantBufferParameterCount
    }

    /** The slot array a bind pass of category `c` writes. */
    function SlotsOf(c: Category): array<Option<View>>
    {
      match c
      case UavParam => bindUavs
      case ConstantBufferParam => bindConstantBuffers
      case _ => bindViews
    }

    /** The bound-count fields, as one value. */
    function BoundCounts(): (nat, nat, nat, nat)
      reads this
    {
      (textureCount, bufferCount, uavCount, constantBufferCount)
    }

    /** The five parameter counts, in category order. */
    function ParameterCounts(): seq<nat>
      reads this
    {
      [textureParameterCount, samplerParameterCount, bufferParameterCount, uavParameterCount, constantBufferParameterCount]
    }

    /** The parameter lists: array identities and counts. */
    function ListFields(): (seq<array<string>>, seq<array<nat>>, seq<nat>)
      reads this
    {
      ([textureParameterName, samplerParameterName, bufferParameterName, uavParameterName, constantBufferParameterName],
       [textureParameterBindPoint, samplerParameterBindPoint, bufferParameterBindPoint, uavParameterBindPoint, constantBufferParameterBindPoint],
       ParameterCounts())
    }

    /** The contents of the five name and bind-point lists, in category order. */
    ghost function ListContents(): seq<(seq<string>, seq<nat>)>
      reads this, textureParameterName, textureParameterBindPoint, samplerParameterName, samplerParameterBindPoint
      reads bufferParameterName, bufferParameterBindPoint, uavParameterName, uavParameterBindPoint
      reads constantBufferParameterName, constantBufferParameterBindPoint
    {
      [(textureParameterName[..], textureParameterBindPoint[..]),
       (samplerParameterName[..], samplerParameterBindPoint[..]),
       (bufferParameterName[..], bufferParameterBindPoint[..]),
       (uavParameterName[..], uavParameterBindPoint[..]),
       (constantBufferParameterName[..], constantBufferParameterBindPoint[..])]
    }

    /** Each list is as long as its count. */
    ghost predicate Sized()
      reads this
    {
      textureParameterName.Length == textureParameterBindPoint.Length == textureParameterCount
      && samplerParameterName.Length == samplerParameterBindPoint.Length == samplerParameterCount
      && bufferParameterName.Length == bufferParameterBindPoint.Length == bufferParameterCount
      && uavParameterName.Length == uavParameterBindPoint.Length == uavParameterCount
      && constantBufferParameterName.Length == constantBufferParameterBindPoint.Length == constantBufferParameterCount
    }

    /** Each list is as long as its count; the three slot arrays are distinct. */
    ghost predicate Valid()
      reads this
    {
      Sized() && bindViews != bindUavs && bindViews != bindConstantBuffers && bindUavs != bindConstantBuffers
    }

    /**
     * The lists read from `descs`: for each category, entry `k` of its name
     * and bind-point lists is the name and bind point of the category's
     * `k`-th descriptor.
     */
    ghost predicate Parsed(descs: seq<BindDesc>)
      reads this, textureParameterName, textureParameterBindPoint, samplerParameterName, samplerParameterBindPoint
      reads bufferParameterName, bufferParameterBindPoint, uavParameterName, uavParameterBindPoint
      reads constantBufferParameterName, constantBufferParameterBindPoint
    {
      Lists(textureParameterName[..], textureParameterBindPoint[..], Selected(descs, TextureParam))
      && Lists(samplerParameterName[..], samplerParameterBindPoint[..], Selected(descs, SamplerParam))
      && Lists(bufferParameterName[..], bufferParameterBindPoint[..], Selected(descs, BufferParam))
      && Lists(uavParameterName[..], uavParameterBindPoint[..], Selected(descs, UavParam))
      && Lists(constantBufferParameterName[..], constantBufferParameterBindPoint[..], Selected(descs, ConstantBufferParam))
    }

    /** `Parsed`, category by category. */
    lemma ParsedLists(descs: seq<BindDesc>, c: Category)
      requires Parsed(descs)
      ensures Lists(NamesOf(c)[..], BindPointsOf(c)[..], Selected(descs, c))
    {
      match c
      case TextureParam =>
      case SamplerParam =>
      case BufferParam =>
      case UavParam =>
      case ConstantBufferParam =>
    }

    /** A stage with empty lists and `views`, `uavs` and `constantBuffers` null slots of each kind. */
    constructor (views: nat, uavs: nat, constantBuffers: nat)
      ensures Valid() && fresh(bindViews) && fresh(bindUavs) && fresh(bindConstantBuffers)
      ensures ParameterCounts() == [0, 0, 0, 0, 0] && BoundCounts() == (0, 0, 0, 0)
      ensures bindViews[..] == seq(views, _ => None) && bindUavs[..] == seq(uavs, _ => None)
      ensures bindConstantBuffers[..] == seq(constantBuffers, _ => None)
    {
      var noNames := new string[0];
      var noBindPoints := new nat[0];
      textureParameterName, textureParameterBindPoint, textureParameterCount := noNames, noBindPoints, 0;
      samplerParameterName, samplerParameterBindPoint, samplerParameterCount := noNames, noBindPoints, 0;
      bufferParameterName, bufferParameterBindPoint, bufferParameterCount := noNames, noBindPoints, 0;
      uavParameterName, uavParameterBindPoint, uavParameterCount := noNames, noBindPoints, 0;
      constantBufferParameterName, constantBufferParameterBindPoint, constantBufferParameterCount := noNames, noBindPoints, 0;
      textureCount, bufferCount, uavCount, constantBufferCount := 0, 0, 0, 0;
      bindViews := new Option<View>[views](_ => None);
      bindUavs := new Option<View>[uavs](_ => None);
      bindConstantBuffers := new Option<View>[constantBuffers](_ => None);
    }

    /** One more parameter of category `c`: the first pass's `m...ParameterCount++`. */
    method AddParameter(c: Category)
      modifies this`textureParameterCount, this`samplerParameterCount, this`bufferParameterCount
      modifies this`uavParameterCount, this`constantBufferParameterCount
      ensures ParameterCounts() == Bumped(old(ParameterCounts()), c)
    {
      match c
      case TextureParam => textureParameterCount := textureParameterCount + 1;
      case SamplerParam => samplerParameterCount := samplerParameterCount + 1;
      case BufferParam => bufferParameterCount := bufferParameterCount + 1;
      case UavParam => uavParameterCount := uavParameterCount + 1;
      case ConstantBufferParam => constantBufferParameterCount := constantBufferParameterCount + 1;
    }

    /** Installs five new name lists and bind-point lists, in category order. */
    method Adopt(textureNames: array<string>, textureBindPoints: array<nat>,
                 samplerNames: array<string>, samplerBindPoints: array<nat>,
                 bufferNames: array<string>, bufferBindPoints: array<nat>,
                 uavNames: array<string>, uavBindPoints: array<nat>,
                 constantBufferNames: array<string>, constantBufferBindPoints: array<nat>)
      modifies this`textureParameterName, this`textureParameterBindPoint, this`samplerParameterName, this`samplerParameterBindPoint
      modifies this`bufferParameterName, this`bufferParameterBindPoint, this`uavParameterName, this`uavParameterBindPoint
      modifies this`constantBufferParameterName, this`constantBufferParameterBindPoint
      ensures textureParameterName == textureNames && textureParameterBindPoint == textureBindPoints
      ensures samplerParameterName == samplerNames && samplerParameterBindPoint == samplerBindPoints
      ensures bufferParameterName == bufferNames && bufferParameterBindPoint == bufferBindPoints
      ensures uavParameterName == uavNames && uavParameterBindPoint == uavBindPoints
      ensures constantBufferParameterName == constantBufferNames && constantBufferParameterBindPoint == constantBufferBindPoints
    {
      textureParameterName, textureParameterBindPoint := textureNames, textureBindPoints;
      samplerParameterName, samplerParameterBindPoint := samplerNames, samplerBindPoints;
      bufferParameterName, bufferParameterBindPoint := bufferNames, bufferBindPoints;
      uavParameterName, uavParameterBindPoint := uavNames, uavBindPoints;
      constantBufferParameterName, constantBufferParameterBindPoint := constantBufferNames, constantBufferBindPoints;
    }

    /** Sets the bound-count field a bind pass of category `c` drives. */
    method SetBoundCount(c: Category, n: nat)
      modifies this
      ensures BoundCounts() == WithBound(old(BoundCounts()), c, n)
      ensures ListFields() == old(ListFields())
    {
      match c
      case TextureParam => textureCount := n;
      case BufferParam => bufferCount := n;
      case UavParam => uavCount := n;
      case ConstantBufferParam => constantBufferCount := n;
      case SamplerParam =>
    }

    /** Fresh copies of the five name lists and bind-point lists, each copied element by element. */
    method CopyLists()
      returns (textureNames: array<string>, textureBindPoints: array<nat>,
               samplerNames: array<string>, samplerBindPoints: array<nat>,
               bufferNames: array<string>, bufferBindPoints: array<nat>,
               uavNames: array<string>, uavBindPoints: array<nat>,
               constantBufferNames: array<string>, constantBufferBindPoints: array<nat>)
      requires Valid()
      ensures fresh(textureNames) && fresh(textureBindPoints) && fresh(samplerNames) && fresh(samplerBindPoints)
      ensures fresh(bufferNames) && fresh(bufferBindPoints) && fresh(uavNames) && fresh(uavBindPoints)
      ensures fresh(constantBufferNames) && fresh(constantBufferBindPoints)
      ensures ListContents() == [(textureNames[..], textureBindPoints[..]), (samplerNames[..], samplerBindPoints[..]),
                                 (bufferNames[..], bufferBindPoints[..]), (uavNames[..], uavBindPoints[..]),
                                 (constantBufferNames[..], constantBufferBindPoints[..])]
    {
      textureNames, textureBindPoints := CopyList(textureParameterName, textureParameterBindPoint);
      samplerNames, samplerBindPoints := CopyList(samplerParameterName, samplerParameterBindPoint);
      bufferNames, bufferBindPoints := CopyList(bufferParameterName, bufferParameterBindPoint);
      uavNames, uavBindPoints := CopyList(uavParameterName, uavParameterBindPoint);
      constantBufferNames, constantBufferBindPoints := CopyList(constantBufferParameterName, constantBufferParameterBindPoint);
    }

    /**
     * `CloneShaderParameters`: `dst` gets fresh name and bind-point arrays
     * as long as this stage's counts, holding copies of this stage's lists,
     * and this stage's `mTextureCount`. The parameter counts and the other
     * bound counts of `dst` are not copied.
     */
    method CloneShaderParameters(dst: ShaderParameters)
      requires Valid() && dst != this
      modifies dst`textureParameterName, dst`textureParameterBindPoint, dst`samplerParameterName
      modifies dst`samplerParameterBindPoint, dst`bufferParameterName, dst`bufferParameterBindPoint
      modifies dst`uavParameterName, dst`uavParameterBindPoint
      modifies dst`constantBufferParameterName, dst`constantBufferParameterBindPoint, dst`textureCount
      ensures fresh(dst.textureParameterName) && fresh(dst.textureParameterBindPoint)
      ensures fresh(dst.samplerParameterName) && fresh(dst.samplerParameterBindPoint)
      ensures fresh(dst.bufferParameterName) && fresh(dst.bufferParameterBindPoint)
      ensures fresh(dst.uavParameterName) && fresh(dst.uavParameterBindPoint)
      ensures fresh(dst.constantBufferParameterName) && fresh(dst.constantBufferParameterBindPoint)
      ensures dst.ListContents() == ListContents()
      ensures dst.textureCount == textureCount
    {
      var textureNames, textureBindPoints, samplerNames, samplerBindPoints, bufferNames, bufferBindPoints,
          uavNames, uavBindPoints, constantBufferNames, constantBufferBindPoints := CopyLists();
      dst.Adopt(textureNames, textureBindPoints, samplerNames, samplerBindPoints, bufferNames, bufferBindPoints,
                uavNames, uavBindPoints, constantBufferNames, constantBufferBindPoints);
      dst.textureCount := textureCount;
    }
  }

  /** A selection of a prefix is no longer than the selection of the whole input. */
  lemma {:induction false} SelectedPrefixLength(descs: seq<BindDesc>, i: nat, c: Category)
    requires i <= |descs|
    ensures |Selected(descs[..i], c)| <= |Selected(descs, c)|
    decreases |descs| - i
  {
    if i < |descs| {
      SelectedStep(descs, i, c);
      SelectedPrefixLength(descs, i + 1, c);
    } else {
      assert descs[..i] == descs;
    }
  }

  /** The position of category `c` in the parameter counts (`ShaderParameters.ParameterCounts`). */
  function CategoryIndex(c: Category): (k: nat)
    ensures k < 5
  {
    match c
    case TextureParam => 0
    case SamplerParam => 1
    case BufferParam => 2
    case UavParam => 3
    case ConstantBufferParam => 4
  }

  /** Parameter counts after one more parameter of category `c`. */
  function Bumped(counts: seq<nat>, c: Category): (r: seq<nat>)
    requires |counts| == 5
    ensures |r| == 5 && r[CategoryIndex(c)] == counts[CategoryIndex(c)] + 1
    ensures forall k :: 0 <= k < 5 && k != CategoryIndex(c) ==> r[k] == counts[k]
  {
    counts[CategoryIndex(c) := counts[CategoryIndex(c)] + 1]
  }

  /** Parameter counts `counts0` after the counting pass over `descs`. */
  function Tally(counts0: seq<nat>, descs: seq<BindDesc>): (r: seq<nat>)
    requires |counts0| == 5
    ensures |r| == 5
    ensures forall c :: r[CategoryIndex(c)] == counts0[CategoryIndex(c)] + |Selected(descs, c)|
  {
    [counts0[0] + |Selected(descs, TextureParam)|, counts0[1] + |Selected(descs, SamplerParam)|,
     counts0[2] + |Selected(descs, BufferParam)|, counts0[3] + |Selected(descs, UavParam)|,
     counts0[4] + |Selected(descs, ConstantBufferParam)|]
  }

  /** One more descriptor bumps the count of its category, if it has one. */
  lemma TallyStep(counts0: seq<nat>, descs: seq<BindDesc>, i: nat)
    requires |counts0| == 5 && i < |descs|
    ensures CategoryOf(descs[i].kind).None? ==> Tally(counts0, descs[..i + 1]) == Tally(counts0, descs[..i])
    ensures CategoryOf(descs[i].kind).Some? ==>
              Tally(counts0, descs[..i + 1]) == Bumped(Tally(counts0, descs[..i]), CategoryOf(descs[i].kind).value)
  {
    SelectedSteps(descs, i);
  }

  /** The bound-count fields `(mTextureCount, mBufferCount, mUAVCount, mConstantBufferCount)` with the one of `c` set to `n`. */
  function WithBound(counts: (nat, nat, nat, nat), c: Category, n: nat): (r: (nat, nat, nat, nat))
    ensures c == TextureParam ==> r == (n, counts.1, counts.2, counts.3)
    ensures c == BufferParam ==> r == (counts.0, n, counts.2, counts.3)
    ensures c == UavParam ==> r == (counts.0, counts.1, n, counts.3)
    ensures c == ConstantBufferParam ==> r == (counts.0, counts.1, counts.2, n)
    ensures c == SamplerParam ==> r == counts
  {
    match c
    case TextureParam => (n, counts.1, counts.2, counts.3)
    case BufferParam => (counts.0, n, counts.2, counts.3)
    case UavParam => (counts.0, counts.1, n, counts.3)
    case ConstantBufferParam => (counts.0, counts.1, counts.2, n)
    case SamplerParam => counts
  }

  /**
   * What a bind pass needs of its parameter list: every tag is found in one
   * of the two blocks, every bind point is inside the slot array, the resource array has a slot per parameter, every
   * empty resource slot names an asset the library has, and (textures only,
   * whose view is used unconditionally) every bound texture has a view.
   */
  predicate Bindable(c: Category, local: ConfigBlock, global: ConfigBlock, library: AssetLibrary,
                     modelSuffix: string, meshSuffix: string,
                     names: seq<string>, bindPoints: seq<nat>, slotCount: nat, store: seq<Option<Resource>>)
  {
    |names| == |bindPoints| && |names| <= |store|
    && (forall k :: 0 <= k < |names| ==> bindPoints[k] < slotCount)
    && (forall k :: 0 <= k < |names| ==>
          Resolve(local, global, names[k]).Some?
          && (store[k].Some? || RequestFor(c, local, global, names[k], modelSuffix, meshSuffix) in library))
    && (c == TextureParam ==> forall k :: 0 <= k < |names| ==>
          ViewOf(c, Acquire(store[k], RequestFor(c, local, global, names[k], modelSuffix, meshSuffix), library)).Some?)
  }

  /**
   * The outcome of a bind pass over `names`/`bindPoints`: each resource slot
   * of a parameter is kept when loaded and fetched otherwise, and the slot
   * array receives, in parameter order, each parameter's view at its bind point.
   */
  predicate Bound(c: Category, local: ConfigBlock, global: ConfigBlock, library: AssetLibrary,
                  modelSuffix: string, meshSuffix: string,
                  names: seq<string>, bindPoints: seq<nat>,
                  store0: seq<Option<Resource>>, slots0: seq<Option<View>>,
                  store: seq<Option<Resource>>, slots: seq<Option<View>>)
    requires Bindable(c, local, global, library, modelSuffix, meshSuffix, names, bindPoints, |slots0|, store0)
  {
    |store| == |store0|
    && store == AcquiredAll(store0, Requests(c, local, global, names, modelSuffix, meshSuffix), library)
    && slots == Filled(slots0, bindPoints, Views(c, store[..|names|]))
  }

  /**
   * The bind of parameter `i`: its tag resolved, an empty texture name
   * replaced by the default texture, the name decorated, the resource
   * fetched unless its slot is loaded, and its view written at its bind point.
   */
  method BindEntry(c: Category, local: ConfigBlock, global: ConfigBlock, library: AssetLibrary,
                   modelSuffix: string, meshSuffix: string,
                   names: array<string>, bindPoints: array<nat>,
                   store: array<Option<Resource>>, slots: array<Option<View>>, i: nat)
    requires i < names.Length == bindPoints.Length <= store.Length
    requires bindPoints[i] < slots.Length
    requires Resolve(local, global, names[i]).Some?
    requires store[i].Some? || RequestFor(c, local, global, names[i], modelSuffix, meshSuffix) in library
    modifies store, slots
    ensures store[..] == old(store[..])[i := Some(Acquire(old(store[i]), RequestFor(c, local, global, names[i], modelSuffix, meshSuffix), library))]
    ensures slots[..] == old(slots[..])[bindPoints[i] := ViewOf(c, store[i].value)]
  {
    var tag := names[i];
    var name := Resolve(local, global, tag).value;
    if c == TextureParam && name == "" {
      name := DEFAULT_TEXTURE;
    }
    var bindPoint := bindPoints[i];
    name := Decorate(name, modelSuffix, meshSuffix);
    var srgb := c == TextureParam && SrgbFlag(local, tag);
    if store[i].None? {
      store[i] := Some(library[Request(c, name, srgb)]);
    }
    slots[bindPoint] := ViewOf(c, store[i].value);
  }

  /** A bind pass over one parameter list, in list order (see `Bound`). */
  method BindList(c: Category, local: ConfigBlock, global: ConfigBlock, library: AssetLibrary,
                  modelSuffix: string, meshSuffix: string,
                  names: array<string>, bindPoints: array<nat>,
                  store: array<Option<Resource>>, slots: array<Option<View>>)
    requires Bindable(c, local, global, library, modelSuffix, meshSuffix, names[..], bindPoints[..], slots.Length, store[..])
    modifies store, slots
    ensures Bound(c, local, global, library, modelSuffix, meshSuffix, names[..], bindPoints[..],
                  old(store[..]), old(slots[..]), store[..], slots[..])
  {
    ghost var requests := Requests(c, local, global, names[..], modelSuffix, meshSuffix);
    ghost var store0 := store[..];
    ghost var slots0 := slots[..];
    var i := 0;
    while i < names.Length
      invariant 0 <= i <= names.Length
      invariant store[..] == AcquiredAll(store0, requests[..i], library)
      invariant slots[..] == Filled(slots0, bindPoints[..i], Views(c, store[..i]))
    {
      ghost var before := store[..];
      BindEntry(c, local, global, library, modelSuffix, meshSuffix, names, bindPoints, store, slots, i);
      AcquiredStep(store0, requests, library, i);
      assert store[..i] == before[..i];
      FilledViewsStep(c, slots0, bindPoints[..], store[..], i);
      assert bindPoints[..][..i + 1] == bindPoints[..i + 1] && store[..][..i + 1] == store[..i + 1];
      i := i + 1;
    }
    assert names[..] == names[..i] && bindPoints[..] == bindPoints[..i] && requests == requests[..i];
  }

  /**
   * After a bind pass: each parameter's resource slot is loaded, an already
   * loaded one is the same resource as before, and the slots past the list
   * are untouched.
   */
  lemma BoundResources(c: Category, local: ConfigBlock, global: ConfigBlock, library: AssetLibrary,
                       modelSuffix: string, meshSuffix: string,
                       names: seq<string>, bindPoints: seq<nat>,
                       store0: seq<Option<Resource>>, slots0: seq<Option<View>>,
                       store: seq<Option<Resource>>, slots: seq<Option<View>>)
    requires Bindable(c, local, global, library, modelSuffix, meshSuffix, names, bindPoints, |slots0|, store0)
    requires Bound(c, local, global, library, modelSuffix, meshSuffix, names, bindPoints, store0, slots0, store, slots)
    ensures forall k :: 0 <= k < |names| ==> store[k].Some?
    ensures forall k :: 0 <= k < |names| && store0[k].Some? ==> store[k] == store0[k]
    ensures forall k :: 0 <= k < |names| && store0[k].None? ==>
      store[k] == Some(library[RequestFor(c, local, global, names[k], modelSuffix, meshSuffix)])
    ensures store[|names|..] == store0[|names|..]
  {
  }

  /**
   * After a bind pass, a slot named by some bind point holds the view of the
   * resource of the last parameter bound there; any other slot is unchanged.
   */
  lemma BoundSlot(c: Category, local: ConfigBlock, global: ConfigBlock, library: AssetLibrary,
                  modelSuffix: string, meshSuffix: string,
                  names: seq<string>, bindPoints: seq<nat>,
                  store0: seq<Option<Resource>>, slots0: seq<Option<View>>,
                  store: seq<Option<Resource>>, slots: seq<Option<View>>, j: nat)
    requires Bindable(c, local, global, library, modelSuffix, meshSuffix, names, bindPoints, |slots0|, store0)
    requires Bound(c, local, global, library, modelSuffix, meshSuffix, names, bindPoints, store0, slots0, store, slots)
    requires j < |slots0|
    ensures j in bindPoints ==>
      (store[LastIndex(bindPoints, j)].Some? && slots[j] == ViewOf(c, store[LastIndex(bindPoints, j)].value))
    ensures j !in bindPoints ==> slots[j] == slots0[j]
  {
    FilledSlot(slots0, bindPoints, Views(c, store[..|names|]), j);
  }

  /** Slots below `limit` nulled, the rest kept: the `SAFE_RELEASE` loops. */
  function Cleared(slots: seq<Option<View>>, limit: nat): (r: seq<Option<View>>)
    requires limit <= |slots|
    ensures |r| == |slots|
    ensures forall k :: 0 <= k < limit ==> r[k].None?
    ensures forall k :: limit <= k < |slots| ==> r[k] == slots[k]
  {
    seq(|slots|, k requires 0 <= k < |slots| => if k < limit then None else slots[k])
  }

  /** The shader resource views of some buffers. */
  function Srvs(buffers: seq<Resource>): (vs: seq<Option<View>>)
    ensures |vs| == |buffers|
    ensures forall k :: 0 <= k < |buffers| ==> vs[k] == buffers[k].srv
  {
    seq(|buffers|, k requires 0 <= k < |buffers| => buffers[k].srv)
  }

  /** The resources held by slots that are all loaded. */
  function Loaded(slots: seq<Option<Resource>>): (rs: seq<Resource>)
    requires forall k :: 0 <= k < |slots| ==> slots[k].Some?
    ensures |rs| == |slots|
    ensures forall k :: 0 <= k < |slots| ==> Some(rs[k]) == slots[k]
  {
    seq(|slots|, k requires 0 <= k < |slots| => slots[k].value)
  }

  /**
   * The view slots of a stage after `ReleaseTexturesAndBuffers`: the first
   * `limit` are nulled, then each constant buffer's shader resource view is
   * written at the constant buffer's bind point.
   */
  function ReleasedViews(views: seq<Option<View>>, limit: nat, bindPoints: seq<nat>, buffers: seq<Resource>): (r: seq<Option<View>>)
    requires limit <= |views| && |bindPoints| == |buffers|
    requires forall k :: 0 <= k < |bindPoints| ==> bindPoints[k] < |views|
    ensures |r| == |views|
  {
    Filled(Cleared(views, limit), bindPoints, Srvs(buffers))
  }

  /**
   * Releasing nulls a view slot below the limit unless a constant buffer is
   * bound there, in which case it holds that buffer's shader resource view.
   */
  lemma ReleasedSlot(views: seq<Option<View>>, limit: nat, bindPoints: seq<nat>, buffers: seq<Resource>, j: nat)
    requires limit <= |views| && |bindPoints| == |buffers|
    requires forall k :: 0 <= k < |bindPoints| ==> bindPoints[k] < |views|
    requires j < |views|
    ensures j < limit && j !in bindPoints ==> ReleasedViews(views, limit, bindPoints, buffers)[j].None?
    ensures j >= limit && j !in bindPoints ==> ReleasedViews(views, limit, bindPoints, buffers)[j] == views[j]
    ensures j in bindPoints ==> ReleasedViews(views, limit, bindPoints, buffers)[j] == buffers[LastIndex(bindPoints, j)].srv
  {
    FilledSlot(Cleared(views, limit), bindPoints, Srvs(buffers), j);
  }

  /** Five name lists and five bind-point lists, no two of them the same array. */
  predicate Apart(textureNames: array<string>, samplerNames: array<string>, bufferNames: array<string>,
                  uavNames: array<string>, constantBufferNames: array<string>,
                  textureBindPoints: array<nat>, samplerBindPoints: array<nat>, bufferBindPoints: array<nat>,
                  uavBindPoints: array<nat>, constantBufferBindPoints: array<nat>)
  {
    textureNames != samplerNames && textureNames != bufferNames && textureNames != uavNames && textureNames != constantBufferNames
    && samplerNames != bufferNames && samplerNames != uavNames && samplerNames != constantBufferNames
    && bufferNames != uavNames && bufferNames != constantBufferNames && uavNames != constantBufferNames
    && textureBindPoints != samplerBindPoints && textureBindPoints != bufferBindPoints
    && textureBindPoints != uavBindPoints && textureBindPoints != constantBufferBindPoints
    && samplerBindPoints != bufferBindPoints && samplerBindPoints != uavBindPoints && samplerBindPoints != constantBufferBindPoints
    && bufferBindPoints != uavBindPoints && bufferBindPoints != constantBufferBindPoints && uavBindPoints != constantBufferBindPoints
  }

  /**
   * Fresh name and bind-point lists for the five categories, of the given
   * lengths: the ten `new cString[...]` and `new UINT[...]`.
   */
  method NewLists(counts: seq<nat>)
    returns (textureNames: array<string>, textureBindPoints: array<nat>,
             samplerNames: array<string>, samplerBindPoints: array<nat>,
             bufferNames: array<string>, bufferBindPoints: array<nat>,
             uavNames: array<string>, uavBindPoints: array<nat>,
             constantBufferNames: array<string>, constantBufferBindPoints: array<nat>)
    requires |counts| == 5
    ensures fresh(textureNames) && fresh(textureBindPoints) && fresh(samplerNames) && fresh(samplerBindPoints)
    ensures fresh(bufferNames) && fresh(bufferBindPoints) && fresh(uavNames) && fresh(uavBindPoints)
    ensures fresh(constantBufferNames) && fresh(constantBufferBindPoints)
    ensures textureNames.Length == textureBindPoints.Length == counts[0]
    ensures samplerNames.Length == samplerBindPoints.Length == counts[1]
    ensures bufferNames.Length == bufferBindPoints.Length == counts[2]
    ensures uavNames.Length == uavBindPoints.Length == counts[3]
    ensures constantBufferNames.Length == constantBufferBindPoints.Length == counts[4]
    ensures Apart(textureNames, samplerNames, bufferNames, uavNames, constantBufferNames,
                       textureBindPoints, samplerBindPoints, bufferBindPoints, uavBindPoints, constantBufferBindPoints)
  {
    textureNames := new string[counts[0]](_ => "");
    textureBindPoints := new nat[counts[0]](_ => 0);
    samplerNames := new string[counts[1]](_ => "");
    samplerBindPoints := new nat[counts[1]](_ => 0);
    bufferNames := new string[counts[2]](_ => "");
    bufferBindPoints := new nat[counts[2]](_ => 0);
    uavNames := new string[counts[3]](_ => "");
    uavBindPoints := new nat[counts[3]](_ => 0);
    constantBufferNames := new string[counts[4]](_ => "");
    constantBufferBindPoints := new nat[counts[4]](_ => 0);
  }

  /** A fresh copy of one name list and its bind-point list, element by element. */
  method CopyList(names: array<string>, bindPoints: array<nat>) returns (namesCopy: array<string>, bindPointsCopy: array<nat>)
    requires names.Length == bindPoints.Length
    ensures fresh(namesCopy) && fresh(bindPointsCopy)
    ensures namesCopy[..] == names[..] && bindPointsCopy[..] == bindPoints[..]
  {
    namesCopy := new string[names.Length](_ => "");
    bindPointsCopy := new nat[names.Length](_ => 0);
    var i := 0;
    while i < names.Length
      invariant 0 <= i <= names.Length
      invariant namesCopy[..i] == names[..i] && bindPointsCopy[..i] == bindPoints[..i]
    {
      namesCopy[i] := names[i];
      bindPointsCopy[i] := bindPoints[i];
      i := i + 1;
    }
    assert namesCopy[..] == namesCopy[..i] && names[..] == names[..i];
    assert bindPointsCopy[..] == bindPointsCopy[..i] && bindPoints[..] == bindPoints[..i];
  }

  /** The lists of category `c` hold, at their first `idx` positions, the descriptors of `c` among `seen`. */
  ghost predicate Filling(names: array<string>, bindPoints: array<nat>, idx: nat, seen: seq<BindDesc>, c: Category)
    reads names, bindPoints
  {
    idx == |Selected(seen, c)| && Lists(names[..], bindPoints[..], Selected(seen, c))
  }

  /** Writes the name and bind point of the `idx`-th descriptor of a category into its lists. */
  method Record(names: array<string>, bindPoints: array<nat>, idx: nat, ghost seen: seq<BindDesc>, ghost c: Category, d: BindDesc)
    requires Filling(names, bindPoints, idx, seen, c) && CategoryOf(d.kind) == Some(c)
    requires idx < names.Length && idx < bindPoints.Length
    modifies names, bindPoints
    ensures Filling(names, bindPoints, idx + 1, seen + [d], c)
  {
    names[idx] := d.name;
    bindPoints[idx] := d.bindPoint;
    assert (seen + [d])[..|seen|] == seen;
  }

  /** Appending a descriptor of category `c` adds one to the length of its selection. */
  lemma SelectedAppend(seen: seq<BindDesc>, d: BindDesc, c: Category)
    requires CategoryOf(d.kind) == Some(c)
    ensures |Selected(seen + [d], c)| == |Selected(seen, c)| + 1
  {
    assert (seen + [d])[..|seen|] == seen;
  }

  /** The `i`-th descriptor entered in the lists of category `c` when it is of that category. */
  method Place(descs: seq<BindDesc>, i: nat, names: array<string>, bindPoints: array<nat>, idx: nat, c: Category)
    returns (next: nat)
    requires i < |descs| && Filling(names, bindPoints, idx, descs[..i], c)
    requires names.Length >= |Selected(descs, c)| && bindPoints.Length >= |Selected(descs, c)|
    requires names != bindPoints as object
    modifies names, bindPoints
    ensures Filling(names, bindPoints, next, descs[..i] + [descs[i]], c)
    ensures CategoryOf(descs[i].kind) != Some(c) ==> unchanged(names, bindPoints)
  {
    var d := descs[i];
    if CategoryOf(d.kind) == Some(c) {
      assert descs[..i + 1] == descs[..i] + [d];
      SelectedPrefixLength(descs, i + 1, c);
      SelectedAppend(descs[..i], d, c);
      Record(names, bindPoints, idx, descs[..i], c, d);
      next := idx + 1;
    } else {
      Skip(names, bindPoints, idx, descs[..i], c, d);
      next := idx;
    }
  }

  /** A descriptor of another category leaves a category's lists as they were. */
  lemma Skip(names: array<string>, bindPoints: array<nat>, idx: nat, seen: seq<BindDesc>, c: Category, d: BindDesc)
    requires Filling(names, bindPoints, idx, seen, c) && CategoryOf(d.kind) != Some(c)
    ensures Filling(names, bindPoints, idx, seen + [d], c)
  {
    assert (seen + [d])[..|seen|] == seen;
  }

  /** No two of the stages share a view or UAV slot array, and no stage uses one array for both. */
  ghost predicate SlotsDisjoint(stages: seq<ShaderParameters>)
  {
    (forall i, j :: 0 <= i < |stages| && 0 <= j < |stages| ==> stages[i].bindViews != stages[j].bindUavs)
    && (forall i, j :: 0 <= i < j < |stages| ==>
          stages[i].bindViews != stages[j].bindViews && stages[i].bindUavs != stages[j].bindUavs)
  }

  /**
   * The release of one stage: its first `textureLimit` view slots and
   * first `uavLimit` UAV slots are nulled, then each of its constant
   * buffers puts the shader resource view of the material's constant
   * buffer at the same index into the view slot at its bind point.
   */
  method ReleaseStage(s: ShaderParameters, textureLimit: nat, uavLimit: nat, constantBuffers: array<Option<Resource>>)
    requires s.bindViews != s.bindUavs
    requires textureLimit <= s.bindViews.Length && uavLimit <= s.bindUavs.Length
    requires s.constantBufferCount <= s.constantBufferParameterBindPoint.Length
    requires s.constantBufferCount <= constantBuffers.Length
    requires forall k :: 0 <= k < s.constantBufferCount ==>
               s.constantBufferParameterBindPoint[k] < s.bindViews.Length && constantBuffers[k].Some?
    modifies s.bindViews, s.bindUavs
    ensures s.bindUavs[..] == Cleared(old(s.bindUavs[..]), uavLimit)
    ensures s.bindViews[..] == ReleasedViews(old(s.bindViews[..]), textureLimit,
                                             s.constantBufferParameterBindPoint[..s.constantBufferCount],
                                             Loaded(constantBuffers[..s.constantBufferCount]))
  {
    var views := s.bindViews;
    var uavSlots := s.bindUavs;
    ghost var views0 := views[..];
    ghost var uavs0 := uavSlots[..];
    var i := 0;
    while i < textureLimit
      invariant 0 <= i <= textureLimit
      invariant views[..] == Cleared(views0, i)
      invariant uavSlots[..] == uavs0
    {
      views[i] := None;
      i := i + 1;
    }
    i := 0;
    while i < uavLimit
      invariant 0 <= i <= uavLimit
      invariant uavSlots[..] == Cleared(uavs0, i)
      invariant views[..] == Cleared(views0, textureLimit)
    {
      if uavSlots[i].Some? {
        uavSlots[i] := None;
      }
      i := i + 1;
    }
    var n := s.constantBufferCount;
    ghost var bindPoints := s.constantBufferParameterBindPoint[..n];
    ghost var srvs := Srvs(Loaded(constantBuffers[..n]));
    i := 0;
    while i < n
      invariant 0 <= i <= n
      invariant views[..] == Filled(Cleared(views0, textureLimit), bindPoints[..i], srvs[..i])
      invariant uavSlots[..] == Cleared(uavs0, uavLimit)
    {
      var bindPoint := s.constantBufferParameterBindPoint[i];
      FilledStep(Cleared(views0, textureLimit), bindPoints, srvs, i);
      views[bindPoint] := constantBuffers[i].value.srv;
      i := i + 1;
    }
    assert bindPoints[..n] == bindPoints && srvs[..n] == srvs;
  }

  /** The six empty stages of a new material, each with its own slot arrays of the given sizes. */
  method NewStages(views: nat, uavSlots: nat, constantBufferSlots: nat) returns (stages: seq<ShaderParameters>)
    ensures |stages| == 6 && SlotsDisjoint(stages)
    ensures forall s :: s in stages ==>
      (fresh(s) && s.Valid() && s.ParameterCounts() == [0, 0, 0, 0, 0] && s.BoundCounts() == (0, 0, 0, 0)
       && s.bindViews.Length == views && s.bindUavs.Length == uavSlots && s.bindConstantBuffers.Length == constantBufferSlots)
  {
    stages := [];
    while |stages| < 6
      invariant |stages| <= 6 && SlotsDisjoint(stages)
      invariant forall s :: s in stages ==>
        (fresh(s) && fresh(s.bindViews) && fresh(s.bindUavs) && s.Valid() && s.ParameterCounts() == [0, 0, 0, 0, 0] && s.BoundCounts() == (0, 0, 0, 0)
         && s.bindViews.Length == views && s.bindUavs.Length == uavSlots && s.bindConstantBuffers.Length == constantBufferSlots)
    {
      var stage := new ShaderParameters(views, uavSlots, constantBufferSlots);
      stages := stages + [stage];
    }
  }

  /** `CPUTMaterialDX11`: the material's resources, its configuration block and its six shader stages. */
  class MaterialDX11 {
    /** `CPUT_MATERIAL_MAX_TEXTURE_SLOTS` and its three siblings. */
    const maxTextureSlots: nat
    const maxBufferSlots: nat
    const maxUavSlots: nat
    const maxConstantBufferSlots: nat

    /** `mpTexture`, `mpBuffer`, `mpUAV` and `mpConstantBuffer`, indexed by parameter position. */
    const textures: array<Option<Resource>>
    const buffers: array<Option<Resource>>
    const uavs: array<Option<Resource>>
    const constantBuffers: array<Option<Resource>>

    /** `mConfigBlock`. */
    var config: ConfigBlock

    /**
     * `mpShaderParametersList`: the pixel, compute, vertex, geometry, hull
     * and domain stages, in that order.
     */
    const stages: seq<ShaderParameters>

    /** The resource array a bind pass of category `c` loads into. */
    function ResourcesOf(c: Category): array<Option<Resource>>
      requires c != SamplerParam
    {
      match c
      case TextureParam => textures
      case BufferParam => buffers
      case UavParam => uavs
      case ConstantBufferParam => constantBuffers
    }

    /** The slot limit a bind pass of category `c` asserts. */
    function LimitOf(c: Category): nat
      requires c != SamplerParam
    {
      match c
      case TextureParam => maxTextureSlots
      case BufferParam => maxBufferSlots
      case UavParam => maxUavSlots
      case ConstantBufferParam => maxConstantBufferSlots
    }

    /** Each resource array holds its limit's number of slots, and the four are distinct. */
    ghost predicate Valid()
    {
      textures.Length == maxTextureSlots && buffers.Length == maxBufferSlots
      && uavs.Length == maxUavSlots && constantBuffers.Length == maxConstantBufferSlots
      && textures != buffers && textures != uavs && textures != constantBuffers
      && buffers != uavs && buffers != constantBuffers && uavs != constantBuffers
    }

    /**
     * Every slot array of every stage is its own: no two stages, and no two
     * kinds of slot in one stage, share an array.
     */
    ghost predicate StagesDisjoint()
    {
      SlotsDisjoint(stages)
    }

    /**
     * A material with the given slot limits, empty resource slots, the given
     * configuration block and six empty stages whose view, UAV and
     * constant-buffer slot arrays have the given sizes.
     */
    constructor (maxTextures: nat, maxBuffers: nat, maxUavs: nat, maxConstantBuffers: nat,
                 views: nat, uavSlots: nat, constantBufferSlots: nat, block: ConfigBlock)
      ensures Valid() && |stages| == 6 && StagesDisjoint() && config == block
      ensures forall c :: c != SamplerParam ==> ResourcesOf(c)[..] == seq(LimitOf(c), _ => None)
      ensures forall s :: s in stages ==>
        (fresh(s) && s.Valid() && s.ParameterCounts() == [0, 0, 0, 0, 0] && s.BoundCounts() == (0, 0, 0, 0)
         && s.bindViews.Length == views && s.bindUavs.Length == uavSlots && s.bindConstantBuffers.Length == constantBufferSlots)
    {
      maxTextureSlots, maxBufferSlots, maxUavSlots, maxConstantBufferSlots := maxTextures, maxBuffers, maxUavs, maxConstantBuffers;
      textures := new Option<Resource>[maxTextures](_ => None);
      buffers := new Option<Resource>[maxBuffers](_ => None);
      uavs := new Option<Resource>[maxUavs](_ => None);
      constantBuffers := new Option<Resource>[maxConstantBuffers](_ => None);
      config := block;
      var list := NewStages(views, uavSlots, constantBufferSlots);
      stages := list;
      new;
      assert ResourcesOf(TextureParam)[..] == seq(LimitOf(TextureParam), _ => None);
      assert ResourcesOf(BufferParam)[..] == seq(LimitOf(BufferParam), _ => None);
      assert ResourcesOf(UavParam)[..] == seq(LimitOf(UavParam), _ => None);
      assert ResourcesOf(ConstantBufferParam)[..] == seq(LimitOf(ConstantBufferParam), _ => None);
    }

    /**
     * `ReadShaderSamplersAndTextures`: a first pass over the reflection's bind
     * descriptors adds the number of descriptors of each category to its
     * parameter count; fresh lists of those lengths are allocated; a second
     * pass writes, at index k of each category, the name and bind point of
     * that category's k-th descriptor.
     */
    method ReadShaderSamplersAndTextures(descs: seq<BindDesc>, params: ShaderParameters)
      modifies params`textureParameterCount, params`samplerParameterCount, params`bufferParameterCount
      modifies params`uavParameterCount, params`constantBufferParameterCount
      modifies params`textureParameterName, params`textureParameterBindPoint, params`samplerParameterName
      modifies params`samplerParameterBindPoint, params`bufferParameterName, params`bufferParameterBindPoint
      modifies params`uavParameterName, params`uavParameterBindPoint
      modifies params`constantBufferParameterName, params`constantBufferParameterBindPoint
      ensures params.ParameterCounts() == Tally(old(params.ParameterCounts()), descs)
      ensures fresh(params.textureParameterName) && fresh(params.textureParameterBindPoint)
      ensures fresh(params.samplerParameterName) && fresh(params.samplerParameterBindPoint)
      ensures fresh(params.bufferParameterName) && fresh(params.bufferParameterBindPoint)
      ensures fresh(params.uavParameterName) && fresh(params.uavParameterBindPoint)
      ensures fresh(params.constantBufferParameterName) && fresh(params.constantBufferParameterBindPoint)
      ensures params.Sized() && params.Parsed(descs)
    {
      CountDescriptors(descs, params);
      var textureNames, textureBindPoints, samplerNames, samplerBindPoints, bufferNames, bufferBindPoints,
          uavNames, uavBindPoints, constantBufferNames, constantBufferBindPoints :=
        NewLists(params.ParameterCounts());
      FillDescriptors(descs, textureNames, textureBindPoints, samplerNames, samplerBindPoints, bufferNames, bufferBindPoints,
                      uavNames, uavBindPoints, constantBufferNames, constantBufferBindPoints);
      params.Adopt(textureNames, textureBindPoints, samplerNames, samplerBindPoints, bufferNames, bufferBindPoints,
                   uavNames, uavBindPoints, constantBufferNames, constantBufferBindPoints);
    }

    /** The counting pass. */
    method CountDescriptors(descs: seq<BindDesc>, params: ShaderParameters)
      modifies params`textureParameterCount, params`samplerParameterCount, params`bufferParameterCount
      modifies params`uavParameterCount, params`constantBufferParameterCount
      ensures params.ParameterCounts() == Tally(old(params.ParameterCounts()), descs)
    {
      ghost var counts0 := params.ParameterCounts();
      assert descs[..0] == [];
      var i := 0;
      while i < |descs|
        invariant 0 <= i <= |descs|
        invariant params.ParameterCounts() == Tally(counts0, descs[..i])
      {
        TallyStep(counts0, descs, i);
        var category := CategoryOf(descs[i].kind);
        if category.Some? {
          params.AddParameter(category.value);
        }
        i := i + 1;
      }
      assert descs[..i] == descs;
    }

    /** The filling pass, with one running index per category. */
    method FillDescriptors(descs: seq<BindDesc>,
                           textureNames: array<string>, textureBindPoints: array<nat>,
                           samplerNames: array<string>, samplerBindPoints: array<nat>,
                           bufferNames: array<string>, bufferBindPoints: array<nat>,
                           uavNames: array<string>, uavBindPoints: array<nat>,
                           constantBufferNames: array<string>, constantBufferBindPoints: array<nat>
)
      requires textureNames.Length >= |Selected(descs, TextureParam)| && textureBindPoints.Length >= |Selected(descs, TextureParam)|
      requires samplerNames.Length >= |Selected(descs, SamplerParam)| && samplerBindPoints.Length >= |Selected(descs, SamplerParam)|
      requires bufferNames.Length >= |Selected(descs, BufferParam)| && bufferBindPoints.Length >= |Selected(descs, BufferParam)|
      requires uavNames.Length >= |Selected(descs, UavParam)| && uavBindPoints.Length >= |Selected(descs, UavParam)|
      requires constantBufferNames.Length >= |Selected(descs, ConstantBufferParam)|
        && constantBufferBindPoints.Length >= |Selected(descs, ConstantBufferParam)|
      requires Apart(textureNames, samplerNames, bufferNames, uavNames, constantBufferNames,
                          textureBindPoints, samplerBindPoints, bufferBindPoints, uavBindPoints, constantBufferBindPoints)
      modifies textureNames, textureBindPoints, samplerNames, samplerBindPoints, bufferNames, bufferBindPoints
      modifies uavNames, uavBindPoints, constantBufferNames, constantBufferBindPoints
      ensures Lists(textureNames[..], textureBindPoints[..], Selected(descs, TextureParam))
      ensures Lists(samplerNames[..], samplerBindPoints[..], Selected(descs, SamplerParam))
      ensures Lists(bufferNames[..], bufferBindPoints[..], Selected(descs, BufferParam))
      ensures Lists(uavNames[..], uavBindPoints[..], Selected(descs, UavParam))
      ensures Lists(constantBufferNames[..], constantBufferBindPoints[..], Selected(descs, ConstantBufferParam))
    {
      var textureIndex, samplerIndex, bufferIndex, uavIndex, constantBufferIndex := 0, 0, 0, 0, 0;
      var i := 0;
      while i < |descs|
        invariant 0 <= i <= |descs|
        invariant Filling(textureNames, textureBindPoints, textureIndex, descs[..i], TextureParam)
        invariant Filling(samplerNames, samplerBindPoints, samplerIndex, descs[..i], SamplerParam)
        invariant Filling(bufferNames, bufferBindPoints, bufferIndex, descs[..i], BufferParam)
        invariant Filling(uavNames, uavBindPoints, uavIndex, descs[..i], UavParam)
        invariant Filling(constantBufferNames, constantBufferBindPoints, constantBufferIndex, descs[..i], ConstantBufferParam)
      {
        assert descs[..i + 1] == descs[..i] + [descs[i]];
        textureIndex, samplerIndex, bufferIndex, uavIndex, constantBufferIndex :=
          FillOne(descs, i,
            textureNames, textureBindPoints, samplerNames, samplerBindPoints, bufferNames, bufferBindPoints,
            uavNames, uavBindPoints, constantBufferNames, constantBufferBindPoints,
            textureIndex, samplerIndex, bufferIndex, uavIndex, constantBufferIndex);
        i := i + 1;
      }
      assert descs[..i] == descs;
    }

    /**
     * One step of the filling pass: the `switch` on the `i`-th descriptor's
     * kind, written as one placement per category, of which at most one
     * (the descriptor's own category) writes.
     */
    method FillOne(descs: seq<BindDesc>, i: nat,
                   textureNames: array<string>, textureBindPoints: array<nat>,
                   samplerNames: array<string>, samplerBindPoints: array<nat>,
                   bufferNames: array<string>, bufferBindPoints: array<nat>,
                   uavNames: array<string>, uavBindPoints: array<nat>,
                   constantBufferNames: array<string>, constantBufferBindPoints: array<nat>,
                   textureIndex: nat, samplerIndex: nat, bufferIndex: nat, uavIndex: nat, constantBufferIndex: nat)
      returns (textureNext: nat, samplerNext: nat, bufferNext: nat, uavNext: nat, constantBufferNext: nat)
      requires i < |descs|
      requires textureNames.Length >= |Selected(descs, TextureParam)| && textureBindPoints.Length >= |Selected(descs, TextureParam)|
      requires samplerNames.Length >= |Selected(descs, SamplerParam)| && samplerBindPoints.Length >= |Selected(descs, SamplerParam)|
      requires bufferNames.Length >= |Selected(descs, BufferParam)| && bufferBindPoints.Length >= |Selected(descs, BufferParam)|
      requires uavNames.Length >= |Selected(descs, UavParam)| && uavBindPoints.Length >= |Selected(descs, UavParam)|
      requires constantBufferNames.Length >= |Selected(descs, ConstantBufferParam)|
        && constantBufferBindPoints.Length >= |Selected(descs, ConstantBufferParam)|
      requires Apart(textureNames, samplerNames, bufferNames, uavNames, constantBufferNames,
                          textureBindPoints, samplerBindPoints, bufferBindPoints, uavBindPoints, constantBufferBindPoints)
      requires Filling(textureNames, textureBindPoints, textureIndex, descs[..i], TextureParam)
      requires Filling(samplerNames, samplerBindPoints, samplerIndex, descs[..i], SamplerParam)
      requires Filling(bufferNames, bufferBindPoints, bufferIndex, descs[..i], BufferParam)
      requires Filling(uavNames, uavBindPoints, uavIndex, descs[..i], UavParam)
      requires Filling(constantBufferNames, constantBufferBindPoints, constantBufferIndex, descs[..i], ConstantBufferParam)
      modifies textureNames, textureBindPoints, samplerNames, samplerBindPoints, bufferNames, bufferBindPoints
      modifies uavNames, uavBindPoints, constantBufferNames, constantBufferBindPoints
      ensures Filling(textureNames, textureBindPoints, textureNext, descs[..i] + [descs[i]], TextureParam)
      ensures Filling(samplerNames, samplerBindPoints, samplerNext, descs[..i] + [descs[i]], SamplerParam)
      ensures Filling(bufferNames, bufferBindPoints, bufferNext, descs[..i] + [descs[i]], BufferParam)
      ensures Filling(uavNames, uavBindPoints, uavNext, descs[..i] + [descs[i]], UavParam)
      ensures Filling(constantBufferNames, constantBufferBindPoints, constantBufferNext, descs[..i] + [descs[i]], ConstantBufferParam)
    {
      assert descs[..i + 1] == descs[..i] + [descs[i]];
      textureNext := Place(descs, i, textureNames, textureBindPoints, textureIndex, TextureParam);
      samplerNext := Place(descs, i, samplerNames, samplerBindPoints, samplerIndex, SamplerParam);
      constantBufferNext := Place(descs, i, constantBufferNames, constantBufferBindPoints, constantBufferIndex, ConstantBufferParam);
      bufferNext := Place(descs, i, bufferNames, bufferBindPoints, bufferIndex, BufferParam);
      uavNext := Place(descs, i, uavNames, uavBindPoints, uavIndex, UavParam);
    }

    /**
     * The loop shared by the four bind passes, for category `c`: for each
     * parameter in list order, resolve its tag (local block first), replace
     * an empty texture name by the default texture, decorate the name, load
     * the resource unless its slot is already loaded, and put the view the
     * pass uses into the slot at the parameter's bind point. Afterwards the
     * pass's bound count equals the parameter count.
     */
    method BindParameters(c: Category, params: ShaderParameters, modelSuffix: string, meshSuffix: string,
                          global: ConfigBlock, library: AssetLibrary)
      requires c != SamplerParam && Valid() && params.Valid()
      requires forall k :: 0 <= k < params.ParameterCountOf(c) ==> params.BindPointsOf(c)[k] < LimitOf(c)
      requires Bindable(c, config, global, library, modelSuffix, meshSuffix,
                        params.NamesOf(c)[..], params.BindPointsOf(c)[..], params.SlotsOf(c).Length, ResourcesOf(c)[..])
      modifies params, ResourcesOf(c), params.SlotsOf(c)
      ensures params.ListFields() == old(params.ListFields())
      ensures params.BoundCounts() == WithBound(old(params.BoundCounts()), c, params.ParameterCountOf(c))
      ensures Bound(c, config, global, library, modelSuffix, meshSuffix,
                    params.NamesOf(c)[..], params.BindPointsOf(c)[..],
                    old(ResourcesOf(c)[..]), old(params.SlotsOf(c)[..]), ResourcesOf(c)[..], params.SlotsOf(c)[..])
    {
      BindList(c, config, global, library, modelSuffix, meshSuffix,
               params.NamesOf(c), params.BindPointsOf(c), ResourcesOf(c), params.SlotsOf(c));
      params.SetBoundCount(c, params.ParameterCountOf(c));
    }

    /** `BindTextures`: the bind pass over the texture list, into `mpTexture` and the view slots. */
    method BindTextures(params: ShaderParameters, modelSuffix: string, meshSuffix: string,
                        global: ConfigBlock, library: AssetLibrary)
      requires Valid() && params.Valid()
      requires forall k :: 0 <= k < params.textureParameterCount ==> params.textureParameterBindPoint[k] < maxTextureSlots
      requires Bindable(TextureParam, config, global, library, modelSuffix, meshSuffix,
                        params.textureParameterName[..], params.textureParameterBindPoint[..], params.bindViews.Length, textures[..])
      modifies params, textures, params.bindViews
      ensures params.ListFields() == old(params.ListFields())
      ensures params.BoundCounts() == (params.textureParameterCount, old(params.bufferCount), old(params.uavCount), old(params.constantBufferCount))
      ensures Bound(TextureParam, config, global, library, modelSuffix, meshSuffix,
                    params.textureParameterName[..], params.textureParameterBindPoint[..],
                    old(textures[..]), old(params.bindViews[..]), textures[..], params.bindViews[..])
    {
      BindParameters(TextureParam, params, modelSuffix, meshSuffix, global, library);
    }

    /** `BindBuffers`: the bind pass over the buffer list, into `mpBuffer` and the view slots. */
    method BindBuffers(params: ShaderParameters, modelSuffix: string, meshSuffix: string,
                       global: ConfigBlock, library: AssetLibrary)
      requires Valid() && params.Valid()
      requires forall k :: 0 <= k < params.bufferParameterCount ==> params.bufferParameterBindPoint[k] < maxBufferSlots
      requires Bindable(BufferParam, config, global, library, modelSuffix, meshSuffix,
                        params.bufferParameterName[..], params.bufferParameterBindPoint[..], params.bindViews.Length, buffers[..])
      modifies params, buffers, params.bindViews
      ensures params.ListFields() == old(params.ListFields())
      ensures params.BoundCounts() == (old(params.textureCount), params.bufferParameterCount, old(params.uavCount), old(params.constantBufferCount))
      ensures Bound(BufferParam, config, global, library, modelSuffix, meshSuffix,
                    params.bufferParameterName[..], params.bufferParameterBindPoint[..],
                    old(buffers[..]), old(params.bindViews[..]), buffers[..], params.bindViews[..])
    {
      BindParameters(BufferParam, params, modelSuffix, meshSuffix, global, library);
    }

    /**
     * `BindUAVs`: every UAV slot is nulled first, then the bind pass over the
     * UAV list fills `mpUAV` and the UAV slots.
     */
    method BindUAVs(params: ShaderParameters, modelSuffix: string, meshSuffix: string,
                    global: ConfigBlock, library: AssetLibrary)
      requires Valid() && params.Valid()
      requires forall k :: 0 <= k < params.uavParameterCount ==> params.uavParameterBindPoint[k] < maxUavSlots
      requires Bindable(UavParam, config, global, library, modelSuffix, meshSuffix,
                        params.uavParameterName[..], params.uavParameterBindPoint[..], params.bindUavs.Length, uavs[..])
      modifies params, uavs, params.bindUavs
      ensures params.ListFields() == old(params.ListFields())
      ensures params.BoundCounts() == (old(params.textureCount), old(params.bufferCount), params.uavParameterCount, old(params.constantBufferCount))
      ensures Bound(UavParam, config, global, library, modelSuffix, meshSuffix,
                    params.uavParameterName[..], params.uavParameterBindPoint[..],
                    old(uavs[..]), seq(params.bindUavs.Length, _ => None), uavs[..], params.bindUavs[..])
    {
      forall k | 0 <= k < params.bindUavs.Length {
        params.bindUavs[k] := None;
      }
      assert params.bindUavs[..] == seq(params.bindUavs.Length, _ => None);
      BindParameters(UavParam, params, modelSuffix, meshSuffix, global, library);
    }

    /** `BindConstantBuffers`: the bind pass over the constant-buffer list, into `mpConstantBuffer` and the constant-buffer slots. */
    method BindConstantBuffers(params: ShaderParameters, modelSuffix: string, meshSuffix: string,
                               global: ConfigBlock, library: AssetLibrary)
      requires Valid() && params.Valid()
      requires forall k :: 0 <= k < params.constantBufferParameterCount ==> params.constantBufferParameterBindPoint[k] < maxConstantBufferSlots
      requires Bindable(ConstantBufferParam, config, global, library, modelSuffix, meshSuffix,
                        params.constantBufferParameterName[..], params.constantBufferParameterBindPoint[..],
                        params.bindConstantBuffers.Length, constantBuffers[..])
      modifies params, constantBuffers, params.bindConstantBuffers
      ensures params.ListFields() == old(params.ListFields())
      ensures params.BoundCounts() == (old(params.textureCount), old(params.bufferCount), old(params.uavCount), params.constantBufferParameterCount)
      ensures Bound(ConstantBufferParam, config, global, library, modelSuffix, meshSuffix,
                    params.constantBufferParameterName[..], params.constantBufferParameterBindPoint[..],
                    old(constantBuffers[..]), old(params.bindConstantBuffers[..]), constantBuffers[..], params.bindConstantBuffers[..])
    {
      BindParameters(ConstantBufferParam, params, modelSuffix, meshSuffix, global, library);
    }

    /**
     * What `ReleaseTexturesAndBuffers` needs of a stage: room for the slot
     * limits, a bind point inside the view slots for each constant buffer,
     * and a loaded constant buffer at each of its constant-buffer indices.
     */
    predicate Releasable(s: ShaderParameters)
      reads s, s.constantBufferParameterBindPoint, constantBuffers
    {
      s.bindViews != s.bindUavs
      && maxTextureSlots <= s.bindViews.Length && maxUavSlots <= s.bindUavs.Length
      && s.constantBufferCount <= s.constantBufferParameterBindPoint.Length
      && s.constantBufferCount <= constantBuffers.Length
      && (forall k :: 0 <= k < s.constantBufferCount ==>
            s.constantBufferParameterBindPoint[k] < s.bindViews.Length && constantBuffers[k].Some?)
    }

    /** Stage `s` released from view slots `views0` and UAV slots `uavs0`. */
    predicate StageReleased(s: ShaderParameters, views0: seq<Option<View>>, uavs0: seq<Option<View>>)
      reads s, s.constantBufferParameterBindPoint, s.bindViews, s.bindUavs, constantBuffers
    {
      Releasable(s) && |views0| == s.bindViews.Length && |uavs0| == s.bindUavs.Length
      && s.bindUavs[..] == Cleared(uavs0, maxUavSlots)
      && s.bindViews[..] == ReleasedViews(views0, maxTextureSlots,
                                          s.constantBufferParameterBindPoint[..s.constantBufferCount],
                                          Loaded(constantBuffers[..s.constantBufferCount]))
    }

    /**
     * `ReleaseTexturesAndBuffers`: every stage in `mpShaderParametersList`
     * order is released (see `ReleaseStage`); nothing else changes.
     */
    method ReleaseTexturesAndBuffers()
      requires StagesDisjoint()
      requires forall s :: s in stages ==> Releasable(s)
      modifies set s | s in stages :: s.bindViews, set s | s in stages :: s.bindUavs
      ensures forall j :: 0 <= j < |stages| ==>
                StageReleased(stages[j], old(stages[j].bindViews[..]), old(stages[j].bindUavs[..]))
    {
      var j := 0;
      while j < |stages|
        invariant 0 <= j <= |stages|
        invariant forall s :: s in stages ==> Releasable(s)
        invariant forall t :: 0 <= t < j ==>
                    StageReleased(stages[t], old(stages[t].bindViews[..]), old(stages[t].bindUavs[..]))
        invariant forall t :: j <= t < |stages| ==>
                    stages[t].bindViews[..] == old(stages[t].bindViews[..]) && stages[t].bindUavs[..] == old(stages[t].bindUavs[..])
      {
        assert Releasable(stages[j]);
        ReleaseStage(stages[j], maxTextureSlots, maxUavSlots, constantBuffers);
        j := j + 1;
      }
    }
  }
}
