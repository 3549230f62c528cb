/** The three configurators that decide which loss terms join an
    optimisation run. Each one appends to the caller's `loss_augs` list and
    never removes or reorders what is already there. */
module LossOrchestrator {
  import opened Wrappers
  import opened Text
  import opened LossAug
  import opened Notebook

  // ---------------------------------------------------------------------
  // Run parameters
  // ---------------------------------------------------------------------

  /** The weight keys the configurators read as `params[x]`. */
  datatype WeightKey =
    | DirectInitWeight
    | DirectStabilizationWeight
    | DepthStabilizationWeight
    | EdgeStabilizationWeight
  {
    /** The text before the first `_` of the key: the loss kind. */
    function Kind(): string {
      match this
      case DirectInitWeight => "direct"
      case DirectStabilizationWeight => "direct"
      case DepthStabilizationWeight => "depth"
      case EdgeStabilizationWeight => "edge"
    }

    function Rest(): string {
      if DirectInitWeight? then "init_weight" else "stabilization_weight"
    }

    /** The key as `params` spells it, e.g. "depth_stabilization_weight". */
    function Name(): string {
      Kind() + "_" + Rest()
    }
  }

  /** The fields of the run configuration the configurators read. Only
      `flowStabilizationWeight` is ever written (by the optical-flow
      configurator). */
  class RunParams {
    const initImage: string
    const directInitWeight: string
    const semanticInitWeight: string
    const directStabilizationWeight: string
    const depthStabilizationWeight: string
    const edgeStabilizationWeight: string
    const animationMode: string
    var flowStabilizationWeight: string
    const flowLongTermSamples: int
    const smoothingWeight: real

    constructor (initImage: string, directInitWeight: string, semanticInitWeight: string,
                 directStabilizationWeight: string, depthStabilizationWeight: string,
                 edgeStabilizationWeight: string, animationMode: string,
                 flowStabilizationWeight: string, flowLongTermSamples: int, smoothingWeight: real)
      ensures this.initImage == initImage && this.directInitWeight == directInitWeight
      ensures this.semanticInitWeight == semanticInitWeight
      ensures this.directStabilizationWeight == directStabilizationWeight
      ensures this.depthStabilizationWeight == depthStabilizationWeight
      ensures this.edgeStabilizationWeight == edgeStabilizationWeight
      ensures this.animationMode == animationMode
      ensures this.flowStabilizationWeight == flowStabilizationWeight
      ensures this.flowLongTermSamples == flowLongTermSamples
      ensures this.smoothingWeight == smoothingWeight
    {
      this.initImage := initImage;
      this.directInitWeight := directInitWeight;
      this.semanticInitWeight := semanticInitWeight;
      this.directStabilizationWeight := directStabilizationWeight;
      this.depthStabilizationWeight := depthStabilizationWeight;
      this.edgeStabilizationWeight := edgeStabilizationWeight;
      this.animationMode := animationMode;
      this.flowStabilizationWeight := flowStabilizationWeight;
      this.flowLongTermSamples := flowLongTermSamples;
      this.smoothingWeight := smoothingWeight;
    }

    /** `params[k]`. */
    function Weight(k: WeightKey): string {
      match k
      case DirectInitWeight => directInitWeight
      case DirectStabilizationWeight => directStabilizationWeight
      case DepthStabilizationWeight => depthStabilizationWeight
      case EdgeStabilizationWeight => edgeStabilizationWeight
    }
  }

  /** `w in ["", "0"]`: the weight texts that switch a term off. */
  predicate IsDisabled(w: string) {
    w == "" || w == "0"
  }

  // ---------------------------------------------------------------------
  // Building the terms of a fixed key list
  // ---------------------------------------------------------------------

  /** `build_loss(k, params[k], context, img, target)`. */
  function BuildFor(k: WeightKey, params: RunParams, context: string, img: Image,
                    registry: map<string, LossClass>, target: Option<PilImage>): Result<LossTerm>
  {
    BuildLoss(k.Name(), params.Weight(k), context, img, registry, target)
  }

  /** The list comprehension `[build_loss(x, ...) for x in keys if params[x]
      not in ["", "0"]]`: keys in order, disabled ones skipped, the first
      exception raised ends it. */
  function BuildAll(keys: seq<WeightKey>, params: RunParams, context: string, img: Image,
                    registry: map<string, LossClass>, target: Option<PilImage>): (r: Result<seq<LossTerm>>)
    ensures r.Ok? ==> |r.value| <= |keys|
    ensures r.Ok? ==> forall t :: t in r.value ==>
      t.TargetImageLoss? && t.shape == img.shape && t.target == target && (t.enabled <==> target.Some?)
  {
    if keys == [] then Ok([])
    else if IsDisabled(params.Weight(keys[0])) then BuildAll(keys[1..], params, context, img, registry, target)
    else match BuildFor(keys[0], params, context, img, registry, target)
      case Err(e) => Err(e)
      case Ok(t) =>
        match BuildAll(keys[1..], params, context, img, registry, target)
        case Err(e) => Err(e)
        case Ok(ts) => Ok([t] + ts)
  }

  /** The term `build_loss` makes for a weight whose prefix is `kind`. */
  function Built(cls: LossClass, kind: string, context: string, weight: string, img: Image,
                 target: Option<PilImage>): LossTerm
  {
    TargetImageLoss(cls, kind + " " + context + ":" + weight, img.shape, target, target.Some?)
  }

  /** What `build_loss` makes of a key: the image's preferred loss for the
      `direct` kind, else the registered loss of that kind, or a `KeyError`. */
  lemma BuildForOf(k: WeightKey, params: RunParams, context: string, img: Image,
                   registry: map<string, LossClass>, target: Option<PilImage>)
    ensures BuildFor(k, params, context, img, registry, target) ==
      if k.Kind() == "direct" then Ok(Built(img.preferredLoss, "direct", context, params.Weight(k), img, target))
      else if k.Kind() in registry then Ok(Built(registry[k.Kind()], k.Kind(), context, params.Weight(k), img, target))
      else Err(KeyError(k.Kind()))
  {
    BuildLossOf(k.Kind(), k.Rest(), params.Weight(k), context, img, registry, target);
  }

  /** The contribution of one key: nothing when its weight is disabled,
      else the built term or the exception. */
  function BuildOne(k: WeightKey, params: RunParams, context: string, img: Image,
                    registry: map<string, LossClass>, target: Option<PilImage>): Result<seq<LossTerm>>
  {
    if IsDisabled(params.Weight(k)) then Ok([])
    else match BuildFor(k, params, context, img, registry, target)
      case Err(e) => Err(e)
      case Ok(t) => Ok([t])
  }

  /** Joins two partial results, the first exception winning. */
  function Prepend(a: Result<seq<LossTerm>>, b: Result<seq<LossTerm>>): Result<seq<LossTerm>> {
    if a.Err? then a else if b.Err? then b else Ok(a.value + b.value)
  }

  lemma BuildAllCons(k: WeightKey, rest: seq<WeightKey>, params: RunParams, context: string, img: Image,
                     registry: map<string, LossClass>, target: Option<PilImage>)
    ensures BuildAll([k] + rest, params, context, img, registry, target)
      == Prepend(BuildOne(k, params, context, img, registry, target), BuildAll(rest, params, context, img, registry, target))
  {
    assert ([k] + rest)[0] == k && ([k] + rest)[1..] == rest;
    var tail := BuildAll(rest, params, context, img, registry, target);
    if tail.Ok? {
      assert [] + tail.value == tail.value;
    }
  }

  // ---------------------------------------------------------------------
  // configure_init_image
  // ---------------------------------------------------------------------

  /** The display context of the init term: `f"init image ({params.init_image})"`. */
  function InitContext(params: RunParams): string {
    "init image (" + params.initImage + ")"
  }

  /** The prompt text handed to `parse_prompt` for the semantic init term. */
  function SemanticPromptText(params: RunParams): string {
    "init image [" + params.initImage + "]:" + params.semanticInitWeight
  }

  /** The `init_augs` built for an init image. */
  function InitTerms(img: Image, pil: PilImage, params: RunParams, registry: map<string, LossClass>): Result<seq<LossTerm>> {
    BuildAll([DirectInitWeight], params, InitContext(params), img, registry, Some(pil))
  }

  /** The init terms never fail: there is one term, of the image's preferred
      loss, enabled and aimed at the init image, exactly when
      `direct_init_weight` is not a disabled sentinel. */
  lemma InitTermsExact(img: Image, pil: PilImage, params: RunParams, registry: map<string, LossClass>)
    ensures InitTerms(img, pil, params, registry) ==
      Ok(if IsDisabled(params.directInitWeight) then []
         else [Built(img.preferredLoss, "direct", InitContext(params), params.directInitWeight, img, Some(pil))])
  {
    var keys := [DirectInitWeight];
    var w := params.directInitWeight;
    assert keys[1..] == [];
    assert BuildAll(keys[1..], params, InitContext(params), img, registry, Some(pil)) == Ok([]);
    BuildForOf(DirectInitWeight, params, InitContext(params), img, registry, Some(pil));
    if !IsDisabled(w) {
      var t := Built(img.preferredLoss, "direct", InitContext(params), w, img, Some(pil));
      assert [t] + [] == [t];
      assert BuildAll(keys, params, InitContext(params), img, registry, Some(pil)) == Ok([t]);
    }
  }

  /** The semantic init prompt step as the module is written: the call to
      `parse_prompt` passes `embedder`, a name the module never defines or
      imports, so a live `semantic_init_weight` raises `NameError` before
      `parse_prompt` runs. */
  function SemanticInitPromptAsWritten<P>(params: RunParams): (r: Result<Option<P>>)
    ensures r.Err? <==> !IsDisabled(params.semanticInitWeight)
    ensures r.Err? ==> r.error == NameError("embedder")
    ensures r.Ok? ==> r.value.None?
  {
    if IsDisabled(params.semanticInitWeight) then Ok(None) else Err(NameError("embedder"))
  }

  /** The semantic init prompt step as intended: with a live weight the
      prompt text is parsed against the init image by `parsePrompt` (the
      prompt parser with its embedder), whose result or exception is passed
      on; otherwise there is no semantic prompt. */
  function SemanticInitPrompt<P>(params: RunParams, pil: PilImage,
                                 parsePrompt: (string, PilImage) -> Result<P>): (r: Result<Option<P>>)
    ensures IsDisabled(params.semanticInitWeight) ==> r == Ok(None)
    ensures !IsDisabled(params.semanticInitWeight) ==>
      (r.Ok? <==> parsePrompt(SemanticPromptText(params), pil).Ok?)
    ensures !IsDisabled(params.semanticInitWeight) && r.Ok? ==>
      r.value == Some(parsePrompt(SemanticPromptText(params), pil).value)
    ensures r.Err? ==> r.error == parsePrompt(SemanticPromptText(params), pil).error
  {
    if IsDisabled(params.semanticInitWeight) then Ok(None)
    else match parsePrompt(SemanticPromptText(params), pil)
      case Ok(p) => Ok(Some(p))
      case Err(e) => Err(e)
  }

  /** The two versions differ on every live semantic weight whose prompt
      parses: the module as written raises where the intended step yields
      the parsed prompt. */
  lemma SemanticInitNameError<P>(params: RunParams, pil: PilImage, parsePrompt: (string, PilImage) -> Result<P>)
    requires !IsDisabled(params.semanticInitWeight)
    requires parsePrompt(SemanticPromptText(params), pil).Ok?
    ensures SemanticInitPromptAsWritten<P>(params) == Err(NameError("embedder"))
    ensures SemanticInitPrompt(params, pil, parsePrompt) == Ok(Some(parsePrompt(SemanticPromptText(params), pil).value))
  {
  }

  /** What `configure_init_image` returns besides the list and image it
      mutates: the `init_augs` and the semantic init prompt, if any. */
  datatype InitImageSetup<P> = InitImageSetup(initAugs: seq<LossTerm>, semanticInitPrompt: Option<P>)

  /** `configure_init_image(init_image_pil, restore, img, params, loss_augs)`.
      `parsePrompt` stands for the prompt parser (with its embedder), which
      may raise. */
  method ConfigureInitImage<P>(initPil: Option<PilImage>, restore: bool, img: Image, params: RunParams,
                               augs: LossAugList, registry: map<string, LossClass>,
                               parsePrompt: (string, PilImage) -> Result<P>)
    returns (r: Result<InitImageSetup<P>>)
    modifies img, augs
    // encoding happens only for a present init image when not restoring
    ensures img.encodings == if initPil.Some? && !restore then old(img.encodings) + [initPil.value] else old(img.encodings)
    ensures initPil.None? ==> r == Ok(InitImageSetup([], None)) && augs.terms == old(augs.terms)
    ensures initPil.Some? ==> InitTerms(img, initPil.value, params, registry).Ok?
    ensures initPil.Some? && InitTerms(img, initPil.value, params, registry).Ok? ==>
      var initAugs := InitTerms(img, initPil.value, params, registry).value;
      && augs.terms == old(augs.terms) + initAugs
      && r == match SemanticInitPrompt(params, initPil.value, parsePrompt)
              case Ok(prompt) => Ok(InitImageSetup(initAugs, prompt))
              case Err(e) => Err(e)
  {
    if initPil.None? {
      return Ok(InitImageSetup([], None));
    }
    var pil := initPil.value;
    if !restore {
      img.EncodeImage(pil);
    }
    InitTermsExact(img, pil, params, registry);
    var initAugs := InitTerms(img, pil, params, registry).value;
    augs.Extend(initAugs);
    var prompt := SemanticInitPrompt(params, pil, parsePrompt);
    if prompt.Err? {
      return Err(prompt.error);
    }
    return Ok(InitImageSetup(initAugs, prompt.value));
  }

  // ---------------------------------------------------------------------
  // configure_stabilization_augs
  // ---------------------------------------------------------------------

  const StabilizationKeys := [DirectStabilizationWeight, DepthStabilizationWeight, EdgeStabilizationWeight]

  /** The `stabilization_augs` built from the run parameters. */
  function StabilizationTerms(img: Image, initPil: Option<PilImage>, params: RunParams,
                              registry: map<string, LossClass>): Result<seq<LossTerm>>
  {
    BuildAll(StabilizationKeys, params, "stabilization", img, registry, initPil)
  }

  /** The contribution of one key, evaluated. */
  lemma BuildOneOf(k: WeightKey, params: RunParams, context: string, img: Image,
                   registry: map<string, LossClass>, target: Option<PilImage>)
    ensures BuildOne(k, params, context, img, registry, target) ==
      if IsDisabled(params.Weight(k)) then Ok([])
      else if k.Kind() == "direct" then Ok([Built(img.preferredLoss, "direct", context, params.Weight(k), img, target)])
      else if k.Kind() in registry then Ok([Built(registry[k.Kind()], k.Kind(), context, params.Weight(k), img, target)])
      else Err(KeyError(k.Kind()))
  {
    BuildForOf(k, params, context, img, registry, target);
  }

  /** The stabilization list is the three keys' contributions joined in order. */
  lemma StabilizationTermsJoin(img: Image, initPil: Option<PilImage>, params: RunParams,
                               registry: map<string, LossClass>)
    ensures StabilizationTerms(img, initPil, params, registry) ==
      Prepend(BuildOne(DirectStabilizationWeight, params, "stabilization", img, registry, initPil),
        Prepend(BuildOne(DepthStabilizationWeight, params, "stabilization", img, registry, initPil),
          Prepend(BuildOne(EdgeStabilizationWeight, params, "stabilization", img, registry, initPil), Ok([]))))
  {
    var context := "stabilization";
    BuildAllCons(DirectStabilizationWeight, [DepthStabilizationWeight, EdgeStabilizationWeight], params, context, img, registry, initPil);
    BuildAllCons(DepthStabilizationWeight, [EdgeStabilizationWeight], params, context, img, registry, initPil);
    BuildAllCons(EdgeStabilizationWeight, [], params, context, img, registry, initPil);
    assert [EdgeStabilizationWeight] + [] == [EdgeStabilizationWeight];
    assert StabilizationKeys == [DirectStabilizationWeight] + ([DepthStabilizationWeight] + [EdgeStabilizationWeight]);
  }

  /** The stabilization terms: one per key among direct, depth, edge whose
      weight is not a disabled sentinel, in that order, each aimed at the
      init image in the "stabilization" context; an enabled depth or edge
      key that `LOSS_DICT` does not register raises a `KeyError`, depth
      before edge. */
  lemma StabilizationTermsExact(img: Image, initPil: Option<PilImage>, params: RunParams,
                                registry: map<string, LossClass>)
    ensures var direct, depth, edge := params.directStabilizationWeight, params.depthStabilizationWeight,
                                      params.edgeStabilizationWeight;
      StabilizationTerms(img, initPil, params, registry) ==
        if !IsDisabled(depth) && "depth" !in registry then Err(KeyError("depth"))
        else if !IsDisabled(edge) && "edge" !in registry then Err(KeyError("edge"))
        else Ok((if IsDisabled(direct) then [] else [Built(img.preferredLoss, "direct", "stabilization", direct, img, initPil)])
              + (if IsDisabled(depth) then [] else [Built(registry["depth"], "depth", "stabilization", depth, img, initPil)])
              + (if IsDisabled(edge) then [] else [Built(registry["edge"], "edge", "stabilization", edge, img, initPil)]))
  {
    var context := "stabilization";
    var d := BuildOne(DirectStabilizationWeight, params, context, img, registry, initPil);
    var p := BuildOne(DepthStabilizationWeight, params, context, img, registry, initPil);
    var e := BuildOne(EdgeStabilizationWeight, params, context, img, registry, initPil);
    StabilizationTermsJoin(img, initPil, params, registry);
    BuildOneOf(DirectStabilizationWeight, params, context, img, registry, initPil);
    BuildOneOf(DepthStabilizationWeight, params, context, img, registry, initPil);
    BuildOneOf(EdgeStabilizationWeight, params, context, img, registry, initPil);
    PrependThree(d, p, e);
  }

  /** Joining three contributions of which the first cannot fail: the first
      exception among the other two wins, else the terms are concatenated. */
  lemma PrependThree(d: Result<seq<LossTerm>>, p: Result<seq<LossTerm>>, e: Result<seq<LossTerm>>)
    requires d.Ok?
    ensures Prepend(d, Prepend(p, Prepend(e, Ok([])))) ==
      if p.Err? then p else if e.Err? then e else Ok(d.value + p.value + e.value)
  {
    if p.Ok? && e.Ok? {
      assert e.value + [] == e.value;
      assert d.value + (p.value + e.value) == d.value + p.value + e.value;
    }
  }

  /** `configure_stabilization_augs(img, init_image_pil, params, loss_augs)`:
      on success the built terms are appended; a raised exception leaves the
      list as it was. */
  method ConfigureStabilizationAugs(img: Image, initPil: Option<PilImage>, params: RunParams,
                                    augs: LossAugList, registry: map<string, LossClass>)
    returns (r: Result<seq<LossTerm>>)
    modifies augs
    ensures r == StabilizationTerms(img, initPil, params, registry)
    ensures augs.terms == old(augs.terms) + (if r.Ok? then r.value else [])
  {
    r := StabilizationTerms(img, initPil, params, registry);
    if r.Ok? {
      augs.Extend(r.value);
    }
  }

  // ---------------------------------------------------------------------
  // configure_optical_flows
  // ---------------------------------------------------------------------

  const VideoSource := "Video Source"
  const ThreeD := "3D"

  function Pow2(i: nat): (p: nat)
    ensures p >= 1
  {
    if i == 0 then 1 else 2 * Pow2(i - 1)
  }

  lemma {:induction false} Pow2Increasing(i: nat, j: nat)
    requires i < j
    ensures Pow2(i) < Pow2(j)
  {
    if i + 1 < j {
      Pow2Increasing(i, j - 1);
    }
  }

  /** The frame the `i`-th Video Source term looks back to: Python's `-2**i`,
      which is `-(2**i)`. */
  function FrameOffset(i: nat): int {
    -(Pow2(i) as int)
  }

  /** The display name of the `i`-th Video Source term. */
  function FlowName(i: nat, weight: string): string {
    "optical flow stabilization (frame " + IntToString(FrameOffset(i)) + "):" + weight
  }

  /** `len(range(n + 1))`. */
  function FlowCount(n: int): nat {
    if n + 1 <= 0 then 0 else n + 1
  }

  /** The Video Source terms: `n + 1` disabled `OpticalFlowLoss` terms
      without target, the `i`-th looking back `2**i` frames. */
  function VideoFlowTerms(n: int, weight: string, shape: Shape): seq<LossTerm> {
    seq(FlowCount(n), i requires 0 <= i < FlowCount(n) =>
      TargetImageLoss(OpticalFlowLoss, FlowName(i, weight), shape, None, false))
  }

  /** The 3D term. */
  function ThreeDFlowTerm(weight: string, shape: Shape): LossTerm {
    TargetImageLoss(TargetFlowLoss, "optical flow stabilization:" + weight, shape, None, false)
  }

  /** The weight after the Video Source rewrite of `""` to `"0"`. */
  function NormalisedFlowWeight(mode: string, weight: string): string {
    if mode == VideoSource && weight == "" then "0" else weight
  }

  /** The `optical_flows` list for a mode and an (already normalised) weight. */
  function OpticalFlowTerms(mode: string, weight: string, n: int, shape: Shape): seq<LossTerm> {
    if mode == VideoSource then VideoFlowTerms(n, weight, shape)
    else if mode == ThreeD && !IsDisabled(weight) then [ThreeDFlowTerm(weight, shape)]
    else []
  }

  /** The TV smoothing term appended when the smoothing weight is not 0. */
  function SmoothingTerms(weight: real): seq<LossTerm> {
    if weight != 0.0 then [TVLoss(weight, true)] else []
  }

  /** Every Video Source term carries the name of its frame offset, has no
      target yet and starts disabled, whatever the weight. */
  lemma VideoFlowTermsAt(n: int, weight: string, shape: Shape, i: nat)
    requires i < FlowCount(n)
    ensures var t := VideoFlowTerms(n, weight, shape)[i];
      && t.TargetImageLoss? && t.cls == OpticalFlowLoss && t.shape == shape
      && t.target == None && !t.enabled && t.name == FlowName(i, weight)
  {
  }

  /** The Video Source terms carry pairwise different names, so the
      look-back offset of every term can be told from its name. */
  lemma VideoFlowNamesDistinct(n: int, weight: string, shape: Shape, i: nat, j: nat)
    requires i < j < FlowCount(n)
    ensures VideoFlowTerms(n, weight, shape)[i].name != VideoFlowTerms(n, weight, shape)[j].name
  {
    var head := "optical flow stabilization (frame ";
    var a, b := IntToString(FrameOffset(i)), IntToString(FrameOffset(j));
    var ni, nj := FlowName(i, weight), FlowName(j, weight);
    assert VideoFlowTerms(n, weight, shape)[i].name == ni;
    assert VideoFlowTerms(n, weight, shape)[j].name == nj;
    if ni == nj {
      assert |a| == |b|;
      assert a == ni[|head|..|head| + |a|];
      assert b == nj[|head|..|head| + |b|];
      IntToStringInjective(FrameOffset(i), FrameOffset(j));
      Pow2Increasing(i, j);
      assert false;
    }
  }

  /** The optical-flow list never holds an enabled term or a smoothing term,
      and its length is fixed by the mode: `n + 1` for Video Source, one for
      3D with a live weight, none otherwise. */
  lemma OpticalFlowTermsShape(mode: string, weight: string, n: int, shape: Shape)
    ensures var flows := OpticalFlowTerms(mode, weight, n, shape);
      && |flows| == (if mode == VideoSource then FlowCount(n)
                     else if mode == ThreeD && !IsDisabled(weight) then 1 else 0)
      && forall t :: t in flows ==> t.TargetImageLoss? && !t.enabled && t.target == None && t.shape == shape
  {
    var flows := OpticalFlowTerms(mode, weight, n, shape);
    if mode == VideoSource {
      forall t | t in flows ensures t.TargetImageLoss? && !t.enabled && t.target == None && t.shape == shape {
        var i :| 0 <= i < |flows| && flows[i] == t;
        VideoFlowTermsAt(n, weight, shape, i);
      }
    }
  }

  /** `for optical_flow in optical_flows: optical_flow.set_enabled(False)`. */
  method DisableAll(terms: seq<LossTerm>) returns (disabled: seq<LossTerm>)
    ensures |disabled| == |terms|
    ensures forall i :: 0 <= i < |terms| ==> disabled[i] == terms[i].(enabled := false)
  {
    disabled := terms;
    var k := 0;
    while k < |disabled|
      invariant 0 <= k <= |disabled| == |terms|
      invariant forall i :: 0 <= i < k ==> disabled[i] == terms[i].(enabled := false)
      invariant forall i :: k <= i < |terms| ==> disabled[i] == terms[i]
    {
      disabled := disabled[k := disabled[k].(enabled := false)];
      k := k + 1;
    }
  }

  /** The Video Source branch: build one `OpticalFlowLoss` term per
      `i in range(n + 1)`, then disable them all. */
  method NewVideoFlowTerms(n: int, weight: string, shape: Shape) returns (flows: seq<LossTerm>)
    ensures flows == VideoFlowTerms(n, weight, shape)
  {
    var built := [];
    var i := 0;
    while i < FlowCount(n)
      invariant 0 <= i <= FlowCount(n)
      invariant |built| == i
      invariant forall j :: 0 <= j < i ==> built[j] == TargetImageLoss(OpticalFlowLoss, FlowName(j, weight), shape, None, true)
    {
      built := built + [TargetImageLoss(OpticalFlowLoss, FlowName(i, weight), shape, None, true)];
      i := i + 1;
    }
    flows := DisableAll(built);
    forall j | 0 <= j < |flows| ensures flows[j] == VideoFlowTerms(n, weight, shape)[j] {
      VideoFlowTermsAt(n, weight, shape, j);
    }
  }

  /** `configure_optical_flows(img, params, loss_augs)`: returns the
      optical-flow terms, which it also appends to `loss_augs`, followed by
      the smoothing term when there is one. */
  method ConfigureOpticalFlows(img: Image, params: RunParams, augs: LossAugList) returns (flows: seq<LossTerm>)
    modifies params`flowStabilizationWeight, augs
    ensures params.flowStabilizationWeight == NormalisedFlowWeight(params.animationMode, old(params.flowStabilizationWeight))
    ensures flows == OpticalFlowTerms(params.animationMode, params.flowStabilizationWeight, params.flowLongTermSamples, img.shape)
    ensures augs.terms == old(augs.terms) + flows + SmoothingTerms(params.smoothingWeight)
  {
    if params.animationMode == VideoSource {
      if params.flowStabilizationWeight == "" {
        params.flowStabilizationWeight := "0";
      }
      flows := NewVideoFlowTerms(params.flowLongTermSamples, params.flowStabilizationWeight, img.shape);
      augs.Extend(flows);
    } else if params.animationMode == ThreeD && !IsDisabled(params.flowStabilizationWeight) {
      var built := [TargetImageLoss(TargetFlowLoss, "optical flow stabilization:" + params.flowStabilizationWeight, img.shape, None, true)];
      flows := DisableAll(built);
      augs.Extend(flows);
    } else {
      flows := [];
    }
    if params.smoothingWeight != 0.0 {
      augs.Append(TVLoss(params.smoothingWeight, true));
    }
  }

  /** The worked example: Video Source with two long-term samples and weight
      "1.0" looks back 1, 2 and 4 frames with three disabled terms. */
  lemma VideoSourceExample(shape: Shape)
    ensures OpticalFlowTerms(VideoSource, "1.0", 2, shape) == [
      TargetImageLoss(OpticalFlowLoss, "optical flow stabilization (frame -1):1.0", shape, None, false),
      TargetImageLoss(OpticalFlowLoss, "optical flow stabilization (frame -2):1.0", shape, None, false),
      TargetImageLoss(OpticalFlowLoss, "optical flow stabilization (frame -4):1.0", shape, None, false)]
  {
    var flows := OpticalFlowTerms(VideoSource, "1.0", 2, shape);
    assert |flows| == 3;
    assert Pow2(0) == 1 && Pow2(1) == 2 && Pow2(2) == 4;
    assert IntToString(-1) == "-1" && IntToString(-2) == "-2" && IntToString(-4) == "-4";
    VideoFlowTermsAt(2, "1.0", shape, 0);
    VideoFlowTermsAt(2, "1.0", shape, 1);
    VideoFlowTermsAt(2, "1.0", shape, 2);
    assert FlowName(0, "1.0") == "optical flow stabilization (frame -1):1.0";
    assert FlowName(1, "1.0") == "optical flow stabilization (frame -2):1.0";
    assert FlowName(2, "1.0") == "optical flow stabilization (frame -4):1.0";
  }
}
