/**
 * The structure of a Wide ResNet: the depth check, the three stages of wide basic blocks with
 * their strides and shortcuts, the channel count threaded through them, and which
 * initialisation rule the presets apply. Tensor arithmetic is not modelled.
 */
module WideResNet {
  import opened Outcomes
  import opened LayerInit

  datatype BuildError = DepthNotSixNPlusFour(depth: int)

  /** The residual path of a block: the identity, or a 1x1 convolution with the block's stride. */
  datatype Shortcut = Identity | Projection(inPlanes: int, planes: int, stride: int)

  /**
   * A wide basic block: bn1 over `inPlanes`, conv1 from `inPlanes` to `planes`, dropout, bn2,
   * conv2 from `planes` to `planes` with `stride`, and the shortcut.
   */
  datatype WideBasic = WideBasic(inPlanes: int, planes: int, dropoutRate: real, stride: int, leak: bool, shortcut: Shortcut)

  /** The WideBasic constructor: a projection shortcut exactly when the stride or the width changes. */
  function NewWideBasic(inPlanes: int, planes: int, dropoutRate: real, stride: int, leak: bool): (b: WideBasic)
    ensures b.inPlanes == inPlanes && b.planes == planes && b.stride == stride
    ensures b.dropoutRate == dropoutRate && b.leak == leak
    ensures b.shortcut.Identity? <==> stride == 1 && inPlanes == planes
    ensures b.shortcut.Projection? ==> b.shortcut == Projection(inPlanes, planes, stride)
  {
    var shortcut := if stride != 1 || inPlanes != planes then Projection(inPlanes, planes, stride) else Identity;
    WideBasic(inPlanes, planes, dropoutRate, stride, leak, shortcut)
  }

  /** The channels and the stride of what the shortcut delivers to the residual sum. */
  function ShortcutOutput(b: WideBasic): (int, int)
  {
    match b.shortcut
    case Identity => (b.inPlanes, 1)
    case Projection(_, p, s) => (p, s)
  }

  /**
   * The shortcut always delivers what the main path does (`planes` channels at the block's
   * stride), so the residual sum is well shaped, and it is the identity whenever that suffices.
   */
  lemma ShortcutMatchesMainPath(inPlanes: int, planes: int, dropoutRate: real, stride: int, leak: bool)
    ensures ShortcutOutput(NewWideBasic(inPlanes, planes, dropoutRate, stride, leak)) == (planes, stride)
    ensures (inPlanes, 1) == (planes, stride) ==> NewWideBasic(inPlanes, planes, dropoutRate, stride, leak).shortcut.Identity?
  {
  }

  /** The depth check: depth must be 6n + 4, and then each stage is built from n. */
  function BlocksPerStage(depth: int): (r: Result<int, BuildError>)
    ensures r.Ok? <==> (depth - 4) % 6 == 0
    ensures r.Ok? ==> 6 * r.value + 4 == depth
    ensures r.Err? ==> r.error == DepthNotSixNPlusFour(depth)
  {
    if (depth - 4) % 6 == 0 then Ok((depth - 4) / 6) else Err(DepthNotSixNPlusFour(depth))
  }

  /**
   * The strides of a stage's blocks: the stage stride, then n - 1 ones. Repeating a list a
   * negative number of times gives the empty list, so a stage always has at least one block.
   */
  function StageStrides(stride: int, n: int): (s: seq<int>)
    ensures |s| == Max0(n - 1) + 1 && |s| >= 1 && (n >= 1 ==> |s| == n)
    ensures s[0] == stride && forall i :: 1 <= i < |s| ==> s[i] == 1
  {
    [stride] + seq(Max0(n - 1), _ => 1)
  }

  /** The blocks `_wide_layer` builds for `strides`, entered with `inPlanes` channels. */
  function StageBlocks(inPlanes: int, planes: int, strides: seq<int>, dropoutRate: real, leak: bool): (bs: seq<WideBasic>)
    ensures |bs| == |strides|
    ensures forall i :: 0 <= i < |bs| ==> bs[i].planes == planes
    decreases |strides|
  {
    if strides == [] then []
    else [NewWideBasic(inPlanes, planes, dropoutRate, strides[0], leak)] + StageBlocks(planes, planes, strides[1..], dropoutRate, leak)
  }

  /** Block i of a stage has the i-th stride; the first is entered with `inPlanes`, every later one with `planes`. */
  lemma {:induction false} StageBlocksAt(inPlanes: int, planes: int, strides: seq<int>, dropoutRate: real, leak: bool)
    ensures |StageBlocks(inPlanes, planes, strides, dropoutRate, leak)| == |strides|
    ensures forall i :: 0 <= i < |strides| ==>
              StageBlocks(inPlanes, planes, strides, dropoutRate, leak)[i]
              == NewWideBasic(if i == 0 then inPlanes else planes, planes, dropoutRate, strides[i], leak)
    decreases |strides|
  {
    if strides != [] {
      StageBlocksAt(planes, planes, strides[1..], dropoutRate, leak);
      var l := StageBlocks(inPlanes, planes, strides, dropoutRate, leak);
      forall i | 1 <= i < |strides|
        ensures l[i] == StageBlocks(planes, planes, strides[1..], dropoutRate, leak)[i - 1] && strides[i] == strides[1..][i - 1]
      {
      }
    }
  }

  /**
   * A stage of n blocks (at least one): every block outputs `planes` channels; only the first
   * carries the stage stride and can project; every later block is entered with `planes`
   * channels at stride 1 and keeps the identity shortcut.
   */
  lemma StageShape(inPlanes: int, planes: int, stride: int, n: int, dropoutRate: real, leak: bool)
    ensures var l := StageBlocks(inPlanes, planes, StageStrides(stride, n), dropoutRate, leak);
      && |l| == Max0(n - 1) + 1
      && l[0].inPlanes == inPlanes && l[0].stride == stride
      && (l[0].shortcut.Identity? <==> stride == 1 && inPlanes == planes)
      && (forall i :: 0 <= i < |l| ==> l[i].planes == planes)
      && (forall i :: 1 <= i < |l| ==> l[i].inPlanes == planes && l[i].stride == 1 && l[i].shortcut.Identity?)
  {
    StageBlocksAt(inPlanes, planes, StageStrides(stride, n), dropoutRate, leak);
  }

  datatype Conv3x3 = Conv3x3(inPlanes: int, outPlanes: int, stride: int)
  datatype BatchNorm = BatchNorm(width: int, momentum: real)
  datatype Linear = Linear(inFeatures: int, outFeatures: int)

  class WideResNet {
    var inPlanes: int
    var leak: bool
    var conv1: Conv3x3
    var layer1: seq<WideBasic>
    var layer2: seq<WideBasic>
    var layer3: seq<WideBasic>
    var bn1: BatchNorm
    var linear: Linear

    /** The network built with n blocks per stage and widen factor k. */
    predicate Built(numClasses: int, n: int, k: int, dropoutRate: real, leak: bool)
      reads this
    {
      && this.leak == leak
      && conv1 == Conv3x3(3, 16, 1)
      && layer1 == StageBlocks(16, 16 * k, StageStrides(1, n), dropoutRate, leak)
      && layer2 == StageBlocks(16 * k, 32 * k, StageStrides(2, n), dropoutRate, leak)
      && layer3 == StageBlocks(32 * k, 64 * k, StageStrides(2, n), dropoutRate, leak)
      && bn1 == BatchNorm(64 * k, 0.9)
      && linear == Linear(64 * k, numClasses)
      && inPlanes == 64 * k
    }

    /** The constructor, once the depth check has passed. */
    constructor (numClasses: int, depth: int, widenFactor: int, dropoutRate: real, leak: bool)
      requires BlocksPerStage(depth).Ok?
      ensures Built(numClasses, (depth - 4) / 6, widenFactor, dropoutRate, leak)
    {
      inPlanes := 16;
      this.leak := leak;
      var n := (depth - 4) / 6;
      var k := widenFactor;
      var nstages := [16, 16 * k, 32 * k, 64 * k];
      conv1 := Conv3x3(3, nstages[0], 1);
      new;
      var l1 := WideLayer(nstages[1], n, dropoutRate, 1, leak);
      var l2 := WideLayer(nstages[2], n, dropoutRate, 2, leak);
      var l3 := WideLayer(nstages[3], n, dropoutRate, 2, leak);
      layer1, layer2, layer3 := l1, l2, l3;
      bn1 := BatchNorm(nstages[3], 0.9);
      linear := Linear(nstages[3], numClasses);
    }

    /** `_wide_layer`: one block per stride, each entered with the current `inPlanes`, which then becomes `planes`. */
    method WideLayer(planes: int, numBlocks: int, dropoutRate: real, stride: int, leak: bool) returns (layers: seq<WideBasic>)
      modifies this`inPlanes
      ensures layers == StageBlocks(old(inPlanes), planes, StageStrides(stride, numBlocks), dropoutRate, leak)
      ensures inPlanes == planes
    {
      var strides := StageStrides(stride, numBlocks);
      layers := [];
      for i := 0 to |strides|
        invariant layers + StageBlocks(inPlanes, planes, strides[i..], dropoutRate, leak)
                  == StageBlocks(old(inPlanes), planes, strides, dropoutRate, leak)
        invariant i > 0 ==> inPlanes == planes
      {
        assert strides[i..][1..] == strides[i + 1..];
        var block := NewWideBasic(inPlanes, planes, dropoutRate, strides[i], leak);
        assert StageBlocks(inPlanes, planes, strides[i..], dropoutRate, leak)
               == [block] + StageBlocks(planes, planes, strides[i + 1..], dropoutRate, leak);
        assert layers + [block] + StageBlocks(planes, planes, strides[i + 1..], dropoutRate, leak)
               == layers + ([block] + StageBlocks(planes, planes, strides[i + 1..], dropoutRate, leak));
        layers := layers + [block];
        inPlanes := planes;
      }
      assert strides[|strides|..] == [];
    }
  }

  /**
   * The three stages of a network with n blocks per stage and widen factor k thread their widths:
   * the first block sees the 16 channels of conv1, each stage is entered with the width the
   * previous one ends with, and the last ends with 64k, the width of bn1 and the classifier.
   * The first block of stage 1 projects exactly when k is not 1; those of stages 2 and 3 always
   * project (stride 2); all other blocks keep the identity.
   */
  lemma StagesThread(n: int, k: int, dropoutRate: real, leak: bool)
    ensures var l1 := StageBlocks(16, 16 * k, StageStrides(1, n), dropoutRate, leak);
      var l2 := StageBlocks(16 * k, 32 * k, StageStrides(2, n), dropoutRate, leak);
      var l3 := StageBlocks(32 * k, 64 * k, StageStrides(2, n), dropoutRate, leak);
      && |l1| == |l2| == |l3| == Max0(n - 1) + 1
      && l1[0].inPlanes == 16
      && l2[0].inPlanes == l1[|l1| - 1].planes
      && l3[0].inPlanes == l2[|l2| - 1].planes
      && l3[|l3| - 1].planes == 64 * k
      && (l1[0].shortcut.Projection? <==> k != 1)
      && l2[0].shortcut.Projection? && l3[0].shortcut.Projection?
      && (forall i :: 1 <= i < |l1| ==> l1[i].shortcut.Identity? && l2[i].shortcut.Identity? && l3[i].shortcut.Identity?)
  {
    StageShape(16, 16 * k, 1, n, dropoutRate, leak);
    StageShape(16 * k, 32 * k, 2, n, dropoutRate, leak);
    StageShape(32 * k, 64 * k, 2, n, dropoutRate, leak);
  }

  /** Depths 4, 10 and any admissible depth below 4 still build one block per stage. */
  lemma ShallowDepthsKeepOneBlock(depth: int, stride: int)
    requires BlocksPerStage(depth).Ok? && depth <= 10
    ensures |StageStrides(stride, BlocksPerStage(depth).value)| == 1
  {
  }

  /**
   * The WideResNet constructor with its depth check: an error exactly when the depth is not
   * 6n + 4, and otherwise the network built with n blocks per stage.
   */
  method NewWideResNet(numClasses: int, depth: int, widenFactor: int, dropoutRate: real, leak: bool)
    returns (r: Result<WideResNet, BuildError>)
    ensures r.Err? <==> (depth - 4) % 6 != 0
    ensures r.Err? ==> r.error == DepthNotSixNPlusFour(depth)
    ensures r.Ok? ==> fresh(r.value) && r.value.Built(numClasses, (depth - 4) / 6, widenFactor, dropoutRate, leak)
  {
    var blocks := BlocksPerStage(depth);
    if blocks.Err? {
      return Err(blocks.error);
    }
    var net := new WideResNet(numClasses, depth, widenFactor, dropoutRate, leak);
    return Ok(net);
  }

  // ---------------------------------------------------------------------------------------------
  // Initialisation of a built network

  /** Every module of a block, the block itself first. */
  function BlockModules(b: WideBasic): seq<Layer>
  {
    [Layer("WideBasic", Absent, Absent), Layer("BatchNorm2d", Default, Default), Layer("Conv2d", Default, Default),
     Layer("Dropout", Absent, Absent), Layer("BatchNorm2d", Default, Default), Layer("Conv2d", Default, Default),
     Layer("Sequential", Absent, Absent)]
    + if b.shortcut.Projection? then [Layer("Conv2d", Default, Default)] else []
  }

  /** The modules of a stage's blocks, block after block. */
  function StageModules(blocks: seq<WideBasic>): seq<Layer>
    decreases |blocks|
  {
    if blocks == [] then [] else BlockModules(blocks[0]) + StageModules(blocks[1..])
  }

  /** Every module of a network, the network itself first (every convolution has a bias). */
  function NetModules(layer1: seq<WideBasic>, layer2: seq<WideBasic>, layer3: seq<WideBasic>): seq<Layer>
  {
    [Layer("WideResNet", Absent, Absent), Layer("Conv2d", Default, Default)]
    + [Layer("Sequential", Absent, Absent)] + StageModules(layer1)
    + [Layer("Sequential", Absent, Absent)] + StageModules(layer2)
    + [Layer("Sequential", Absent, Absent)] + StageModules(layer3)
    + [Layer("BatchNorm2d", Default, Default), Layer("Linear", Default, Default)]
  }

  /** Every module of `ms` accepts the class-name rule with slope `a`. */
  predicate AllInitialise(ms: seq<Layer>, a: real)
  {
    forall m :: m in ms ==> NameInit(m, a).Done?
  }

  /** The rule leaves a module alone when its class name has neither substring. */
  lemma PlainUntouched(m: Layer, a: real)
    requires !Contains(m.className, "Conv") && !Contains(m.className, "BatchNorm")
    ensures NameInit(m, a) == Done(m)
  {
  }

  /** The rule succeeds on a module whose class name has a substring it looks for when both parameters exist. */
  lemma MatchedInitialises(m: Layer, a: real)
    requires Contains(m.className, "Conv") || Contains(m.className, "BatchNorm")
    requires m.weight != Absent && m.bias != Absent
    ensures NameInit(m, a).Done?
  {
  }

  /** The kinds of module a WideResNet holds, with their parameters. */
  const Kinds: set<Layer> := {
    Layer("WideResNet", Absent, Absent), Layer("Sequential", Absent, Absent), Layer("WideBasic", Absent, Absent),
    Layer("Dropout", Absent, Absent), Layer("Linear", Default, Default), Layer("Conv2d", Default, Default),
    Layer("BatchNorm2d", Default, Default)
  }

  lemma WideResNetInitialises(a: real)
    ensures NameInit(Layer("WideResNet", Absent, Absent), a).Done?
  {
    NeitherRuleName("WideResNet");
    PlainUntouched(Layer("WideResNet", Absent, Absent), a);
  }

  lemma SequentialInitialises(a: real)
    ensures NameInit(Layer("Sequential", Absent, Absent), a).Done?
  {
    NeitherRuleName("Sequential");
    PlainUntouched(Layer("Sequential", Absent, Absent), a);
  }

  lemma WideBasicInitialises(a: real)
    ensures NameInit(Layer("WideBasic", Absent, Absent), a).Done?
  {
    NeitherRuleName("WideBasic");
    PlainUntouched(Layer("WideBasic", Absent, Absent), a);
  }

  lemma DropoutInitialises(a: real)
    ensures NameInit(Layer("Dropout", Absent, Absent), a).Done?
  {
    NeitherRuleName("Dropout");
    PlainUntouched(Layer("Dropout", Absent, Absent), a);
  }

  lemma LinearInitialises(a: real)
    ensures NameInit(Layer("Linear", Default, Default), a).Done?
  {
    NeitherRuleName("Linear");
    PlainUntouched(Layer("Linear", Default, Default), a);
  }

  lemma Conv2dInitialises(a: real)
    ensures NameInit(Layer("Conv2d", Default, Default), a).Done?
  {
    assert "Conv2d"[..4] == "Conv";
    MatchedInitialises(Layer("Conv2d", Default, Default), a);
  }

  lemma BatchNorm2dInitialises(a: real)
    ensures NameInit(Layer("BatchNorm2d", Default, Default), a).Done?
  {
    assert "BatchNorm2d"[..9] == "BatchNorm";
    MatchedInitialises(Layer("BatchNorm2d", Default, Default), a);
  }

  /** The rule succeeds on each kind of module a WideResNet holds. */
  lemma KindsInitialise(a: real)
    ensures AllKindsInitialise(a)
  {
    forall m | m in Kinds ensures NameInit(m, a).Done? {
      if m == Layer("WideResNet", Absent, Absent) {
        WideResNetInitialises(a);
      } else if m == Layer("Sequential", Absent, Absent) {
        SequentialInitialises(a);
      } else if m == Layer("WideBasic", Absent, Absent) {
        WideBasicInitialises(a);
      } else if m == Layer("Dropout", Absent, Absent) {
        DropoutInitialises(a);
      } else if m == Layer("Linear", Default, Default) {
        LinearInitialises(a);
      } else if m == Layer("Conv2d", Default, Default) {
        Conv2dInitialises(a);
      } else {
        BatchNorm2dInitialises(a);
      }
    }
  }

  predicate AllKindsInitialise(a: real)
  {
    forall m :: m in Kinds ==> NameInit(m, a).Done?
  }

  /** Every module of `ms` is of a known kind. */
  predicate WithinKinds(ms: seq<Layer>)
  {
    forall m :: m in ms ==> m in Kinds
  }

  lemma {:induction false} StageModulesWithinKinds(blocks: seq<WideBasic>)
    ensures WithinKinds(StageModules(blocks))
    decreases |blocks|
  {
    if blocks != [] {
      StageModulesWithinKinds(blocks[1..]);
    }
  }

  lemma NetModulesWithinKinds(layer1: seq<WideBasic>, layer2: seq<WideBasic>, layer3: seq<WideBasic>)
    requires WithinKinds(StageModules(layer1)) && WithinKinds(StageModules(layer2)) && WithinKinds(StageModules(layer3))
    ensures WithinKinds(NetModules(layer1, layer2, layer3))
  {
  }

  /**
   * `net.apply(conv_init)` (or the leaky rule) never meets a missing parameter in a WideResNet:
   * the rule succeeds on every module of the network.
   */
  lemma NetModulesInitialise(layer1: seq<WideBasic>, layer2: seq<WideBasic>, layer3: seq<WideBasic>, a: real)
    ensures AllInitialise(NetModules(layer1, layer2, layer3), a)
  {
    StageModulesWithinKinds(layer1);
    StageModulesWithinKinds(layer2);
    StageModulesWithinKinds(layer3);
    NetModulesWithinKinds(layer1, layer2, layer3);
    KindsInitialise(a);
  }

  // ---------------------------------------------------------------------------------------------
  // Presets

  datatype InitRule = ConvInitRule | ConvLeakInitRule

  /** The slope the rule gives Kaiming initialisation. */
  function Slope(rule: InitRule): real
  {
    match rule
    case ConvInitRule => 0.0
    case ConvLeakInitRule => 0.2
  }

  /** What a preset builds and which initialisation it applies afterwards. */
  datatype WideResNetArgs = WideResNetArgs(numClasses: int, depth: int, widenFactor: int, dropoutRate: real, leak: bool, init: InitRule)

  function WideResnet28x10(numClasses: int, dropoutRate: real): WideResNetArgs
  {
    WideResNetArgs(numClasses, 28, 10, dropoutRate, false, ConvInitRule)
  }

  function WideLeakyResnet28x10(numClasses: int, dropoutRate: real): WideResNetArgs
  {
    WideResNetArgs(numClasses, 28, 10, dropoutRate, true, ConvLeakInitRule)
  }

  function WideResnet28x12(numClasses: int, dropoutRate: real): WideResNetArgs
  {
    WideResNetArgs(numClasses, 28, 12, dropoutRate, false, ConvInitRule)
  }

  function WideResnet40x2(numClasses: int, dropoutRate: real): WideResNetArgs
  {
    WideResNetArgs(numClasses, 40, 2, dropoutRate, false, ConvInitRule)
  }

  /**
   * The presets obtain_wide_resnet knows, by name; any other name gives none, so the leaky preset
   * is never chosen by name.
   */
  function ObtainArgs(name: string, numClasses: int, dropoutRate: real): (r: Option<WideResNetArgs>)
    ensures r.Some? <==> name in {"wide_resnet28_10", "wide_resnet28_12", "wide_resnet40_2"}
    ensures r.Some? ==> !r.value.leak && r.value.init == ConvInitRule
    ensures r.Some? ==> r.value.numClasses == numClasses && r.value.dropoutRate == dropoutRate
  {
    if name == "wide_resnet28_10" then Some(WideResnet28x10(numClasses, dropoutRate))
    else if name == "wide_resnet28_12" then Some(WideResnet28x12(numClasses, dropoutRate))
    else if name == "wide_resnet40_2" then Some(WideResnet40x2(numClasses, dropoutRate))
    else None
  }

  /**
   * Every preset passes the depth check: depth 28 gives 4 blocks per stage and depth 40 gives 6,
   * and the final width 64k is 640, 640, 768 and 128.
   */
  lemma PresetsBuild(numClasses: int, dropoutRate: real)
    ensures BlocksPerStage(WideResnet28x10(numClasses, dropoutRate).depth) == Ok(4)
    ensures BlocksPerStage(WideLeakyResnet28x10(numClasses, dropoutRate).depth) == Ok(4)
    ensures BlocksPerStage(WideResnet28x12(numClasses, dropoutRate).depth) == Ok(4)
    ensures BlocksPerStage(WideResnet40x2(numClasses, dropoutRate).depth) == Ok(6)
    ensures 64 * WideResnet28x10(numClasses, dropoutRate).widenFactor == 640
    ensures 64 * WideLeakyResnet28x10(numClasses, dropoutRate).widenFactor == 640
    ensures 64 * WideResnet28x12(numClasses, dropoutRate).widenFactor == 768
    ensures 64 * WideResnet40x2(numClasses, dropoutRate).widenFactor == 128
  {
  }

  /**
   * Builds a preset and applies its initialisation rule to the network's modules, which never
   * fails; `modules` holds the initialised modules.
   */
  method BuildPreset(args: WideResNetArgs) returns (net: WideResNet, modules: array<Layer>)
    requires BlocksPerStage(args.depth).Ok?
    ensures fresh(net) && fresh(modules)
    ensures net.Built(args.numClasses, (args.depth - 4) / 6, args.widenFactor, args.dropoutRate, args.leak)
    ensures var before := NetModules(net.layer1, net.layer2, net.layer3);
      modules.Length == |before| &&
      forall i :: 0 <= i < |before| ==> Done(modules[i]) == NameInit(before[i], Slope(args.init))
  {
    net := new WideResNet(args.numClasses, args.depth, args.widenFactor, args.dropoutRate, args.leak);
    var before := NetModules(net.layer1, net.layer2, net.layer3);
    modules := new Layer[|before|](i requires 0 <= i < |before| => before[i]);
    var a := Slope(args.init);
    NetModulesInitialise(net.layer1, net.layer2, net.layer3, a);
    var ok := ApplyInit(modules, m => NameInit(m, a));
  }

  /** obtain_wide_resnet: the named preset, built and initialised; no network for any other name. */
  method ObtainWideResNet(name: string, numClasses: int, dropoutRate: real) returns (net: Option<WideResNet>)
    ensures net.Some? <==> ObtainArgs(name, numClasses, dropoutRate).Some?
    ensures net.Some? ==>
              var a := ObtainArgs(name, numClasses, dropoutRate).value;
              fresh(net.value) && net.value.Built(numClasses, (a.depth - 4) / 6, a.widenFactor, dropoutRate, false)
  {
    var args := ObtainArgs(name, numClasses, dropoutRate);
    if args.None? {
      return None;
    }
    PresetsBuild(numClasses, dropoutRate);
    var built, _ := BuildPreset(args.value);
    return Some(built);
  }
}
