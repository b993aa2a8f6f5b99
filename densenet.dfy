/**
 * The structure of a DenseNet-BC network: the named modules of its feature extractor, the
 * width each one sees, and the classifier. Convolution arithmetic and the inside of the dense
 * blocks and transitions (library modules) are not modelled.
 */
module DenseNet {
  import opened Outcomes
  import opened LayerInit

  /** One named module of `features`; `index` is the 1-based number in "denseblock<i>" / "transition<i>". */
  datatype FeatureModule =
    | Conv0(inChannels: int, outChannels: int, kernel: int, stride: int, padding: int)
    | Norm0(width: int)
    | Relu0
    | Pool0(kernel: int, stride: int, padding: int)
    | DenseBlock(index: int, numLayers: int, inFeatures: int, bnSize: int, growthRate: int, dropRate: real)
    | Transition(index: int, inFeatures: int, outFeatures: int)
    | Norm5(width: int)

  datatype Classifier = Linear(inFeatures: int, outFeatures: int)

  /** The first convolution, alone for small inputs, otherwise followed by norm0, relu0 and pool0. */
  function Stem(numInitFeatures: int, smallInputs: bool): (s: seq<FeatureModule>)
    ensures |s| == if smallInputs then 1 else 4
    ensures smallInputs ==> s[0] == Conv0(3, numInitFeatures, 3, 1, 1)
    ensures !smallInputs ==> s[0] == Conv0(3, numInitFeatures, 7, 2, 3) && s[1] == Norm0(numInitFeatures)
                             && s[2] == Relu0 && s[3] == Pool0(3, 2, 1)
    ensures forall k :: 0 < k < |s| ==> !s[k].Conv0? && !s[k].DenseBlock? && !s[k].Transition?
  {
    if smallInputs then [Conv0(3, numInitFeatures, 3, 1, 1)]
    else [Conv0(3, numInitFeatures, 7, 2, 3), Norm0(numInitFeatures), Relu0, Pool0(3, 2, 1)]
  }

  /**
   * The width after the blocks `blocks`, entered with `width`: each block adds numLayers * growth,
   * and every block but the last is followed by a transition that halves the width (rounding down).
   */
  function FoldWidth(blocks: seq<int>, width: int, growth: int): (w: int)
    ensures width >= 0 && growth >= 0 && (forall i :: 0 <= i < |blocks| ==> blocks[i] >= 0) ==> w >= 0
    decreases |blocks|
  {
    if blocks == [] then width
    else if |blocks| == 1 then width + blocks[0] * growth
    else FoldWidth(blocks[1..], (width + blocks[0] * growth) / 2, growth)
  }

  /** The dense blocks and transitions built for `blocks`, numbered from `index`, entered with `width`. */
  function Layout(blocks: seq<int>, index: int, width: int, growth: int, bnSize: int, dropRate: real): (l: seq<FeatureModule>)
    ensures forall k :: 0 <= k < |l| ==> l[k].DenseBlock? || l[k].Transition?
    decreases |blocks|
  {
    if blocks == [] then []
    else
      var grown := width + blocks[0] * growth;
      [DenseBlock(index, blocks[0], width, bnSize, growth, dropRate)]
      + if |blocks| == 1 then []
        else [Transition(index, grown, grown / 2)] + Layout(blocks[1..], index + 1, grown / 2, growth, bnSize, dropRate)
  }

  /** Dense block j + 1 of a layout (0-based j). */
  function BlockAt(l: seq<FeatureModule>, j: int): FeatureModule
    requires 0 <= j && 2 * j < |l|
  {
    l[2 * j]
  }

  /** The transition after dense block j + 1 of a layout (0-based j). */
  function TransitionAt(l: seq<FeatureModule>, j: int): FeatureModule
    requires 0 <= j && 2 * j + 1 < |l|
  {
    l[2 * j + 1]
  }

  /** The width entering block j + 1 (0-based j) of `blocks`, entered with `width`. */
  function WidthBefore(blocks: seq<int>, width: int, growth: int, j: nat): int
    requires j < |blocks|
    decreases j
  {
    if j == 0 then width else WidthBefore(blocks[1..], (width + blocks[0] * growth) / 2, growth, j - 1)
  }

  /** Read from the left: each block's entry width is half what the block before it ends with. */
  lemma {:induction false} WidthBeforeStep(blocks: seq<int>, width: int, growth: int, j: nat)
    requires j + 1 < |blocks|
    ensures WidthBefore(blocks, width, growth, j + 1) == (WidthBefore(blocks, width, growth, j) + blocks[j] * growth) / 2
    decreases j
  {
    if j > 0 {
      WidthBeforeStep(blocks[1..], (width + blocks[0] * growth) / 2, growth, j - 1);
      assert blocks[1..][j - 1] == blocks[j];
    }
  }

  /** The final width is what the last block ends with. */
  lemma {:induction false} FoldWidthLast(blocks: seq<int>, width: int, growth: int)
    requires blocks != []
    ensures FoldWidth(blocks, width, growth) == WidthBefore(blocks, width, growth, |blocks| - 1) + blocks[|blocks| - 1] * growth
    decreases |blocks|
  {
    if |blocks| > 1 {
      FoldWidthLast(blocks[1..], (width + blocks[0] * growth) / 2, growth);
      assert blocks[1..][|blocks| - 2] == blocks[|blocks| - 1];
    }
  }

  /**
   * The layout interleaves the blocks and transitions: dense block j+1 at position 2j with the
   * j-th entry of `blocks` and its entry width, transition j+1 right after it taking the width that
   * block ends with and halving it, and no transition after the last block.
   */
  lemma {:induction false} LayoutAt(blocks: seq<int>, index: int, width: int, growth: int, bnSize: int, dropRate: real)
    ensures |Layout(blocks, index, width, growth, bnSize, dropRate)| == if blocks == [] then 0 else 2 * |blocks| - 1
    ensures forall j :: 0 <= j < |blocks| ==>
              BlockAt(Layout(blocks, index, width, growth, bnSize, dropRate), j)
              == DenseBlock(index + j, blocks[j], WidthBefore(blocks, width, growth, j), bnSize, growth, dropRate)
    ensures forall j :: 0 <= j < |blocks| - 1 ==>
              var grown := WidthBefore(blocks, width, growth, j) + blocks[j] * growth;
              TransitionAt(Layout(blocks, index, width, growth, bnSize, dropRate), j) == Transition(index + j, grown, grown / 2)
    decreases |blocks|
  {
    if |blocks| > 1 {
      var grown := width + blocks[0] * growth;
      var rest := Layout(blocks[1..], index + 1, grown / 2, growth, bnSize, dropRate);
      LayoutAt(blocks[1..], index + 1, grown / 2, growth, bnSize, dropRate);
      var l := Layout(blocks, index, width, growth, bnSize, dropRate);
      assert l == [DenseBlock(index, blocks[0], width, bnSize, growth, dropRate), Transition(index, grown, grown / 2)] + rest;
      forall j | 1 <= j < |blocks|
        ensures BlockAt(l, j) == BlockAt(rest, j - 1) && blocks[j] == blocks[1..][j - 1]
      {
      }
      forall j | 1 <= j < |blocks| - 1
        ensures TransitionAt(l, j) == TransitionAt(rest, j - 1)
      {
      }
    }
  }

  /**
   * The widths thread through the layout: the first block is entered with the initial width,
   * each block after a transition is entered with that transition's output width, and the last
   * block ends with the folded width that norm5 and the classifier take.
   */
  lemma WidthsThread(blocks: seq<int>, index: int, width: int, growth: int, bnSize: int, dropRate: real)
    requires blocks != []
    ensures |Layout(blocks, index, width, growth, bnSize, dropRate)| == 2 * |blocks| - 1
    ensures var b := BlockAt(Layout(blocks, index, width, growth, bnSize, dropRate), 0);
      b.DenseBlock? && b.inFeatures == width
    ensures forall j :: 0 <= j < |blocks| - 1 ==>
              var l := Layout(blocks, index, width, growth, bnSize, dropRate);
              TransitionAt(l, j).Transition? && BlockAt(l, j + 1).DenseBlock?
              && BlockAt(l, j + 1).inFeatures == TransitionAt(l, j).outFeatures
    ensures var b := BlockAt(Layout(blocks, index, width, growth, bnSize, dropRate), |blocks| - 1);
      b.DenseBlock? && b.inFeatures + b.numLayers * growth == FoldWidth(blocks, width, growth)
  {
    LayoutAt(blocks, index, width, growth, bnSize, dropRate);
    FoldWidthLast(blocks, width, growth);
    forall j | 0 <= j < |blocks| - 1
      ensures WidthBefore(blocks, width, growth, j + 1) == (WidthBefore(blocks, width, growth, j) + blocks[j] * growth) / 2
    {
      WidthBeforeStep(blocks, width, growth, j);
    }
  }

  /** The channels leaving module `m` when `c` enter it, or none when `m` is built for another count. */
  function ModuleChannels(m: FeatureModule, c: int): Option<int>
  {
    match m
    case Conv0(i, o, _, _, _) => if i == c then Some(o) else None
    case Norm0(w) => if w == c then Some(c) else None
    case Relu0 => Some(c)
    case Pool0(_, _, _) => Some(c)
    case DenseBlock(_, n, i, _, g, _) => if i == c then Some(c + n * g) else None
    case Transition(_, i, o) => if i == c then Some(o) else None
    case Norm5(w) => if w == c then Some(c) else None
  }

  /** The channels leaving a chain of modules entered with `c`, or none when some module does not fit. */
  function Channels(ms: seq<FeatureModule>, c: int): Option<int>
    decreases |ms|
  {
    if ms == [] then Some(c)
    else if ModuleChannels(ms[0], c).None? then None
    else Channels(ms[1..], ModuleChannels(ms[0], c).value)
  }

  lemma {:induction false} ChannelsConcat(a: seq<FeatureModule>, b: seq<FeatureModule>, c: int)
    ensures Channels(a + b, c) == if Channels(a, c).None? then None else Channels(b, Channels(a, c).value)
    decreases |a|
  {
    if a != [] {
      assert (a + b)[0] == a[0] && (a + b)[1..] == a[1..] + b;
      if ModuleChannels(a[0], c).Some? {
        var d := ModuleChannels(a[0], c).value;
        ChannelsConcat(a[1..], b, d);
        assert Channels(a + b, c) == Channels(a[1..] + b, d);
        assert Channels(a, c) == Channels(a[1..], d);
      } else {
        assert a + b != [];
        assert Channels(a + b, c) == None;
      }
    } else {
      assert a + b == b;
    }
  }

  /** The stem takes the 3 input channels to num_init_features, whichever form it has. */
  lemma StemChannels(numInitFeatures: int, smallInputs: bool)
    ensures Channels(Stem(numInitFeatures, smallInputs), 3) == Some(numInitFeatures)
  {
    var s := Stem(numInitFeatures, smallInputs);
    if !smallInputs {
      assert s[1..][1..][1..][1..] == [];
      assert Channels(s[1..][1..][1..], numInitFeatures) == Some(numInitFeatures);
      assert Channels(s[1..], numInitFeatures) == Some(numInitFeatures);
    } else {
      assert s[1..] == [];
    }
  }

  /** Every dense block and transition of the layout is built for the channels it receives, and it ends with the folded width. */
  lemma {:induction false} LayoutChannels(blocks: seq<int>, index: int, width: int, growth: int, bnSize: int, dropRate: real)
    ensures Channels(Layout(blocks, index, width, growth, bnSize, dropRate), width) == Some(FoldWidth(blocks, width, growth))
    decreases |blocks|
  {
    var l := Layout(blocks, index, width, growth, bnSize, dropRate);
    if blocks != [] {
      var grown := width + blocks[0] * growth;
      var block := DenseBlock(index, blocks[0], width, bnSize, growth, dropRate);
      if |blocks| == 1 {
        assert l == [block] && l[1..] == [];
      } else {
        var rest := Layout(blocks[1..], index + 1, grown / 2, growth, bnSize, dropRate);
        var head := [block, Transition(index, grown, grown / 2)];
        assert l == head + rest;
        assert head[1..] == [Transition(index, grown, grown / 2)] && head[1..][1..] == [];
        assert Channels(head[1..], grown) == Some(grown / 2);
        assert Channels(head, width) == Some(grown / 2);
        ChannelsConcat(head, rest, width);
        LayoutChannels(blocks[1..], index + 1, grown / 2, growth, bnSize, dropRate);
      }
    }
  }

  /**
   * The feature extractor fits together: 3 input channels go through the stem, the blocks and
   * transitions and norm5, and leave with the folded width that the classifier is built for.
   */
  lemma FeaturesChannels(growthRate: int, blockConfig: seq<int>, numInitFeatures: int, bnSize: int, dropoutRate: real,
                         smallInputs: bool)
    ensures var width := FoldWidth(blockConfig, numInitFeatures, growthRate);
      Channels(Stem(numInitFeatures, smallInputs)
               + Layout(blockConfig, 1, numInitFeatures, growthRate, bnSize, dropoutRate)
               + [Norm5(width)], 3) == Some(width)
  {
    var stem := Stem(numInitFeatures, smallInputs);
    var layout := Layout(blockConfig, 1, numInitFeatures, growthRate, bnSize, dropoutRate);
    var width := FoldWidth(blockConfig, numInitFeatures, growthRate);
    StemChannels(numInitFeatures, smallInputs);
    LayoutChannels(blockConfig, 1, numInitFeatures, growthRate, bnSize, dropoutRate);
    ChannelsConcat(stem, layout, 3);
    ChannelsConcat(stem + layout, [Norm5(width)], 3);
    assert [Norm5(width)][1..] == [];
  }

  /** A network's modules: `features` (conv0 ... norm5) and the linear classifier. */
  class DenseNet {
    var features: seq<FeatureModule>
    var classifier: Classifier

    /**
     * Builds the stem, then for each entry of `blockConfig` a dense block and (except after the
     * last) a transition, then norm5, and a classifier over the final width.
     */
    constructor (growthRate: int, blockConfig: seq<int>, numInitFeatures: int, bnSize: int, dropoutRate: real,
                 numClasses: int, smallInputs: bool)
      ensures features == Stem(numInitFeatures, smallInputs)
                          + Layout(blockConfig, 1, numInitFeatures, growthRate, bnSize, dropoutRate)
                          + [Norm5(FoldWidth(blockConfig, numInitFeatures, growthRate))]
      ensures classifier == Linear(FoldWidth(blockConfig, numInitFeatures, growthRate), numClasses)
    {
      var stem := Stem(numInitFeatures, smallInputs);
      var feats := stem;
      var numFeatures := numInitFeatures;
      for i := 0 to |blockConfig|
        invariant feats + Layout(blockConfig[i..], i + 1, numFeatures, growthRate, bnSize, dropoutRate)
                  == stem + Layout(blockConfig, 1, numInitFeatures, growthRate, bnSize, dropoutRate)
        invariant FoldWidth(blockConfig[i..], numFeatures, growthRate) == FoldWidth(blockConfig, numInitFeatures, growthRate)
      {
        var numLayers := blockConfig[i];
        assert blockConfig[i..][1..] == blockConfig[i + 1..];
        feats := feats + [DenseBlock(i + 1, numLayers, numFeatures, bnSize, growthRate, dropoutRate)];
        numFeatures := numFeatures + numLayers * growthRate;
        if i != |blockConfig| - 1 {
          feats := feats + [Transition(i + 1, numFeatures, numFeatures / 2)];
          numFeatures := numFeatures / 2;
        }
      }
      assert blockConfig[|blockConfig|..] == [];
      features := feats + [Norm5(numFeatures)];
      classifier := Linear(numFeatures, numClasses);
    }
  }

  /** The module a feature entry contributes to `self.modules()`, by class name and parameters. */
  function ModuleLayer(m: FeatureModule): Layer
  {
    match m
    case Conv0(_, _, _, _, _) => Layer("Conv2d", Default, Absent)   // built with bias=False
    case Norm0(_) => Layer("BatchNorm2d", Default, Default)
    case Relu0 => Layer("ReLU", Absent, Absent)
    case Pool0(_, _, _) => Layer("MaxPool2d", Absent, Absent)
    case DenseBlock(_, _, _, _, _, _) => Layer("_DenseBlock", Absent, Absent)
    case Transition(_, _, _) => Layer("_Transition", Absent, Absent)
    case Norm5(_) => Layer("BatchNorm2d", Default, Default)
  }

  /** Every module the constructor itself creates, the network itself first. */
  function OwnModules(features: seq<FeatureModule>): seq<Layer>
  {
    [Layer("DenseNet", Absent, Absent), Layer("Sequential", Absent, Absent)]
    + seq(|features|, i requires 0 <= i < |features| => ModuleLayer(features[i]))
    + [Layer("Linear", Default, Default)]
  }

  /**
   * The initialisation loop succeeds on every module the constructor creates: conv0 has no bias,
   * but the rule only sets convolution weights; batch norms become (1, 0) and the classifier's
   * bias 0.
   */
  lemma OwnModulesInitialise(features: seq<FeatureModule>)
    ensures forall i :: 0 <= i < |OwnModules(features)| ==> DenseNetInit(OwnModules(features)[i]).Done?
    ensures DenseNetInit(OwnModules(features)[|OwnModules(features)| - 1]) == Done(Layer("Linear", Default, Constant(0.0)))
    ensures forall i :: 0 <= i < |features| && features[i].Conv0? ==>
              DenseNetInit(OwnModules(features)[i + 2]) == Done(Layer("Conv2d", KaimingNormal(0.0), Absent))
  {
    var mods := OwnModules(features);
    forall i | 0 <= i < |mods| ensures DenseNetInit(mods[i]).Done? {
      if 2 <= i < |mods| - 1 {
        assert mods[i] == ModuleLayer(features[i - 2]);
      }
    }
  }

  /** The arguments of the DenseNet constructor. */
  datatype DenseNetArgs = DenseNetArgs(growthRate: int, blockConfig: seq<int>, numInitFeatures: int, bnSize: int,
                                       dropoutRate: real, numClasses: int, smallInputs: bool)

  /** A named preset, with the constructor's defaults bn_size 4 and small_inputs true. */
  function Preset(growthRate: int, blockConfig: seq<int>, numInitFeatures: int, numClasses: int, dropoutRate: real): DenseNetArgs
  {
    DenseNetArgs(growthRate, blockConfig, numInitFeatures, 4, dropoutRate, numClasses, true)
  }

  /** The presets obtain_densenet knows, by name; any other name gives none. */
  function PresetArgs(name: string, numClasses: int, dropoutRate: real): (r: Option<DenseNetArgs>)
    ensures r.Some? <==> name in {"densenet121", "densenet169", "densenet161", "densenet201"}
    ensures r.Some? ==> r.value.numClasses == numClasses && r.value.dropoutRate == dropoutRate
                        && r.value.bnSize == 4 && r.value.smallInputs && |r.value.blockConfig| == 4
  {
    if name == "densenet121" then Some(Preset(32, [6, 12, 24, 16], 64, numClasses, dropoutRate))
    else if name == "densenet169" then Some(Preset(32, [6, 12, 32, 32], 64, numClasses, dropoutRate))
    else if name == "densenet161" then Some(Preset(48, [6, 12, 36, 24], 96, numClasses, dropoutRate))
    else if name == "densenet201" then Some(Preset(32, [6, 12, 48, 32], 64, numClasses, dropoutRate))
    else None
  }

  /** The final width of each preset, which norm5 and the classifier take: 1024, 1664, 2208 and 1920. */
  lemma PresetWidths(numClasses: int, dropoutRate: real)
    ensures var a := PresetArgs("densenet121", numClasses, dropoutRate).value;
      FoldWidth(a.blockConfig, a.numInitFeatures, a.growthRate) == 1024
    ensures var a := PresetArgs("densenet169", numClasses, dropoutRate).value;
      FoldWidth(a.blockConfig, a.numInitFeatures, a.growthRate) == 1664
    ensures var a := PresetArgs("densenet161", numClasses, dropoutRate).value;
      FoldWidth(a.blockConfig, a.numInitFeatures, a.growthRate) == 2208
    ensures var a := PresetArgs("densenet201", numClasses, dropoutRate).value;
      FoldWidth(a.blockConfig, a.numInitFeatures, a.growthRate) == 1920
  {
    PresetWidth("densenet121", numClasses, dropoutRate, 1024);
    PresetWidth("densenet169", numClasses, dropoutRate, 1664);
    PresetWidth("densenet161", numClasses, dropoutRate, 2208);
    PresetWidth("densenet201", numClasses, dropoutRate, 1920);
  }

  /** One preset's final width, from its four block sizes. */
  lemma PresetWidth(name: string, numClasses: int, dropoutRate: real, width: int)
    requires PresetArgs(name, numClasses, dropoutRate).Some?
    requires var a := PresetArgs(name, numClasses, dropoutRate).value;
      var b := a.blockConfig;
      (((a.numInitFeatures + b[0] * a.growthRate) / 2 + b[1] * a.growthRate) / 2 + b[2] * a.growthRate) / 2
        + b[3] * a.growthRate == width
    ensures var a := PresetArgs(name, numClasses, dropoutRate).value;
      FoldWidth(a.blockConfig, a.numInitFeatures, a.growthRate) == width
  {
    var a := PresetArgs(name, numClasses, dropoutRate).value;
    var b := a.blockConfig;
    assert b == [b[0], b[1], b[2], b[3]];
    FourBlockWidth(b[0], b[1], b[2], b[3], a.numInitFeatures, a.growthRate);
  }

  /** The width after four blocks: three grow-then-halve steps and a last growth. */
  lemma FourBlockWidth(b0: int, b1: int, b2: int, b3: int, width: int, growth: int)
    ensures FoldWidth([b0, b1, b2, b3], width, growth)
            == (((width + b0 * growth) / 2 + b1 * growth) / 2 + b2 * growth) / 2 + b3 * growth
  {
    var w1 := (width + b0 * growth) / 2;
    var w2 := (w1 + b1 * growth) / 2;
    var w3 := (w2 + b2 * growth) / 2;
    assert [b0, b1, b2, b3][1..] == [b1, b2, b3] && [b1, b2, b3][1..] == [b2, b3] && [b2, b3][1..] == [b3];
    assert FoldWidth([b3], w3, growth) == w3 + b3 * growth;
    assert FoldWidth([b2, b3], w2, growth) == FoldWidth([b3], w3, growth);
    assert FoldWidth([b1, b2, b3], w1, growth) == FoldWidth([b2, b3], w2, growth);
  }

  /** obtain_densenet: the named preset, built; no network for any other name. */
  method ObtainDenseNet(name: string, numClasses: int, dropoutRate: real) returns (net: Option<DenseNet>)
    ensures net.Some? <==> PresetArgs(name, numClasses, dropoutRate).Some?
    ensures net.Some? ==>
              var a := PresetArgs(name, numClasses, dropoutRate).value;
              fresh(net.value)
              && net.value.features == Stem(a.numInitFeatures, a.smallInputs)
                                       + Layout(a.blockConfig, 1, a.numInitFeatures, a.growthRate, a.bnSize, a.dropoutRate)
                                       + [Norm5(FoldWidth(a.blockConfig, a.numInitFeatures, a.growthRate))]
              && net.value.classifier == Linear(FoldWidth(a.blockConfig, a.numInitFeatures, a.growthRate), numClasses)
  {
    var args := PresetArgs(name, numClasses, dropoutRate);
    if args.None? {
      return None;
    }
    var a := args.value;
    var d := new DenseNet(a.growthRate, a.blockConfig, a.numInitFeatures, a.bnSize, a.dropoutRate, a.numClasses, a.smallInputs);
    return Some(d);
  }
}
