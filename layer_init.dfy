/**
 * Parameter initialisation of the networks: which rule each layer kind receives.
 * The random values drawn by Kaiming initialisation are not modelled, only the rule
 * (and its negative slope `a`) that produced them.
 */
module LayerInit {
  import opened Outcomes

  /** The state of one parameter tensor of a layer. */
  datatype Param =
    | Absent               // the layer has no such parameter (e.g. a convolution built with bias=False)
    | Default              // whatever the layer's constructor put there
    | KaimingNormal(a: real)
    | Constant(v: real)

  /** A module of a network: its class name and its weight and bias. */
  datatype Layer = Layer(className: string, weight: Param, bias: Param)

  /** Filling a parameter with a constant; filling a parameter that does not exist is an error. */
  function Fill(p: Param, v: real): (r: Option<Param>)
    ensures r.Some? <==> p != Absent
    ensures r.Some? ==> r.value == Constant(v)
  {
    if p == Absent then None else Some(Constant(v))
  }

  /** Kaiming-normal initialisation with negative slope `a`; a missing parameter is an error. */
  function Kaiming(p: Param, a: real): (r: Option<Param>)
    ensures r.Some? <==> p != Absent
    ensures r.Some? ==> r.value == KaimingNormal(a)
  {
    if p == Absent then None else Some(KaimingNormal(a))
  }

  /** Whether `sub` occurs in `s`, that is, whether Python's `s.find(sub)` is not -1. */
  predicate Contains(s: string, sub: string)
    ensures Contains(s, sub) ==> |sub| <= |s|
    ensures sub == [] ==> Contains(s, sub)
    decreases |s|
  {
    |sub| <= |s| && (s[..|sub|] == sub || Contains(s[1..], sub))
  }

  /** `sub` occurs in `s` starting at position `i`. */
  predicate OccursAt(s: string, sub: string, i: int)
  {
    0 <= i && i + |sub| <= |s| && s[i..i + |sub|] == sub
  }

  /** `Contains` agrees with the definition by positions. */
  lemma {:induction false} ContainsIff(s: string, sub: string)
    ensures Contains(s, sub) <==> exists i :: OccursAt(s, sub, i)
    decreases |s|
  {
    if |sub| <= |s| {
      if s[..|sub|] != sub {
        ContainsIff(s[1..], sub);
        forall i | OccursAt(s[1..], sub, i) ensures OccursAt(s, sub, i + 1) {
          assert s[i + 1..i + 1 + |sub|] == s[1..][i..i + |sub|];
        }
        forall i | OccursAt(s, sub, i) ensures OccursAt(s[1..], sub, i - 1) {
          assert i != 0;
          assert s[1..][i - 1..i - 1 + |sub|] == s[i..i + |sub|];
        }
      } else {
        assert OccursAt(s, sub, 0);
      }
    } else {
      assert forall i :: !OccursAt(s, sub, i);
    }
  }

  /**
   * What an initialisation rule leaves in a module: the initialised module when every write
   * succeeds, or, when a write raises, the module with the writes made before it.
   */
  datatype Applied = Done(layer: Layer) | Raised(partial: Layer)

  /** The module after the rule ran, whichever way it ended. */
  function After(r: Applied): Layer
  {
    match r
    case Done(l) => l
    case Raised(p) => p
  }

  /**
   * The weight write and then the bias write of a rule (`w`, `b`: what each write produces, none
   * when it raises). The first write that raises ends the rule; a weight already written stays.
   */
  function SetBoth(m: Layer, w: Option<Param>, b: Option<Param>): (r: Applied)
    ensures r.Done? <==> w.Some? && b.Some?
    ensures r.Done? ==> r.layer == Layer(m.className, w.value, b.value)
    ensures r.Raised? && w.None? ==> r.partial == m
    ensures r.Raised? && w.Some? ==> r.partial == Layer(m.className, w.value, m.bias)
  {
    if w.None? then Raised(m)
    else if b.None? then Raised(m.(weight := w.value))
    else Done(m.(weight := w.value, bias := b.value))
  }

  /**
   * The initialisation loop of the DenseNet constructor, on one module: convolutions get
   * Kaiming-normal weights (a = 0), batch norms weight 1 and then bias 0, linear layers bias 0,
   * and every other module is left as it is.
   */
  function DenseNetInit(m: Layer): (r: Applied)
    ensures After(r).className == m.className
    ensures m.className == "Conv2d" ==>
              (r.Done? <==> m.weight != Absent) && (r.Done? ==> r.layer == m.(weight := KaimingNormal(0.0))) &&
              (r.Raised? ==> r.partial == m)
    ensures m.className == "BatchNorm2d" ==>
              (r.Done? <==> m.weight != Absent && m.bias != Absent) &&
              (r.Done? ==> r.layer.weight == Constant(1.0) && r.layer.bias == Constant(0.0)) &&
              (r.Raised? ==> r.partial == if m.weight == Absent then m else m.(weight := Constant(1.0)))
    ensures m.className == "Linear" ==>
              (r.Done? <==> m.bias != Absent) && (r.Done? ==> r.layer == m.(bias := Constant(0.0))) &&
              (r.Raised? ==> r.partial == m)
    ensures m.className !in {"Conv2d", "BatchNorm2d", "Linear"} ==> r == Done(m)
  {
    if m.className == "Conv2d" then SetBoth(m, Kaiming(m.weight, 0.0), Some(m.bias))
    else if m.className == "BatchNorm2d" then SetBoth(m, Fill(m.weight, 1.0), Fill(m.bias, 0.0))
    else if m.className == "Linear" then SetBoth(m, Some(m.weight), Fill(m.bias, 0.0))
    else Done(m)
  }

  /**
   * The class-name rule of the WideResNet presets, with Kaiming slope `a`: a class whose name
   * contains "Conv" gets Kaiming-normal weights and then bias 0; otherwise one whose name contains
   * "BatchNorm" gets weight 1 and then bias 0; every other module is left as it is.
   */
  function NameInit(m: Layer, a: real): (r: Applied)
    ensures After(r).className == m.className
    ensures Contains(m.className, "Conv") ==>
              (r.Done? <==> m.weight != Absent && m.bias != Absent) &&
              (r.Done? ==> r.layer.weight == KaimingNormal(a) && r.layer.bias == Constant(0.0)) &&
              (r.Raised? ==> r.partial == if m.weight == Absent then m else m.(weight := KaimingNormal(a)))
    ensures !Contains(m.className, "Conv") && Contains(m.className, "BatchNorm") ==>
              (r.Done? <==> m.weight != Absent && m.bias != Absent) &&
              (r.Done? ==> r.layer.weight == Constant(1.0) && r.layer.bias == Constant(0.0)) &&
              (r.Raised? ==> r.partial == if m.weight == Absent then m else m.(weight := Constant(1.0)))
    ensures !Contains(m.className, "Conv") && !Contains(m.className, "BatchNorm") ==> r == Done(m)
  {
    if Contains(m.className, "Conv") then SetBoth(m, Kaiming(m.weight, a), Fill(m.bias, 0.0))
    else if Contains(m.className, "BatchNorm") then SetBoth(m, Fill(m.weight, 1.0), Fill(m.bias, 0.0))
    else Done(m)
  }

  /** conv_init: the class-name rule with slope 0. */
  function ConvInit(m: Layer): Applied
  {
    NameInit(m, 0.0)
  }

  /** conv_leak_init: the class-name rule with slope 0.2. */
  function ConvLeakInit(m: Layer): Applied
  {
    NameInit(m, 0.2)
  }

  /** The leaky rule differs from conv_init only in the slope given to convolution weights. */
  lemma LeakDiffersOnlyInSlope(m: Layer)
    ensures ConvLeakInit(m).Done? <==> ConvInit(m).Done?
    ensures ConvInit(m).Done? && Contains(m.className, "Conv") ==>
              ConvLeakInit(m).layer == ConvInit(m).layer.(weight := KaimingNormal(0.2))
    ensures !Contains(m.className, "Conv") ==> ConvLeakInit(m) == ConvInit(m)
  {
  }

  /**
   * A second application of either rule records the same rule tags. (A real second Kaiming draw
   * would give new values; the model records only the rule and its slope.)
   */
  lemma InitIdempotent(m: Layer, a: real)
    ensures DenseNetInit(m).Done? ==> DenseNetInit(DenseNetInit(m).layer) == DenseNetInit(m)
    ensures NameInit(m, a).Done? ==> NameInit(NameInit(m, a).layer, a) == NameInit(m, a)
  {
  }

  /**
   * Where the two rules agree: on "Conv2d" both give Kaiming weights with slope 0 but only the
   * class-name rule zeroes the bias; on "BatchNorm2d" they agree; on "Linear" only the DenseNet
   * rule zeroes the bias.
   */
  lemma RulesCompared(m: Layer)
    ensures m.className == "Conv2d" && m.bias != Absent && DenseNetInit(m).Done? ==>
              ConvInit(m) == Done(DenseNetInit(m).layer.(bias := Constant(0.0)))
    ensures m.className == "BatchNorm2d" ==> ConvInit(m) == DenseNetInit(m)
    ensures m.className == "Linear" ==> ConvInit(m) == Done(m)
  {
    ConvNameMatches();
    BatchNormNameMatches();
    NeitherRuleName("Linear");
  }

  /**
   * conv_init on a convolution built without a bias: the weight is drawn, then the bias write
   * raises, and the module keeps its new weight.
   */
  lemma ConvWithoutBiasKeepsWeight()
    ensures ConvInit(Layer("Conv2d", Default, Absent)) == Raised(Layer("Conv2d", KaimingNormal(0.0), Absent))
  {
    ConvNameMatches();
  }

  lemma ConvNameMatches()
    ensures Contains("Conv2d", "Conv")
  {
    assert "Conv2d"[..4] == "Conv";
  }

  lemma BatchNormNameMatches()
    ensures !Contains("BatchNorm2d", "Conv") && Contains("BatchNorm2d", "BatchNorm")
  {
    assert "BatchNorm2d"[..9] == "BatchNorm";
    FirstCharMissing("BatchNorm2d", "Conv");
  }

  /** A class name in which neither "Conv" nor "BatchNorm" can start gets neither rule. */
  lemma NeitherRuleName(s: string)
    requires forall i :: 0 <= i && i + 4 <= |s| ==> s[i] != 'C'
    requires forall i :: 0 <= i && i + 9 <= |s| ==> s[i] != 'B'
    ensures !Contains(s, "Conv") && !Contains(s, "BatchNorm")
  {
    FirstCharMissing(s, "Conv");
    FirstCharMissing(s, "BatchNorm");
  }

  /** A string in which no position that leaves room for `sub` holds its first character does not contain `sub`. */
  lemma {:induction false} FirstCharMissing(s: string, sub: string)
    requires |sub| > 0
    requires forall i :: 0 <= i && i + |sub| <= |s| ==> s[i] != sub[0]
    ensures !Contains(s, sub)
    decreases |s|
  {
    if |sub| <= |s| {
      assert s[..|sub|][0] == s[0];
      FirstCharMissing(s[1..], sub);
    }
  }

  /**
   * The initialisation pass over a network's modules, in place and in array order (the source
   * visits them with `self.modules()`, parent first, or with `net.apply`, children first). It stops
   * at the first module whose rule raises, leaving that module with the writes the rule made before
   * raising; the modules before it are initialised and the rest are as they were.
   */
  method ApplyInit(modules: array<Layer>, rule: Layer -> Applied) returns (ok: bool)
    modifies modules
    ensures ok <==> forall i :: 0 <= i < modules.Length ==> rule(old(modules[i])).Done?
    ensures ok ==> forall i :: 0 <= i < modules.Length ==> modules[i] == rule(old(modules[i])).layer
    ensures !ok ==> exists j :: 0 <= j < modules.Length && rule(old(modules[j])).Raised? &&
                      (forall i :: 0 <= i < j ==> rule(old(modules[i])).Done? && modules[i] == rule(old(modules[i])).layer) &&
                      modules[j] == rule(old(modules[j])).partial &&
                      (forall i :: j < i < modules.Length ==> modules[i] == old(modules[i]))
  {
    ok := true;
    var k := 0;
    while k < modules.Length
      invariant 0 <= k <= modules.Length
      invariant forall i :: 0 <= i < k ==> rule(old(modules[i])).Done? && modules[i] == rule(old(modules[i])).layer
      invariant forall i :: k <= i < modules.Length ==> modules[i] == old(modules[i])
    {
      var r := rule(modules[k]);
      if r.Raised? {
        modules[k] := r.partial;
        assert modules[k] == rule(old(modules[k])).partial;
        return false;
      }
      modules[k] := r.layer;
      k := k + 1;
    }
  }
}
