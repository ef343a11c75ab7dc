/*
 * Model of backend/dncnn_model.py.
 *
 * Two pieces are modelled: the list of layer descriptors that DnCNN's
 * constructor builds, and the part of load_dncnn_model that turns a loaded
 * checkpoint into the state dict handed to load_state_dict (unwrap the
 * "model" entry, then strip a leading "module." from every key).
 * Tensors are opaque values of a type parameter; torch itself is not modelled.
 */
module DnCNNModel {

  // ---------------------------------------------------------------------------
  // The layer stack built by DnCNN.__init__
  // ---------------------------------------------------------------------------

  const KernelSize: int := 3
  const Padding: int := 1
  const Features: int := 64

  /** A layer descriptor: what nn.Conv2d, nn.BatchNorm2d and nn.ReLU are given. */
  datatype Layer =
    | Conv(inChannels: int, outChannels: int, kernelSize: int, padding: int, bias: bool)
    | BatchNorm(numFeatures: int)
    | ReLU(inplace: bool)

  /** Every convolution of the network: 3x3 kernel, padding 1, no bias. */
  function FeatureConv(inChannels: int, outChannels: int): Layer
  {
    Conv(inChannels, outChannels, KernelSize, Padding, false)
  }

  /** The block appended once per iteration of the constructor's loop. */
  function MiddleBlock(): seq<Layer>
  {
    [FeatureConv(Features, Features), BatchNorm(Features), ReLU(true)]
  }

  /** k middle blocks, one after the other. */
  function MiddleBlocks(k: nat): (r: seq<Layer>)
    ensures |r| == 3 * k
    ensures forall i :: 0 <= i < |r| ==> r[i] == MiddleBlock()[i % 3]
  {
    if k == 0 then []
    else
      var prev := MiddleBlocks(k - 1);
      var r := prev + MiddleBlock();
      assert forall i :: |prev| <= i < |r| ==> i % 3 == i - |prev| by {
        forall i | |prev| <= i < |r| ensures i % 3 == i - |prev| {
          assert i == 3 * (k - 1) + (i - |prev|);
        }
      }
      r
  }

  /** Number of loop iterations: Python's range(n) is empty for n <= 0. */
  function MiddleCount(numOfLayers: int): nat
  {
    if numOfLayers - 2 > 0 then numOfLayers - 2 else 0
  }

  /** The layer list DnCNN(channels, numOfLayers) wraps in nn.Sequential. */
  function DnCNNLayers(channels: int, numOfLayers: int): (ls: seq<Layer>)
    ensures |ls| == 3 + 3 * MiddleCount(numOfLayers)
    ensures ls[0] == Conv(channels, 64, 3, 1, false) && ls[1] == ReLU(true)
    ensures ls[|ls| - 1] == Conv(64, channels, 3, 1, false)
  {
    [FeatureConv(channels, Features), ReLU(true)]
      + MiddleBlocks(MiddleCount(numOfLayers))
      + [FeatureConv(Features, channels)]
  }

  /** The constructor's loop: grow the list by appending, as the source does. */
  method BuildLayers(channels: int, numOfLayers: int) returns (layers: seq<Layer>)
    ensures layers == DnCNNLayers(channels, numOfLayers)
  {
    layers := [];
    layers := layers + [Conv(channels, Features, KernelSize, Padding, false)];
    layers := layers + [ReLU(true)];
    var count := numOfLayers - 2;
    var i := 0;
    while i < count
      invariant 0 <= i
      invariant i <= MiddleCount(numOfLayers)
      invariant layers == [FeatureConv(channels, Features), ReLU(true)] + MiddleBlocks(i)
    {
      layers := layers + [Conv(Features, Features, KernelSize, Padding, false)];
      layers := layers + [BatchNorm(Features)];
      layers := layers + [ReLU(true)];
      i := i + 1;
    }
    layers := layers + [Conv(Features, channels, KernelSize, Padding, false)];
  }

  /** DnCNN as an object: its only state is the layer list held by self.dncnn. */
  class DnCNN {
    const dncnn: seq<Layer>

    constructor (channels: int := 3, numOfLayers: int := 20)
      ensures dncnn == DnCNNLayers(channels, numOfLayers)
    {
      var layers := BuildLayers(channels, numOfLayers);
      dncnn := layers;
    }
  }

  /** Shape of the stack: its length, its two ends and its repeated middle. */
  lemma LayerStackShape(channels: int, numOfLayers: int)
    ensures var ls := DnCNNLayers(channels, numOfLayers);
      && |ls| == 3 + 3 * MiddleCount(numOfLayers)
      && (numOfLayers >= 2 ==> |ls| == 3 * numOfLayers - 3)
      && ls[0] == Conv(channels, 64, 3, 1, false)
      && ls[1] == ReLU(true)
      && ls[|ls| - 1] == Conv(64, channels, 3, 1, false)
      && (forall i :: 2 <= i < |ls| - 1 && (i - 2) % 3 == 0 ==> ls[i] == Conv(64, 64, 3, 1, false))
      && (forall i :: 2 <= i < |ls| - 1 && (i - 2) % 3 == 1 ==> ls[i] == BatchNorm(64))
      && (forall i :: 2 <= i < |ls| - 1 && (i - 2) % 3 == 2 ==> ls[i] == ReLU(true))
  {
    var ls := DnCNNLayers(channels, numOfLayers);
    var mid := MiddleBlocks(MiddleCount(numOfLayers));
    forall i | 2 <= i < |ls| - 1 ensures ls[i] == mid[i - 2] {
    }
  }

  /** With the default arguments the stack has 57 layers (20 convolutions' worth). */
  lemma DefaultStackLength()
    ensures |DnCNNLayers(3, 20)| == 57
  {
    LayerStackShape(3, 20);
  }

  // ---------------------------------------------------------------------------
  // Channel chaining of the convolutions
  // ---------------------------------------------------------------------------

  /** The convolutions of a layer list, in order. */
  function Convs(ls: seq<Layer>): (cs: seq<Layer>)
    ensures |cs| <= |ls|
    ensures forall i :: 0 <= i < |cs| ==> cs[i].Conv?
  {
    if ls == [] then []
    else (if ls[0].Conv? then [ls[0]] else []) + Convs(ls[1..])
  }

  /** Each convolution consumes the channels the previous one produces. */
  predicate ChannelsChain(cs: seq<Layer>)
    requires forall i :: 0 <= i < |cs| ==> cs[i].Conv?
  {
    forall k :: 0 <= k < |cs| - 1 ==> cs[k].outChannels == cs[k + 1].inChannels
  }

  lemma {:induction false} ConvsAppend(a: seq<Layer>, b: seq<Layer>)
    ensures Convs(a + b) == Convs(a) + Convs(b)
  {
    if a == [] {
      assert a + b == b;
    } else {
      assert (a + b)[1..] == a[1..] + b;
      ConvsAppend(a[1..], b);
    }
  }

  lemma {:induction false} ConvsOfMiddle(k: nat)
    ensures Convs(MiddleBlocks(k)) == seq(k, _ => FeatureConv(Features, Features))
  {
    if k > 0 {
      ConvsOfMiddle(k - 1);
      ConvsAppend(MiddleBlocks(k - 1), MiddleBlock());
      assert MiddleBlock()[1..][1..] == [ReLU(true)];
      assert Convs(MiddleBlock()) == [FeatureConv(Features, Features)];
    }
  }

  /**
   * The convolutions of DnCNN(channels, n) are max(0, n-2) + 2 in number, all
   * 3x3 with padding 1 and no bias, each one's input channels are the previous
   * one's output channels, and the stack maps `channels` back to `channels`.
   */
  lemma ConvChaining(channels: int, numOfLayers: int)
    ensures var cs := Convs(DnCNNLayers(channels, numOfLayers));
      && |cs| == MiddleCount(numOfLayers) + 2
      && (forall i :: 0 <= i < |cs| ==> cs[i].kernelSize == 3 && cs[i].padding == 1 && !cs[i].bias)
      && ChannelsChain(cs)
      && cs[0].inChannels == channels
      && cs[|cs| - 1].outChannels == channels
  {
    var m := MiddleCount(numOfLayers);
    var head := [FeatureConv(channels, Features), ReLU(true)];
    var tail := [FeatureConv(Features, channels)];
    ConvsAppend(head + MiddleBlocks(m), tail);
    ConvsAppend(head, MiddleBlocks(m));
    ConvsOfMiddle(m);
    assert Convs(head) == [FeatureConv(channels, Features)] by {
      assert head[1..][1..] == [];
    }
    assert Convs(tail) == tail by {
      assert tail[1..] == [];
    }
  }

  // ---------------------------------------------------------------------------
  // Checkpoints and state dicts (load_dncnn_model)
  // ---------------------------------------------------------------------------

  /**
   * A loaded checkpoint: a dict, given by its items() in iteration order, or any
   * other object (a tensor, a list, ...), kept opaque.
   */
  datatype Obj<T> = Leaf(payload: T) | Dict(items: seq<(string, Obj<T>)>)

  /** What a real Python dict guarantees of its items(). */
  ghost predicate DistinctKeys<V>(items: seq<(string, V)>)
  {
    forall i, j :: 0 <= i < j < |items| ==> items[i].0 != items[j].0
  }

  predicate HasKey<V>(items: seq<(string, V)>, key: string)
  {
    exists i :: 0 <= i < |items| && items[i].0 == key
  }

  /** Position of the first entry under `key`. */
  function KeyIndex<V>(items: seq<(string, V)>, key: string): (i: nat)
    requires HasKey(items, key)
    ensures i < |items| && items[i].0 == key
    ensures forall j :: 0 <= j < i ==> items[j].0 != key
  {
    if items[0].0 == key then 0
    else
      assert HasKey(items[1..], key) by {
        var k :| 0 <= k < |items| && items[k].0 == key;
        assert items[1..][k - 1].0 == key;
      }
      1 + KeyIndex(items[1..], key)
  }

  /**
   * The state dict inside a checkpoint: checkpoint["model"] when the checkpoint
   * is a dict with that key, the checkpoint itself otherwise.
   */
  function Unwrap<T>(checkpoint: Obj<T>): (sd: Obj<T>)
    ensures checkpoint.Dict? && DistinctKeys(checkpoint.items) ==>
      forall i :: 0 <= i < |checkpoint.items| && checkpoint.items[i].0 == "model" ==>
        sd == checkpoint.items[i].1
    ensures !checkpoint.Dict? || !HasKey(checkpoint.items, "model") ==> sd == checkpoint
  {
    if checkpoint.Dict? && HasKey(checkpoint.items, "model") then
      checkpoint.items[KeyIndex(checkpoint.items, "model")].1
    else
      checkpoint
  }

  const ModulePrefix: string := "module."

  predicate StartsWith(s: string, prefix: string)
  {
    |prefix| <= |s| && s[..|prefix|] == prefix
  }

  /** The key a state-dict entry is stored under after normalisation. */
  function StripModule(key: string): (r: string)
    ensures StartsWith(key, ModulePrefix) ==> key == ModulePrefix + r && |r| == |key| - 7
    ensures !StartsWith(key, ModulePrefix) ==> r == key
  {
    if StartsWith(key, ModulePrefix) then key[|ModulePrefix|..] else key
  }

  /** Only one "module." is removed. */
  lemma StripOnce()
    ensures StripModule("module.module.w") == "module.w"
    ensures StripModule("w") == "w"
    ensures StripModule("modules.w") == "modules.w"
  {
    assert "module.module.w"[..7] == ModulePrefix;
    assert "modules.w"[6] != ModulePrefix[6];
  }

  /** The normalised keys of all entries. */
  ghost function KeyImage<V>(items: seq<(string, V)>): set<string>
  {
    set i | 0 <= i < |items| :: StripModule(items[i].0)
  }

  lemma KeyImageSnoc<V>(items: seq<(string, V)>)
    requires items != []
    ensures KeyImage(items) == KeyImage(items[..|items| - 1]) + {StripModule(items[|items| - 1].0)}
  {
    var n := |items| - 1;
    var init := items[..n];
    forall x | x in KeyImage(items) ensures x in KeyImage(init) + {StripModule(items[n].0)} {
      var i :| 0 <= i < |items| && x == StripModule(items[i].0);
      if i < n {
        assert init[i] == items[i];
      }
    }
    forall x | x in KeyImage(init) ensures x in KeyImage(items) {
      var i :| 0 <= i < n && x == StripModule(init[i].0);
      assert init[i] == items[i];
    }
  }

  /**
   * new_state_dict after the entries `items` were written, one by one, in
   * order. Its keys are exactly the normalised input keys.
   */
  function Normalised<V>(items: seq<(string, V)>): (r: map<string, V>)
    ensures r.Keys == KeyImage(items)
  {
    if items == [] then map[]
    else
      var last := items[|items| - 1];
      KeyImageSnoc(items);
      Normalised(items[..|items| - 1])[StripModule(last.0) := last.1]
  }

  /** The loop of load_dncnn_model that rebuilds the state dict. */
  method NormaliseStateDict<V>(stateDict: seq<(string, V)>) returns (newStateDict: map<string, V>)
    ensures newStateDict == Normalised(stateDict)
  {
    newStateDict := map[];
    for i := 0 to |stateDict|
      invariant newStateDict == Normalised(stateDict[..i])
    {
      var (k, v) := stateDict[i];
      var newKey := k;
      if StartsWith(newKey, ModulePrefix) {
        newKey := newKey[|ModulePrefix|..];
      }
      newStateDict := newStateDict[newKey := v];
      assert stateDict[..i + 1][..i] == stateDict[..i];
    }
    assert stateDict[..|stateDict|] == stateDict;
  }

  /**
   * Every value is carried over unchanged: the entry under a normalised key is
   * the value of the LAST input entry whose key normalises to it.
   */
  lemma {:induction false} NormalisedLastWriteWins<V>(items: seq<(string, V)>, i: nat)
    requires i < |items|
    requires forall j :: i < j < |items| ==> StripModule(items[j].0) != StripModule(items[i].0)
    ensures StripModule(items[i].0) in Normalised(items)
    ensures Normalised(items)[StripModule(items[i].0)] == items[i].1
  {
    var n := |items| - 1;
    if i < n {
      var init := items[..n];
      assert init[i] == items[i];
      forall j | i < j < |init| ensures StripModule(init[j].0) != StripModule(init[i].0) {
        assert init[j] == items[j];
      }
      NormalisedLastWriteWins(init, i);
    }
  }

  /** Renaming never creates entries: the result has at most as many as the input. */
  lemma {:induction false} NormalisedSize<V>(items: seq<(string, V)>)
    ensures |Normalised(items)| <= |items|
  {
    if items != [] {
      var n := |items| - 1;
      NormalisedSize(items[..n]);
      var m := Normalised(items[..n]);
      var k := StripModule(items[n].0);
      assert m[k := items[n].1].Keys == m.Keys + {k};
    }
  }

  /** Without collisions no entry is lost. */
  lemma {:induction false} NormalisedNoCollision<V>(items: seq<(string, V)>)
    requires forall i, j :: 0 <= i < j < |items| ==> StripModule(items[i].0) != StripModule(items[j].0)
    ensures |Normalised(items)| == |items|
  {
    if items != [] {
      var n := |items| - 1;
      var init := items[..n];
      forall i, j | 0 <= i < j < |init| ensures StripModule(init[i].0) != StripModule(init[j].0) {
        assert init[i] == items[i] && init[j] == items[j];
      }
      NormalisedNoCollision(init);
      var k := StripModule(items[n].0);
      forall i | 0 <= i < n ensures StripModule(init[i].0) != k {
        assert init[i] == items[i];
      }
      assert k !in KeyImage(init);
      assert Normalised(items).Keys == Normalised(init).Keys + {k};
    }
  }

  /** "w" and "module.w" collide; the entry iterated later wins. */
  lemma CollisionExample<V>(a: V, b: V)
    ensures Normalised([("w", a), ("module.w", b)]) == map["w" := b]
    ensures Normalised([("module.w", b), ("w", a)]) == map["w" := a]
  {
    assert StripModule("module.w") == "w" by {
      assert "module.w"[..7] == ModulePrefix;
    }
    assert StripModule("w") == "w";
    var s1 := [("w", a), ("module.w", b)];
    var s2 := [("module.w", b), ("w", a)];
    assert s1[..1] == [("w", a)] && s1[..1][..0] == [];
    assert s2[..1] == [("module.w", b)] && s2[..1][..0] == [];
    assert Normalised(s1[..1]) == map["w" := a];
    assert Normalised(s2[..1]) == map["w" := b];
  }

  datatype LoadError = StateDictNotADict

  datatype Result<T> = Ok(value: T) | Err(error: LoadError)

  /**
   * Lines 28-38 of load_dncnn_model: unwrap, then normalise the keys. Calling
   * items() on something that is not a dict raises, which is the Err case.
   */
  method PrepareStateDict<T>(checkpoint: Obj<T>) returns (r: Result<map<string, Obj<T>>>)
    ensures r.Err? <==> !Unwrap(checkpoint).Dict?
    ensures r.Ok? ==> r.value == Normalised(Unwrap(checkpoint).items)
  {
    var stateDict: Obj<T>;
    if checkpoint.Dict? && HasKey(checkpoint.items, "model") {
      stateDict := checkpoint.items[KeyIndex(checkpoint.items, "model")].1;
    } else {
      stateDict := checkpoint;
    }
    if !stateDict.Dict? {
      return Err(StateDictNotADict);
    }
    var newStateDict := NormaliseStateDict(stateDict.items);
    r := Ok(newStateDict);
  }

  /**
   * load_dncnn_model with torch.load's result as its input: a default DnCNN
   * (3 channels, 20 layers) and the state dict that would be loaded into it.
   */
  method LoadDnCNNModel<T>(checkpoint: Obj<T>) returns (model: DnCNN, stateDict: Result<map<string, Obj<T>>>)
    ensures fresh(model)
    ensures model.dncnn == DnCNNLayers(3, 20)
    ensures stateDict.Err? <==> !Unwrap(checkpoint).Dict?
    ensures stateDict.Ok? ==> stateDict.value == Normalised(Unwrap(checkpoint).items)
  {
    model := new DnCNN(channels := 3);
    stateDict := PrepareStateDict(checkpoint);
  }
}
