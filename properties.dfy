/** What the environment factory promises: the order of the wrapper layers,
    when each layer is present and what it carries, that construction
    keywords reach only the constructor, that `create_fn` is a partial
    application of `create`, and how `create_gym_env` chooses between its
    adapters and its errors. */
module EnvProperties {
  import opened PyValues
  import opened Envs

  /* ---------- chains and layer lists ---------- */

  /** Wrapping with a concatenation is wrapping twice. */
  lemma {:induction false} WrapAppend(xs: seq<Layer>, ys: seq<Layer>, t: Term)
    ensures Wrap(xs + ys, t) == Wrap(xs, Wrap(ys, t))
    decreases |xs|
  {
    if xs != [] {
      assert (xs + ys)[0] == xs[0] && (xs + ys)[1..] == xs[1..] + ys;
      WrapAppend(xs[1..], ys, t);
      assert Wrap(xs + ys, t) == Apply(xs[0], Wrap(xs[1..] + ys, t));
    } else {
      assert xs + ys == ys;
    }
  }

  /** Wrapping a bare environment and then reading the chain back gives the
      same layers and the same bare environment. */
  lemma {:induction false} LayersOfWrap(ls: seq<Layer>, b: Term)
    requires b.Base?
    ensures Layers(Wrap(ls, b)) == ls
    ensures Innermost(Wrap(ls, b)) == b
    decreases |ls|
  {
    if ls != [] {
      LayersOfWrap(ls[1..], b);
    }
  }

  /** Every chain is its bare environment wrapped in its layers. */
  lemma {:induction false} WrapOfLayers(t: Term)
    ensures Wrap(Layers(t), Innermost(t)) == t
  {
    match t
    case Base(_, _) =>
    case Episode(i, _, _) => WrapOfLayers(i);
    case Vector(i, _) => WrapOfLayers(i);
    case AutoReset(i) => WrapOfLayers(i);
  }

  /* ---------- the chain create builds ---------- */

  /** The layers `create` puts around the constructed environment, outermost
      first, each guarded by its own condition. */
  function Plan(a: CreateArgs): (ls: seq<Layer>)
    ensures |ls| <= 3
  {
    (if Truthy(a.autoReset) then [AutoResetLayer] else [])
    + (if Truthy(a.batchSize) then [VectorLayer(a.batchSize)] else [])
    + (if a.episodeLength != NoneV then [EpisodeLayer(a.episodeLength, a.actionRepeat)] else [])
  }

  /** Position of a layer kind in the chain, counted from the inside. */
  function Rank(l: Layer): nat {
    match l
    case EpisodeLayer(_, _) => 0
    case VectorLayer(_) => 1
    case AutoResetLayer => 2
  }

  /** Read outermost first, the ranks go strictly down: auto-reset outside
      vector outside episode, and no kind twice. */
  predicate InOrder(ls: seq<Layer>) {
    forall i, j :: 0 <= i < j < |ls| ==> Rank(ls[i]) > Rank(ls[j])
  }

  predicate HasEpisode(ls: seq<Layer>) {
    exists i :: 0 <= i < |ls| && ls[i].EpisodeLayer?
  }

  predicate HasVector(ls: seq<Layer>) {
    exists i :: 0 <= i < |ls| && ls[i].VectorLayer?
  }

  predicate HasAutoReset(ls: seq<Layer>) {
    exists i :: 0 <= i < |ls| && ls[i].AutoResetLayer?
  }

  /** `create` succeeds with the constructed environment wrapped in exactly
      the planned layers. */
  lemma CreateIsPlan(name: string, kw: Kwargs)
    requires EnvNameKey !in kw && name in Registry
    ensures Create(name, kw) == Ok(Wrap(Plan(BindCreate(kw)), Base(Registry[name], kw - CreateParams)))
  {
    var a := BindCreate(kw);
    var b := Base(Registry[name], kw - CreateParams);
    var outer := if Truthy(a.autoReset) then [AutoResetLayer] else [];
    var middle := if Truthy(a.batchSize) then [VectorLayer(a.batchSize)] else [];
    var inner := if a.episodeLength != NoneV then [EpisodeLayer(a.episodeLength, a.actionRepeat)] else [];
    WrapAppend(outer + middle, inner, b);
    WrapAppend(outer, middle, Wrap(inner, b));
  }

  /** The layers of a created chain are the plan, around the constructed
      environment holding the construction keywords unchanged. */
  lemma CreateLayers(name: string, kw: Kwargs)
    requires Create(name, kw).Ok?
    ensures Layers(Create(name, kw).value) == Plan(BindCreate(kw))
    ensures Innermost(Create(name, kw).value) == Base(Registry[name], kw - CreateParams)
  {
    CreateIsPlan(name, kw);
    LayersOfWrap(Plan(BindCreate(kw)), Base(Registry[name], kw - CreateParams));
  }

  /** Whatever layers are present nest in the fixed order. */
  lemma CreateInOrder(name: string, kw: Kwargs)
    requires Create(name, kw).Ok?
    ensures InOrder(Layers(Create(name, kw).value))
  {
    CreateLayers(name, kw);
  }

  /** An episode layer is present iff `episode_length` is not None (default
      1000), and it carries exactly the episode length and action repeat. */
  lemma EpisodeLayerIff(name: string, kw: Kwargs)
    requires Create(name, kw).Ok?
    ensures HasEpisode(Layers(Create(name, kw).value))
        <==> Get(kw, EpisodeLengthKey, IntV(1000)) != NoneV
    ensures forall l :: l in Layers(Create(name, kw).value) && l.EpisodeLayer? ==>
        l == EpisodeLayer(Get(kw, EpisodeLengthKey, IntV(1000)), Get(kw, ActionRepeatKey, IntV(1)))
  {
    CreateLayers(name, kw);
    var ls := Layers(Create(name, kw).value);
    if Get(kw, EpisodeLengthKey, IntV(1000)) != NoneV {
      assert ls[|ls| - 1].EpisodeLayer?;
    }
  }

  /** A vector layer is present iff `batch_size` is truthy (neither None
      nor zero), and it carries that batch size unvalidated. */
  lemma VectorLayerIff(name: string, kw: Kwargs)
    requires Create(name, kw).Ok?
    ensures HasVector(Layers(Create(name, kw).value)) <==> Truthy(Get(kw, BatchSizeKey, NoneV))
    ensures forall l :: l in Layers(Create(name, kw).value) && l.VectorLayer? ==>
        l == VectorLayer(Get(kw, BatchSizeKey, NoneV))
  {
    CreateLayers(name, kw);
    var a := BindCreate(kw);
    var ls := Layers(Create(name, kw).value);
    if Truthy(a.batchSize) {
      var k := if Truthy(a.autoReset) then 1 else 0;
      assert ls[k].VectorLayer?;
    }
  }

  /** An auto-reset layer is present iff `auto_reset` is truthy (default
      True), and it is then the outermost layer. */
  lemma AutoResetLayerIff(name: string, kw: Kwargs)
    requires Create(name, kw).Ok?
    ensures HasAutoReset(Layers(Create(name, kw).value)) <==> Truthy(Get(kw, AutoResetKey, BoolV(true)))
    ensures HasAutoReset(Layers(Create(name, kw).value)) ==> Create(name, kw).value.AutoReset?
  {
    CreateLayers(name, kw);
    var ls := Layers(Create(name, kw).value);
    if Truthy(Get(kw, AutoResetKey, BoolV(true))) {
      assert ls[0].AutoResetLayer?;
    }
  }

  /** Without an episode layer, `action_repeat` has no effect on the result. */
  lemma ActionRepeatIgnored(name: string, kw: Kwargs, v: Value)
    requires Get(kw, EpisodeLengthKey, IntV(1000)) == NoneV
    ensures Create(name, kw[ActionRepeatKey := v]) == Create(name, kw - {ActionRepeatKey})
  {
    var kw1 := kw[ActionRepeatKey := v];
    var kw2 := kw - {ActionRepeatKey};
    assert kw1 - CreateParams == kw2 - CreateParams;
  }

  /** A chain is the bare constructed environment iff no layer's condition
      holds; in particular `episode_length=None, batch_size=None,
      auto_reset=False` gives exactly the constructor's result. */
  lemma BareEnvironmentIff(name: string, kw: Kwargs)
    requires Create(name, kw).Ok?
    ensures Create(name, kw).value == Base(Registry[name], kw - CreateParams)
        <==> (Get(kw, EpisodeLengthKey, IntV(1000)) == NoneV
              && !Truthy(Get(kw, BatchSizeKey, NoneV))
              && !Truthy(Get(kw, AutoResetKey, BoolV(true))))
  {
  }

  /** The default call: an episode layer of length 1000 and action repeat
      1, no vector layer, auto-reset outermost. */
  lemma CreateDefaults(name: string)
    requires name in Registry
    ensures Create(name, map[]) == Ok(AutoReset(Episode(Base(Registry[name], map[]), IntV(1000), IntV(1))))
  {
  }

  /* ---------- create_fn ---------- */

  /** Calling `create_fn(name, **kw)` with further keywords is `create` with
      both sets of keywords, the later ones winning. */
  lemma PartialApplication(name: string, kw: Kwargs, more: Kwargs)
    requires CreateFn(name, kw).Ok?
    ensures Call(CreateFn(name, kw).value, more) == Create(name, kw + more)
    ensures Call(CreateFn(name, kw).value, map[]) == Create(name, kw)
  {
    assert kw + map[] == kw;
  }

  /** A `batch_size` given at the call replaces the one bound by `create_fn`. */
  lemma PartialOverridesBatchSize(name: string, kw: Kwargs, more: Kwargs)
    requires CreateFn(name, kw).Ok?
    requires BatchSizeKey in more
    requires Call(CreateFn(name, kw).value, more).Ok?
    ensures HasVector(Layers(Call(CreateFn(name, kw).value, more).value)) <==> Truthy(more[BatchSizeKey])
  {
    VectorLayerIff(name, kw + more);
  }

  /* ---------- create_gym_env ---------- */

  /** A keyword that is None behaves as if it were not passed to `create`. */
  lemma GymCreateKwargsWithoutBatch(name: string, kw: Kwargs)
    requires GymBatchSize(kw) == NoneV
    ensures Create(name, GymCreateKwargs(kw)) == Create(name, kw - GymParams)
  {
    assert GymCreateKwargs(kw) - CreateParams == (kw - GymParams) - CreateParams;
  }

  /** A single-instance adapter is returned iff the batch size is None; it
      wraps the chain `create` builds without a vector layer. */
  lemma GymIffNoBatch(name: string, kw: Kwargs)
    requires EnvNameKey !in kw && name in Registry
    ensures CreateGymEnv(name, kw).Ok? && CreateGymEnv(name, kw).value.Gym?
        <==> GymBatchSize(kw) == NoneV
    ensures GymBatchSize(kw) == NoneV ==>
        Create(name, kw - GymParams) == Ok(CreateGymEnv(name, kw).value.env)
        && !HasVector(Layers(CreateGymEnv(name, kw).value.env))
  {
    if GymBatchSize(kw) == NoneV {
      GymCreateKwargsWithoutBatch(name, kw);
      VectorLayerIff(name, GymCreateKwargs(kw));
    }
  }

  /** A batched adapter is returned iff the batch size is a positive
      number; its chain then holds a vector layer of that size. */
  lemma VectorGymIffPositive(name: string, kw: Kwargs)
    requires EnvNameKey !in kw && name in Registry
    ensures CreateGymEnv(name, kw).Ok? && CreateGymEnv(name, kw).value.VectorGym?
        <==> AsInt(GymBatchSize(kw)).Some? && AsInt(GymBatchSize(kw)).value > 0
    ensures CreateGymEnv(name, kw).Ok? && CreateGymEnv(name, kw).value.VectorGym? ==>
        VectorLayer(GymBatchSize(kw)) in Layers(CreateGymEnv(name, kw).value.env)
  {
  }

  /** ValueError is raised iff the batch size is a number at most zero. */
  lemma ValueErrorIffNonPositive(name: string, kw: Kwargs)
    requires EnvNameKey !in kw && name in Registry
    ensures CreateGymEnv(name, kw) == Err(ValueError)
        <==> AsInt(GymBatchSize(kw)).Some? && AsInt(GymBatchSize(kw)).value <= 0
  {
  }

  /** A batch size that is neither None nor a number cannot be compared with
      zero and raises TypeError. */
  lemma TypeErrorIffIncomparable(name: string, kw: Kwargs)
    requires EnvNameKey !in kw && name in Registry
    ensures CreateGymEnv(name, kw) == Err(TypeError)
        <==> GymBatchSize(kw) != NoneV && AsInt(GymBatchSize(kw)).None?
  {
  }
}
