/** The environment factory of `brax.envs`: a fixed registry of named
    environment constructors, `create`, which builds a wrapper chain around
    the constructed environment, `create_fn`, its partial application, and
    `create_gym_env`, which puts a single-instance or batched gym adapter
    around the result of `create`.

    The wrappers and adapters are described by shape only: each is an
    uninterpreted constructor of `Term` or `Adapter` holding exactly the
    arguments the factory passes to it. */
module Envs {
  import opened PyValues

  /** The constructors the registry maps names to. */
  datatype Ctor = GraspSphere | GraspPencil | GraspPole

  /** An environment as the factory assembles it. `Base` is the registered
      constructor applied to the construction keyword arguments. */
  datatype Term =
    | Base(ctor: Ctor, kwargs: Kwargs)
    | Episode(inner: Term, length: Value, repeat: Value)
    | Vector(inner: Term, size: Value)
    | AutoReset(inner: Term)

  /** The gym adapters; `seed` and `backend` are stored, never interpreted. */
  datatype Adapter =
    | Gym(env: Term, seed: Value, backend: Value)
    | VectorGym(env: Term, seed: Value, backend: Value)

  datatype Error =
    | KeyError(key: string)  // unknown environment name
    | ValueError             // non-positive batch size for a gym adapter
    | TypeError              // a call Python's argument binding or `<=` rejects

  datatype Result<T> = Ok(value: T) | Err(error: Error)

  /** The registry: three names, each mapped to its constructor. */
  const Registry: map<string, Ctor> :=
    map["grasp_sphere" := GraspSphere,
        "grasp_pencil" := GraspPencil,
        "grasp_pole" := GraspPole]

  /** Parameter names of `create` and `create_gym_env`. */
  const EnvNameKey := "env_name"
  const EpisodeLengthKey := "episode_length"
  const ActionRepeatKey := "action_repeat"
  const AutoResetKey := "auto_reset"
  const BatchSizeKey := "batch_size"
  const SeedKey := "seed"
  const BackendKey := "backend"

  /** The keyword parameters `create` binds itself; every other keyword goes
      to the environment constructor. */
  const CreateParams: set<string> :=
    {EpisodeLengthKey, ActionRepeatKey, AutoResetKey, BatchSizeKey}

  /** The keyword parameters `create_gym_env` binds itself. */
  const GymParams: set<string> := {BatchSizeKey, SeedKey, BackendKey}

  /* ---------- wrapper chains as lists of layers ---------- */

  /** One wrapper layer, without the environment it wraps. */
  datatype Layer =
    | EpisodeLayer(length: Value, repeat: Value)
    | VectorLayer(size: Value)
    | AutoResetLayer

  /** Puts one layer around an environment. */
  function Apply(l: Layer, t: Term): Term {
    match l
    case EpisodeLayer(n, r) => Episode(t, n, r)
    case VectorLayer(b) => Vector(t, b)
    case AutoResetLayer => AutoReset(t)
  }

  /** Puts the layers `ls`, listed outermost first, around `t`. */
  function Wrap(ls: seq<Layer>, t: Term): Term
    decreases |ls|
  {
    if ls == [] then t else Apply(ls[0], Wrap(ls[1..], t))
  }

  /** The layers of a chain, outermost first. */
  function Layers(t: Term): seq<Layer> {
    match t
    case Base(_, _) => []
    case Episode(i, n, r) => [EpisodeLayer(n, r)] + Layers(i)
    case Vector(i, b) => [VectorLayer(b)] + Layers(i)
    case AutoReset(i) => [AutoResetLayer] + Layers(i)
  }

  /** The bare environment at the bottom of a chain. */
  function Innermost(t: Term): (b: Term)
    ensures b.Base?
  {
    match t
    case Base(_, _) => t
    case Episode(i, _, _) => Innermost(i)
    case Vector(i, _) => Innermost(i)
    case AutoReset(i) => Innermost(i)
  }

  /* ---------- create ---------- */

  /** The arguments of one `create` call after Python has bound them. */
  datatype CreateArgs = CreateArgs(
    episodeLength: Value,
    actionRepeat: Value,
    autoReset: Value,
    batchSize: Value,
    ctorKwargs: Kwargs)

  /** Binds the keyword arguments of a `create` call to its parameters,
      with the defaults 1000, 1, True and None. */
  function BindCreate(kw: Kwargs): (a: CreateArgs)
    ensures EpisodeLengthKey !in kw ==> a.episodeLength == IntV(1000)
    ensures ActionRepeatKey !in kw ==> a.actionRepeat == IntV(1)
    ensures AutoResetKey !in kw ==> a.autoReset == BoolV(true)
    ensures BatchSizeKey !in kw ==> a.batchSize == NoneV
    ensures EpisodeLengthKey in kw ==> a.episodeLength == kw[EpisodeLengthKey]
    ensures ActionRepeatKey in kw ==> a.actionRepeat == kw[ActionRepeatKey]
    ensures AutoResetKey in kw ==> a.autoReset == kw[AutoResetKey]
    ensures BatchSizeKey in kw ==> a.batchSize == kw[BatchSizeKey]
    ensures a.ctorKwargs.Keys == kw.Keys - CreateParams
    ensures forall k :: k in a.ctorKwargs ==> a.ctorKwargs[k] == kw[k]
  {
    CreateArgs(
      Get(kw, EpisodeLengthKey, IntV(1000)),
      Get(kw, ActionRepeatKey, IntV(1)),
      Get(kw, AutoResetKey, BoolV(true)),
      Get(kw, BatchSizeKey, NoneV),
      kw - CreateParams)
  }

  /** `create(name, **kw)`. The constructor lookup comes first; then the
      episode layer (when the episode length is not None), the vector layer
      (when the batch size is truthy) and the auto-reset layer (when
      `auto_reset` is truthy), each around the previous result. */
  function Create(name: string, kw: Kwargs): (r: Result<Term>)
    ensures EnvNameKey in kw ==> r == Err(TypeError)
    ensures EnvNameKey !in kw && name !in Registry ==> r == Err(KeyError(name))
    ensures r.Ok? <==> EnvNameKey !in kw && name in Registry
  {
    if EnvNameKey in kw then Err(TypeError)
    else if name !in Registry then Err(KeyError(name))
    else
      var a := BindCreate(kw);
      var env := Base(Registry[name], a.ctorKwargs);
      var env := if a.episodeLength != NoneV then Episode(env, a.episodeLength, a.actionRepeat) else env;
      var env := if Truthy(a.batchSize) then Vector(env, a.batchSize) else env;
      var env := if Truthy(a.autoReset) then AutoReset(env) else env;
      Ok(env)
  }

  /* ---------- create_fn ---------- */

  /** `functools.partial(create, name, **bound)`. */
  datatype Partial = Partial(name: string, bound: Kwargs)

  /** `create_fn(name, **kw)`. Its own signature already binds `env_name`,
      so passing it again as a keyword is a TypeError. */
  function CreateFn(name: string, kw: Kwargs): (r: Result<Partial>)
    ensures r.Ok? <==> EnvNameKey !in kw
    ensures r.Ok? ==> r.value.name == name && r.value.bound == kw
  {
    if EnvNameKey in kw then Err(TypeError) else Ok(Partial(name, kw))
  }

  /** Calls a partial with further keywords; as in `functools.partial`, a
      keyword given at the call replaces the stored one of the same name. */
  function Call(p: Partial, more: Kwargs): (r: Result<Term>)
    ensures EnvNameKey in more ==> r == Err(TypeError)
    ensures EnvNameKey !in p.bound + more && p.name !in Registry ==> r == Err(KeyError(p.name))
    ensures r.Ok? <==> EnvNameKey !in p.bound + more && p.name in Registry
  {
    Create(p.name, p.bound + more)
  }

  /* ---------- create_gym_env ---------- */

  /** `batch_size <= 0`, or None when Python cannot compare the value. */
  function AtMostZero(v: Value): (c: Option<bool>)
    ensures c.Some? <==> AsInt(v).Some?
    ensures c.Some? ==> (c.value <==> AsInt(v).value <= 0)
  {
    match AsInt(v)
    case Some(n) => Some(n <= 0)
    case None => None
  }

  /** The batch size a `create_gym_env` call is given (None by default). */
  function GymBatchSize(kw: Kwargs): Value {
    Get(kw, BatchSizeKey, NoneV)
  }

  /** The keywords `create_gym_env` passes on to `create`: its own
      `batch_size` and every keyword it does not bind itself. */
  function GymCreateKwargs(kw: Kwargs): (c: Kwargs)
    ensures c.Keys == (kw.Keys - GymParams) + {BatchSizeKey}
    ensures c[BatchSizeKey] == GymBatchSize(kw)
    ensures forall k :: k in c && k != BatchSizeKey ==> c[k] == kw[k]
  {
    (kw - GymParams)[BatchSizeKey := GymBatchSize(kw)]
  }

  /** `create_gym_env(name, **kw)`: `create` runs first, then the adapter is
      chosen by the batch size (None: single; positive: batched; otherwise
      ValueError). Seed (default 0) and backend (default None) are stored. */
  function CreateGymEnv(name: string, kw: Kwargs): (r: Result<Adapter>)
    ensures EnvNameKey in kw ==> r == Err(TypeError)
    ensures EnvNameKey !in kw && name !in Registry ==> r == Err(KeyError(name))
    ensures r.Ok? ==> r.value.seed == Get(kw, SeedKey, IntV(0))
    ensures r.Ok? ==> r.value.backend == Get(kw, BackendKey, NoneV)
    ensures r.Ok? ==> Create(name, GymCreateKwargs(kw)) == Ok(r.value.env)
  {
    if EnvNameKey in kw then Err(TypeError)
    else
      var batchSize := GymBatchSize(kw);
      var seed := Get(kw, SeedKey, IntV(0));
      var backend := Get(kw, BackendKey, NoneV);
      match Create(name, GymCreateKwargs(kw))
      case Err(e) => Err(e)
      case Ok(environment) =>
        if batchSize == NoneV then Ok(Gym(environment, seed, backend))
        else match AtMostZero(batchSize)
          case None => Err(TypeError)
          case Some(true) => Err(ValueError)
          case Some(false) => Ok(VectorGym(environment, seed, backend))
  }
}
