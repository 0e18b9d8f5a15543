# Brax environment factory, modelled in Dafny

This project models the environment factory of `brax.envs`. The factory has four parts:

- a fixed registry of three named environment constructors (`grasp_sphere`, `grasp_pencil`, `grasp_pole`);
- `create`, which builds a wrapper chain around the constructed environment;
- `create_fn`, a partial application of `create`;
- `create_gym_env`, which puts a single-instance or batched gym adapter around the result of `create`.

The wrappers (`EpisodeWrapper`, `VectorWrapper`, `AutoResetWrapper`) and the adapters (`GymWrapper`, `VectorGymWrapper`) appear by shape only. Each one is an uninterpreted constructor of `Envs.Term` or `Envs.Adapter` that holds exactly the arguments the factory passes to it.

Files:

- `values.dfy` (module `PyValues`): the Python value semantics the factory relies on. This covers keyword maps, binding a defaulted parameter (`Get`), truthiness (`Truthy`, used by `if batch_size:` and `if auto_reset:`), and comparison with zero. A bool counts as an int, and `None`, a string or a plain object cannot be compared.
- `envs.dfy` (module `Envs`): the registry and the data model, plus `Create`, `CreateFn`/`Call` and `CreateGymEnv`. It also defines `Wrap`, which puts a list of layers around an environment, and its inverses `Layers` and `Innermost`.
- `properties.dfy` (module `EnvProperties`): the lemmas. `Plan` is an independent reference definition that lists the layers `create` adds, outermost first.

### How calls are modelled

Each call takes the environment name plus one map holding all of its keyword arguments. The modelled function binds that map to parameters the way Python does:

- a named parameter binds to the value passed for it, and takes its default when absent (1000, 1, True and None for `create`; None, 0 and None for `create_gym_env`);
- every other keyword is forwarded unchanged to the registered constructor;
- passing `env_name` a second time as a keyword is Python's `TypeError`.

With this, `create_fn(name, **kw)(**more)` is `create(name, **(kw + more))`. As in `functools.partial`, a keyword given at the call replaces the stored one.

### Facts about the source worth knowing

- `create` does not validate `batch_size` (brax/envs/__init__.py:44-45). `0` is falsy, so no vector layer is added, and `-5` gives `Vector(…, -5)`. Only `create_gym_env` rejects a non-positive size (lines 84-86), and it does so after `create` has run, so an unknown name is a `KeyError` first.
- The episode layer is added exactly when `episode_length is not None` (line 42); the default chain is `AutoReset(Episode(base, 1000, 1))`.

## Model

| member | source | states |
|---|---|---|
| Envs.Create | brax/envs/__init__.py:27-49 | the call succeeds iff the name is one of the three registry keys and `env_name` is not passed again; an unknown name gives `KeyError(name)` and no chain at all; a repeated `env_name` is a TypeError |
| Envs.BindCreate | brax/envs/__init__.py:34-39 | a passed `episode_length`, `action_repeat`, `auto_reset` or `batch_size` binds to the value passed, and an absent one takes its default 1000, 1, True or None; the construction keywords are exactly the keywords other than the four parameters, with their values unchanged |
| Envs.CreateFn | brax/envs/__init__.py:52-54 | `create_fn` returns a partial holding the name and the keywords unchanged, and fails only when `env_name` is passed twice |
| Envs.Call | brax/envs/__init__.py:54 | calling the partial fails with TypeError when the call passes `env_name` again, with `KeyError(name)` when the stored name is not registered, and succeeds exactly when neither happens |
| Envs.AtMostZero | brax/envs/__init__.py:84 | `batch_size <= 0` is decided for ints and bools (a bool counts as 0 or 1) and is undefined, hence a TypeError, for every other value |
| PyValues.Truthy | brax/envs/__init__.py:44-47 | the falsy values are exactly None, False, 0 and the empty string; these are the values for which `if batch_size:` and `if auto_reset:` skip their layer |
| Envs.CreateGymEnv | brax/envs/__init__.py:75-87 | a repeated `env_name` is a TypeError; an unknown name is a `KeyError` whatever the batch size, because `create` runs before the check; a returned adapter stores the seed (default 0) and backend (default None), and its environment is exactly what `create` returns for the forwarded keywords |
| Envs.GymCreateKwargs | brax/envs/__init__.py:81 | `create` receives `create_gym_env`'s batch size and every keyword except `batch_size`, `seed` and `backend`, each with its value unchanged |
| EnvProperties.WrapAppend | brax/envs/__init__.py:41-47 | putting a concatenation of layer lists around an environment is the same as putting on the inner list first and then the outer one |
| EnvProperties.LayersOfWrap | brax/envs/__init__.py:41-47 | reading back a chain built from a bare environment gives the same layer list and the same bare environment |
| EnvProperties.WrapOfLayers | brax/envs/__init__.py:41-47 | every chain is its bare environment wrapped in its own layers, so a chain is fully determined by its layers and base |
| EnvProperties.CreateIsPlan | brax/envs/__init__.py:41-49 | a successful `create` equals the base constructed with the construction keywords, wrapped in exactly the planned layers: auto-reset if `auto_reset` is truthy, then vector if `batch_size` is truthy, then episode if `episode_length is not None` |
| EnvProperties.CreateLayers | brax/envs/__init__.py:41-49 | the layers of the result are the plan, and the innermost environment is the registry constructor applied to the unchanged construction keywords (the only place they go) |
| EnvProperties.CreateInOrder | brax/envs/__init__.py:41-49 | whatever layers are present, auto-reset is outside vector, which is outside episode, and no kind of layer occurs twice |
| EnvProperties.EpisodeLayerIff | brax/envs/__init__.py:42-43 | an episode layer is present iff `episode_length` is not None, and every episode layer carries exactly `episode_length` and `action_repeat` |
| EnvProperties.VectorLayerIff | brax/envs/__init__.py:44-45 | a vector layer is present iff `batch_size` is truthy (neither None nor 0); it carries the batch size as given, which may be negative |
| EnvProperties.AutoResetLayerIff | brax/envs/__init__.py:46-47 | an auto-reset layer is present iff `auto_reset` is truthy, and it is then the outermost layer |
| EnvProperties.ActionRepeatIgnored | brax/envs/__init__.py:42-43 | when `episode_length` is None, any `action_repeat` gives the same result as passing none |
| EnvProperties.BareEnvironmentIff | brax/envs/__init__.py:41-49 | the result is the bare constructed environment iff `episode_length` is None, `batch_size` is falsy and `auto_reset` is falsy |
| EnvProperties.CreateDefaults | brax/envs/__init__.py:34-49 | `create(name)` with no keywords is auto-reset around an episode layer of length 1000 and repeat 1 around the bare environment |
| EnvProperties.PartialApplication | brax/envs/__init__.py:52-54 | calling the partial with further keywords is `create` with the stored keywords overridden by the new ones; calling it with none is `create(name, **kw)` |
| EnvProperties.PartialOverridesBatchSize | brax/envs/__init__.py:52-54 | a `batch_size` given at the call, not the stored one, decides whether a vector layer is present |
| EnvProperties.GymCreateKwargsWithoutBatch | brax/envs/__init__.py:81 | forwarding `batch_size=None` to `create` gives the same chain as not forwarding it |
| EnvProperties.GymIffNoBatch | brax/envs/__init__.py:81-83 | for a known name, a single-instance adapter comes back iff the batch size is None; its chain has no vector layer and is what `create` returns for the keywords other than `batch_size`, `seed` and `backend` |
| EnvProperties.VectorGymIffPositive | brax/envs/__init__.py:84-87 | for a known name, a batched adapter comes back iff the batch size is a number greater than zero, and its chain then holds a vector layer of that size |
| EnvProperties.ValueErrorIffNonPositive | brax/envs/__init__.py:84-86 | for a known name, `ValueError` is raised iff the batch size is a number at most zero |
| EnvProperties.TypeErrorIffIncomparable | brax/envs/__init__.py:84 | for a known name, a batch size that is neither None nor a number fails the `<= 0` comparison with a TypeError |

## Left out

- What the wrappers and adapters do when stepped or reset (truncation, action repeat, batching, auto-reset). They are defined in brax/envs/wrappers.py, which is not part of this model, so they appear only as constructors.
- The physics environments `grasp_sphere`, `grasp_pencil` and `grasp_pole`. They are simulation code that is not part of this model; only their registry names remain, as the constructors of `Envs.Ctor`.
- Errors a registered constructor might raise for unsuitable keywords. The constructors are not part of this model, so construction always succeeds when the name is known.
- The gym library, backend selection and seed handling inside the adapters. `seed` and `backend` are stored values.
- The `@overload` declarations of `create_gym_env` (brax/envs/__init__.py:57-72). They only give static types.
- Positional arguments. Every call takes the name and then keywords only, and the partial is also called with keywords only. Binding extra positional arguments to `episode_length` and the rest is not modelled.
- Keyword values other than None, bool, int, str and a plain object. Floats and containers, with their own truthiness and ordering, are not represented.
- Envs.CreateGymEnv: for an object batch size it assumes the default behaviour of a plain object, which cannot be ordered against an int. A user-defined `__le__` or `__bool__` is not modelled.
