# OpenPype module addon contract

This project models `OpenPypeModuleAddon`, the base class every OpenPype
module addon derives from, and proves what its construction sequence, its
lazily generated identifier and its default hooks promise.

The base class holds three pieces of state:
- `manager`: the modules manager that created the addon.
- `enabled`: false by default.
- `_id`: the cached identifier, unset by default.

`__init__` stores the manager, then calls the subclass's `initialize` hook
once with the settings. The `id` property generates an identifier with
`uuid4` on first read and caches it. `connect_with_modules` and `cli` do
nothing by default, and `get_global_environments` returns `{}`.

All of it is in `module_base.dfy`, module `ModuleBase`, in two layers:
- A value layer. `AddonState` is the base-class state, with `ReadId`,
  `RunInitialize`, `Constructed`, `Step` (one call on a built addon) and
  `Run` (a sequence of calls) over it.
- The class `OpenPypeModuleAddon`. Its fields are updated in place. The
  contracts of the constructor, `New`, `Initialize` and `Id` tie the new
  state to the value layer. The three default hooks state their promise
  directly on the object: nothing changes, and the environment mapping is
  empty.

How the abstract parts are rendered:
- The abstract `name` property is a constant the concrete addon supplies at
  construction.
- The abstract `initialize` is an `InitHook` value. It says what a
  subclass's `initialize` does to the base-class state, decided from the
  manager the addon holds and the settings: whether it raises, the value it
  assigns to `enabled` (or none), and whether it reads `id`.
- Instantiating the class is the static method `New`. It returns null when
  `initialize` raises, because the exception then leaves `__init__` and no
  addon is returned. The constructor covers allocation with the class
  defaults and the storing of the manager. It is only the first step of
  `New` and is not meant to be called on its own.
- `uuid4()` is an oracle value, the `candidate` parameter of the `id` read.
- The ghost field `initCalls` records each call of `initialize` with the
  manager the addon held at that moment. This lets the contracts say that
  the manager was stored first and that the hook ran exactly once.

## Model

| member | source | states |
|---|---|---|
| ModuleBase.BeforeInitialize | openpype/module/base.py:26-37 | before `initialize` runs, the addon is disabled, has no identifier and holds the given manager |
| ModuleBase.ReadId | openpype/module/base.py:43-48 | the first read stores the oracle value and returns it; a later read returns the cached value and changes nothing; after any read the cache holds the returned id |
| ModuleBase.RunInitialize | openpype/module/base.py:50-57 | one call of the hook is recorded with the current manager and the settings; it raises exactly when the hook does, and then changes nothing else; otherwise `enabled` changes only if the hook assigns it, and the id is generated only if the hook reads it while unset |
| ModuleBase.Constructed | openpype/module/base.py:36-41 | construction fails exactly when `initialize` raises; otherwise the addon holds the given manager, `initialize` ran exactly once with the given settings after the manager was stored, `enabled` is true only if the hook set it true, and the id is unset unless the hook read it |
| ModuleBase.Step | openpype/module/base.py:43-96 | an `id` read behaves as `ReadId`; every default hook leaves the state unchanged; `connect_with_modules` and `cli` leave their arguments unchanged; `get_global_environments` returns the empty mapping |
| ModuleBase.Run | openpype/module/base.py:43-96 | a sequence of calls gives one reply per call |
| ModuleBase.IdStableAcrossCalls | openpype/module/base.py:43-48 | over any sequence of calls only the id cache can change; once set, it never changes; every `id` read returns the id cached at the end, so all reads agree |
| ModuleBase.FirstReadUsesOracle | openpype/module/base.py:43-48 | while the id is unset, the first read in a sequence returns its oracle value, and the cache keeps that value |
| ModuleBase.DefaultHooksChangeNothing | openpype/module/base.py:59-96 | any sequence of default-hook calls leaves the state as it was |
| ModuleBase.DefaultHookReplies | openpype/module/base.py:59-96 | in any sequence of calls, `id` reads included, the modules and group handed to the default hooks come back unchanged, and every environment request gets the empty mapping |
| ModuleBase.LifetimeId | openpype/module/base.py:36-48 | after a successful construction, every `id` read returns the same value: the one generated inside `initialize` if the hook read `id`, otherwise the one generated by the first read |
| ModuleBase.OpenPypeModuleAddon.constructor | openpype/module/base.py:26-37 | the new object has the class defaults (disabled, no id), no `initialize` call yet, and holds the given manager |
| ModuleBase.OpenPypeModuleAddon.New | openpype/module/base.py:36-41 | null exactly when `initialize` raises; otherwise a new object whose state equals `Constructed`: manager stored, `initialize` called once with the settings, id unset unless the hook read it |
| ModuleBase.OpenPypeModuleAddon.Initialize | openpype/module/base.py:50-57 | the object's new state and the raised flag are `RunInitialize` of its old state |
| ModuleBase.OpenPypeModuleAddon.Id | openpype/module/base.py:43-48 | the returned id and the new state are `ReadId` of the old state; a read with the cache set changes nothing; the first read stores and returns the oracle value |
| ModuleBase.OpenPypeModuleAddon.ConnectWithModules | openpype/module/base.py:59-61 | neither the addon nor any module in the list changes |
| ModuleBase.OpenPypeModuleAddon.GetGlobalEnvironments | openpype/module/base.py:63-68 | returns the empty mapping and changes no state |
| ModuleBase.OpenPypeModuleAddon.Cli | openpype/module/base.py:70-96 | neither the addon nor the command group changes, so nothing is registered |

## Left out

- Logging: `logging.getLogger(self.name)` in `__init__` is a foreign call. The `log` attribute is not modelled.
- Identifier uniqueness: `uuid4()` is an oracle value given to each `id` read. Uniqueness across instances is only probabilistic and is not claimed.
- Abstract-class enforcement: the `six`/`ABCMeta` metaclass would refuse to instantiate a subclass missing `name` or `initialize`. Here both are arguments of instantiation (`name` of the constructor, the hook of `New`), so no such check exists.
- ModuleBase.Constructed: the hook's choices (raise, `enabled`, reading `id`) are a function of the manager handle and the settings alone. A real hook may also depend on other attributes or on the outside world.
- ModuleBase.Constructed: a raising `initialize` is one outcome with no object. The exception's type and message are not modelled.
- ModuleBase.OpenPypeModuleAddon.Initialize: a real subclass's `initialize` may set any attribute it likes. The model captures only its effect on the base-class state (`enabled`, and the id through a read of `id`). It assumes the hook does not reassign `manager` or `_id` directly.
- ModuleBase.OpenPypeModuleAddon.Initialize: a hook that raises is taken to raise before changing `enabled` or reading `id`. Its partial effects are not modelled; after a failed construction the object is unreachable anyway.
- Overridden hooks: subclasses may override `connect_with_modules`, `get_global_environments` and `cli`. Only the base-class defaults are modelled.
- Command group: the click group is reduced to the list of command names registered on it. The command-line layer is not part of this model.
- Modules manager: discovery, ordering, environment merging and command-tree building are not in the modelled source.
- Host glue: `openpype/hosts/tvpaint/plugins/load/load_workfile.py` and `pype/plugins/resolve/publish/collect_workfile.py` are host-application I/O glue around calls whose source is not available. `pype/lib/__init__.py` only re-exports. None of them is modelled.
