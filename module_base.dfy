/**
  The public contract of an OpenPype module addon: the base class that every
  addon implementation derives from.  The base class keeps three pieces of
  state (the manager that created it, whether the addon is enabled, and a
  lazily generated identifier), runs a fixed construction sequence around the
  subclass's `initialize` hook, and supplies do-nothing defaults for the
  remaining hooks.

  The module is written in two layers.  `AddonState` and the functions over it
  are the value-level specification; the class `OpenPypeModuleAddon` is the
  object the source mutates in place.  Its constructor, `New`, `Initialize`
  and `Id` are proved against those functions; the three default hooks
  state their promise directly on the object (nothing changes, and the
  environment mapping is empty).
 */
module ModuleBase {

  datatype Option<T> = None | Some(value: T)

  /** A 128-bit identifier; the oracle that stands for `uuid4` may supply any
      such value. */
  newtype Uuid = x: int | 0 <= x < 0x1_0000_0000_0000_0000_0000_0000_0000_0000

  /** Non-owning handle to the modules manager that created the addon; the
      manager itself is not part of this model. */
  datatype ManagerRef = ManagerRef(handle: nat)

  /** One value of a module's settings subtree. */
  datatype SettingValue =
    | Flag(flag: bool)
    | Number(number: int)
    | Text(text: string)
    | Section(entries: map<string, SettingValue>)

  type Settings = map<string, SettingValue>

  /** Environment variable name to value. */
  type Environment = map<string, string>

  /** What a concrete subclass's `initialize` does to the base-class state,
      decided from the manager the addon holds at the call and the settings it
      is given: whether it raises, the value it assigns to `enabled` (None when
      it leaves the default alone), and whether it reads the `id` property. */
  datatype InitHook = InitHook(
    raises: (ManagerRef, Settings) -> bool,
    enabledAfter: (ManagerRef, Settings) -> Option<bool>,
    readsId: (ManagerRef, Settings) -> bool)

  /** A record of one call of `initialize`: the manager the addon held at the
      moment of the call, and the settings it was given. */
  datatype InitCall = InitCall(managerSeen: ManagerRef, settings: Settings)

  /** The base-class state of one addon instance. */
  datatype AddonState = AddonState(
    manager: ManagerRef,
    enabled: bool,
    idCache: Option<Uuid>,
    initCalls: seq<InitCall>)

  /** Class-level defaults: disabled, and no identifier yet. */
  const DefaultEnabled: bool := false
  const DefaultId: Option<Uuid> := None

  /** The state after `__init__` has stored the manager and before it calls
      `initialize`. */
  function BeforeInitialize(manager: ManagerRef): (r: AddonState)
    ensures r.manager == manager && !r.enabled && r.idCache == None && r.initCalls == []
  {
    AddonState(manager, DefaultEnabled, DefaultId, [])
  }

  datatype IdRead = IdRead(state: AddonState, id: Uuid)

  /** Reading the `id` property, with `candidate` standing for the value `uuid4`
      would produce if it were called. */
  function ReadId(s: AddonState, candidate: Uuid): (r: IdRead)
    ensures r.state.idCache == Some(r.id)
    ensures s.idCache.Some? ==> r.state == s && r.id == s.idCache.value
    ensures s.idCache.None? ==> r.id == candidate && r.state == s.(idCache := Some(candidate))
  {
    match s.idCache
    case None => IdRead(s.(idCache := Some(candidate)), candidate)
    case Some(id) => IdRead(s, id)
  }

  /** The state after a call of `initialize`, and whether the hook raised. */
  datatype InitOutcome = InitOutcome(state: AddonState, raised: bool)

  /** Calling a subclass's `initialize` hook once with `settings`.  A hook that
      raises is taken to raise before it changes the base-class state. */
  function RunInitialize(s: AddonState, settings: Settings, hook: InitHook, candidate: Uuid): (r: InitOutcome)
    ensures r.raised == hook.raises(s.manager, settings)
    ensures r.state.manager == s.manager
    ensures r.state.initCalls == s.initCalls + [InitCall(s.manager, settings)]
    ensures r.raised ==> r.state.enabled == s.enabled && r.state.idCache == s.idCache
    ensures !r.raised ==>
      r.state.enabled == match hook.enabledAfter(s.manager, settings) case Some(e) => e case None => s.enabled
    ensures !r.raised ==>
      r.state.idCache == if s.idCache.None? && hook.readsId(s.manager, settings) then Some(candidate) else s.idCache
  {
    var called := s.(initCalls := s.initCalls + [InitCall(s.manager, settings)]);
    if hook.raises(s.manager, settings) then InitOutcome(called, true)
    else
      var afterRead := if hook.readsId(s.manager, settings) then ReadId(called, candidate).state else called;
      match hook.enabledAfter(s.manager, settings)
      case Some(e) => InitOutcome(afterRead.(enabled := e), false)
      case None => InitOutcome(afterRead, false)
  }

  /** Constructing an addon: `__init__` stores the manager, then calls
      `initialize` exactly once with the given settings.  When the hook raises,
      the exception leaves `__init__` and no addon exists (None). */
  function Constructed(manager: ManagerRef, settings: Settings, hook: InitHook, candidate: Uuid): (r: Option<AddonState>)
    ensures r.None? <==> hook.raises(manager, settings)
    ensures r.Some? ==> r.value.manager == manager
    ensures r.Some? ==> r.value.initCalls == [InitCall(manager, settings)]
    ensures r.Some? ==> (r.value.enabled <==> hook.enabledAfter(manager, settings) == Some(true))
    ensures r.Some? ==> (r.value.idCache.Some? <==> hook.readsId(manager, settings))
    ensures r.Some? && hook.readsId(manager, settings) ==> r.value.idCache == Some(candidate)
  {
    var run := RunInitialize(BeforeInitialize(manager), settings, hook, candidate);
    if run.raised then None else Some(run.state)
  }

  /** A call on an already constructed addon, with its arguments as values:
      the oracle value for `id`, the states of the modules handed to
      `connect_with_modules` (the value view of the object list that
      `OpenPypeModuleAddon.ConnectWithModules` takes), and the commands already
      registered on the group handed to `cli`. */
  datatype Call =
    | ReadIdCall(candidate: Uuid)
    | ConnectCall(enabledModules: seq<AddonState>)
    | EnvironmentsCall
    | CliCall(groupCommands: seq<string>)

  /** What a call gives back: the identifier, the environment mapping, or, for
      `connect_with_modules` and `cli` (which return None), the state of their
      arguments after the call. */
  datatype Reply =
    | IdReply(id: Uuid)
    | ConnectReply(modulesAfter: seq<AddonState>)
    | EnvironmentsReply(env: Environment)
    | CliReply(groupCommandsAfter: seq<string>)

  datatype StepResult = StepResult(state: AddonState, reply: Reply)

  /** One call with the base class's behaviour. */
  function Step(s: AddonState, c: Call): (r: StepResult)
    ensures c.ReadIdCall? ==> r.reply.IdReply? && IdRead(r.state, r.reply.id) == ReadId(s, c.candidate)
    ensures !c.ReadIdCall? ==> r.state == s
    ensures c.ConnectCall? ==> r.reply == ConnectReply(c.enabledModules)
    ensures c.EnvironmentsCall? ==> r.reply == EnvironmentsReply(map[])
    ensures c.CliCall? ==> r.reply == CliReply(c.groupCommands)
  {
    match c
    case ReadIdCall(candidate) =>
      var read := ReadId(s, candidate);
      StepResult(read.state, IdReply(read.id))
    case ConnectCall(modules) => StepResult(s, ConnectReply(modules))
    case EnvironmentsCall => StepResult(s, EnvironmentsReply(map[]))
    case CliCall(commands) => StepResult(s, CliReply(commands))
  }

  datatype Outcome = Outcome(state: AddonState, replies: seq<Reply>)

  /** A sequence of calls, one after another, on one addon. */
  function Run(s: AddonState, calls: seq<Call>): (r: Outcome)
    ensures |r.replies| == |calls|
    decreases |calls|
  {
    if calls == [] then Outcome(s, [])
    else
      var first := Step(s, calls[0]);
      var rest := Run(first.state, calls[1..]);
      Outcome(rest.state, [first.reply] + rest.replies)
  }

  /** Over any sequence of calls only the identifier cache can change; once it
      is set it never changes again; every `id` read returns the identifier the
      cache holds at the end, so all reads agree. */
  lemma {:induction false} IdStableAcrossCalls(s: AddonState, calls: seq<Call>)
    ensures Run(s, calls).state == s.(idCache := Run(s, calls).state.idCache)
    ensures s.idCache.Some? ==> Run(s, calls).state == s
    ensures forall i :: 0 <= i < |calls| ==> (Run(s, calls).replies[i].IdReply? <==> calls[i].ReadIdCall?)
    ensures forall i :: 0 <= i < |calls| && calls[i].ReadIdCall? ==>
      Run(s, calls).state.idCache == Some(Run(s, calls).replies[i].id)
    decreases |calls|
  {
    if calls != [] {
      var first := Step(s, calls[0]);
      IdStableAcrossCalls(first.state, calls[1..]);
      var rest := Run(first.state, calls[1..]);
      assert Run(s, calls).replies == [first.reply] + rest.replies;
      if calls[0].ReadIdCall? {
        assert first.state.idCache.Some?;
        assert rest.state == first.state;
      }
    }
  }

  /** While the identifier is unset, the first `id` read in a sequence of calls
      returns the oracle value given to it, and the cache keeps that value. */
  lemma {:induction false} FirstReadUsesOracle(s: AddonState, calls: seq<Call>, k: nat)
    requires s.idCache == None
    requires k < |calls| && calls[k].ReadIdCall?
    requires forall j :: 0 <= j < k ==> !calls[j].ReadIdCall?
    ensures Run(s, calls).replies[k] == IdReply(calls[k].candidate)
    ensures Run(s, calls).state.idCache == Some(calls[k].candidate)
    decreases k
  {
    var first := Step(s, calls[0]);
    var rest := Run(first.state, calls[1..]);
    assert Run(s, calls).replies == [first.reply] + rest.replies;
    if k == 0 {
      IdStableAcrossCalls(first.state, calls[1..]);
    } else {
      assert !calls[0].ReadIdCall?;
      FirstReadUsesOracle(first.state, calls[1..], k - 1);
    }
  }

  /** The default hooks `connect_with_modules`, `get_global_environments` and
      `cli` change nothing: over any sequence of such calls the state stays as
      it was. */
  lemma {:induction false} DefaultHooksChangeNothing(s: AddonState, calls: seq<Call>)
    requires forall i :: 0 <= i < |calls| ==> !calls[i].ReadIdCall?
    ensures Run(s, calls).state == s
    decreases |calls|
  {
    if calls != [] {
      DefaultHooksChangeNothing(Step(s, calls[0]).state, calls[1..]);
    }
  }

  /** In any sequence of calls, `id` reads included, the modules and the group
      handed to the default hooks come back as they were handed in, and every
      environment request gets the empty mapping.  The clauses for
      `connect_with_modules` and `cli` hold by the encoding, since `Step`
      echoes those arguments in its reply; the environment clause is the one
      with content. */
  lemma {:induction false} DefaultHookReplies(s: AddonState, calls: seq<Call>)
    ensures forall i :: 0 <= i < |calls| && calls[i].ConnectCall? ==>
      Run(s, calls).replies[i] == ConnectReply(calls[i].enabledModules)
    ensures forall i :: 0 <= i < |calls| && calls[i].EnvironmentsCall? ==>
      Run(s, calls).replies[i] == EnvironmentsReply(map[])
    ensures forall i :: 0 <= i < |calls| && calls[i].CliCall? ==>
      Run(s, calls).replies[i] == CliReply(calls[i].groupCommands)
    decreases |calls|
  {
    if calls != [] {
      var first := Step(s, calls[0]);
      DefaultHookReplies(first.state, calls[1..]);
      assert Run(s, calls).replies == [first.reply] + Run(first.state, calls[1..]).replies;
    }
  }

  /** The identifier an addon shows for its whole lifetime: every `id` read
      after a successful construction returns the value generated inside
      `initialize` when that hook read `id`, and otherwise the value generated
      by the first read. */
  lemma LifetimeId(manager: ManagerRef, settings: Settings, hook: InitHook, candidate: Uuid,
                   calls: seq<Call>, k: nat)
    requires k < |calls| && calls[k].ReadIdCall?
    requires forall j :: 0 <= j < k ==> !calls[j].ReadIdCall?
    ensures var built := Constructed(manager, settings, hook, candidate);
      var lifetime := if hook.readsId(manager, settings) then candidate else calls[k].candidate;
      built.Some? ==> forall i :: 0 <= i < |calls| && calls[i].ReadIdCall? ==>
        Run(built.value, calls).replies[i] == IdReply(lifetime)
  {
    var built := Constructed(manager, settings, hook, candidate);
    if built.Some? {
      IdStableAcrossCalls(built.value, calls);
      if !hook.readsId(manager, settings) {
        FirstReadUsesOracle(built.value, calls, k);
      }
    }
  }

  /** A command group handed to `cli` by the caller; it is owned by the
      command-line layer, which is not part of this model. */
  class ClickGroup {
    var commands: seq<string>

    constructor (commands: seq<string>)
      ensures this.commands == commands
    {
      this.commands := commands;
    }
  }

  /** The addon object.  `name` is the subclass's constant name; `initCalls`
      records the calls of `initialize` for the specification only. */
  class OpenPypeModuleAddon {
    const name: string
    var manager: ManagerRef
    var enabled: bool
    var idCache: Option<Uuid>
    ghost var initCalls: seq<InitCall>

    ghost function State(): AddonState
      reads this
    {
      AddonState(manager, enabled, idCache, initCalls)
    }

    /** The allocation of the object with the class defaults, and the first
        step of `__init__`: storing the manager.  It is only the first step of
        `New` and is not meant to be called on its own, since instantiating
        the class always goes on to call `initialize`. */
    constructor (name: string, manager: ManagerRef)
      ensures this.name == name
      ensures State() == BeforeInitialize(manager)
    {
      this.name := name;
      enabled := DefaultEnabled;
      idCache := DefaultId;
      initCalls := [];
      this.manager := manager;
    }

    /** Instantiating the addon class: allocate, store the manager, then call
        `initialize` once with the settings; `candidate` is the oracle value
        used should the hook read `id`.  Null when `initialize` raises, since
        the exception then leaves `__init__` and no addon is returned. */
    static method New(name: string, manager: ManagerRef, settings: Settings, hook: InitHook, candidate: Uuid)
      returns (addon: OpenPypeModuleAddon?)
      ensures addon == null <==> Constructed(manager, settings, hook, candidate).None?
      ensures addon != null ==> fresh(addon) && addon.name == name
      ensures addon != null ==> addon.State() == Constructed(manager, settings, hook, candidate).value
      ensures addon != null ==> addon.manager == manager && addon.initCalls == [InitCall(manager, settings)]
      ensures addon != null && !hook.readsId(manager, settings) ==> addon.idCache == None
    {
      var created := new OpenPypeModuleAddon(name, manager);
      var raised := created.Initialize(settings, hook, candidate);
      addon := if raised then null else created;
    }

    /** The subclass's `initialize` hook, as described by `hook`; `raised`
        tells whether it raised. */
    method Initialize(settings: Settings, hook: InitHook, candidate: Uuid) returns (raised: bool)
      modifies this
      ensures InitOutcome(State(), raised) == RunInitialize(old(State()), settings, hook, candidate)
    {
      initCalls := initCalls + [InitCall(manager, settings)];
      raised := hook.raises(manager, settings);
      if !raised {
        if hook.readsId(manager, settings) {
          var _ := Id(candidate);
        }
        match hook.enabledAfter(manager, settings)
        case Some(e) => enabled := e;
        case None =>
      }
    }

    /** The `id` property: generated on first read from the oracle value
        `candidate`, then cached for the object's lifetime. */
    method Id(candidate: Uuid) returns (id: Uuid)
      modifies this
      ensures IdRead(State(), id) == ReadId(old(State()), candidate)
      ensures old(idCache).Some? ==> id == old(idCache).value && unchanged(this)
      ensures old(idCache).None? ==> id == candidate && idCache == Some(candidate)
      ensures manager == old(manager) && enabled == old(enabled) && initCalls == old(initCalls)
    {
      if idCache.None? {
        idCache := Some(candidate);
      }
      id := idCache.value;
    }

    /** Default `connect_with_modules`: does nothing.  `ConnectCall` is the
        value view of this call, with the modules' states for the objects. */
    method ConnectWithModules(enabledModules: seq<OpenPypeModuleAddon>)
      ensures unchanged(this)
      ensures forall m :: m in enabledModules ==> unchanged(m)
    {
    }

    /** Default `get_global_environments`: the empty mapping, with no change of
        state. */
    method GetGlobalEnvironments() returns (env: Environment)
      ensures env == map[]
    {
      env := map[];
    }

    /** Default `cli`: registers nothing on the group. */
    method Cli(group: ClickGroup)
      ensures unchanged(this) && unchanged(group)
    {
    }
  }
}
