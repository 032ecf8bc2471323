/**
  What the generator reads from the vector `CliArgs` builds. `Reading` is an
  independent, flag-by-flag statement of it: for every flag, the values that
  must follow it, in order. The lemmas here establish, segment by segment,
  that the concatenated vector says exactly that.
*/
module ArgumentReading {
  import opened Wrappers
  import opened Sequences
  import opened FabriktTypes
  import opened ArgVector
  import opened FabriktArguments

  // Comprehensions rather than displays keep the verifier from unfolding filters over these eagerly.

  /** The order in which the `--targets` values are appended. */
  const TargetOrder: seq<CodeGenerationType> :=
    seq(4, i requires 0 <= i < 4 =>
      if i == 0 then QuarkusReflectionConfig else if i == 1 then Client else if i == 2 then Controllers else HttpModels)

  /** The order in which each block tries its options (the order of the `addIfEnabled` calls). */
  const ClientOptionOrder: seq<ClientCodeGenOptionType> := [Resilience4j, ClientSuspendModifier]
  const ControllerOptionOrder: seq<ControllerCodeGenOptionType> := [Authentication, ControllerSuspendModifier]
  const ModelOptionOrder: seq<ModelCodeGenOptionType> := seq(7, i requires 0 <= i < 7 => [
    XExtensibleEnums, JavaSerialization, QuarkusReflection, MicronautIntrospection,
    MicronautReflection, IncludeCompanionObject, SealedInterfacesForOneOf
  ][i])

  /** The switch that turns each target on. */
  function TargetSwitch(c: GenerateTaskConfiguration): CodeGenerationType -> bool
    requires Resolved(c)
  {
    (t: CodeGenerationType) =>
      match t
      case QuarkusReflectionConfig => c.quarkusReflectionConfig.value
      case Client => c.client.generate.value
      case Controllers => c.controller.generate.value
      case HttpModels => c.model.generate.value
  }

  /** The property behind each option of a block. */
  function ClientOptionSetting(client: ClientConfiguration): ClientCodeGenOptionType -> Option<bool> {
    (o: ClientCodeGenOptionType) =>
      match o
      case Resilience4j => client.resilience4j
      case ClientSuspendModifier => client.suspendModifier
  }

  function ControllerOptionSetting(controller: ControllerConfiguration): ControllerCodeGenOptionType -> Option<bool> {
    (o: ControllerCodeGenOptionType) =>
      match o
      case Authentication => controller.authentication
      case ControllerSuspendModifier => controller.suspendModifier
  }

  function ModelOptionSetting(model: ModelConfiguration): ModelCodeGenOptionType -> Option<bool> {
    (o: ModelCodeGenOptionType) =>
      match o
      case XExtensibleEnums => model.extensibleEnums
      case JavaSerialization => model.javaSerialization
      case QuarkusReflection => model.quarkusReflection
      case MicronautIntrospection => model.micronautIntrospection
      case MicronautReflection => model.micronautReflection
      case IncludeCompanionObject => model.includeCompanionObject
      case SealedInterfacesForOneOf => model.sealedInterfacesForOneOf
  }

  function TargetName(t: CodeGenerationType): string { t.Name() }
  function ClientOptionName(o: ClientCodeGenOptionType): string { o.Name() }
  function ControllerOptionName(o: ControllerCodeGenOptionType): string { o.Name() }
  function ModelOptionName(o: ModelCodeGenOptionType): string { o.Name() }

  /** The options among `options` whose property is true, in order; an absent property is off. */
  function EnabledOptions<T>(options: seq<T>, setting: T -> Option<bool>): (r: seq<T>)
    ensures |r| <= |options|
  {
    Filter(options, o => Enabled(setting(o)))
  }

  /** One `addIfEnabled` call per option, in the order of `options`. */
  function OptionArgs<T>(options: seq<T>, setting: T -> Option<bool>, flag: string, name: T -> string): (r: seq<string>)
    decreases |options|
  {
    if |options| == 0 then []
    else AddIfEnabled(setting(options[0]), flag, name(options[0])) + OptionArgs(options[1..], setting, flag, name)
  }

  /** The `--targets` values: one per enabled generation category, in the order of `TargetOrder`. */
  function TargetNames(c: GenerateTaskConfiguration): seq<string>
    requires Resolved(c)
  {
    Map(Filter(TargetOrder, TargetSwitch(c)), TargetName)
  }

  /** The names of the options of a block that are on, in the order of its `addIfEnabled` calls. */
  function ClientOptionNames(client: ClientConfiguration): seq<string> {
    Map(EnabledOptions(ClientOptionOrder, ClientOptionSetting(client)), ClientOptionName)
  }

  function ControllerOptionNames(controller: ControllerConfiguration): seq<string> {
    Map(EnabledOptions(ControllerOptionOrder, ControllerOptionSetting(controller)), ControllerOptionName)
  }

  function ModelOptionNames(model: ModelConfiguration): seq<string> {
    Map(EnabledOptions(ModelOptionOrder, ModelOptionSetting(model)), ModelOptionName)
  }

  /** The target of a generation block, as the values that follow its target flag. */
  function ClientTargetNames(client: ClientConfiguration): seq<string> {
    match client.target
    case None => []
    case Some(t) => [t.Name()]
  }

  function ControllerTargetNames(controller: ControllerConfiguration): seq<string> {
    match controller.target
    case None => []
    case Some(t) => [t.Name()]
  }

  function ExternalRefNames(c: GenerateTaskConfiguration): seq<string> {
    match c.externalReferenceResolution
    case None => []
    case Some(m) => [m.Name()]
  }

  function ValidationLibraryNames(c: GenerateTaskConfiguration): seq<string> {
    match c.validationLibrary
    case None => []
    case Some(l) => [l.Name()]
  }

  /**
    For every flag, the values that follow it in the argument vector of `c`,
    stated from the configuration alone: required values once, fragments in
    order, optional values when present, one target per enabled generation
    category, the options of an enabled block in call order, and nothing
    from a disabled block.
  */
  function Reading(c: GenerateTaskConfiguration, flag: string): seq<string>
    requires Resolved(c)
  {
    if flag == ARG_API_FILE then [c.apiFile]
    else if flag == ARG_API_FRAGMENT then c.apiFragments
    else if flag == ARG_EXT_REF_RESOLUTION then ExternalRefNames(c)
    else if flag == ARG_BASE_PACKAGE then [c.basePackage]
    else if flag == ARG_OUT_DIR then [c.outputDirectory]
    else if flag == ARG_SRC_PATH then c.sourcesPath.ToSeq()
    else if flag == ARG_RESOURCES_PATH then c.resourcesPath.ToSeq()
    else if flag == ARG_TYPE_OVERRIDES then OverrideNames(c.typeOverrides)
    else if flag == ARG_VALIDATION_LIB then ValidationLibraryNames(c)
    else if flag == ARG_TARGETS then TargetNames(c)
    else if flag == ARG_CLIENT_OPTS then
      (if c.client.generate.value then ClientOptionNames(c.client) else [])
    else if flag == ARG_CLIENT_TARGET then
      (if c.client.generate.value then ClientTargetNames(c.client) else [])
    else if flag == ARG_CONTROLLER_OPTS then
      (if c.controller.generate.value then ControllerOptionNames(c.controller) else [])
    else if flag == ARG_CONTROLLER_TARGET then
      (if c.controller.generate.value then ControllerTargetNames(c.controller) else [])
    else if flag == ARG_MODEL_OPTS then
      (if c.model.generate.value then ModelOptionNames(c.model) else [])
    else []
  }

  /** Two well-formed pieces make a well-formed whole, read piece by piece. */
  lemma Join(a: seq<string>, b: seq<string>, flags: set<string>, flag: string)
    requires WellFormed(a, flags) && WellFormed(b, flags)
    ensures WellFormed(a + b, flags)
    ensures ValuesOf(a + b, flag) == ValuesOf(a, flag) + ValuesOf(b, flag)
  {
    WellFormedAppend(a, b, flags);
    WellFormedIsPaired(a, flags);
    ValuesOfAppend(a, b, flag);
  }

  lemma ReadEmpty(flags: set<string>, flag: string)
    ensures WellFormed([], flags)
    ensures ValuesOf([], flag) == []
  {
  }

  /** `addIfEnabled` emits at most one pair, and only for its own flag. */
  lemma ReadAddIfEnabled(provider: Option<bool>, argName: string, argValue: string, flag: string)
    ensures WellFormed(AddIfEnabled(provider, argName, argValue), {argName})
    ensures ValuesOf(AddIfEnabled(provider, argName, argValue), flag) ==
              if flag == argName && Enabled(provider) then [argValue] else []
  {
    ReadPair(argName, argValue, {argName}, flag);
  }

  /** A run of `addIfEnabled` calls yields, for its flag, the names of the options that are on, in order. */
  lemma {:induction false} ReadOptionArgs<T>(
    options: seq<T>, setting: T -> Option<bool>, optsFlag: string, name: T -> string, flag: string)
    ensures WellFormed(OptionArgs(options, setting, optsFlag, name), {optsFlag})
    ensures ValuesOf(OptionArgs(options, setting, optsFlag, name), flag) ==
              if flag == optsFlag then Map(EnabledOptions(options, setting), name) else []
    decreases |options|
  {
    if |options| == 0 {
      ReadEmpty({optsFlag}, flag);
    } else {
      var first := AddIfEnabled(setting(options[0]), optsFlag, name(options[0]));
      ReadAddIfEnabled(setting(options[0]), optsFlag, name(options[0]), flag);
      ReadOptionArgs(options[1..], setting, optsFlag, name, flag);
      Join(first, OptionArgs(options[1..], setting, optsFlag, name), {optsFlag}, flag);
      EnabledNamesUnfold(options, setting, name);
    }
  }

  lemma EnabledNamesUnfold<T>(options: seq<T>, setting: T -> Option<bool>, name: T -> string)
    requires |options| > 0
    ensures Map(EnabledOptions(options, setting), name) ==
              (if Enabled(setting(options[0])) then [name(options[0])] else [])
              + Map(EnabledOptions(options[1..], setting), name)
  {
    var kept := if Enabled(setting(options[0])) then [options[0]] else [];
    assert EnabledOptions(options, setting) == kept + EnabledOptions(options[1..], setting);
    MapAppend(kept, EnabledOptions(options[1..], setting), name);
  }

  lemma ReadFixedPrefix(c: GenerateTaskConfiguration, flag: string)
    ensures WellFormed(FixedPrefix(c), {ARG_API_FILE, ARG_BASE_PACKAGE, ARG_OUT_DIR})
    ensures ValuesOf(FixedPrefix(c), flag) ==
              (if flag == ARG_API_FILE then [c.apiFile] else [])
              + (if flag == ARG_BASE_PACKAGE then [c.basePackage] else [])
              + (if flag == ARG_OUT_DIR then [c.outputDirectory] else [])
  {
    var flags := {ARG_API_FILE, ARG_BASE_PACKAGE, ARG_OUT_DIR};
    var p1 := [ARG_API_FILE, c.apiFile];
    var p2 := [ARG_BASE_PACKAGE, c.basePackage];
    var p3 := [ARG_OUT_DIR, c.outputDirectory];
    ReadPair(ARG_API_FILE, c.apiFile, flags, flag);
    ReadPair(ARG_BASE_PACKAGE, c.basePackage, flags, flag);
    ReadPair(ARG_OUT_DIR, c.outputDirectory, flags, flag);
    Join(p2, p3, flags, flag);
    Join(p1, p2 + p3, flags, flag);
    assert FixedPrefix(c) == p1 + (p2 + p3);
  }

  lemma {:induction false} ReadFragmentArgs(fragments: seq<string>, flag: string)
    ensures WellFormed(FragmentArgs(fragments), {ARG_API_FRAGMENT})
    ensures ValuesOf(FragmentArgs(fragments), flag) == if flag == ARG_API_FRAGMENT then fragments else []
    decreases |fragments|
  {
    if |fragments| == 0 {
      ReadEmpty({ARG_API_FRAGMENT}, flag);
    } else {
      assert FragmentArgs(fragments) == [ARG_API_FRAGMENT, fragments[0]] + FragmentArgs(fragments[1..]);
      ReadPair(ARG_API_FRAGMENT, fragments[0], {ARG_API_FRAGMENT}, flag);
      ReadFragmentArgs(fragments[1..], flag);
      Join([ARG_API_FRAGMENT, fragments[0]], FragmentArgs(fragments[1..]), {ARG_API_FRAGMENT}, flag);
      assert fragments == [fragments[0]] + fragments[1..];
    }
  }

  lemma ReadOptionalArg(argName: string, value: Option<string>, flag: string)
    ensures WellFormed(OptionalArg(argName, value), {argName})
    ensures ValuesOf(OptionalArg(argName, value), flag) == if flag == argName then value.ToSeq() else []
  {
    ReadPair(argName, value.GetOr(""), {argName}, flag);
  }

  lemma ReadExternalRefResolutionArgs(c: GenerateTaskConfiguration, flag: string)
    ensures WellFormed(ExternalRefResolutionArgs(c), {ARG_EXT_REF_RESOLUTION})
    ensures ValuesOf(ExternalRefResolutionArgs(c), flag) ==
              if flag == ARG_EXT_REF_RESOLUTION then ExternalRefNames(c) else []
  {
    match c.externalReferenceResolution
    case None =>
    case Some(m) => ReadPair(ARG_EXT_REF_RESOLUTION, m.Name(), {ARG_EXT_REF_RESOLUTION}, flag);
  }

  lemma ReadValidationLibraryArgs(c: GenerateTaskConfiguration, flag: string)
    ensures WellFormed(ValidationLibraryArgs(c), {ARG_VALIDATION_LIB})
    ensures ValuesOf(ValidationLibraryArgs(c), flag) ==
              if flag == ARG_VALIDATION_LIB then ValidationLibraryNames(c) else []
  {
    match c.validationLibrary
    case None =>
    case Some(l) => ReadPair(ARG_VALIDATION_LIB, l.Name(), {ARG_VALIDATION_LIB}, flag);
  }

  lemma ReadQuarkusReflectionConfigArgs(c: GenerateTaskConfiguration, flag: string)
    requires c.quarkusReflectionConfig.Some?
    ensures WellFormed(QuarkusReflectionConfigArgs(c), {ARG_TARGETS})
    ensures ValuesOf(QuarkusReflectionConfigArgs(c), flag) ==
              if flag == ARG_TARGETS && c.quarkusReflectionConfig.value then [QuarkusReflectionConfig.Name()] else []
  {
    ReadPair(ARG_TARGETS, QuarkusReflectionConfig.Name(), {ARG_TARGETS}, flag);
  }

  lemma ReadTypeOverridesArgs(t: TypeOverridesConfiguration, flag: string)
    ensures WellFormed(TypeOverridesArgs(t), {ARG_TYPE_OVERRIDES})
    ensures ValuesOf(TypeOverridesArgs(t), flag) == if flag == ARG_TYPE_OVERRIDES then OverrideNames(t) else []
  {
    match t.datetime
    case None =>
    case Some(d) =>
      assert TypeOverridesArgs(t) == [ARG_TYPE_OVERRIDES, d.Name()];
      ReadPair(ARG_TYPE_OVERRIDES, d.Name(), {ARG_TYPE_OVERRIDES}, flag);
  }

  /** The seven `addIfEnabled` calls of the model block are in the order of `ModelOptionOrder`. */
  lemma ModelArgsInOptionOrder(model: ModelConfiguration)
    requires model.generate == Some(true)
    ensures ModelArgs(model) ==
              [ARG_TARGETS, HttpModels.Name()]
              + OptionArgs(ModelOptionOrder, ModelOptionSetting(model), ARG_MODEL_OPTS, ModelOptionName)
  {
    OptionArgsOfSeven([ARG_TARGETS, HttpModels.Name()], ModelOptionOrder, ModelOptionSetting(model), ARG_MODEL_OPTS, ModelOptionName);
  }

  /** Seven `addIfEnabled` calls appended one after the other are one run of `OptionArgs`. */
  lemma OptionArgsOfSeven<T>(prefix: seq<string>, options: seq<T>, setting: T -> Option<bool>, flag: string, name: T -> string)
    requires |options| == 7
    ensures prefix + OptionArgs(options, setting, flag, name) ==
              prefix
              + AddIfEnabled(setting(options[0]), flag, name(options[0]))
              + AddIfEnabled(setting(options[1]), flag, name(options[1]))
              + AddIfEnabled(setting(options[2]), flag, name(options[2]))
              + AddIfEnabled(setting(options[3]), flag, name(options[3]))
              + AddIfEnabled(setting(options[4]), flag, name(options[4]))
              + AddIfEnabled(setting(options[5]), flag, name(options[5]))
              + AddIfEnabled(setting(options[6]), flag, name(options[6]))
  {
    var p0 := prefix;
    var p1 := p0 + AddIfEnabled(setting(options[0]), flag, name(options[0]));
    var p2 := p1 + AddIfEnabled(setting(options[1]), flag, name(options[1]));
    var p3 := p2 + AddIfEnabled(setting(options[2]), flag, name(options[2]));
    var p4 := p3 + AddIfEnabled(setting(options[3]), flag, name(options[3]));
    var p5 := p4 + AddIfEnabled(setting(options[4]), flag, name(options[4]));
    var p6 := p5 + AddIfEnabled(setting(options[5]), flag, name(options[5]));
    var p7 := p6 + AddIfEnabled(setting(options[6]), flag, name(options[6]));
    OptionArgsStep(p6, options[6..], setting, flag, name);
    assert options[6..][1..] == options[7..] && options[7..] == [];
    assert p7 == p6 + OptionArgs(options[6..], setting, flag, name);
    OptionArgsStep(p5, options[5..], setting, flag, name);
    assert options[5..][1..] == options[6..];
    OptionArgsStep(p4, options[4..], setting, flag, name);
    assert options[4..][1..] == options[5..];
    OptionArgsStep(p3, options[3..], setting, flag, name);
    assert options[3..][1..] == options[4..];
    OptionArgsStep(p2, options[2..], setting, flag, name);
    assert options[2..][1..] == options[3..];
    OptionArgsStep(p1, options[1..], setting, flag, name);
    assert options[1..][1..] == options[2..];
    OptionArgsStep(p0, options, setting, flag, name);
  }

  /** Moving the first `addIfEnabled` call of a run onto the part already built. */
  lemma OptionArgsStep<T>(prefix: seq<string>, options: seq<T>, setting: T -> Option<bool>, flag: string, name: T -> string)
    requires |options| > 0
    ensures prefix + OptionArgs(options, setting, flag, name) ==
              (prefix + AddIfEnabled(setting(options[0]), flag, name(options[0])))
              + OptionArgs(options[1..], setting, flag, name)
  {
  }

  lemma ReadModelArgs(model: ModelConfiguration, flag: string)
    requires model.generate.Some?
    ensures WellFormed(ModelArgs(model), {ARG_TARGETS, ARG_MODEL_OPTS})
    ensures ValuesOf(ModelArgs(model), flag) ==
              if !model.generate.value then []
              else (if flag == ARG_TARGETS then [HttpModels.Name()] else [])
                   + (if flag == ARG_MODEL_OPTS then ModelOptionNames(model) else [])
  {
    var flags := {ARG_TARGETS, ARG_MODEL_OPTS};
    if model.generate.value {
      ModelArgsInOptionOrder(model);
      var options := OptionArgs(ModelOptionOrder, ModelOptionSetting(model), ARG_MODEL_OPTS, ModelOptionName);
      ReadPair(ARG_TARGETS, HttpModels.Name(), flags, flag);
      ReadOptionArgs(ModelOptionOrder, ModelOptionSetting(model), ARG_MODEL_OPTS, ModelOptionName, flag);
      WellFormedWiden(options, {ARG_MODEL_OPTS}, flags);
      Join([ARG_TARGETS, HttpModels.Name()], options, flags, flag);
    }
  }

  lemma ClientArgsInOptionOrder(client: ClientConfiguration)
    requires client.generate == Some(true)
    ensures ClientArgs(client) ==
              [ARG_TARGETS, Client.Name()]
              + OptionArgs(ClientOptionOrder, ClientOptionSetting(client), ARG_CLIENT_OPTS, ClientOptionName)
              + ClientTargetArgs(client.target)
  {
    var setting := ClientOptionSetting(client);
    var order := ClientOptionOrder;
    assert order[2..] == [];
    assert order[1..] == [order[1]] + order[2..];
    assert OptionArgs(order[1..], setting, ARG_CLIENT_OPTS, ClientOptionName)
        == AddIfEnabled(client.suspendModifier, ARG_CLIENT_OPTS, ClientSuspendModifier.Name());
    assert OptionArgs(order, setting, ARG_CLIENT_OPTS, ClientOptionName)
        == AddIfEnabled(client.resilience4j, ARG_CLIENT_OPTS, Resilience4j.Name())
           + AddIfEnabled(client.suspendModifier, ARG_CLIENT_OPTS, ClientSuspendModifier.Name());
  }

  lemma ReadClientArgs(client: ClientConfiguration, flag: string)
    requires client.generate.Some?
    ensures WellFormed(ClientArgs(client), {ARG_TARGETS, ARG_CLIENT_OPTS, ARG_CLIENT_TARGET})
    ensures ValuesOf(ClientArgs(client), flag) ==
              if !client.generate.value then []
              else (if flag == ARG_TARGETS then [Client.Name()] else [])
                   + (if flag == ARG_CLIENT_OPTS then ClientOptionNames(client) else [])
                   + (if flag == ARG_CLIENT_TARGET then ClientTargetNames(client) else [])
  {
    var flags := {ARG_TARGETS, ARG_CLIENT_OPTS, ARG_CLIENT_TARGET};
    if client.generate.value {
      ClientArgsInOptionOrder(client);
      var options := OptionArgs(ClientOptionOrder, ClientOptionSetting(client), ARG_CLIENT_OPTS, ClientOptionName);
      var target := ClientTargetArgs(client.target);
      ReadPair(ARG_TARGETS, Client.Name(), flags, flag);
      ReadOptionArgs(ClientOptionOrder, ClientOptionSetting(client), ARG_CLIENT_OPTS, ClientOptionName, flag);
      WellFormedWiden(options, {ARG_CLIENT_OPTS}, flags);
      Join([ARG_TARGETS, Client.Name()], options, flags, flag);
      match client.target
      case None =>
        assert ClientArgs(client) == [ARG_TARGETS, Client.Name()] + options;
      case Some(t) =>
        ReadPair(ARG_CLIENT_TARGET, t.Name(), flags, flag);
        Join([ARG_TARGETS, Client.Name()] + options, target, flags, flag);
    }
  }

  lemma ControllerArgsInOptionOrder(controller: ControllerConfiguration)
    requires controller.generate == Some(true)
    ensures ControllerArgs(controller) ==
              [ARG_TARGETS, Controllers.Name()]
              + OptionArgs(ControllerOptionOrder, ControllerOptionSetting(controller), ARG_CONTROLLER_OPTS, ControllerOptionName)
              + ControllerTargetArgs(controller.target)
  {
    var setting := ControllerOptionSetting(controller);
    var order := ControllerOptionOrder;
    assert order[2..] == [];
    assert order[1..] == [order[1]] + order[2..];
    assert OptionArgs(order[1..], setting, ARG_CONTROLLER_OPTS, ControllerOptionName)
        == AddIfEnabled(controller.suspendModifier, ARG_CONTROLLER_OPTS, ControllerSuspendModifier.Name());
    assert OptionArgs(order, setting, ARG_CONTROLLER_OPTS, ControllerOptionName)
        == AddIfEnabled(controller.authentication, ARG_CONTROLLER_OPTS, Authentication.Name())
           + AddIfEnabled(controller.suspendModifier, ARG_CONTROLLER_OPTS, ControllerSuspendModifier.Name());
  }

  lemma ReadControllerArgs(controller: ControllerConfiguration, flag: string)
    requires controller.generate.Some?
    ensures WellFormed(ControllerArgs(controller), {ARG_TARGETS, ARG_CONTROLLER_OPTS, ARG_CONTROLLER_TARGET})
    ensures ValuesOf(ControllerArgs(controller), flag) ==
              if !controller.generate.value then []
              else (if flag == ARG_TARGETS then [Controllers.Name()] else [])
                   + (if flag == ARG_CONTROLLER_OPTS then ControllerOptionNames(controller) else [])
                   + (if flag == ARG_CONTROLLER_TARGET then ControllerTargetNames(controller) else [])
  {
    var flags := {ARG_TARGETS, ARG_CONTROLLER_OPTS, ARG_CONTROLLER_TARGET};
    if controller.generate.value {
      ControllerArgsInOptionOrder(controller);
      var options := OptionArgs(ControllerOptionOrder, ControllerOptionSetting(controller), ARG_CONTROLLER_OPTS, ControllerOptionName);
      var target := ControllerTargetArgs(controller.target);
      ReadPair(ARG_TARGETS, Controllers.Name(), flags, flag);
      ReadOptionArgs(ControllerOptionOrder, ControllerOptionSetting(controller), ARG_CONTROLLER_OPTS, ControllerOptionName, flag);
      WellFormedWiden(options, {ARG_CONTROLLER_OPTS}, flags);
      Join([ARG_TARGETS, Controllers.Name()], options, flags, flag);
      match controller.target
      case None =>
        assert ControllerArgs(controller) == [ARG_TARGETS, Controllers.Name()] + options;
      case Some(t) =>
        ReadPair(ARG_CONTROLLER_TARGET, t.Name(), flags, flag);
        Join([ARG_TARGETS, Controllers.Name()] + options, target, flags, flag);
    }
  }

  /** The `--targets` values, unrolled in the order of `TargetOrder`. */
  lemma TargetsUnrolled(c: GenerateTaskConfiguration)
    requires Resolved(c)
    ensures TargetNames(c) ==
              (if c.quarkusReflectionConfig.value then [QuarkusReflectionConfig.Name()] else [])
              + ((if c.client.generate.value then [Client.Name()] else [])
                 + ((if c.controller.generate.value then [Controllers.Name()] else [])
                    + (if c.model.generate.value then [HttpModels.Name()] else [])))
  {
    MapFilterOfFour(TargetOrder, TargetSwitch(c), TargetName);
  }

  /** What a reader sees of each segment of `CliArgs`, for one flag, joined in the order of the segments. */
  function SegmentValues(c: GenerateTaskConfiguration, flag: string): seq<string>
    requires Resolved(c)
  {
    ValuesOf(FixedPrefix(c), flag)
    + ValuesOf(FragmentArgs(c.apiFragments), flag)
    + ValuesOf(ExternalRefResolutionArgs(c), flag)
    + ValuesOf(SourcesPathArgs(c), flag)
    + ValuesOf(ResourcesPathArgs(c), flag)
    + ValuesOf(ValidationLibraryArgs(c), flag)
    + ValuesOf(QuarkusReflectionConfigArgs(c), flag)
    + ValuesOf(TypeOverridesArgs(c.typeOverrides), flag)
    + ValuesOf(ClientArgs(c.client), flag)
    + ValuesOf(ControllerArgs(c.controller), flag)
    + ValuesOf(ModelArgs(c.model), flag)
  }

  /** The argument vector is well formed and is read segment by segment. */
  lemma {:induction false} ReadSegments(c: GenerateTaskConfiguration, flag: string)
    requires Resolved(c)
    ensures WellFormed(CliArgs(c), KnownFlags)
    ensures ValuesOf(CliArgs(c), flag) == SegmentValues(c, flag)
  {
    var all := KnownFlags;
    var s1 := FixedPrefix(c);
    ReadFixedPrefix(c, flag);
    WellFormedWiden(s1, {ARG_API_FILE, ARG_BASE_PACKAGE, ARG_OUT_DIR}, all);

    var s2 := FragmentArgs(c.apiFragments);
    ReadFragmentArgs(c.apiFragments, flag);
    WellFormedWiden(s2, {ARG_API_FRAGMENT}, all);
    Join(s1, s2, all, flag);

    var s3 := ExternalRefResolutionArgs(c);
    ReadExternalRefResolutionArgs(c, flag);
    WellFormedWiden(s3, {ARG_EXT_REF_RESOLUTION}, all);
    Join(s1 + s2, s3, all, flag);

    var s4 := SourcesPathArgs(c);
    ReadOptionalArg(ARG_SRC_PATH, c.sourcesPath, flag);
    WellFormedWiden(s4, {ARG_SRC_PATH}, all);
    Join(s1 + s2 + s3, s4, all, flag);

    var s5 := ResourcesPathArgs(c);
    ReadOptionalArg(ARG_RESOURCES_PATH, c.resourcesPath, flag);
    WellFormedWiden(s5, {ARG_RESOURCES_PATH}, all);
    Join(s1 + s2 + s3 + s4, s5, all, flag);

    var s6 := ValidationLibraryArgs(c);
    ReadValidationLibraryArgs(c, flag);
    WellFormedWiden(s6, {ARG_VALIDATION_LIB}, all);
    Join(s1 + s2 + s3 + s4 + s5, s6, all, flag);

    var s7 := QuarkusReflectionConfigArgs(c);
    ReadQuarkusReflectionConfigArgs(c, flag);
    WellFormedWiden(s7, {ARG_TARGETS}, all);
    Join(s1 + s2 + s3 + s4 + s5 + s6, s7, all, flag);

    var s8 := TypeOverridesArgs(c.typeOverrides);
    ReadTypeOverridesArgs(c.typeOverrides, flag);
    WellFormedWiden(s8, {ARG_TYPE_OVERRIDES}, all);
    Join(s1 + s2 + s3 + s4 + s5 + s6 + s7, s8, all, flag);

    var s9 := ClientArgs(c.client);
    ReadClientArgs(c.client, flag);
    WellFormedWiden(s9, {ARG_TARGETS, ARG_CLIENT_OPTS, ARG_CLIENT_TARGET}, all);
    Join(s1 + s2 + s3 + s4 + s5 + s6 + s7 + s8, s9, all, flag);

    var s10 := ControllerArgs(c.controller);
    ReadControllerArgs(c.controller, flag);
    WellFormedWiden(s10, {ARG_TARGETS, ARG_CONTROLLER_OPTS, ARG_CONTROLLER_TARGET}, all);
    Join(s1 + s2 + s3 + s4 + s5 + s6 + s7 + s8 + s9, s10, all, flag);

    var s11 := ModelArgs(c.model);
    ReadModelArgs(c.model, flag);
    WellFormedWiden(s11, {ARG_TARGETS, ARG_MODEL_OPTS}, all);
    Join(s1 + s2 + s3 + s4 + s5 + s6 + s7 + s8 + s9 + s10, s11, all, flag);
  }

  /** Every segment, read for one flag. */
  lemma ReadEachSegment(c: GenerateTaskConfiguration, flag: string)
    requires Resolved(c)
    ensures ValuesOf(FixedPrefix(c), flag) ==
              (if flag == ARG_API_FILE then [c.apiFile] else [])
              + (if flag == ARG_BASE_PACKAGE then [c.basePackage] else [])
              + (if flag == ARG_OUT_DIR then [c.outputDirectory] else [])
    ensures ValuesOf(FragmentArgs(c.apiFragments), flag) == if flag == ARG_API_FRAGMENT then c.apiFragments else []
    ensures ValuesOf(ExternalRefResolutionArgs(c), flag) ==
              if flag == ARG_EXT_REF_RESOLUTION then ExternalRefNames(c) else []
    ensures ValuesOf(SourcesPathArgs(c), flag) == if flag == ARG_SRC_PATH then c.sourcesPath.ToSeq() else []
    ensures ValuesOf(ResourcesPathArgs(c), flag) == if flag == ARG_RESOURCES_PATH then c.resourcesPath.ToSeq() else []
    ensures ValuesOf(ValidationLibraryArgs(c), flag) ==
              if flag == ARG_VALIDATION_LIB then ValidationLibraryNames(c) else []
    ensures ValuesOf(QuarkusReflectionConfigArgs(c), flag) ==
              if flag == ARG_TARGETS && c.quarkusReflectionConfig.value then [QuarkusReflectionConfig.Name()] else []
    ensures ValuesOf(TypeOverridesArgs(c.typeOverrides), flag) ==
              if flag == ARG_TYPE_OVERRIDES then OverrideNames(c.typeOverrides) else []
    ensures ValuesOf(ClientArgs(c.client), flag) ==
              if !c.client.generate.value then []
              else (if flag == ARG_TARGETS then [Client.Name()] else [])
                   + (if flag == ARG_CLIENT_OPTS then ClientOptionNames(c.client) else [])
                   + (if flag == ARG_CLIENT_TARGET then ClientTargetNames(c.client) else [])
    ensures ValuesOf(ControllerArgs(c.controller), flag) ==
              if !c.controller.generate.value then []
              else (if flag == ARG_TARGETS then [Controllers.Name()] else [])
                   + (if flag == ARG_CONTROLLER_OPTS then ControllerOptionNames(c.controller) else [])
                   + (if flag == ARG_CONTROLLER_TARGET then ControllerTargetNames(c.controller) else [])
    ensures ValuesOf(ModelArgs(c.model), flag) ==
              if !c.model.generate.value then []
              else (if flag == ARG_TARGETS then [HttpModels.Name()] else [])
                   + (if flag == ARG_MODEL_OPTS then ModelOptionNames(c.model) else [])
  {
    ReadFixedPrefix(c, flag);
    ReadFragmentArgs(c.apiFragments, flag);
    ReadExternalRefResolutionArgs(c, flag);
    ReadOptionalArg(ARG_SRC_PATH, c.sourcesPath, flag);
    ReadOptionalArg(ARG_RESOURCES_PATH, c.resourcesPath, flag);
    ReadValidationLibraryArgs(c, flag);
    ReadQuarkusReflectionConfigArgs(c, flag);
    ReadTypeOverridesArgs(c.typeOverrides, flag);
    ReadClientArgs(c.client, flag);
    ReadControllerArgs(c.controller, flag);
    ReadModelArgs(c.model, flag);
  }

  /** One `--targets` value per enabled generation category, in the order of `TargetOrder`. */
  lemma SegmentTargets(c: GenerateTaskConfiguration)
    requires Resolved(c)
    ensures SegmentValues(c, ARG_TARGETS) == Reading(c, ARG_TARGETS)
  {
    var flag := ARG_TARGETS;
    ReadEachSegment(c, flag);
    TargetSegmentsOnly(SegmentValues(c, flag),
      ValuesOf(FixedPrefix(c), flag), ValuesOf(FragmentArgs(c.apiFragments), flag),
      ValuesOf(ExternalRefResolutionArgs(c), flag), ValuesOf(SourcesPathArgs(c), flag),
      ValuesOf(ResourcesPathArgs(c), flag), ValuesOf(ValidationLibraryArgs(c), flag),
      ValuesOf(QuarkusReflectionConfigArgs(c), flag), ValuesOf(TypeOverridesArgs(c.typeOverrides), flag),
      ValuesOf(ClientArgs(c.client), flag), ValuesOf(ControllerArgs(c.controller), flag),
      ValuesOf(ModelArgs(c.model), flag));
    var cl := if c.client.generate.value then [Client.Name()] else [];
    assert ValuesOf(ClientArgs(c.client), flag) == cl;
    var ct := if c.controller.generate.value then [Controllers.Name()] else [];
    assert ValuesOf(ControllerArgs(c.controller), flag) == ct;
    var m := if c.model.generate.value then [HttpModels.Name()] else [];
    assert ValuesOf(ModelArgs(c.model), flag) == m;
    TargetsUnrolled(c);
  }

  /** Eleven pieces of which only the seventh, ninth, tenth and eleventh may be non-empty. */
  lemma TargetSegmentsOnly(total: seq<string>, e1: seq<string>, e2: seq<string>, e3: seq<string>, e4: seq<string>,
                  e5: seq<string>, e6: seq<string>, a: seq<string>, e8: seq<string>,
                  b: seq<string>, d: seq<string>, f: seq<string>)
    requires total == e1 + e2 + e3 + e4 + e5 + e6 + a + e8 + b + d + f
    requires e1 == e2 == e3 == e4 == e5 == e6 == e8 == []
    ensures total == a + (b + (d + f))
  {
  }

  /** The API file, once. */
  lemma ReadsApiFile(c: GenerateTaskConfiguration)
    requires Resolved(c)
    ensures SegmentValues(c, ARG_API_FILE) == [c.apiFile]
  {
    ReadEachSegment(c, ARG_API_FILE);
  }

  /** The fragments, all of them and in order. */
  lemma ReadsApiFragments(c: GenerateTaskConfiguration)
    requires Resolved(c)
    ensures SegmentValues(c, ARG_API_FRAGMENT) == c.apiFragments
  {
    ReadEachSegment(c, ARG_API_FRAGMENT);
  }

  /** The resolution mode, when one is set. */
  lemma ReadsExternalRefResolution(c: GenerateTaskConfiguration)
    requires Resolved(c)
    ensures SegmentValues(c, ARG_EXT_REF_RESOLUTION) == ExternalRefNames(c)
  {
    ReadEachSegment(c, ARG_EXT_REF_RESOLUTION);
  }

  /** The base package, once. */
  lemma ReadsBasePackage(c: GenerateTaskConfiguration)
    requires Resolved(c)
    ensures SegmentValues(c, ARG_BASE_PACKAGE) == [c.basePackage]
  {
    ReadEachSegment(c, ARG_BASE_PACKAGE);
  }

  /** The output directory, once. */
  lemma ReadsOutputDirectory(c: GenerateTaskConfiguration)
    requires Resolved(c)
    ensures SegmentValues(c, ARG_OUT_DIR) == [c.outputDirectory]
  {
    ReadEachSegment(c, ARG_OUT_DIR);
  }

  /** The sources path, when one is set. */
  lemma ReadsSourcesPath(c: GenerateTaskConfiguration)
    requires Resolved(c)
    ensures SegmentValues(c, ARG_SRC_PATH) == c.sourcesPath.ToSeq()
  {
    ReadEachSegment(c, ARG_SRC_PATH);
  }

  /** The resources path, when one is set. */
  lemma ReadsResourcesPath(c: GenerateTaskConfiguration)
    requires Resolved(c)
    ensures SegmentValues(c, ARG_RESOURCES_PATH) == c.resourcesPath.ToSeq()
  {
    ReadEachSegment(c, ARG_RESOURCES_PATH);
  }

  /** The type overrides, at most one. */
  lemma ReadsTypeOverrides(c: GenerateTaskConfiguration)
    requires Resolved(c)
    ensures SegmentValues(c, ARG_TYPE_OVERRIDES) == OverrideNames(c.typeOverrides)
  {
    ReadEachSegment(c, ARG_TYPE_OVERRIDES);
  }

  /** The validation library, when one is set. */
  lemma ReadsValidationLibrary(c: GenerateTaskConfiguration)
    requires Resolved(c)
    ensures SegmentValues(c, ARG_VALIDATION_LIB) == ValidationLibraryNames(c)
  {
    ReadEachSegment(c, ARG_VALIDATION_LIB);
  }

  /** The client options that are on, only when the client block is enabled. */
  lemma ReadsClientOptions(c: GenerateTaskConfiguration)
    requires Resolved(c)
    ensures SegmentValues(c, ARG_CLIENT_OPTS) == if c.client.generate.value then ClientOptionNames(c.client) else []
  {
    ReadEachSegment(c, ARG_CLIENT_OPTS);
  }

  /** The client target, only when the client block is enabled. */
  lemma ReadsClientTarget(c: GenerateTaskConfiguration)
    requires Resolved(c)
    ensures SegmentValues(c, ARG_CLIENT_TARGET) == if c.client.generate.value then ClientTargetNames(c.client) else []
  {
    ReadEachSegment(c, ARG_CLIENT_TARGET);
  }

  /** The controller options that are on, only when the controller block is enabled. */
  lemma ReadsControllerOptions(c: GenerateTaskConfiguration)
    requires Resolved(c)
    ensures SegmentValues(c, ARG_CONTROLLER_OPTS) == if c.controller.generate.value then ControllerOptionNames(c.controller) else []
  {
    ReadEachSegment(c, ARG_CONTROLLER_OPTS);
  }

  /** The controller target, only when the controller block is enabled. */
  lemma ReadsControllerTarget(c: GenerateTaskConfiguration)
    requires Resolved(c)
    ensures SegmentValues(c, ARG_CONTROLLER_TARGET) == if c.controller.generate.value then ControllerTargetNames(c.controller) else []
  {
    ReadEachSegment(c, ARG_CONTROLLER_TARGET);
  }

  /** The model options that are on, only when the model block is enabled. */
  lemma ReadsModelOptions(c: GenerateTaskConfiguration)
    requires Resolved(c)
    ensures SegmentValues(c, ARG_MODEL_OPTS) == if c.model.generate.value then ModelOptionNames(c.model) else []
  {
    ReadEachSegment(c, ARG_MODEL_OPTS);
  }

  /** A flag the builder never emits has no values. */
  lemma SegmentUnknownFlag(c: GenerateTaskConfiguration, flag: string)
    requires Resolved(c)
    requires flag !in KnownFlags
    ensures SegmentValues(c, flag) == []
  {
    ReadEachSegment(c, flag);
  }

  /** Every flag read off the segments agrees with `Reading`. */
  lemma SegmentsRead(c: GenerateTaskConfiguration, flag: string)
    requires Resolved(c)
    ensures SegmentValues(c, flag) == Reading(c, flag)
  {
    if flag == ARG_TARGETS {
      SegmentTargets(c);
    } else if flag == ARG_API_FILE {
      ReadsApiFile(c);
    } else if flag == ARG_API_FRAGMENT {
      ReadsApiFragments(c);
    } else if flag == ARG_EXT_REF_RESOLUTION {
      ReadsExternalRefResolution(c);
    } else if flag == ARG_BASE_PACKAGE {
      ReadsBasePackage(c);
    } else if flag == ARG_OUT_DIR {
      ReadsOutputDirectory(c);
    } else if flag == ARG_SRC_PATH {
      ReadsSourcesPath(c);
    } else if flag == ARG_RESOURCES_PATH {
      ReadsResourcesPath(c);
    } else if flag == ARG_TYPE_OVERRIDES {
      ReadsTypeOverrides(c);
    } else if flag == ARG_VALIDATION_LIB {
      ReadsValidationLibrary(c);
    } else if flag == ARG_CLIENT_OPTS {
      ReadsClientOptions(c);
    } else if flag == ARG_CLIENT_TARGET {
      ReadsClientTarget(c);
    } else if flag == ARG_CONTROLLER_OPTS {
      ReadsControllerOptions(c);
    } else if flag == ARG_CONTROLLER_TARGET {
      ReadsControllerTarget(c);
    } else if flag == ARG_MODEL_OPTS {
      ReadsModelOptions(c);
    } else {
      SegmentUnknownFlag(c, flag);
    }
  }

  /**
    The whole argument vector is a sequence of flag/value pairs over the known
    flags, and for every flag it carries exactly the values `Reading` states.
  */
  lemma ReadCliArgs(c: GenerateTaskConfiguration, flag: string)
    requires Resolved(c)
    ensures WellFormed(CliArgs(c), KnownFlags)
    ensures ValuesOf(CliArgs(c), flag) == Reading(c, flag)
  {
    ReadSegments(c, flag);
    SegmentsRead(c, flag);
  }
}
