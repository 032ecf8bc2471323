/**
  The argument vector loses nothing the generator can use: reading it back
  recovers the configuration, up to what the builder itself ignores. An option
  that is absent reads back as false, and a disabled generation block reads
  back with all of its settings cleared.
*/
module ArgumentRecovery {
  import opened Wrappers
  import opened Sequences
  import opened FabriktTypes
  import opened ArgVector
  import opened FabriktArguments
  import opened ArgumentReading

  /** The values the generator reads for each flag the builder knows. */
  datatype Readings = Readings(
    apiFile: seq<string>,
    apiFragments: seq<string>,
    externalRefResolution: seq<string>,
    basePackage: seq<string>,
    outputDirectory: seq<string>,
    sourcesPath: seq<string>,
    resourcesPath: seq<string>,
    typeOverrides: seq<string>,
    validationLibrary: seq<string>,
    targets: seq<string>,
    clientOpts: seq<string>,
    clientTarget: seq<string>,
    controllerOpts: seq<string>,
    controllerTarget: seq<string>,
    modelOpts: seq<string>)

  /** What a reader of `args` sees, flag by flag. */
  function ReadAll(args: seq<string>): Readings {
    Readings(
      ValuesOf(args, ARG_API_FILE),
      ValuesOf(args, ARG_API_FRAGMENT),
      ValuesOf(args, ARG_EXT_REF_RESOLUTION),
      ValuesOf(args, ARG_BASE_PACKAGE),
      ValuesOf(args, ARG_OUT_DIR),
      ValuesOf(args, ARG_SRC_PATH),
      ValuesOf(args, ARG_RESOURCES_PATH),
      ValuesOf(args, ARG_TYPE_OVERRIDES),
      ValuesOf(args, ARG_VALIDATION_LIB),
      ValuesOf(args, ARG_TARGETS),
      ValuesOf(args, ARG_CLIENT_OPTS),
      ValuesOf(args, ARG_CLIENT_TARGET),
      ValuesOf(args, ARG_CONTROLLER_OPTS),
      ValuesOf(args, ARG_CONTROLLER_TARGET),
      ValuesOf(args, ARG_MODEL_OPTS))
  }

  /** What `Reading` says a reader must see for `c`, flag by flag. */
  function Expected(c: GenerateTaskConfiguration): Readings
    requires Resolved(c)
  {
    Readings(
      Reading(c, ARG_API_FILE),
      Reading(c, ARG_API_FRAGMENT),
      Reading(c, ARG_EXT_REF_RESOLUTION),
      Reading(c, ARG_BASE_PACKAGE),
      Reading(c, ARG_OUT_DIR),
      Reading(c, ARG_SRC_PATH),
      Reading(c, ARG_RESOURCES_PATH),
      Reading(c, ARG_TYPE_OVERRIDES),
      Reading(c, ARG_VALIDATION_LIB),
      Reading(c, ARG_TARGETS),
      Reading(c, ARG_CLIENT_OPTS),
      Reading(c, ARG_CLIENT_TARGET),
      Reading(c, ARG_CONTROLLER_OPTS),
      Reading(c, ARG_CONTROLLER_TARGET),
      Reading(c, ARG_MODEL_OPTS))
  }

  lemma ReadAllCliArgs(c: GenerateTaskConfiguration)
    requires Resolved(c)
    ensures ReadAll(CliArgs(c)) == Expected(c)
  {
    ReadCliArgs(c, ARG_API_FILE);
    ReadCliArgs(c, ARG_API_FRAGMENT);
    ReadCliArgs(c, ARG_EXT_REF_RESOLUTION);
    ReadCliArgs(c, ARG_BASE_PACKAGE);
    ReadCliArgs(c, ARG_OUT_DIR);
    ReadCliArgs(c, ARG_SRC_PATH);
    ReadCliArgs(c, ARG_RESOURCES_PATH);
    ReadCliArgs(c, ARG_TYPE_OVERRIDES);
    ReadCliArgs(c, ARG_VALIDATION_LIB);
    ReadCliArgs(c, ARG_TARGETS);
    ReadCliArgs(c, ARG_CLIENT_OPTS);
    ReadCliArgs(c, ARG_CLIENT_TARGET);
    ReadCliArgs(c, ARG_CONTROLLER_OPTS);
    ReadCliArgs(c, ARG_CONTROLLER_TARGET);
    ReadCliArgs(c, ARG_MODEL_OPTS);
  }

  /**
    An optional value as a reader parses it: no value is `Some(None)`, one value
    that names a constant is `Some(Some(constant))`, anything else is rejected.
  */
  function ParseOptional<T>(vs: seq<string>, parse: string -> Option<T>): (r: Option<Option<T>>)
    ensures |vs| == 0 ==> r == Some(None)
    ensures |vs| > 1 ==> r.None?
    ensures |vs| == 1 ==> (r.Some? <==> parse(vs[0]).Some?)
    ensures r.Some? && r.value.Some? ==> Some(r.value.value) == parse(vs[0])
  {
    if |vs| == 0 then Some(None)
    else if |vs| == 1 && parse(vs[0]).Some? then Some(parse(vs[0]))
    else None
  }

  /** A free-form optional value: at most one. */
  function OptionalValue(vs: seq<string>): (r: Option<Option<string>>)
    ensures |vs| <= 1 <==> r.Some?
    ensures r.Some? ==> r.value.ToSeq() == vs
  {
    if |vs| == 0 then Some(None)
    else if |vs| == 1 then Some(Some(vs[0]))
    else None
  }

  /**
    The configuration a reader rebuilds from what it read: the required values
    must occur exactly once and the optional ones at most once, every enumerated
    value must name a constant, a block is on when its target is listed, and an
    option is on when its name is listed.
  */
  function Decode(r: Readings): (c: Option<GenerateTaskConfiguration>)
    ensures c.Some? ==> Resolved(c.value)
    ensures c.Some? ==> |r.apiFile| == 1 && |r.basePackage| == 1 && |r.outputDirectory| == 1
    ensures c.Some? ==> c.value.apiFragments == r.apiFragments
  {
    var extRef := ParseOptional(r.externalRefResolution, ExternalReferencesResolutionModeFromName);
    var sources := OptionalValue(r.sourcesPath);
    var resources := OptionalValue(r.resourcesPath);
    var datetime := ParseOptional(r.typeOverrides, CodeGenTypeOverrideFromName);
    var library := ParseOptional(r.validationLibrary, ValidationLibraryFromName);
    var clientTarget := ParseOptional(r.clientTarget, ClientCodeGenTargetTypeFromName);
    var controllerTarget := ParseOptional(r.controllerTarget, ControllerCodeGenTargetTypeFromName);
    if && |r.apiFile| == 1 && |r.basePackage| == 1 && |r.outputDirectory| == 1
       && extRef.Some? && sources.Some? && resources.Some? && datetime.Some? && library.Some?
       && clientTarget.Some? && controllerTarget.Some?
    then
      Some(GenerateTaskConfiguration(
        apiFile := r.apiFile[0],
        apiFragments := r.apiFragments,
        externalReferenceResolution := extRef.value,
        basePackage := r.basePackage[0],
        outputDirectory := r.outputDirectory[0],
        sourcesPath := sources.value,
        resourcesPath := resources.value,
        validationLibrary := library.value,
        quarkusReflectionConfig := Some(QuarkusReflectionConfig.Name() in r.targets),
        typeOverrides := TypeOverridesConfiguration(datetime.value),
        client := ClientConfiguration(
          Some(Client.Name() in r.targets),
          clientTarget.value,
          Some(Resilience4j.Name() in r.clientOpts),
          Some(ClientSuspendModifier.Name() in r.clientOpts)),
        controller := ControllerConfiguration(
          Some(Controllers.Name() in r.targets),
          controllerTarget.value,
          Some(Authentication.Name() in r.controllerOpts),
          Some(ControllerSuspendModifier.Name() in r.controllerOpts)),
        model := ModelConfiguration(
          Some(HttpModels.Name() in r.targets),
          Some(XExtensibleEnums.Name() in r.modelOpts),
          Some(JavaSerialization.Name() in r.modelOpts),
          Some(QuarkusReflection.Name() in r.modelOpts),
          Some(MicronautIntrospection.Name() in r.modelOpts),
          Some(MicronautReflection.Name() in r.modelOpts),
          Some(IncludeCompanionObject.Name() in r.modelOpts),
          Some(SealedInterfacesForOneOf.Name() in r.modelOpts))))
    else None
  }

  /** Reading an argument vector back into a configuration. */
  function Recover(args: seq<string>): Option<GenerateTaskConfiguration> {
    Decode(ReadAll(args))
  }

  /*
    What the argument vector can show of a configuration. An `addIfEnabled`
    option that is absent is indistinguishable from one that is false, and the
    settings of a disabled block do not reach the vector at all.
  */

  function NormalizeClient(client: ClientConfiguration): (n: ClientConfiguration)
    requires client.generate.Some?
    ensures n.generate == client.generate
    ensures n.resilience4j.Some? && n.suspendModifier.Some?
  {
    if client.generate.value then
      ClientConfiguration(Some(true), client.target, Some(Enabled(client.resilience4j)), Some(Enabled(client.suspendModifier)))
    else ClientConfiguration(Some(false), None, Some(false), Some(false))
  }

  function NormalizeController(controller: ControllerConfiguration): (n: ControllerConfiguration)
    requires controller.generate.Some?
    ensures n.generate == controller.generate
    ensures n.authentication.Some? && n.suspendModifier.Some?
  {
    if controller.generate.value then
      ControllerConfiguration(
        Some(true), controller.target, Some(Enabled(controller.authentication)), Some(Enabled(controller.suspendModifier)))
    else ControllerConfiguration(Some(false), None, Some(false), Some(false))
  }

  function NormalizeModel(model: ModelConfiguration): (n: ModelConfiguration)
    requires model.generate.Some?
    ensures n.generate == model.generate
  {
    if model.generate.value then
      ModelConfiguration(
        Some(true),
        Some(Enabled(model.extensibleEnums)),
        Some(Enabled(model.javaSerialization)),
        Some(Enabled(model.quarkusReflection)),
        Some(Enabled(model.micronautIntrospection)),
        Some(Enabled(model.micronautReflection)),
        Some(Enabled(model.includeCompanionObject)),
        Some(Enabled(model.sealedInterfacesForOneOf)))
    else ModelConfiguration(Some(false), Some(false), Some(false), Some(false), Some(false), Some(false), Some(false), Some(false))
  }

  function Normalize(c: GenerateTaskConfiguration): (n: GenerateTaskConfiguration)
    requires Resolved(c)
    ensures Resolved(n)
  {
    c.(client := NormalizeClient(c.client),
       controller := NormalizeController(c.controller),
       model := NormalizeModel(c.model))
  }

  /** A generation category is listed among the targets exactly when its switch is on. */
  lemma TargetListed(c: GenerateTaskConfiguration, t: CodeGenerationType)
    requires Resolved(c)
    ensures t.Name() in TargetNames(c) <==> TargetSwitch(c)(t)
  {
    assert TargetOrder[0] == QuarkusReflectionConfig && TargetOrder[1] == Client;
    assert TargetOrder[2] == Controllers && TargetOrder[3] == HttpModels;
    assert t in TargetOrder;
    FilterMember(TargetOrder, TargetSwitch(c), t);
    MapInjectiveMember(Filter(TargetOrder, TargetSwitch(c)), TargetName, t);
  }

  /** An option of a block is listed exactly when its property is true. */
  lemma OptionListed<T>(options: seq<T>, setting: T -> Option<bool>, name: T -> string, o: T)
    requires forall a, b :: name(a) == name(b) ==> a == b
    requires o in options
    ensures name(o) in Map(EnabledOptions(options, setting), name) <==> setting(o) == Some(true)
  {
    FilterMember(options, (x: T) => Enabled(setting(x)), o);
    MapInjectiveMember(EnabledOptions(options, setting), name, o);
  }

  lemma ClientOptionsListed(client: ClientConfiguration)
    ensures Resilience4j.Name() in ClientOptionNames(client) <==> client.resilience4j == Some(true)
    ensures ClientSuspendModifier.Name() in ClientOptionNames(client) <==> client.suspendModifier == Some(true)
  {
    var setting := ClientOptionSetting(client);
    OptionListed(ClientOptionOrder, setting, ClientOptionName, Resilience4j);
    OptionListed(ClientOptionOrder, setting, ClientOptionName, ClientSuspendModifier);
  }

  lemma ControllerOptionsListed(controller: ControllerConfiguration)
    ensures Authentication.Name() in ControllerOptionNames(controller) <==> controller.authentication == Some(true)
    ensures ControllerSuspendModifier.Name() in ControllerOptionNames(controller) <==> controller.suspendModifier == Some(true)
  {
    var setting := ControllerOptionSetting(controller);
    OptionListed(ControllerOptionOrder, setting, ControllerOptionName, Authentication);
    OptionListed(ControllerOptionOrder, setting, ControllerOptionName, ControllerSuspendModifier);
  }

  lemma ModelOptionsListed(model: ModelConfiguration, o: ModelCodeGenOptionType)
    ensures o.Name() in ModelOptionNames(model) <==> ModelOptionSetting(model)(o) == Some(true)
  {
    assert ModelOptionOrder[0] == XExtensibleEnums && ModelOptionOrder[1] == JavaSerialization;
    assert ModelOptionOrder[2] == QuarkusReflection && ModelOptionOrder[3] == MicronautIntrospection;
    assert ModelOptionOrder[4] == MicronautReflection && ModelOptionOrder[5] == IncludeCompanionObject;
    assert ModelOptionOrder[6] == SealedInterfacesForOneOf;
    assert o in ModelOptionOrder;
    OptionListed(ModelOptionOrder, ModelOptionSetting(model), ModelOptionName, o);
  }

  /** What a reader of `c`'s vector sees, field by field. */
  lemma ExpectedFields(c: GenerateTaskConfiguration)
    requires Resolved(c)
    ensures Expected(c).apiFile == [c.apiFile]
    ensures Expected(c).apiFragments == c.apiFragments
    ensures Expected(c).externalRefResolution == ExternalRefNames(c)
    ensures Expected(c).basePackage == [c.basePackage]
    ensures Expected(c).outputDirectory == [c.outputDirectory]
    ensures Expected(c).sourcesPath == c.sourcesPath.ToSeq()
    ensures Expected(c).resourcesPath == c.resourcesPath.ToSeq()
    ensures Expected(c).typeOverrides == OverrideNames(c.typeOverrides)
    ensures Expected(c).validationLibrary == ValidationLibraryNames(c)
    ensures Expected(c).targets == TargetNames(c)
    ensures Expected(c).clientOpts == if c.client.generate.value then ClientOptionNames(c.client) else []
    ensures Expected(c).clientTarget == if c.client.generate.value then ClientTargetNames(c.client) else []
    ensures Expected(c).controllerOpts == if c.controller.generate.value then ControllerOptionNames(c.controller) else []
    ensures Expected(c).controllerTarget ==
              if c.controller.generate.value then ControllerTargetNames(c.controller) else []
    ensures Expected(c).modelOpts == if c.model.generate.value then ModelOptionNames(c.model) else []
  {
  }

  /** Every enumerated value the builder writes parses back to itself. */
  lemma ParseNames(c: GenerateTaskConfiguration)
    ensures ParseOptional(ExternalRefNames(c), ExternalReferencesResolutionModeFromName) == Some(c.externalReferenceResolution)
    ensures ParseOptional(ValidationLibraryNames(c), ValidationLibraryFromName) == Some(c.validationLibrary)
    ensures ParseOptional(OverrideNames(c.typeOverrides), CodeGenTypeOverrideFromName) == Some(c.typeOverrides.datetime)
    ensures ParseOptional(ClientTargetNames(c.client), ClientCodeGenTargetTypeFromName) == Some(c.client.target)
    ensures ParseOptional(ControllerTargetNames(c.controller), ControllerCodeGenTargetTypeFromName) == Some(c.controller.target)
  {
  }

  /** Reading back `c`'s vector yields the client block as far as the vector shows it. */
  lemma DecodeClient(c: GenerateTaskConfiguration, opts: seq<string>, target: seq<string>)
    requires Resolved(c)
    requires opts == if c.client.generate.value then ClientOptionNames(c.client) else []
    requires target == if c.client.generate.value then ClientTargetNames(c.client) else []
    ensures ParseOptional(target, ClientCodeGenTargetTypeFromName).Some?
    ensures ClientConfiguration(
              Some(Client.Name() in TargetNames(c)),
              ParseOptional(target, ClientCodeGenTargetTypeFromName).value,
              Some(Resilience4j.Name() in opts),
              Some(ClientSuspendModifier.Name() in opts))
            == NormalizeClient(c.client)
  {
    TargetListed(c, Client);
    ClientOptionsListed(c.client);
    ParseNames(c);
  }

  lemma DecodeController(c: GenerateTaskConfiguration, opts: seq<string>, target: seq<string>)
    requires Resolved(c)
    requires opts == if c.controller.generate.value then ControllerOptionNames(c.controller) else []
    requires target == if c.controller.generate.value then ControllerTargetNames(c.controller) else []
    ensures ParseOptional(target, ControllerCodeGenTargetTypeFromName).Some?
    ensures ControllerConfiguration(
              Some(Controllers.Name() in TargetNames(c)),
              ParseOptional(target, ControllerCodeGenTargetTypeFromName).value,
              Some(Authentication.Name() in opts),
              Some(ControllerSuspendModifier.Name() in opts))
            == NormalizeController(c.controller)
  {
    TargetListed(c, Controllers);
    ControllerOptionsListed(c.controller);
    ParseNames(c);
  }

  lemma DecodeModel(c: GenerateTaskConfiguration, opts: seq<string>)
    requires Resolved(c)
    requires opts == if c.model.generate.value then ModelOptionNames(c.model) else []
    ensures ModelConfiguration(
              Some(HttpModels.Name() in TargetNames(c)),
              Some(XExtensibleEnums.Name() in opts),
              Some(JavaSerialization.Name() in opts),
              Some(QuarkusReflection.Name() in opts),
              Some(MicronautIntrospection.Name() in opts),
              Some(MicronautReflection.Name() in opts),
              Some(IncludeCompanionObject.Name() in opts),
              Some(SealedInterfacesForOneOf.Name() in opts))
            == NormalizeModel(c.model)
  {
    TargetListed(c, HttpModels);
    ModelOptionsListed(c.model, XExtensibleEnums);
    ModelOptionsListed(c.model, JavaSerialization);
    ModelOptionsListed(c.model, QuarkusReflection);
    ModelOptionsListed(c.model, MicronautIntrospection);
    ModelOptionsListed(c.model, MicronautReflection);
    ModelOptionsListed(c.model, IncludeCompanionObject);
    ModelOptionsListed(c.model, SealedInterfacesForOneOf);
  }

  /** What `Reading` promises is enough to rebuild the configuration. */
  lemma DecodeExpected(c: GenerateTaskConfiguration)
    requires Resolved(c)
    ensures Decode(Expected(c)) == Some(Normalize(c))
  {
    var r := Expected(c);
    ExpectedFields(c);
    ParseNames(c);
    TargetListed(c, QuarkusReflectionConfig);
    DecodeClient(c, r.clientOpts, r.clientTarget);
    DecodeController(c, r.controllerOpts, r.controllerTarget);
    DecodeModel(c, r.modelOpts);
  }

  /** The argument vector round-trips: reading it back recovers all it can show of `c`. */
  lemma RoundTrip(c: GenerateTaskConfiguration)
    requires Resolved(c)
    ensures Recover(CliArgs(c)) == Some(Normalize(c))
  {
    ReadAllCliArgs(c);
    DecodeExpected(c);
  }

  /** The builder cannot tell `c` from its normal form: both give the same vector. */
  lemma CliArgsOfNormalize(c: GenerateTaskConfiguration)
    requires Resolved(c)
    ensures CliArgs(Normalize(c)) == CliArgs(c)
  {
    var n := Normalize(c);
    NormalizedClientBuildsAlike(c.client);
    NormalizedControllerBuildsAlike(c.controller);
    NormalizedModelBuildsAlike(c.model);
    assert n.client == NormalizeClient(c.client);
    assert n.controller == NormalizeController(c.controller);
    assert n.model == NormalizeModel(c.model);
  }

  /** Each block builds the same arguments as its normal form. */
  lemma NormalizedClientBuildsAlike(client: ClientConfiguration)
    requires client.generate.Some?
    ensures ClientArgs(NormalizeClient(client)) == ClientArgs(client)
  {
  }

  lemma NormalizedControllerBuildsAlike(controller: ControllerConfiguration)
    requires controller.generate.Some?
    ensures ControllerArgs(NormalizeController(controller)) == ControllerArgs(controller)
  {
  }

  lemma NormalizedModelBuildsAlike(model: ModelConfiguration)
    requires model.generate.Some?
    ensures ModelArgs(NormalizeModel(model)) == ModelArgs(model)
  {
  }

  /**
    Two configurations give the same argument vector exactly when they agree on
    everything the vector can show: the builder forgets nothing else.
  */
  lemma SameArgumentsIffSameNormalForm(c1: GenerateTaskConfiguration, c2: GenerateTaskConfiguration)
    requires Resolved(c1) && Resolved(c2)
    ensures CliArgs(c1) == CliArgs(c2) <==> Normalize(c1) == Normalize(c2)
  {
    RoundTrip(c1);
    RoundTrip(c2);
    CliArgsOfNormalize(c1);
    CliArgsOfNormalize(c2);
  }
}
