/**
  The argument builder of the Fabrikt Gradle plugin: one generation
  configuration becomes the flat argument vector handed to the Fabrikt
  command line. Each block of `getCliArgs` is a pure function returning its
  own segment; `CliArgs` concatenates them in the order the plugin appends them.
*/
module FabriktArguments {
  import opened Wrappers
  import opened FabriktTypes

  const ARG_API_FILE := "--api-file"
  const ARG_API_FRAGMENT := "--api-fragment"
  const ARG_EXT_REF_RESOLUTION := "--external-ref-resolution"
  const ARG_BASE_PACKAGE := "--base-package"
  const ARG_OUT_DIR := "--output-directory"
  const ARG_SRC_PATH := "--src-path"
  const ARG_RESOURCES_PATH := "--resources-path"
  const ARG_TYPE_OVERRIDES := "--type-overrides"
  const ARG_VALIDATION_LIB := "--validation-library"
  const ARG_TARGETS := "--targets"
  const ARG_CLIENT_OPTS := "--http-client-opts"
  const ARG_CLIENT_TARGET := "--http-client-target"
  const ARG_CONTROLLER_OPTS := "--http-controller-opts"
  const ARG_CONTROLLER_TARGET := "--http-controller-target"
  const ARG_MODEL_OPTS := "--http-model-opts"

  /** Every flag the builder can emit. */
  const KnownFlags: set<string> := {
    ARG_API_FILE, ARG_API_FRAGMENT, ARG_EXT_REF_RESOLUTION, ARG_BASE_PACKAGE, ARG_OUT_DIR,
    ARG_SRC_PATH, ARG_RESOURCES_PATH, ARG_TYPE_OVERRIDES, ARG_VALIDATION_LIB, ARG_TARGETS,
    ARG_CLIENT_OPTS, ARG_CLIENT_TARGET, ARG_CONTROLLER_OPTS, ARG_CONTROLLER_TARGET, ARG_MODEL_OPTS
  }

  /*
    The generation configuration as the builder reads it. A Gradle property
    becomes an `Option`; files and directories are their absolute paths and
    character sequences their `toString()`, both as opaque strings.
  */

  datatype TypeOverridesConfiguration = TypeOverridesConfiguration(datetime: Option<CodeGenTypeOverride>)

  datatype ClientConfiguration = ClientConfiguration(
    generate: Option<bool>,
    target: Option<ClientCodeGenTargetType>,
    resilience4j: Option<bool>,
    suspendModifier: Option<bool>)

  datatype ControllerConfiguration = ControllerConfiguration(
    generate: Option<bool>,
    target: Option<ControllerCodeGenTargetType>,
    authentication: Option<bool>,
    suspendModifier: Option<bool>)

  datatype ModelConfiguration = ModelConfiguration(
    generate: Option<bool>,
    extensibleEnums: Option<bool>,
    javaSerialization: Option<bool>,
    quarkusReflection: Option<bool>,
    micronautIntrospection: Option<bool>,
    micronautReflection: Option<bool>,
    includeCompanionObject: Option<bool>,
    sealedInterfacesForOneOf: Option<bool>)

  datatype GenerateTaskConfiguration = GenerateTaskConfiguration(
    apiFile: string,
    apiFragments: seq<string>,
    externalReferenceResolution: Option<ExternalReferencesResolutionMode>,
    basePackage: string,
    outputDirectory: string,
    sourcesPath: Option<string>,
    resourcesPath: Option<string>,
    validationLibrary: Option<ValidationLibrary>,
    quarkusReflectionConfig: Option<bool>,
    typeOverrides: TypeOverridesConfiguration,
    client: ClientConfiguration,
    controller: ControllerConfiguration,
    model: ModelConfiguration)

  /**
    The switches the builder reads with `get()`, which fails on a property
    without a value: they must all be set before arguments can be built.
  */
  predicate Resolved(c: GenerateTaskConfiguration) {
    && c.quarkusReflectionConfig.Some?
    && c.client.generate.Some?
    && c.controller.generate.Some?
    && c.model.generate.Some?
  }

  /** A boolean option read with `getOrElse(false)`: an absent value counts as false. */
  function Enabled(provider: Option<bool>): (b: bool)
    ensures b <==> provider == Some(true)
  {
    provider.GetOr(false)
  }

  /** `addIfEnabled`: one `(argName, argValue)` pair when the option is on, nothing otherwise. */
  function AddIfEnabled(provider: Option<bool>, argName: string, argValue: string): (r: seq<string>)
    ensures provider.None? ==> r == []
    ensures r != [] <==> provider == Some(true)
    ensures r != [] ==> r == [argName, argValue]
  {
    if Enabled(provider) then [argName, argValue] else []
  }

  /** The `?.let` pattern: a flag and its value when the value is present, nothing otherwise. */
  function OptionalArg(flag: string, value: Option<string>): (r: seq<string>)
    ensures value.None? <==> r == []
    ensures value.Some? ==> r == [flag, value.value]
  {
    match value
    case None => []
    case Some(v) => [flag, v]
  }

  function FixedPrefix(c: GenerateTaskConfiguration): (r: seq<string>)
    ensures |r| == 6
  {
    [ARG_API_FILE, c.apiFile, ARG_BASE_PACKAGE, c.basePackage, ARG_OUT_DIR, c.outputDirectory]
  }

  /** One `--api-fragment` pair per fragment, in the fragments' order. */
  function FragmentArgs(fragments: seq<string>): (r: seq<string>)
    ensures |r| == 2 * |fragments|
  {
    if |fragments| == 0 then []
    else [ARG_API_FRAGMENT, fragments[0]] + FragmentArgs(fragments[1..])
  }

  /** The resolution mode's `?.let`: its flag and the mode's name when one is set, nothing otherwise. */
  function ExternalRefResolutionArgs(c: GenerateTaskConfiguration): (r: seq<string>)
    ensures c.externalReferenceResolution.None? <==> r == []
    ensures c.externalReferenceResolution.Some? ==>
              r == [ARG_EXT_REF_RESOLUTION, c.externalReferenceResolution.value.Name()]
  {
    match c.externalReferenceResolution
    case None => []
    case Some(mode) => [ARG_EXT_REF_RESOLUTION, mode.Name()]
  }

  function SourcesPathArgs(c: GenerateTaskConfiguration): (r: seq<string>)
    ensures c.sourcesPath.None? <==> r == []
    ensures c.sourcesPath.Some? ==> r == [ARG_SRC_PATH, c.sourcesPath.value]
  {
    OptionalArg(ARG_SRC_PATH, c.sourcesPath)
  }

  function ResourcesPathArgs(c: GenerateTaskConfiguration): (r: seq<string>)
    ensures c.resourcesPath.None? <==> r == []
    ensures c.resourcesPath.Some? ==> r == [ARG_RESOURCES_PATH, c.resourcesPath.value]
  {
    OptionalArg(ARG_RESOURCES_PATH, c.resourcesPath)
  }

  /** The validation library's `?.let`: its flag and the library's name when one is set, nothing otherwise. */
  function ValidationLibraryArgs(c: GenerateTaskConfiguration): (r: seq<string>)
    ensures c.validationLibrary.None? <==> r == []
    ensures c.validationLibrary.Some? ==> r == [ARG_VALIDATION_LIB, c.validationLibrary.value.Name()]
  {
    match c.validationLibrary
    case None => []
    case Some(library) => [ARG_VALIDATION_LIB, library.Name()]
  }

  function QuarkusReflectionConfigArgs(c: GenerateTaskConfiguration): (r: seq<string>)
    requires c.quarkusReflectionConfig.Some?
    ensures r != [] <==> c.quarkusReflectionConfig.value
    ensures r != [] ==> r == [ARG_TARGETS, QuarkusReflectionConfig.Name()]
  {
    if c.quarkusReflectionConfig.value then [ARG_TARGETS, QuarkusReflectionConfig.Name()] else []
  }

  /** The names of the configured overrides; at most one, since only `datetime` is configurable. */
  function OverrideNames(t: TypeOverridesConfiguration): (names: seq<string>)
    ensures |names| <= 1
    ensures t.datetime.None? <==> names == []
    ensures t.datetime.Some? ==> names == [t.datetime.value.Name()]
  {
    var overrides := t.datetime.ToSeq();
    seq(|overrides|, i requires 0 <= i < |overrides| => overrides[i].Name())
  }

  /**
    `addTypeOverridesArgs`: the flag followed by all override names, or nothing
    when there are none. Since there is at most one name, the flag is always
    followed by exactly one value.
  */
  function TypeOverridesArgs(t: TypeOverridesConfiguration): (r: seq<string>)
    ensures |r| <= 2
  {
    var overrides := OverrideNames(t);
    if |overrides| > 0 then [ARG_TYPE_OVERRIDES] + overrides else []
  }

  function ClientTargetArgs(target: Option<ClientCodeGenTargetType>): (r: seq<string>)
    ensures target.None? <==> r == []
  {
    match target
    case None => []
    case Some(t) => [ARG_CLIENT_TARGET, t.Name()]
  }

  function ControllerTargetArgs(target: Option<ControllerCodeGenTargetType>): (r: seq<string>)
    ensures target.None? <==> r == []
  {
    match target
    case None => []
    case Some(t) => [ARG_CONTROLLER_TARGET, t.Name()]
  }

  /** `addClientArgs` */
  function ClientArgs(client: ClientConfiguration): (r: seq<string>)
    requires client.generate.Some?
    ensures !client.generate.value ==> r == []
  {
    if client.generate.value then
      [ARG_TARGETS, Client.Name()]
      + AddIfEnabled(client.resilience4j, ARG_CLIENT_OPTS, Resilience4j.Name())
      + AddIfEnabled(client.suspendModifier, ARG_CLIENT_OPTS, ClientSuspendModifier.Name())
      + ClientTargetArgs(client.target)
    else []
  }

  /** `addControllerArgs` */
  function ControllerArgs(controller: ControllerConfiguration): (r: seq<string>)
    requires controller.generate.Some?
    ensures !controller.generate.value ==> r == []
  {
    if controller.generate.value then
      [ARG_TARGETS, Controllers.Name()]
      + AddIfEnabled(controller.authentication, ARG_CONTROLLER_OPTS, Authentication.Name())
      + AddIfEnabled(controller.suspendModifier, ARG_CONTROLLER_OPTS, ControllerSuspendModifier.Name())
      + ControllerTargetArgs(controller.target)
    else []
  }

  /** `addModelArgs` */
  function ModelArgs(model: ModelConfiguration): (r: seq<string>)
    requires model.generate.Some?
    ensures !model.generate.value ==> r == []
  {
    if model.generate.value then
      [ARG_TARGETS, HttpModels.Name()]
      + AddIfEnabled(model.extensibleEnums, ARG_MODEL_OPTS, XExtensibleEnums.Name())
      + AddIfEnabled(model.javaSerialization, ARG_MODEL_OPTS, JavaSerialization.Name())
      + AddIfEnabled(model.quarkusReflection, ARG_MODEL_OPTS, QuarkusReflection.Name())
      + AddIfEnabled(model.micronautIntrospection, ARG_MODEL_OPTS, MicronautIntrospection.Name())
      + AddIfEnabled(model.micronautReflection, ARG_MODEL_OPTS, MicronautReflection.Name())
      + AddIfEnabled(model.includeCompanionObject, ARG_MODEL_OPTS, IncludeCompanionObject.Name())
      + AddIfEnabled(model.sealedInterfacesForOneOf, ARG_MODEL_OPTS, SealedInterfacesForOneOf.Name())
    else []
  }

  /**
    `getCliArgs`: the fixed prefix, the fragments, the optional values, the
    reflection-config target, the type overrides, then the client, controller
    and model blocks.
  */
  function CliArgs(c: GenerateTaskConfiguration): (r: seq<string>)
    requires Resolved(c)
    ensures |r| >= |FixedPrefix(c)| + 2 * |c.apiFragments|
  {
    FixedPrefix(c)
    + FragmentArgs(c.apiFragments)
    + ExternalRefResolutionArgs(c)
    + SourcesPathArgs(c)
    + ResourcesPathArgs(c)
    + ValidationLibraryArgs(c)
    + QuarkusReflectionConfigArgs(c)
    + TypeOverridesArgs(c.typeOverrides)
    + ClientArgs(c.client)
    + ControllerArgs(c.controller)
    + ModelArgs(c.model)
  }
}
