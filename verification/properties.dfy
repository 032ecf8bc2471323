/**
  Properties of the argument vector `CliArgs` builds, each stated in terms of
  positions, counts and membership in the vector itself.
*/
module ArgumentProperties {
  import opened Wrappers
  import opened Sequences
  import opened FabriktTypes
  import opened ArgVector
  import opened FabriktArguments
  import opened ArgumentReading
  import opened ArgumentRecovery

  lemma TakeOfAppend(a: seq<string>, b: seq<string>, n: nat)
    requires n <= |a|
    ensures (a + b)[..n] == a[..n]
  {
  }

  /** The vector opens with the fixed prefix followed by the fragment segment. */
  lemma OpensWithPrefixAndFragments(c: GenerateTaskConfiguration)
    requires Resolved(c)
    ensures |FixedPrefix(c) + FragmentArgs(c.apiFragments)| <= |CliArgs(c)|
    ensures CliArgs(c)[..|FixedPrefix(c) + FragmentArgs(c.apiFragments)|] == FixedPrefix(c) + FragmentArgs(c.apiFragments)
  {
    var s2 := FixedPrefix(c) + FragmentArgs(c.apiFragments);
    var n := |s2|;
    var s3 := s2 + ExternalRefResolutionArgs(c);
    var s4 := s3 + SourcesPathArgs(c);
    var s5 := s4 + ResourcesPathArgs(c);
    var s6 := s5 + ValidationLibraryArgs(c);
    var s7 := s6 + QuarkusReflectionConfigArgs(c);
    var s8 := s7 + TypeOverridesArgs(c.typeOverrides);
    var s9 := s8 + ClientArgs(c.client);
    var s10 := s9 + ControllerArgs(c.controller);
    assert CliArgs(c) == s10 + ModelArgs(c.model);
    TakeOfAppend(s10, ModelArgs(c.model), n);
    TakeOfAppend(s9, ControllerArgs(c.controller), n);
    TakeOfAppend(s8, ClientArgs(c.client), n);
    TakeOfAppend(s7, TypeOverridesArgs(c.typeOverrides), n);
    TakeOfAppend(s6, QuarkusReflectionConfigArgs(c), n);
    TakeOfAppend(s5, ValidationLibraryArgs(c), n);
    TakeOfAppend(s4, ResourcesPathArgs(c), n);
    TakeOfAppend(s3, SourcesPathArgs(c), n);
    TakeOfAppend(s2, ExternalRefResolutionArgs(c), n);
    assert s2[..n] == s2;
  }

  /** Every vector starts with the API file, the base package and the output directory, in that order. */
  lemma StartsWithFixedPrefix(c: GenerateTaskConfiguration)
    requires Resolved(c)
    ensures |CliArgs(c)| >= 6
    ensures CliArgs(c)[..6] == [ARG_API_FILE, c.apiFile, ARG_BASE_PACKAGE, c.basePackage, ARG_OUT_DIR, c.outputDirectory]
  {
    var head := FixedPrefix(c) + FragmentArgs(c.apiFragments);
    OpensWithPrefixAndFragments(c);
    assert CliArgs(c)[..6] == CliArgs(c)[..|head|][..6];
    TakeOfAppend(FixedPrefix(c), FragmentArgs(c.apiFragments), 6);
  }

  /** The `i`-th fragment pair of the fragment segment. */
  lemma {:induction false} FragmentAt(fragments: seq<string>, i: nat)
    requires i < |fragments|
    ensures FragmentArgs(fragments)[2 * i] == ARG_API_FRAGMENT
    ensures FragmentArgs(fragments)[2 * i + 1] == fragments[i]
    decreases i
  {
    if i > 0 {
      FragmentAt(fragments[1..], i - 1);
    }
  }

  /**
    Right after the prefix, the `i`-th fragment sits at positions `6 + 2i` and
    `7 + 2i`, behind its own `--api-fragment` flag.
  */
  lemma FragmentFollowsPrefix(c: GenerateTaskConfiguration, i: nat)
    requires Resolved(c) && i < |c.apiFragments|
    ensures 7 + 2 * i < |CliArgs(c)|
    ensures CliArgs(c)[6 + 2 * i] == ARG_API_FRAGMENT
    ensures CliArgs(c)[7 + 2 * i] == c.apiFragments[i]
  {
    FragmentAt(c.apiFragments, i);
    var head := FixedPrefix(c) + FragmentArgs(c.apiFragments);
    assert head[6 + 2 * i] == ARG_API_FRAGMENT && head[7 + 2 * i] == c.apiFragments[i];
    OpensWithPrefixAndFragments(c);
    assert CliArgs(c)[..|head|][6 + 2 * i] == CliArgs(c)[6 + 2 * i];
    assert CliArgs(c)[..|head|][7 + 2 * i] == CliArgs(c)[7 + 2 * i];
  }

  /** A reader sees the fragments in input order, one `--api-fragment` pair each. */
  lemma FragmentsInOrder(c: GenerateTaskConfiguration)
    requires Resolved(c)
    ensures ValuesOf(CliArgs(c), ARG_API_FRAGMENT) == c.apiFragments
    ensures |ValuesOf(CliArgs(c), ARG_API_FRAGMENT)| == |c.apiFragments|
  {
    ReadCliArgs(c, ARG_API_FRAGMENT);
  }

  /** Each optional value is read exactly when it is present, and is then read once. */
  lemma OptionalValuesOnlyWhenPresent(c: GenerateTaskConfiguration)
    requires Resolved(c)
    ensures ValuesOf(CliArgs(c), ARG_SRC_PATH) == c.sourcesPath.ToSeq()
    ensures ValuesOf(CliArgs(c), ARG_RESOURCES_PATH) == c.resourcesPath.ToSeq()
    ensures ValuesOf(CliArgs(c), ARG_EXT_REF_RESOLUTION) ==
              match c.externalReferenceResolution case None => [] case Some(m) => [m.Name()]
    ensures ValuesOf(CliArgs(c), ARG_VALIDATION_LIB) ==
              match c.validationLibrary case None => [] case Some(l) => [l.Name()]
  {
    ReadCliArgs(c, ARG_SRC_PATH);
    ReadCliArgs(c, ARG_RESOURCES_PATH);
    ReadCliArgs(c, ARG_EXT_REF_RESOLUTION);
    ReadCliArgs(c, ARG_VALIDATION_LIB);
  }

  /** A block's target is read when the block is on and its target is present, and never otherwise. */
  lemma BlockTargetsOnlyWhenPresent(c: GenerateTaskConfiguration)
    requires Resolved(c)
    ensures ValuesOf(CliArgs(c), ARG_CLIENT_TARGET) ==
              if c.client.generate == Some(true) && c.client.target.Some? then [c.client.target.value.Name()] else []
    ensures ValuesOf(CliArgs(c), ARG_CONTROLLER_TARGET) ==
              if c.controller.generate == Some(true) && c.controller.target.Some? then [c.controller.target.value.Name()] else []
  {
    ReadCliArgs(c, ARG_CLIENT_TARGET);
    ReadCliArgs(c, ARG_CONTROLLER_TARGET);
  }

  /** `--type-overrides` occurs at most once, and exactly when the date-time override is set. */
  lemma TypeOverridesAtMostOnce(c: GenerateTaskConfiguration)
    requires Resolved(c)
    ensures |ValuesOf(CliArgs(c), ARG_TYPE_OVERRIDES)| <= 1
    ensures |ValuesOf(CliArgs(c), ARG_TYPE_OVERRIDES)| == 1 <==> c.typeOverrides.datetime.Some?
  {
    ReadCliArgs(c, ARG_TYPE_OVERRIDES);
  }

  /** Every flag is followed by exactly one value: the length is even and every even position holds a flag. */
  lemma FlagValuePairs(c: GenerateTaskConfiguration)
    requires Resolved(c)
    ensures |CliArgs(c)| % 2 == 0
    ensures forall i :: 0 <= i < |CliArgs(c)| && i % 2 == 0 ==> CliArgs(c)[i] in KnownFlags
  {
    ReadCliArgs(c, ARG_API_FILE);
    WellFormedMeansPairs(CliArgs(c), KnownFlags);
  }

  /** The number of the four `--targets` switches that are on. */
  function SwitchesOn(c: GenerateTaskConfiguration): nat
    requires Resolved(c)
  {
    (if c.quarkusReflectionConfig.value then 1 else 0)
    + (if c.client.generate.value then 1 else 0)
    + (if c.controller.generate.value then 1 else 0)
    + (if c.model.generate.value then 1 else 0)
  }

  /**
    `--targets` occurs once per switch that is on, never merged into one list,
    and names exactly the generation categories that are on.
  */
  lemma TargetsOncePerSwitch(c: GenerateTaskConfiguration, t: CodeGenerationType)
    requires Resolved(c)
    ensures |ValuesOf(CliArgs(c), ARG_TARGETS)| == SwitchesOn(c)
    ensures t.Name() in ValuesOf(CliArgs(c), ARG_TARGETS) <==> TargetSwitch(c)(t)
    ensures NoDuplicates(ValuesOf(CliArgs(c), ARG_TARGETS))
  {
    ReadCliArgs(c, ARG_TARGETS);
    TargetsUnrolled(c);
    assert ValuesOf(CliArgs(c), ARG_TARGETS) == TargetNames(c);
    TargetListed(c, t);
    TargetNamesOnce(c);
  }

  lemma TargetNamesOnce(c: GenerateTaskConfiguration)
    requires Resolved(c)
    ensures NoDuplicates(TargetNames(c))
  {
    OrdersHaveNoDuplicates();
    FilterNoDuplicates(TargetOrder, TargetSwitch(c));
    MapNoDuplicates(Filter(TargetOrder, TargetSwitch(c)), TargetName);
  }

  /** Each order lists every constant, and none twice. */
  lemma OrdersHaveNoDuplicates()
    ensures NoDuplicates(TargetOrder)
    ensures NoDuplicates(ClientOptionOrder)
    ensures NoDuplicates(ControllerOptionOrder)
    ensures NoDuplicates(ModelOptionOrder)
    ensures forall t: CodeGenerationType :: t in TargetOrder
    ensures forall o: ClientCodeGenOptionType :: o in ClientOptionOrder
    ensures forall o: ControllerCodeGenOptionType :: o in ControllerOptionOrder
    ensures forall o: ModelCodeGenOptionType :: o in ModelOptionOrder
  {
    forall t: CodeGenerationType
      ensures t in TargetOrder
    {
      assert t == TargetOrder[0] || t == TargetOrder[1] || t == TargetOrder[2] || t == TargetOrder[3];
    }
    forall o: ClientCodeGenOptionType
      ensures o in ClientOptionOrder
    {
      assert o == ClientOptionOrder[0] || o == ClientOptionOrder[1];
    }
    forall o: ControllerCodeGenOptionType
      ensures o in ControllerOptionOrder
    {
      assert o == ControllerOptionOrder[0] || o == ControllerOptionOrder[1];
    }
    forall o: ModelCodeGenOptionType
      ensures o in ModelOptionOrder
    {
      assert o == ModelOptionOrder[0] || o == ModelOptionOrder[1] || o == ModelOptionOrder[2]
          || o == ModelOptionOrder[3] || o == ModelOptionOrder[4] || o == ModelOptionOrder[5]
          || o == ModelOptionOrder[6];
    }
    forall i, j | 0 <= i < j < 4
      ensures TargetOrder[i] != TargetOrder[j]
    {
    }
    forall i, j | 0 <= i < j < 7
      ensures ModelOptionOrder[i] != ModelOptionOrder[j]
    {
    }
  }

  /** Inside the model block the options follow the call order, one value per option that is on. */
  lemma ModelOptionsInOrder(c: GenerateTaskConfiguration, o: ModelCodeGenOptionType)
    requires Resolved(c) && c.model.generate == Some(true)
    ensures ValuesOf(CliArgs(c), ARG_MODEL_OPTS) == Map(EnabledOptions(ModelOptionOrder, ModelOptionSetting(c.model)), ModelOptionName)
    ensures o.Name() in ValuesOf(CliArgs(c), ARG_MODEL_OPTS) <==> ModelOptionSetting(c.model)(o) == Some(true)
    ensures NoDuplicates(ValuesOf(CliArgs(c), ARG_MODEL_OPTS))
  {
    ReadCliArgs(c, ARG_MODEL_OPTS);
    assert ValuesOf(CliArgs(c), ARG_MODEL_OPTS) == ModelOptionNames(c.model);
    ModelOptionsListed(c.model, o);
    ModelOptionNamesOnce(c.model);
  }

  lemma ModelOptionNamesOnce(model: ModelConfiguration)
    ensures NoDuplicates(ModelOptionNames(model))
  {
    OrdersHaveNoDuplicates();
    OptionsOnce(ModelOptionOrder, ModelOptionSetting(model), ModelOptionName);
  }

  /** The names of the options that are on, none of them twice. */
  lemma OptionsOnce<T>(options: seq<T>, setting: T -> Option<bool>, name: T -> string)
    requires NoDuplicates(options)
    requires forall a, b :: name(a) == name(b) ==> a == b
    ensures NoDuplicates(Map(EnabledOptions(options, setting), name))
  {
    FilterNoDuplicates(options, (o: T) => Enabled(setting(o)));
    MapNoDuplicates(EnabledOptions(options, setting), name);
  }

  /**
    In an enabled client or controller block an option's name is read exactly
    when the option is true, and no name is read twice.
  */
  lemma ClientOptionsOnce(c: GenerateTaskConfiguration)
    requires Resolved(c) && c.client.generate == Some(true)
    ensures Resilience4j.Name() in ValuesOf(CliArgs(c), ARG_CLIENT_OPTS) <==> c.client.resilience4j == Some(true)
    ensures ClientSuspendModifier.Name() in ValuesOf(CliArgs(c), ARG_CLIENT_OPTS) <==> c.client.suspendModifier == Some(true)
    ensures NoDuplicates(ValuesOf(CliArgs(c), ARG_CLIENT_OPTS))
  {
    ReadCliArgs(c, ARG_CLIENT_OPTS);
    assert ValuesOf(CliArgs(c), ARG_CLIENT_OPTS) == ClientOptionNames(c.client);
    ClientOptionsListed(c.client);
    ClientOptionNamesOnce(c.client);
  }

  lemma ClientOptionNamesOnce(client: ClientConfiguration)
    ensures NoDuplicates(ClientOptionNames(client))
  {
    OrdersHaveNoDuplicates();
    OptionsOnce(ClientOptionOrder, ClientOptionSetting(client), ClientOptionName);
  }

  lemma ControllerOptionsOnce(c: GenerateTaskConfiguration)
    requires Resolved(c) && c.controller.generate == Some(true)
    ensures Authentication.Name() in ValuesOf(CliArgs(c), ARG_CONTROLLER_OPTS) <==> c.controller.authentication == Some(true)
    ensures ControllerSuspendModifier.Name() in ValuesOf(CliArgs(c), ARG_CONTROLLER_OPTS) <==>
              c.controller.suspendModifier == Some(true)
    ensures NoDuplicates(ValuesOf(CliArgs(c), ARG_CONTROLLER_OPTS))
  {
    ReadCliArgs(c, ARG_CONTROLLER_OPTS);
    assert ValuesOf(CliArgs(c), ARG_CONTROLLER_OPTS) == ControllerOptionNames(c.controller);
    ControllerOptionsListed(c.controller);
    ControllerOptionNamesOnce(c.controller);
  }

  lemma ControllerOptionNamesOnce(controller: ControllerConfiguration)
    ensures NoDuplicates(ControllerOptionNames(controller))
  {
    OrdersHaveNoDuplicates();
    OptionsOnce(ControllerOptionOrder, ControllerOptionSetting(controller), ControllerOptionName);
  }

  /** A disabled block contributes nothing: whatever else it holds, the vector is the same. */
  lemma DisabledClientIgnored(c: GenerateTaskConfiguration, other: ClientConfiguration)
    requires Resolved(c) && c.client.generate == Some(false) && other.generate == Some(false)
    ensures CliArgs(c.(client := other)) == CliArgs(c)
  {
  }

  lemma DisabledControllerIgnored(c: GenerateTaskConfiguration, other: ControllerConfiguration)
    requires Resolved(c) && c.controller.generate == Some(false) && other.generate == Some(false)
    ensures CliArgs(c.(controller := other)) == CliArgs(c)
  {
  }

  lemma DisabledModelIgnored(c: GenerateTaskConfiguration, other: ModelConfiguration)
    requires Resolved(c) && c.model.generate == Some(false) && other.generate == Some(false)
    ensures CliArgs(c.(model := other)) == CliArgs(c)
  {
  }

  /** A disabled block's options and target are never read. */
  lemma DisabledBlockUnread(c: GenerateTaskConfiguration)
    requires Resolved(c)
    ensures c.client.generate == Some(false) ==>
              ValuesOf(CliArgs(c), ARG_CLIENT_OPTS) == [] && ValuesOf(CliArgs(c), ARG_CLIENT_TARGET) == []
    ensures c.controller.generate == Some(false) ==>
              ValuesOf(CliArgs(c), ARG_CONTROLLER_OPTS) == [] && ValuesOf(CliArgs(c), ARG_CONTROLLER_TARGET) == []
    ensures c.model.generate == Some(false) ==> ValuesOf(CliArgs(c), ARG_MODEL_OPTS) == []
  {
    ReadCliArgs(c, ARG_CLIENT_OPTS);
    ReadCliArgs(c, ARG_CLIENT_TARGET);
    ReadCliArgs(c, ARG_CONTROLLER_OPTS);
    ReadCliArgs(c, ARG_CONTROLLER_TARGET);
    ReadCliArgs(c, ARG_MODEL_OPTS);
  }

  /** Selecting from two well-formed pieces selects from each in turn. */
  lemma SelectJoin(a: seq<string>, b: seq<string>, flags: set<string>, selected: set<string>)
    requires WellFormed(a, flags) && WellFormed(b, flags)
    ensures WellFormed(a + b, flags)
    ensures Select(a + b, selected) == Select(a, selected) + Select(b, selected)
  {
    WellFormedAppend(a, b, flags);
    WellFormedIsPaired(a, flags);
    SelectAppend(a, b, selected);
  }

  /** Selecting from the whole vector selects from each segment in turn. */
  lemma {:induction false} SelectSegments(c: GenerateTaskConfiguration, selected: set<string>)
    requires Resolved(c)
    ensures Select(CliArgs(c), selected) ==
              Select(FixedPrefix(c), selected)
              + Select(FragmentArgs(c.apiFragments), selected)
              + Select(ExternalRefResolutionArgs(c), selected)
              + Select(SourcesPathArgs(c), selected)
              + Select(ResourcesPathArgs(c), selected)
              + Select(ValidationLibraryArgs(c), selected)
              + Select(QuarkusReflectionConfigArgs(c), selected)
              + Select(TypeOverridesArgs(c.typeOverrides), selected)
              + Select(ClientArgs(c.client), selected)
              + Select(ControllerArgs(c.controller), selected)
              + Select(ModelArgs(c.model), selected)
  {
    var all, flag := KnownFlags, ARG_TARGETS;
    var s1 := FixedPrefix(c);
    ReadFixedPrefix(c, flag);
    WellFormedWiden(s1, {ARG_API_FILE, ARG_BASE_PACKAGE, ARG_OUT_DIR}, all);

    var s2 := FragmentArgs(c.apiFragments);
    ReadFragmentArgs(c.apiFragments, flag);
    WellFormedWiden(s2, {ARG_API_FRAGMENT}, all);
    SelectJoin(s1, s2, all, selected);

    var s3 := ExternalRefResolutionArgs(c);
    ReadExternalRefResolutionArgs(c, flag);
    WellFormedWiden(s3, {ARG_EXT_REF_RESOLUTION}, all);
    SelectJoin(s1 + s2, s3, all, selected);

    var s4 := SourcesPathArgs(c);
    ReadOptionalArg(ARG_SRC_PATH, c.sourcesPath, flag);
    WellFormedWiden(s4, {ARG_SRC_PATH}, all);
    SelectJoin(s1 + s2 + s3, s4, all, selected);

    var s5 := ResourcesPathArgs(c);
    ReadOptionalArg(ARG_RESOURCES_PATH, c.resourcesPath, flag);
    WellFormedWiden(s5, {ARG_RESOURCES_PATH}, all);
    SelectJoin(s1 + s2 + s3 + s4, s5, all, selected);

    var s6 := ValidationLibraryArgs(c);
    ReadValidationLibraryArgs(c, flag);
    WellFormedWiden(s6, {ARG_VALIDATION_LIB}, all);
    SelectJoin(s1 + s2 + s3 + s4 + s5, s6, all, selected);

    var s7 := QuarkusReflectionConfigArgs(c);
    ReadQuarkusReflectionConfigArgs(c, flag);
    WellFormedWiden(s7, {ARG_TARGETS}, all);
    SelectJoin(s1 + s2 + s3 + s4 + s5 + s6, s7, all, selected);

    var s8 := TypeOverridesArgs(c.typeOverrides);
    ReadTypeOverridesArgs(c.typeOverrides, flag);
    WellFormedWiden(s8, {ARG_TYPE_OVERRIDES}, all);
    SelectJoin(s1 + s2 + s3 + s4 + s5 + s6 + s7, s8, all, selected);

    var s9 := ClientArgs(c.client);
    ReadClientArgs(c.client, flag);
    WellFormedWiden(s9, {ARG_TARGETS, ARG_CLIENT_OPTS, ARG_CLIENT_TARGET}, all);
    SelectJoin(s1 + s2 + s3 + s4 + s5 + s6 + s7 + s8, s9, all, selected);

    var s10 := ControllerArgs(c.controller);
    ReadControllerArgs(c.controller, flag);
    WellFormedWiden(s10, {ARG_TARGETS, ARG_CONTROLLER_OPTS, ARG_CONTROLLER_TARGET}, all);
    SelectJoin(s1 + s2 + s3 + s4 + s5 + s6 + s7 + s8 + s9, s10, all, selected);

    var s11 := ModelArgs(c.model);
    ReadModelArgs(c.model, flag);
    WellFormedWiden(s11, {ARG_TARGETS, ARG_MODEL_OPTS}, all);
    SelectJoin(s1 + s2 + s3 + s4 + s5 + s6 + s7 + s8 + s9 + s10, s11, all, selected);
  }

  /** The flags whose relative order the builder fixes across segments. */
  const OrderedFlags: set<string> := {ARG_VALIDATION_LIB, ARG_TARGETS, ARG_TYPE_OVERRIDES}

  /** The `--targets` pair of a block, when the block is on. */
  function TargetPair(on: bool, t: CodeGenerationType): seq<string> {
    if on then [ARG_TARGETS, t.Name()] else []
  }

  /** The segments before the validation library hold none of `OrderedFlags`. */
  lemma SelectLeadingSegments(c: GenerateTaskConfiguration)
    ensures Select(FixedPrefix(c), OrderedFlags) == []
    ensures Select(FragmentArgs(c.apiFragments), OrderedFlags) == []
    ensures Select(ExternalRefResolutionArgs(c), OrderedFlags) == []
    ensures Select(SourcesPathArgs(c), OrderedFlags) == []
    ensures Select(ResourcesPathArgs(c), OrderedFlags) == []
  {
    var flag := ARG_TARGETS;
    ReadFixedPrefix(c, flag);
    SelectNone(FixedPrefix(c), {ARG_API_FILE, ARG_BASE_PACKAGE, ARG_OUT_DIR}, OrderedFlags);
    ReadFragmentArgs(c.apiFragments, flag);
    SelectNone(FragmentArgs(c.apiFragments), {ARG_API_FRAGMENT}, OrderedFlags);
    ReadExternalRefResolutionArgs(c, flag);
    SelectNone(ExternalRefResolutionArgs(c), {ARG_EXT_REF_RESOLUTION}, OrderedFlags);
    ReadOptionalArg(ARG_SRC_PATH, c.sourcesPath, flag);
    SelectNone(SourcesPathArgs(c), {ARG_SRC_PATH}, OrderedFlags);
    ReadOptionalArg(ARG_RESOURCES_PATH, c.resourcesPath, flag);
    SelectNone(ResourcesPathArgs(c), {ARG_RESOURCES_PATH}, OrderedFlags);
  }

  /** A segment of one selected flag is selected whole. */
  lemma {:induction false} SelectWhole(args: seq<string>, f: string, selected: set<string>)
    requires f in selected && WellFormed(args, {f})
    ensures Select(args, selected) == args
    decreases |args|
  {
    if |args| != 0 {
      SelectWhole(args[2..], f, selected);
      assert args == args[..2] + args[2..];
    }
  }

  lemma SelectValueSegments(c: GenerateTaskConfiguration)
    requires Resolved(c)
    ensures Select(ValidationLibraryArgs(c), OrderedFlags) ==
              if c.validationLibrary.Some? then [ARG_VALIDATION_LIB, c.validationLibrary.value.Name()] else []
    ensures Select(QuarkusReflectionConfigArgs(c), OrderedFlags) ==
              TargetPair(c.quarkusReflectionConfig.value, QuarkusReflectionConfig)
    ensures Select(TypeOverridesArgs(c.typeOverrides), OrderedFlags) ==
              if c.typeOverrides.datetime.Some? then [ARG_TYPE_OVERRIDES, c.typeOverrides.datetime.value.Name()] else []
  {
    var flag := ARG_TARGETS;
    ReadValidationLibraryArgs(c, flag);
    SelectWhole(ValidationLibraryArgs(c), ARG_VALIDATION_LIB, OrderedFlags);
    ReadQuarkusReflectionConfigArgs(c, flag);
    SelectWhole(QuarkusReflectionConfigArgs(c), ARG_TARGETS, OrderedFlags);
    ReadTypeOverridesArgs(c.typeOverrides, flag);
    SelectWhole(TypeOverridesArgs(c.typeOverrides), ARG_TYPE_OVERRIDES, OrderedFlags);
  }

  /** Of a generation block, only its `--targets` pair is selected. */
  lemma SelectClient(client: ClientConfiguration)
    requires client.generate.Some?
    ensures Select(ClientArgs(client), OrderedFlags) == TargetPair(client.generate.value, Client)
  {
    ReadClientArgs(client, ARG_TARGETS);
    SelectOneFlag(ClientArgs(client), {ARG_TARGETS, ARG_CLIENT_OPTS, ARG_CLIENT_TARGET}, OrderedFlags, ARG_TARGETS);
  }

  lemma SelectController(controller: ControllerConfiguration)
    requires controller.generate.Some?
    ensures Select(ControllerArgs(controller), OrderedFlags) == TargetPair(controller.generate.value, Controllers)
  {
    ReadControllerArgs(controller, ARG_TARGETS);
    SelectOneFlag(ControllerArgs(controller), {ARG_TARGETS, ARG_CONTROLLER_OPTS, ARG_CONTROLLER_TARGET}, OrderedFlags, ARG_TARGETS);
  }

  lemma SelectModel(model: ModelConfiguration)
    requires model.generate.Some?
    ensures Select(ModelArgs(model), OrderedFlags) == TargetPair(model.generate.value, HttpModels)
  {
    ReadModelArgs(model, ARG_TARGETS);
    SelectOneFlag(ModelArgs(model), {ARG_TARGETS, ARG_MODEL_OPTS}, OrderedFlags, ARG_TARGETS);
  }

  /** Eleven pieces of which the first five are empty. */
  lemma DropFiveEmpty(total: seq<string>, e1: seq<string>, e2: seq<string>, e3: seq<string>, e4: seq<string>,
                      e5: seq<string>, a: seq<string>, b: seq<string>, d: seq<string>, f: seq<string>,
                      g: seq<string>, h: seq<string>)
    requires total == e1 + e2 + e3 + e4 + e5 + a + b + d + f + g + h
    requires e1 == e2 == e3 == e4 == e5 == []
    ensures total == a + b + d + f + g + h
  {
    assert e1 + e2 + e3 + e4 + e5 == [];
  }

  /**
    Across segments the order is fixed: the validation library, then the
    reflection-config target, then the type overrides, then the targets of the
    client, controller and model blocks.
  */
  lemma SegmentOrder(c: GenerateTaskConfiguration)
    requires Resolved(c)
    ensures Select(CliArgs(c), OrderedFlags) ==
              (if c.validationLibrary.Some? then [ARG_VALIDATION_LIB, c.validationLibrary.value.Name()] else [])
              + TargetPair(c.quarkusReflectionConfig.value, QuarkusReflectionConfig)
              + (if c.typeOverrides.datetime.Some? then [ARG_TYPE_OVERRIDES, c.typeOverrides.datetime.value.Name()] else [])
              + TargetPair(c.client.generate.value, Client)
              + TargetPair(c.controller.generate.value, Controllers)
              + TargetPair(c.model.generate.value, HttpModels)
  {
    var sel := OrderedFlags;
    SelectSegments(c, sel);
    SelectLeadingSegments(c);
    SelectValueSegments(c);
    SelectClient(c.client);
    SelectController(c.controller);
    SelectModel(c.model);
    DropFiveEmpty(Select(CliArgs(c), sel),
      Select(FixedPrefix(c), sel), Select(FragmentArgs(c.apiFragments), sel),
      Select(ExternalRefResolutionArgs(c), sel), Select(SourcesPathArgs(c), sel),
      Select(ResourcesPathArgs(c), sel), Select(ValidationLibraryArgs(c), sel),
      Select(QuarkusReflectionConfigArgs(c), sel), Select(TypeOverridesArgs(c.typeOverrides), sel),
      Select(ClientArgs(c.client), sel), Select(ControllerArgs(c.controller), sel),
      Select(ModelArgs(c.model), sel));
  }

  /** The flags of the optional values that follow the fragments. */
  const ValueFlags: set<string> := {ARG_EXT_REF_RESOLUTION, ARG_SRC_PATH, ARG_RESOURCES_PATH, ARG_VALIDATION_LIB}

  /** Each optional-value segment is selected whole. */
  lemma SelectOptionalValues(c: GenerateTaskConfiguration)
    ensures Select(ExternalRefResolutionArgs(c), ValueFlags) == ExternalRefResolutionArgs(c)
    ensures Select(SourcesPathArgs(c), ValueFlags) == SourcesPathArgs(c)
    ensures Select(ResourcesPathArgs(c), ValueFlags) == ResourcesPathArgs(c)
    ensures Select(ValidationLibraryArgs(c), ValueFlags) == ValidationLibraryArgs(c)
  {
    var flag := ARG_TARGETS;
    ReadExternalRefResolutionArgs(c, flag);
    SelectWhole(ExternalRefResolutionArgs(c), ARG_EXT_REF_RESOLUTION, ValueFlags);
    ReadOptionalArg(ARG_SRC_PATH, c.sourcesPath, flag);
    SelectWhole(SourcesPathArgs(c), ARG_SRC_PATH, ValueFlags);
    ReadOptionalArg(ARG_RESOURCES_PATH, c.resourcesPath, flag);
    SelectWhole(ResourcesPathArgs(c), ARG_RESOURCES_PATH, ValueFlags);
    ReadValidationLibraryArgs(c, flag);
    SelectWhole(ValidationLibraryArgs(c), ARG_VALIDATION_LIB, ValueFlags);
  }

  /** No other segment holds any of `ValueFlags`. */
  lemma SelectOtherSegments(c: GenerateTaskConfiguration)
    requires Resolved(c)
    ensures Select(FixedPrefix(c), ValueFlags) == []
    ensures Select(FragmentArgs(c.apiFragments), ValueFlags) == []
    ensures Select(QuarkusReflectionConfigArgs(c), ValueFlags) == []
    ensures Select(TypeOverridesArgs(c.typeOverrides), ValueFlags) == []
    ensures Select(ClientArgs(c.client), ValueFlags) == []
    ensures Select(ControllerArgs(c.controller), ValueFlags) == []
    ensures Select(ModelArgs(c.model), ValueFlags) == []
  {
    var flag := ARG_TARGETS;
    ReadFixedPrefix(c, flag);
    SelectNone(FixedPrefix(c), {ARG_API_FILE, ARG_BASE_PACKAGE, ARG_OUT_DIR}, ValueFlags);
    ReadFragmentArgs(c.apiFragments, flag);
    SelectNone(FragmentArgs(c.apiFragments), {ARG_API_FRAGMENT}, ValueFlags);
    ReadQuarkusReflectionConfigArgs(c, flag);
    SelectNone(QuarkusReflectionConfigArgs(c), {ARG_TARGETS}, ValueFlags);
    ReadTypeOverridesArgs(c.typeOverrides, flag);
    SelectNone(TypeOverridesArgs(c.typeOverrides), {ARG_TYPE_OVERRIDES}, ValueFlags);
    ReadClientArgs(c.client, flag);
    SelectNone(ClientArgs(c.client), {ARG_TARGETS, ARG_CLIENT_OPTS, ARG_CLIENT_TARGET}, ValueFlags);
    ReadControllerArgs(c.controller, flag);
    SelectNone(ControllerArgs(c.controller), {ARG_TARGETS, ARG_CONTROLLER_OPTS, ARG_CONTROLLER_TARGET}, ValueFlags);
    ReadModelArgs(c.model, flag);
    SelectNone(ModelArgs(c.model), {ARG_TARGETS, ARG_MODEL_OPTS}, ValueFlags);
  }

  /** Eleven pieces of which only the third to sixth may be non-empty. */
  lemma KeepFourInner(total: seq<string>, e1: seq<string>, e2: seq<string>, a: seq<string>, b: seq<string>,
                      d: seq<string>, f: seq<string>, e7: seq<string>, e8: seq<string>, e9: seq<string>,
                      e10: seq<string>, e11: seq<string>)
    requires total == e1 + e2 + a + b + d + f + e7 + e8 + e9 + e10 + e11
    requires e1 == e2 == e7 == e8 == e9 == e10 == e11 == []
    ensures total == a + b + d + f
  {
    assert e1 + e2 == [];
  }

  /**
    The optional values follow in a fixed order: the external-reference
    resolution mode, the sources path, the resources path, then the validation
    library, each as its flag and value and only when set.
  */
  lemma ValueOrder(c: GenerateTaskConfiguration)
    requires Resolved(c)
    ensures Select(CliArgs(c), ValueFlags) ==
              (if c.externalReferenceResolution.Some? then [ARG_EXT_REF_RESOLUTION, c.externalReferenceResolution.value.Name()] else [])
              + (if c.sourcesPath.Some? then [ARG_SRC_PATH, c.sourcesPath.value] else [])
              + (if c.resourcesPath.Some? then [ARG_RESOURCES_PATH, c.resourcesPath.value] else [])
              + (if c.validationLibrary.Some? then [ARG_VALIDATION_LIB, c.validationLibrary.value.Name()] else [])
  {
    var sel := ValueFlags;
    SelectSegments(c, sel);
    SelectOptionalValues(c);
    SelectOtherSegments(c);
    KeepFourInner(Select(CliArgs(c), sel),
      Select(FixedPrefix(c), sel), Select(FragmentArgs(c.apiFragments), sel),
      Select(ExternalRefResolutionArgs(c), sel), Select(SourcesPathArgs(c), sel),
      Select(ResourcesPathArgs(c), sel), Select(ValidationLibraryArgs(c), sel),
      Select(QuarkusReflectionConfigArgs(c), sel), Select(TypeOverridesArgs(c.typeOverrides), sel),
      Select(ClientArgs(c.client), sel), Select(ControllerArgs(c.controller), sel),
      Select(ModelArgs(c.model), sel));
  }

  /** Only the required values set, every block off except the model block. */
  function MinimalConfiguration(fragments: seq<string>): (c: GenerateTaskConfiguration)
    ensures Resolved(c)
  {
    GenerateTaskConfiguration(
      "F", fragments, None, "ch.acanda", "D", None, None, None, Some(false),
      TypeOverridesConfiguration(None),
      ClientConfiguration(Some(false), None, None, None),
      ControllerConfiguration(Some(false), None, None, None),
      ModelConfiguration(Some(true), None, None, None, None, None, None, None))
  }

  /** The minimal configuration yields the prefix and the model target, nothing else. */
  lemma MinimalExample()
    ensures CliArgs(MinimalConfiguration([])) ==
              ["--api-file", "F", "--base-package", "ch.acanda", "--output-directory", "D", "--targets", "HTTP_MODELS"]
  {
  }

  /** Enabling the client block adds its target, its option and its target framework before the model block. */
  lemma ClientExample()
    ensures CliArgs(MinimalConfiguration([]).(client := ClientConfiguration(Some(true), Some(OpenFeign), Some(true), None))) ==
              ["--api-file", "F", "--base-package", "ch.acanda", "--output-directory", "D",
               "--targets", "CLIENT", "--http-client-opts", "RESILIENCE4J", "--http-client-target", "OPEN_FEIGN",
               "--targets", "HTTP_MODELS"]
  {
  }

  /** Two fragments follow the prefix in their given order. */
  lemma FragmentsExample()
    ensures CliArgs(MinimalConfiguration(["F1", "F2"]))[6..10] == ["--api-fragment", "F1", "--api-fragment", "F2"]
  {
  }
}
