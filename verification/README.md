# Fabrikt Gradle plugin: the argument builder

The Fabrikt Gradle plugin runs the Fabrikt OpenAPI code generator once per
generation configuration. It turns each configuration into a flat argument
vector for Fabrikt's command line, and `FabriktArguments.getCliArgs` builds that
vector. The vector has these segments, in order:

- the API file, the base package and the output directory;
- one `--api-fragment` pair per fragment;
- the optional external-reference resolution mode, source path, resource path
  and validation library;
- the reflection-config target;
- the type overrides;
- the client block, the controller block and the model block. Each block emits
  its own `--targets` pair and its options, but only when the block is enabled.
  The client and controller blocks also emit their target framework when one
  is set.

This project models that builder in Dafny and proves what the vector says.

- `wrappers.dfy` (`Wrappers`) holds `Option`, the model of a Gradle `Provider`.
  It has `getOrElse` and Kotlin's `listOfNotNull` over a single value.
- `fabrikt_types.dfy` (`FabriktTypes`) holds the Fabrikt enumerations the
  builder names. Each one has its constant names. The five whose value follows
  a flag of its own also have an inverse lookup `…FromName`.
- `fabrikt_arguments.dfy` (`FabriktArguments`) holds the `ARG_*` flags, the
  configuration datatypes, and one pure function per block of `getCliArgs`.
  `CliArgs` concatenates those blocks in source order.
- `arg_vector.dfy` (`ArgVector`) models how Fabrikt's command line reads a
  vector:
  - positions 0, 2, 4, … hold flags, and each flag takes the next element as
    its value;
  - a repeated flag accumulates its values in order (`ValuesOf`);
  - `Select` keeps the pairs of chosen flags in their order.
- `sequences.dfy` (`Sequences`) holds the order-preserving `Filter`/`Map` and
  duplicate-freedom.
- `reading.dfy` (`ArgumentReading`) holds `Reading(c, flag)`. This function
  states, from the configuration alone, which values each flag must carry.
  The main theorem `ReadCliArgs` proves that the built vector reads exactly
  that way for every flag, and that it is well formed.
- `recovery.dfy` (`ArgumentRecovery`) reads the vector back into a
  configuration (`Recover`). It proves the round trip
  `Recover(CliArgs(c)) == Some(Normalize(c))`. `Normalize` forgets only what
  the builder cannot show: an absent switch is indistinguishable from false,
  and a disabled block's settings are ignored. The module also proves that two
  configurations build the same vector exactly when their normal forms agree.
- `properties.dfy` (`ArgumentProperties`) states the builder's promises as
  positions, counts, membership and order in the vector, and includes three
  concrete examples.

All source paths below are relative to the repository root. `FabriktArguments.kt` stands for
`src/main/kotlin/ch/acanda/gradle/fabrikt/generator/FabriktArguments.kt`.

## Model

| member | source | states |
|---|---|---|
| FabriktArguments.Enabled | src/main/kotlin/ch/acanda/gradle/fabrikt/generator/FabriktArguments.kt:121 | `getOrElse(false)`: a switch counts as on exactly when it holds `true`; an absent switch is off |
| FabriktArguments.AddIfEnabled | src/main/kotlin/ch/acanda/gradle/fabrikt/generator/FabriktArguments.kt:120-125 | an absent or false option emits nothing, a true option emits exactly the one `(argName, argValue)` pair |
| FabriktArguments.OptionalArg | src/main/kotlin/ch/acanda/gradle/fabrikt/generator/FabriktArguments.kt:43-50 | an absent optional value emits nothing, a present one emits exactly its flag and the value |
| FabriktArguments.ExternalRefResolutionArgs | src/main/kotlin/ch/acanda/gradle/fabrikt/generator/FabriktArguments.kt:39-42 | no resolution mode emits nothing; a set mode emits exactly `--external-ref-resolution` and the mode's name |
| FabriktArguments.SourcesPathArgs | src/main/kotlin/ch/acanda/gradle/fabrikt/generator/FabriktArguments.kt:43-46 | no sources path emits nothing; a set path emits exactly `--src-path` and the path |
| FabriktArguments.ResourcesPathArgs | src/main/kotlin/ch/acanda/gradle/fabrikt/generator/FabriktArguments.kt:47-50 | no resources path emits nothing; a set path emits exactly `--resources-path` and the path |
| FabriktArguments.ValidationLibraryArgs | src/main/kotlin/ch/acanda/gradle/fabrikt/generator/FabriktArguments.kt:51-54 | no validation library emits nothing; a set library emits exactly `--validation-library` and the library's name |
| FabriktArguments.QuarkusReflectionConfigArgs | src/main/kotlin/ch/acanda/gradle/fabrikt/generator/FabriktArguments.kt:55-58 | the segment is non-empty exactly when the reflection-config switch is true, and is then `--targets QUARKUS_REFLECTION_CONFIG` |
| FabriktArguments.CliArgs | src/main/kotlin/ch/acanda/gradle/fabrikt/generator/FabriktArguments.kt:28-64 | the vector holds at least the prefix and one pair per fragment; what it carries flag by flag is stated by `ArgumentReading.ReadCliArgs`, and that it can be read back by `ArgumentRecovery.RoundTrip` |
| FabriktArguments.FixedPrefix | src/main/kotlin/ch/acanda/gradle/fabrikt/generator/FabriktArguments.kt:30-34 | the prefix is three flag/value pairs (six elements) |
| FabriktArguments.FragmentArgs | src/main/kotlin/ch/acanda/gradle/fabrikt/generator/FabriktArguments.kt:35-38 | one flag/value pair per fragment, so twice as many elements as fragments |
| FabriktArguments.OverrideNames | src/main/kotlin/ch/acanda/gradle/fabrikt/generator/FabriktArguments.kt:67-69 | the override list has at most one name: none without a date-time override, otherwise exactly that override's name |
| FabriktArguments.TypeOverridesArgs | src/main/kotlin/ch/acanda/gradle/fabrikt/generator/FabriktArguments.kt:66-74 | the type-override segment holds at most the flag and one value |
| FabriktArguments.ClientTargetArgs | src/main/kotlin/ch/acanda/gradle/fabrikt/generator/FabriktArguments.kt:82-85 | the client target segment is empty exactly when no target is set |
| FabriktArguments.ControllerTargetArgs | src/main/kotlin/ch/acanda/gradle/fabrikt/generator/FabriktArguments.kt:95-98 | the controller target segment is empty exactly when no target is set |
| FabriktArguments.ClientArgs | src/main/kotlin/ch/acanda/gradle/fabrikt/generator/FabriktArguments.kt:76-87 | a disabled client block emits nothing |
| FabriktArguments.ControllerArgs | src/main/kotlin/ch/acanda/gradle/fabrikt/generator/FabriktArguments.kt:89-100 | a disabled controller block emits nothing |
| FabriktArguments.ModelArgs | src/main/kotlin/ch/acanda/gradle/fabrikt/generator/FabriktArguments.kt:102-118 | a disabled model block emits nothing |
| ArgumentReading.ReadAddIfEnabled | src/main/kotlin/ch/acanda/gradle/fabrikt/generator/FabriktArguments.kt:120-125 | `addIfEnabled` output is well formed and carries its value under its own flag only when the switch is true |
| ArgumentReading.ReadOptionArgs | src/main/kotlin/ch/acanda/gradle/fabrikt/generator/FabriktArguments.kt:106-116 | a run of `addIfEnabled` calls yields, under its flag, the names of the options that are on, in call order |
| ArgumentReading.ReadFixedPrefix | src/main/kotlin/ch/acanda/gradle/fabrikt/generator/FabriktArguments.kt:30-34 | the prefix carries the API file, base package and output directory, once each, under their flags |
| ArgumentReading.ReadFragmentArgs | src/main/kotlin/ch/acanda/gradle/fabrikt/generator/FabriktArguments.kt:35-38 | the fragment segment carries exactly the fragments, in input order, under `--api-fragment` and nothing else |
| ArgumentReading.ReadOptionalArg | src/main/kotlin/ch/acanda/gradle/fabrikt/generator/FabriktArguments.kt:43-50 | an optional path carries its value under its flag when present, and nothing when absent |
| ArgumentReading.ReadExternalRefResolutionArgs | src/main/kotlin/ch/acanda/gradle/fabrikt/generator/FabriktArguments.kt:39-42 | the resolution mode's name is carried under its flag when present, nothing otherwise |
| ArgumentReading.ReadValidationLibraryArgs | src/main/kotlin/ch/acanda/gradle/fabrikt/generator/FabriktArguments.kt:51-54 | the validation library's name is carried under its flag when present, nothing otherwise |
| ArgumentReading.ReadQuarkusReflectionConfigArgs | src/main/kotlin/ch/acanda/gradle/fabrikt/generator/FabriktArguments.kt:55-58 | `QUARKUS_REFLECTION_CONFIG` is carried under `--targets` exactly when the switch is true |
| ArgumentReading.ReadTypeOverridesArgs | src/main/kotlin/ch/acanda/gradle/fabrikt/generator/FabriktArguments.kt:66-74 | `--type-overrides` carries exactly the override names and every flag has one value |
| ArgumentReading.ClientArgsInOptionOrder | src/main/kotlin/ch/acanda/gradle/fabrikt/generator/FabriktArguments.kt:76-87 | an enabled client block is its target pair, its options in the order of its `addIfEnabled` calls, then its target |
| ArgumentReading.ControllerArgsInOptionOrder | src/main/kotlin/ch/acanda/gradle/fabrikt/generator/FabriktArguments.kt:89-100 | an enabled controller block is its target pair, its options in the order of its `addIfEnabled` calls, then its target |
| ArgumentReading.ModelArgsInOptionOrder | src/main/kotlin/ch/acanda/gradle/fabrikt/generator/FabriktArguments.kt:102-118 | an enabled model block is its target pair followed by the seven options in the order of its `addIfEnabled` calls |
| ArgumentReading.ReadClientArgs | src/main/kotlin/ch/acanda/gradle/fabrikt/generator/FabriktArguments.kt:76-87 | the client block carries `CLIENT`, the enabled client options and the target, each under its own flag, and nothing when disabled |
| ArgumentReading.ReadControllerArgs | src/main/kotlin/ch/acanda/gradle/fabrikt/generator/FabriktArguments.kt:89-100 | the controller block carries `CONTROLLERS`, the enabled controller options and the target, and nothing when disabled |
| ArgumentReading.ReadModelArgs | src/main/kotlin/ch/acanda/gradle/fabrikt/generator/FabriktArguments.kt:102-118 | the model block carries `HTTP_MODELS` and the enabled model options in order, and nothing when disabled |
| ArgumentReading.TargetsUnrolled | src/main/kotlin/ch/acanda/gradle/fabrikt/generator/FabriktArguments.kt:55-62 | the `--targets` values are reflection config, client, controller, model, each present exactly when its switch is on |
| ArgumentReading.ReadSegments | src/main/kotlin/ch/acanda/gradle/fabrikt/generator/FabriktArguments.kt:28-64 | the whole vector is well formed over the fifteen flags and is read segment by segment in the order of `getCliArgs` |
| ArgumentReading.ReadCliArgs | src/main/kotlin/ch/acanda/gradle/fabrikt/generator/FabriktArguments.kt:28-64 | for every flag, the vector carries exactly the values `Reading` derives from the configuration; unknown flags carry nothing |
| ArgumentRecovery.ReadAllCliArgs | src/main/kotlin/ch/acanda/gradle/fabrikt/generator/FabriktArguments.kt:28-64 | all fifteen flags read from the vector agree with `Reading` at once |
| ArgumentRecovery.TargetListed | src/main/kotlin/ch/acanda/gradle/fabrikt/generator/FabriktArguments.kt:55-105 | a generation category's name is among the targets exactly when its switch is on |
| ArgumentRecovery.ClientOptionsListed | src/main/kotlin/ch/acanda/gradle/fabrikt/generator/FabriktArguments.kt:80-81 | a client option's name is listed exactly when its switch is true |
| ArgumentRecovery.ControllerOptionsListed | src/main/kotlin/ch/acanda/gradle/fabrikt/generator/FabriktArguments.kt:93-94 | a controller option's name is listed exactly when its switch is true |
| ArgumentRecovery.ModelOptionsListed | src/main/kotlin/ch/acanda/gradle/fabrikt/generator/FabriktArguments.kt:106-116 | a model option's name is listed exactly when its switch is true |
| ArgumentRecovery.DecodeExpected | src/main/kotlin/ch/acanda/gradle/fabrikt/generator/FabriktArguments.kt:28-64 | what the vector carries is enough to rebuild the normal form of the configuration |
| ArgumentRecovery.RoundTrip | src/main/kotlin/ch/acanda/gradle/fabrikt/generator/FabriktArguments.kt:28-64 | reading the vector back recovers the configuration up to absent-versus-false switches and disabled blocks |
| ArgumentRecovery.CliArgsOfNormalize | src/main/kotlin/ch/acanda/gradle/fabrikt/generator/FabriktArguments.kt:76-125 | the builder gives the same vector for a configuration and its normal form |
| ArgumentRecovery.SameArgumentsIffSameNormalForm | src/main/kotlin/ch/acanda/gradle/fabrikt/generator/FabriktArguments.kt:28-64 | two configurations build the same vector if and only if their normal forms are equal |
| ArgumentProperties.StartsWithFixedPrefix | src/main/kotlin/ch/acanda/gradle/fabrikt/generator/FabriktArguments.kt:30-34 | the vector always starts with `--api-file`, the file, `--base-package`, the package, `--output-directory`, the directory |
| ArgumentProperties.FragmentAt | src/main/kotlin/ch/acanda/gradle/fabrikt/generator/FabriktArguments.kt:35-38 | the `i`-th fragment pair of the fragment segment sits at positions `2i` and `2i+1` |
| ArgumentProperties.FragmentFollowsPrefix | src/main/kotlin/ch/acanda/gradle/fabrikt/generator/FabriktArguments.kt:35-38 | right after the prefix, position `6+2i` holds `--api-fragment` and `7+2i` the `i`-th fragment |
| ArgumentProperties.FragmentsInOrder | src/main/kotlin/ch/acanda/gradle/fabrikt/generator/FabriktArguments.kt:35-38 | `--api-fragment` occurs once per fragment and carries the fragments in input order |
| ArgumentProperties.OptionalValuesOnlyWhenPresent | src/main/kotlin/ch/acanda/gradle/fabrikt/generator/FabriktArguments.kt:39-54 | resolution mode, source path, resource path and validation library are each read once when present and never when absent |
| ArgumentProperties.BlockTargetsOnlyWhenPresent | src/main/kotlin/ch/acanda/gradle/fabrikt/generator/FabriktArguments.kt:76-100 | a client or controller target is read once when its block is on and the target is set, never otherwise |
| ArgumentProperties.TypeOverridesAtMostOnce | src/main/kotlin/ch/acanda/gradle/fabrikt/generator/FabriktArguments.kt:66-74 | `--type-overrides` occurs at most once, and exactly when the date-time override is set |
| ArgumentProperties.FlagValuePairs | src/main/kotlin/ch/acanda/gradle/fabrikt/generator/FabriktArguments.kt:10-24 | the vector has even length and every even position holds one of the fifteen flags |
| ArgumentProperties.TargetsOncePerSwitch | src/main/kotlin/ch/acanda/gradle/fabrikt/generator/FabriktArguments.kt:55-105 | `--targets` occurs once per switch that is on, names exactly the enabled categories, and never repeats a name |
| ArgumentProperties.TargetNamesOnce | src/main/kotlin/ch/acanda/gradle/fabrikt/generator/FabriktArguments.kt:55-105 | no generation category is named twice among the targets |
| ArgumentProperties.OrdersHaveNoDuplicates | src/main/kotlin/ch/acanda/gradle/fabrikt/generator/FabriktArguments.kt:106-116 | the target order and the option orders list every constant, and none twice |
| ArgumentProperties.ModelOptionsInOrder | src/main/kotlin/ch/acanda/gradle/fabrikt/generator/FabriktArguments.kt:106-116 | model options are read in the order of the `addIfEnabled` calls, each exactly when it is on, none twice |
| ArgumentProperties.ModelOptionNamesOnce | src/main/kotlin/ch/acanda/gradle/fabrikt/generator/FabriktArguments.kt:106-116 | no model option name appears twice |
| ArgumentProperties.OptionsOnce | src/main/kotlin/ch/acanda/gradle/fabrikt/generator/FabriktArguments.kt:120-125 | a run of `addIfEnabled` over distinct options emits no option name twice |
| ArgumentProperties.ClientOptionsOnce | src/main/kotlin/ch/acanda/gradle/fabrikt/generator/FabriktArguments.kt:80-81 | in an enabled client block each option is read exactly when true, none twice |
| ArgumentProperties.ClientOptionNamesOnce | src/main/kotlin/ch/acanda/gradle/fabrikt/generator/FabriktArguments.kt:80-81 | no client option name appears twice |
| ArgumentProperties.ControllerOptionsOnce | src/main/kotlin/ch/acanda/gradle/fabrikt/generator/FabriktArguments.kt:93-94 | in an enabled controller block each option is read exactly when true, none twice |
| ArgumentProperties.ControllerOptionNamesOnce | src/main/kotlin/ch/acanda/gradle/fabrikt/generator/FabriktArguments.kt:93-94 | no controller option name appears twice |
| ArgumentProperties.DisabledClientIgnored | src/main/kotlin/ch/acanda/gradle/fabrikt/generator/FabriktArguments.kt:77 | replacing a disabled client block by any other disabled one leaves the vector unchanged |
| ArgumentProperties.DisabledControllerIgnored | src/main/kotlin/ch/acanda/gradle/fabrikt/generator/FabriktArguments.kt:90 | replacing a disabled controller block by any other disabled one leaves the vector unchanged |
| ArgumentProperties.DisabledModelIgnored | src/main/kotlin/ch/acanda/gradle/fabrikt/generator/FabriktArguments.kt:103 | replacing a disabled model block by any other disabled one leaves the vector unchanged |
| ArgumentProperties.DisabledBlockUnread | src/main/kotlin/ch/acanda/gradle/fabrikt/generator/FabriktArguments.kt:76-118 | a disabled block's options and target are never read, even when set |
| ArgumentProperties.SelectSegments | src/main/kotlin/ch/acanda/gradle/fabrikt/generator/FabriktArguments.kt:28-64 | selecting flags from the vector selects from each segment in `getCliArgs` order |
| ArgumentProperties.SelectLeadingSegments | src/main/kotlin/ch/acanda/gradle/fabrikt/generator/FabriktArguments.kt:30-50 | the prefix, the fragments, the resolution mode and the two paths never carry the validation library, `--targets` or `--type-overrides` |
| ArgumentProperties.SelectValueSegments | src/main/kotlin/ch/acanda/gradle/fabrikt/generator/FabriktArguments.kt:51-59 | kept to the validation library, `--targets` and `--type-overrides` flags, the library segment is its pair when a library is set, the reflection-config segment its target pair when the switch is true, and the override segment its pair when an override is set |
| ArgumentProperties.SelectClient | src/main/kotlin/ch/acanda/gradle/fabrikt/generator/FabriktArguments.kt:76-87 | of those three flags, the client block contributes only its `--targets CLIENT` pair, and nothing when disabled |
| ArgumentProperties.SelectController | src/main/kotlin/ch/acanda/gradle/fabrikt/generator/FabriktArguments.kt:89-100 | of those three flags, the controller block contributes only its `--targets CONTROLLERS` pair, and nothing when disabled |
| ArgumentProperties.SelectModel | src/main/kotlin/ch/acanda/gradle/fabrikt/generator/FabriktArguments.kt:102-118 | of those three flags, the model block contributes only its `--targets HTTP_MODELS` pair, and nothing when disabled |
| ArgumentProperties.SegmentOrder | src/main/kotlin/ch/acanda/gradle/fabrikt/generator/FabriktArguments.kt:51-62 | validation library, reflection-config target, type overrides, then client, controller and model targets, in that order |
| ArgumentProperties.SelectOptionalValues | src/main/kotlin/ch/acanda/gradle/fabrikt/generator/FabriktArguments.kt:39-54 | kept to the four optional-value flags, each optional-value segment is itself |
| ArgumentProperties.SelectOtherSegments | src/main/kotlin/ch/acanda/gradle/fabrikt/generator/FabriktArguments.kt:28-64 | the prefix, the fragments, the reflection-config target, the type overrides and the three blocks never carry one of the four optional-value flags |
| ArgumentProperties.ValueOrder | src/main/kotlin/ch/acanda/gradle/fabrikt/generator/FabriktArguments.kt:39-54 | the optional values appear in the order resolution mode, sources path, resources path, validation library, each as its flag and value and only when set |
| ArgumentProperties.MinimalExample | src/main/kotlin/ch/acanda/gradle/fabrikt/generator/FabriktArguments.kt:28-64 | required values only, model block on: the prefix followed by `--targets HTTP_MODELS` |
| ArgumentProperties.ClientExample | src/main/kotlin/ch/acanda/gradle/fabrikt/generator/FabriktArguments.kt:76-87 | client on with Resilience4j and OpenFeign: its six elements come before the model target |
| ArgumentProperties.FragmentsExample | src/main/kotlin/ch/acanda/gradle/fabrikt/generator/FabriktArguments.kt:35-38 | fragments F1, F2 appear as `--api-fragment F1 --api-fragment F2` right after the prefix |

## Left out

- Gradle property resolution is outside the model:
  - A `Provider` becomes an `Option`.
  - `.asFile.get().absolutePath` and `toString()` become opaque strings.
  - `.get()` on the reflection-config switch and the three `generate` switches fails on an absent value. It becomes the precondition `Resolved`, so the builder's failure on an absent switch is not modelled.
- The plugin's own enumerations and their `fabriktOption` mapping are left out. The configuration holds Fabrikt's values directly, and each `name` is written out as a table of the constant names.
- The Fabrikt command-line parser is foreign code. `ArgVector.ValuesOf` is a model of it: flags sit at even positions, and a repeated flag accumulates its values.
- Returning the list as an array (`toTypedArray`) is the identity here.
- The mutable list that the helpers share becomes a concatenation of pure segment functions. The order of the concatenation is the order of the appends.
- Plugin registration, task wiring and defaulting are not part of this model. This covers `FabriktPluginTest.kt`, `GradleTest.kt` (process spawning and file I/O), `build.gradle.kts` and `EnumPropertyGenerator.kt`. So defaults such as "model generation is on" are inputs here. The examples set them explicitly.
- FabriktArguments.FixedPrefix: its own contract gives only the length. The exact contents and position are stated by `ArgumentProperties.StartsWithFixedPrefix`.
- FabriktArguments.ClientArgs: its own contract covers only the disabled case. The enabled case is stated by `ArgumentReading.ClientArgsInOptionOrder` and `ArgumentReading.ReadClientArgs`.
- FabriktArguments.ControllerArgs: its own contract covers only the disabled case. The enabled case is stated by `ArgumentReading.ControllerArgsInOptionOrder` and `ArgumentReading.ReadControllerArgs`.
- FabriktArguments.ModelArgs: its own contract covers only the disabled case. The enabled case is stated by `ArgumentReading.ModelArgsInOptionOrder` and `ArgumentReading.ReadModelArgs`.
- FabriktArguments.TypeOverridesArgs: its own contract bounds only the length. The flag and its single value are stated by `ArgumentReading.ReadTypeOverridesArgs` and `ArgumentProperties.TypeOverridesAtMostOnce`.
- FabriktArguments.FragmentArgs: its own contract gives only the length. The contents and order are stated by `ArgumentReading.ReadFragmentArgs` and `ArgumentProperties.FragmentAt`.
- FabriktArguments.ClientTargetArgs: its own contract says only when the segment is empty. The value is stated by `ArgumentProperties.BlockTargetsOnlyWhenPresent`.
- FabriktArguments.ControllerTargetArgs: its own contract says only when the segment is empty. The value is stated by `ArgumentProperties.BlockTargetsOnlyWhenPresent`.
- FabriktArguments.CliArgs: its own contract bounds only the length. What the vector carries under every flag is stated by `ArgumentReading.ReadCliArgs`, its order by `ArgumentProperties.StartsWithFixedPrefix` and `ArgumentProperties.FragmentFollowsPrefix` (prefix and fragments), `ArgumentProperties.ValueOrder` (the four optional values) and `ArgumentProperties.SegmentOrder` (from the validation library on), and that it determines the configuration's normal form by `ArgumentRecovery.RoundTrip` and `ArgumentRecovery.SameArgumentsIffSameNormalForm`.
