/**
  The parts of the Fabrikt generator's vocabulary that the argument builder emits.
  Fabrikt is a foreign library: each of its enums becomes a small datatype whose
  `Name()` is the enum constant's name, written out as an explicit lookup table.
  The five types whose value follows a flag of its own (resolution mode,
  validation library, client and controller target, type override) also have
  an inverse `...FromName`, so that a reader of the argument vector can map a
  value back to the constant it names; the target and option types are read
  back by membership of their names instead.
*/
module FabriktTypes {
  import opened Wrappers

  /** `CodeGenerationType`: the values that follow `--targets`. */
  datatype CodeGenerationType = HttpModels | Controllers | Client | QuarkusReflectionConfig {
    function Name(): string {
      match this
      case HttpModels => "HTTP_MODELS"
      case Controllers => "CONTROLLERS"
      case Client => "CLIENT"
      case QuarkusReflectionConfig => "QUARKUS_REFLECTION_CONFIG"
    }
  }

  /** `ClientCodeGenOptionType`: the values that follow `--http-client-opts`. */
  datatype ClientCodeGenOptionType = Resilience4j | ClientSuspendModifier {
    function Name(): string {
      match this
      case Resilience4j => "RESILIENCE4J"
      case ClientSuspendModifier => "SUSPEND_MODIFIER"
    }
  }

  /** `ControllerCodeGenOptionType`: the values that follow `--http-controller-opts`. */
  datatype ControllerCodeGenOptionType = Authentication | ControllerSuspendModifier {
    function Name(): string {
      match this
      case Authentication => "AUTHENTICATION"
      case ControllerSuspendModifier => "SUSPEND_MODIFIER"
    }
  }

  /** `ModelCodeGenOptionType`: the values that follow `--http-model-opts`. */
  datatype ModelCodeGenOptionType =
    | XExtensibleEnums
    | JavaSerialization
    | QuarkusReflection
    | MicronautIntrospection
    | MicronautReflection
    | IncludeCompanionObject
    | SealedInterfacesForOneOf
  {
    function Name(): string {
      match this
      case XExtensibleEnums => "X_EXTENSIBLE_ENUMS"
      case JavaSerialization => "JAVA_SERIALIZATION"
      case QuarkusReflection => "QUARKUS_REFLECTION"
      case MicronautIntrospection => "MICRONAUT_INTROSPECTION"
      case MicronautReflection => "MICRONAUT_REFLECTION"
      case IncludeCompanionObject => "INCLUDE_COMPANION_OBJECT"
      case SealedInterfacesForOneOf => "SEALED_INTERFACES_FOR_ONE_OF"
    }
  }

  /** `ExternalReferencesResolutionMode`: the value of `--external-ref-resolution`. */
  datatype ExternalReferencesResolutionMode = Targeted | Aggressive {
    function Name(): string {
      match this
      case Targeted => "TARGETED"
      case Aggressive => "AGGRESSIVE"
    }
  }

  function ExternalReferencesResolutionModeFromName(s: string): (r: Option<ExternalReferencesResolutionMode>)
    ensures r.Some? ==> r.value.Name() == s
    ensures forall m: ExternalReferencesResolutionMode :: m.Name() == s ==> r == Some(m)
  {
    if s == "TARGETED" then Some(Targeted)
    else if s == "AGGRESSIVE" then Some(Aggressive)
    else None
  }

  /** `ValidationLibrary`: the value of `--validation-library`. */
  datatype ValidationLibrary = JavaxValidation | JakartaValidation {
    function Name(): string {
      match this
      case JavaxValidation => "JAVAX_VALIDATION"
      case JakartaValidation => "JAKARTA_VALIDATION"
    }
  }

  function ValidationLibraryFromName(s: string): (r: Option<ValidationLibrary>)
    ensures r.Some? ==> r.value.Name() == s
    ensures forall l: ValidationLibrary :: l.Name() == s ==> r == Some(l)
  {
    if s == "JAVAX_VALIDATION" then Some(JavaxValidation)
    else if s == "JAKARTA_VALIDATION" then Some(JakartaValidation)
    else None
  }

  /** `ClientCodeGenTargetType`: the value of `--http-client-target`. */
  datatype ClientCodeGenTargetType = OkHttp | OpenFeign {
    function Name(): string {
      match this
      case OkHttp => "OK_HTTP"
      case OpenFeign => "OPEN_FEIGN"
    }
  }

  function ClientCodeGenTargetTypeFromName(s: string): (r: Option<ClientCodeGenTargetType>)
    ensures r.Some? ==> r.value.Name() == s
    ensures forall t: ClientCodeGenTargetType :: t.Name() == s ==> r == Some(t)
  {
    if s == "OK_HTTP" then Some(OkHttp)
    else if s == "OPEN_FEIGN" then Some(OpenFeign)
    else None
  }

  /** `ControllerCodeGenTargetType`: the value of `--http-controller-target`. */
  datatype ControllerCodeGenTargetType = Spring | Micronaut {
    function Name(): string {
      match this
      case Spring => "SPRING"
      case Micronaut => "MICRONAUT"
    }
  }

  function ControllerCodeGenTargetTypeFromName(s: string): (r: Option<ControllerCodeGenTargetType>)
    ensures r.Some? ==> r.value.Name() == s
    ensures forall t: ControllerCodeGenTargetType :: t.Name() == s ==> r == Some(t)
  {
    if s == "SPRING" then Some(Spring)
    else if s == "MICRONAUT" then Some(Micronaut)
    else None
  }

  /** `CodeGenTypeOverride`: the value of `--type-overrides` (only date-time overrides are configurable). */
  datatype CodeGenTypeOverride = DatetimeAsInstant | DatetimeAsLocalDateTime {
    function Name(): string {
      match this
      case DatetimeAsInstant => "DATETIME_AS_INSTANT"
      case DatetimeAsLocalDateTime => "DATETIME_AS_LOCALDATETIME"
    }
  }

  function CodeGenTypeOverrideFromName(s: string): (r: Option<CodeGenTypeOverride>)
    ensures r.Some? ==> r.value.Name() == s
    ensures forall o: CodeGenTypeOverride :: o.Name() == s ==> r == Some(o)
  {
    if s == "DATETIME_AS_INSTANT" then Some(DatetimeAsInstant)
    else if s == "DATETIME_AS_LOCALDATETIME" then Some(DatetimeAsLocalDateTime)
    else None
  }
}
