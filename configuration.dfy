/**
 * `Configuration` of src/agent/configuration.py and its
 * `from_runnable_config`: each declared field is looked up first in the
 * process environment under its upper-cased name, then in the
 * `configurable` map of the run configuration; values that Python treats as
 * false are dropped so that the dataclass default applies. The environment is
 * a parameter instead of `os.environ`.
 */
module Configuration {
  import opened Wrappers
  import Text
  import Constants

  /** A Python value as found in the environment or in the configuration map. */
  datatype Value = NoneValue | Str(s: string) | Int(i: int) | Bool(b: bool)

  /** Python truthiness: None, "", 0 and False are false. */
  predicate Truthy(v: Value)
  {
    match v
    case NoneValue => false
    case Str(s) => s != ""
    case Int(i) => i != 0
    case Bool(b) => b
  }

  /** Python's `str(v)`, as used when a value is formatted into a message. */
  function ToStr(v: Value): string
  {
    match v
    case NoneValue => "None"
    case Str(s) => s
    case Int(i) => Text.IntToString(i)
    case Bool(b) => if b then "True" else "False"
  }

  /** A run configuration; `configurable` is `None` when the key is absent. */
  datatype RunnableConfig = RunnableConfig(configurable: Option<map<string, Value>>)

  /** The dataclass; fields hold whatever value was passed, as Python does not check the annotations. */
  datatype Configuration = Configuration(
    userId: Value,
    model: Value,
    systemPrompt: Value,
    emotionSystemPrompt: Value,
    emotionUserPrompt: Value,
    maxSearchResults: Value)

  const UserIdField: string := "user_id"
  const ModelField: string := "model"
  const SystemPromptField: string := "system_prompt"
  const EmotionSystemPromptField: string := "emotion_system_prompt"
  const EmotionUserPromptField: string := "emotion_user_prompt"
  const MaxSearchResultsField: string := "max_search_results"

  /** The init fields of the dataclass, in declaration order. */
  const FieldNames: seq<string> :=
    [UserIdField, ModelField, SystemPromptField, EmotionSystemPromptField, EmotionUserPromptField, MaxSearchResultsField]

  /** `Configuration()`: every field at its declared default. */
  const Defaults: Configuration := Configuration(
    Str("default"),
    Str("openai/gpt-4o-mini"),
    Str(Constants.SystemPrompt),
    Str(Constants.EmotionResponseSystemPrompt),
    Str(Constants.EmotionResponseUserPrompt),
    Int(5))

  /** `getattr(c, name)` for the declared fields. */
  function Field(c: Configuration, name: string): Value
    requires name in FieldNames
  {
    if name == UserIdField then c.userId
    else if name == ModelField then c.model
    else if name == SystemPromptField then c.systemPrompt
    else if name == EmotionSystemPromptField then c.emotionSystemPrompt
    else if name == EmotionUserPromptField then c.emotionUserPrompt
    else c.maxSearchResults
  }

  /** `config["configurable"] if config and "configurable" in config else {}`. */
  function Configurable(config: Option<RunnableConfig>): map<string, Value>
  {
    match config
    case None => map[]
    case Some(rc) => match rc.configurable
      case None => map[]
      case Some(m) => m
  }

  /** `os.environ.get(name.upper(), configurable.get(name))`. */
  function Lookup(env: map<string, string>, configurable: map<string, Value>, name: string): Value
  {
    var key := Text.Upper(name);
    if key in env then Str(env[key])
    else if name in configurable then configurable[name]
    else NoneValue
  }

  /** The value a field ends up with: the looked-up value when truthy, else the default. */
  function Resolve(env: map<string, string>, configurable: map<string, Value>, name: string): Value
    requires name in FieldNames
  {
    var v := Lookup(env, configurable, name);
    if Truthy(v) then v else Field(Defaults, name)
  }

  /** `Configuration.from_runnable_config`: since falsy values are dropped and every default is truthy, no field ends up falsy. */
  function FromRunnableConfig(config: Option<RunnableConfig>, env: map<string, string>): (c: Configuration)
    ensures forall name :: name in FieldNames ==> Truthy(Field(c, name))
  {
    var m := Configurable(config);
    Configuration(
      Resolve(env, m, UserIdField),
      Resolve(env, m, ModelField),
      Resolve(env, m, SystemPromptField),
      Resolve(env, m, EmotionSystemPromptField),
      Resolve(env, m, EmotionUserPromptField),
      Resolve(env, m, MaxSearchResultsField))
  }

  lemma FieldOfResolved(config: Option<RunnableConfig>, env: map<string, string>, name: string)
    requires name in FieldNames
    ensures Field(FromRunnableConfig(config, env), name) == Resolve(env, Configurable(config), name)
  {
  }

  /** The environment variables consulted are the upper-cased field names. */
  lemma EnvironmentKeys()
    ensures Text.Upper(UserIdField) == "USER_ID"
    ensures Text.Upper(ModelField) == "MODEL"
    ensures Text.Upper(MaxSearchResultsField) == "MAX_SEARCH_RESULTS"
  {
  }

  /** A non-empty environment variable wins over the configuration map. */
  lemma EnvironmentTakesPrecedence(config: Option<RunnableConfig>, env: map<string, string>, name: string)
    requires name in FieldNames
    requires Text.Upper(name) in env && env[Text.Upper(name)] != ""
    ensures Field(FromRunnableConfig(config, env), name) == Str(env[Text.Upper(name)])
  {
    FieldOfResolved(config, env, name);
  }

  /** Without an environment variable, a truthy entry of `configurable` is used. */
  lemma ConfigurableUsedWithoutEnvironment(config: Option<RunnableConfig>, env: map<string, string>, name: string)
    requires name in FieldNames
    requires Text.Upper(name) !in env
    requires name in Configurable(config) && Truthy(Configurable(config)[name])
    ensures Field(FromRunnableConfig(config, env), name) == Configurable(config)[name]
  {
    FieldOfResolved(config, env, name);
  }

  /** A looked-up value that is None, "", 0 or False is dropped and the default applies. */
  lemma FalsyFallsBackToDefault(config: Option<RunnableConfig>, env: map<string, string>, name: string)
    requires name in FieldNames
    requires !Truthy(Lookup(env, Configurable(config), name))
    ensures Field(FromRunnableConfig(config, env), name) == Field(Defaults, name)
  {
    FieldOfResolved(config, env, name);
  }

  /**
   * An environment variable set to the empty string still hides the
   * `configurable` entry: the field gets its default, not the map's value.
   */
  lemma EmptyEnvironmentValueHidesConfigurable(config: Option<RunnableConfig>, env: map<string, string>, name: string)
    requires name in FieldNames
    requires Text.Upper(name) in env && env[Text.Upper(name)] == ""
    ensures Field(FromRunnableConfig(config, env), name) == Field(Defaults, name)
  {
    FalsyFallsBackToDefault(config, env, name);
  }

  /** No config, a config without "configurable", and an empty map all resolve alike. */
  lemma MissingConfigurableIsEmpty(env: map<string, string>)
    ensures FromRunnableConfig(None, env) == FromRunnableConfig(Some(RunnableConfig(None)), env)
    ensures FromRunnableConfig(None, env) == FromRunnableConfig(Some(RunnableConfig(Some(map[]))), env)
  {
  }

  /** Keys of `configurable` other than the declared field names are never read. */
  lemma OnlyDeclaredFieldsAreRead(m1: map<string, Value>, m2: map<string, Value>, env: map<string, string>)
    requires forall name :: name in FieldNames ==> (name in m1 <==> name in m2)
    requires forall name :: name in FieldNames && name in m1 ==> m1[name] == m2[name]
    ensures FromRunnableConfig(Some(RunnableConfig(Some(m1))), env) == FromRunnableConfig(Some(RunnableConfig(Some(m2))), env)
  {
    forall name | name in FieldNames
      ensures Resolve(env, m1, name) == Resolve(env, m2, name)
    {
    }
  }

  /** With nothing set anywhere every field keeps its default. */
  lemma NothingSetGivesDefaults()
    ensures FromRunnableConfig(None, map[]) == Defaults
  {
  }
}
