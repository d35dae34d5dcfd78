/** `AIManager` (src/AIManager.php): a registry built once, at construction,
    with one service per provider name, and a lookup that falls back to the
    configured default name and answers null for a name it does not hold.
    The classes the constructor instantiates are a parameter: `build(name,
    settings)` is what `new` of the class registered for `name` does with
    `$config['services'][name]`. */
module AIManager {
  import opened Php
  import opened Optional

  /** The provider names, in the order the constructor builds them. */
  const Names: seq<string> := ["openai", "huggingface", "claude"]

  const DefaultKey := "ai.default"

  /** The `services` array: provider name to the instance built for it. */
  datatype Manager<S> = Manager(services: map<string, S>)

  /** `new <class of name>($settings)`: an instance, or the throwable the
      class lookup or its constructor raised. */
  type Builder<S> = (string, Json) -> Outcome<S>

  /** `$config['services'][$name]`: null when either level is missing. */
  function SettingsFor(config: Fields, name: string): Json {
    Index(Entry(config, "services"), name)
  }

  /** `names[i]` is the first name whose construction throws. */
  predicate FirstFailure<S>(config: Fields, build: Builder<S>, names: seq<string>, i: nat)
    requires i < |names|
  {
    && build(names[i], SettingsFor(config, names[i])).Threw?
    && forall j :: 0 <= j < i ==> build(names[j], SettingsFor(config, names[j])).Returned?
  }

  /** The registry of the names `names`, built in order; the first throwable
      stops construction and escapes. */
  function Register<S>(config: Fields, build: Builder<S>, names: seq<string>): (r: Outcome<map<string, S>>)
    ensures r.Returned? <==> forall i :: 0 <= i < |names| ==> build(names[i], SettingsFor(config, names[i])).Returned?
    ensures r.Returned? ==> r.value.Keys == set n | n in names
    ensures r.Returned? ==> forall n :: n in r.value ==> Returned(r.value[n]) == build(n, SettingsFor(config, n))
    decreases |names|
  {
    if |names| == 0 then Returned(map[])
    else
      match build(names[0], SettingsFor(config, names[0]))
      case Threw(t) => Threw(t)
      case Returned(s) =>
        match Register(config, build, names[1..])
        case Threw(t) => Threw(t)
        case Returned(rest) => Returned(rest[names[0] := s])
  }

  /** When construction fails, what escapes is the throwable of the first
      name whose construction throws; the names before it were built. */
  lemma {:induction false} RegisterThrowsFirst<S>(config: Fields, build: Builder<S>, names: seq<string>)
    ensures var r := Register(config, build, names);
      r.Threw? ==> exists i :: 0 <= i < |names| && FirstFailure(config, build, names, i)
                            && r.thrown == build(names[i], SettingsFor(config, names[i])).thrown
    decreases |names|
  {
    var r := Register(config, build, names);
    if |names| > 0 && r.Threw? {
      if build(names[0], SettingsFor(config, names[0])).Threw? {
        assert FirstFailure(config, build, names, 0);
      } else {
        RegisterThrowsFirst(config, build, names[1..]);
        var i :| 0 <= i < |names[1..]| && FirstFailure(config, build, names[1..], i)
                 && Register(config, build, names[1..]).thrown == build(names[1..][i], SettingsFor(config, names[1..][i])).thrown;
        assert FirstFailure(config, build, names, i + 1);
      }
    }
  }

  /** The constructor: `openai`, `huggingface` and `claude`, each built once
      from its own settings. */
  function New<S>(config: Fields, build: Builder<S>): (r: Outcome<Manager<S>>)
    ensures r.Returned? <==> forall n :: n in Names ==> build(n, SettingsFor(config, n)).Returned?
    ensures r.Returned? ==> r.value.services.Keys == {"openai", "huggingface", "claude"}
    ensures r.Returned? ==> forall n :: n in r.value.services ==> Returned(r.value.services[n]) == build(n, SettingsFor(config, n))
    ensures r.Threw? ==> exists i :: 0 <= i < |Names| && FirstFailure(config, build, Names, i)
                                  && r.thrown == build(Names[i], SettingsFor(config, Names[i])).thrown
  {
    RegisterThrowsFirst(config, build, Names);
    match Register(config, build, Names)
    case Threw(t) => Threw(t)
    case Returned(services) => Returned(Manager(services))
  }

  /** `service($name)`: the name, or else `config('ai.default')`, looked up
      with `?? null`. A string key finds its entry or nothing; null reads as
      the empty key and other scalars as integer keys, which the registry
      never holds; an array is an illegal offset. */
  function Service<S>(m: Manager<S>, name: Option<string>, cfg: Config): (r: Outcome<Option<S>>)
    ensures name.Some? ==> r == Returned(if name.value in m.services then Some(m.services[name.value]) else None)
    ensures name.None? && IsArray(Setting(cfg, DefaultKey)) ==> r == Threw(TypeError("offset"))
    ensures r.Returned? && r.value.Some? ==> exists n :: n in m.services && r.value.value == m.services[n]
  {
    var key := if name.Some? then JStr(name.value) else Setting(cfg, DefaultKey);
    match key
    case JStr(s) => Returned(if s in m.services then Some(m.services[s]) else None)
    case JNull => Returned(if "" in m.services then Some(m.services[""]) else None)
    case JArr(_) => Threw(TypeError("offset"))
    case JObj(_) => Threw(TypeError("offset"))
    case _ => Returned(None)
  }

  /** `service()` with no name is `service` of the configured default; with
      no default configured it finds nothing. */
  lemma DefaultResolution<S>(config: Fields, build: Builder<S>, cfg: Config)
    requires New(config, build).Returned?
    ensures var m := New(config, build).value;
      && (Setting(cfg, DefaultKey).JStr? ==> Service(m, None, cfg) == Service(m, Some(Setting(cfg, DefaultKey).s), cfg))
      && (Setting(cfg, DefaultKey) == JNull ==> Service(m, None, cfg) == Returned(None))
  {
    var m := New(config, build).value;
    assert "" !in m.services by {
      assert "openai"[0] == 'o' && "huggingface"[0] == 'h' && "claude"[0] == 'c';
    }
  }

  /** A name the registry does not hold answers null rather than failing,
      and every registered name answers the instance built for it. */
  lemma LookupByName<S>(config: Fields, build: Builder<S>, name: string, cfg: Config)
    requires New(config, build).Returned?
    ensures var r := Service(New(config, build).value, Some(name), cfg);
      && (name !in Names ==> r == Returned(None))
      && (name in Names ==> r.Returned? && r.value.Some? && Returned(r.value.value) == build(name, SettingsFor(config, name)))
  {
  }

  /** Lookups do not rebuild: asking twice, or once by name and once through
      the default, answers the same instance. */
  lemma SameInstance<S>(m: Manager<S>, name: string, cfg: Config)
    requires Setting(cfg, DefaultKey) == JStr(name)
    ensures Service(m, Some(name), cfg) == Service(m, None, cfg)
    ensures Service(m, Some(name), cfg) == Service(m, Some(name), cfg - {DefaultKey})
  {
  }

  /** The classes of this repository. Autoloading `Services\OpenAI` and
      `Services\Claude` includes `OpenAI.php` and `Claude.php`, whose classes
      (`OpenAIService`, `ClaudeAIService`) claim `implements AIService` but
      leave 9 and 15 of its methods undefined, so declaring them is a fatal
      error; `HuggingFace` takes an `array` and refuses anything else. */
  function RepositoryClasses(name: string, settings: Json): Outcome<Json> {
    if name == "openai" then Threw(Fatal(OpenAIDeclaration))
    else if name == "claude" then Threw(Fatal(ClaudeDeclaration))
    else if name == "huggingface" then
      (if IsArray(settings) then Returned(settings) else Threw(TypeError("config")))
    else Threw(ClassNotFound(name))
  }

  const OpenAIDeclaration := "Class Kwakuofosuagyeman\\AIAssistant\\Services\\OpenAIService contains 9 abstract methods"
  const ClaudeDeclaration := "Class Kwakuofosuagyeman\\AIAssistant\\Services\\ClaudeAIService contains 15 abstract methods"

  /** With this repository's classes the constructor never completes: the
      first name, `openai`, loads a class that cannot be declared, and the
      script ends there, whatever the configuration. */
  lemma RepositoryManagerFails(config: Fields)
    ensures New(config, RepositoryClasses) == Threw(Fatal(OpenAIDeclaration))
  {
  }
}
