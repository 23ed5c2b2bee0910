/**
 * The environment gate of the service provider: the exclusion list is built
 * from the `cypress.exclude` setting (a comma-separated string or a list),
 * "production" is always appended, and the bridge's routes are registered
 * only when the current environment matches none of its entries.
 */
module CypressServiceProvider {

  // ---------------------------------------------------------------- explode / implode on ","

  /** explode(',', s): the pieces between commas, in order, untrimmed; "" gives [""]. */
  function Split(s: string): (pieces: seq<string>)
    ensures |pieces| >= 1
    ensures forall i :: 0 <= i < |pieces| ==> ',' !in pieces[i]
    decreases |s|
  {
    if s == [] then
      [[]]
    else
      var rest := Split(s[1..]);
      if s[0] == ',' then [[]] + rest else [[s[0]] + rest[0]] + rest[1..]
  }

  /** implode(',', pieces). */
  function Join(pieces: seq<string>): string
    decreases |pieces|
  {
    if pieces == [] then []
    else if |pieces| == 1 then pieces[0]
    else pieces[0] + "," + Join(pieces[1..])
  }

  lemma JoinConsHead(c: char, pieces: seq<string>)
    requires pieces != []
    ensures Join([[c] + pieces[0]] + pieces[1..]) == [c] + Join(pieces)
  {
    var ps := [[c] + pieces[0]] + pieces[1..];
    assert ps[1..] == pieces[1..];
  }

  /** Joining the pieces with "," gives back the configured string. */
  lemma {:induction false} JoinSplit(s: string)
    ensures Join(Split(s)) == s
    decreases |s|
  {
    if s != [] {
      var rest := Split(s[1..]);
      JoinSplit(s[1..]);
      if s[0] == ',' {
        var ps := [[]] + rest;
        assert ps[1..] == rest;
      } else {
        JoinConsHead(s[0], rest);
      }
    }
  }

  lemma {:induction false} SplitPieceComma(p: string, t: string)
    requires ',' !in p
    ensures Split(p + "," + t) == [p] + Split(t)
    decreases |p|
  {
    if p == [] {
      assert p + "," + t == [','] + t;
      assert (p + "," + t)[1..] == t;
    } else {
      assert (p + "," + t)[1..] == p[1..] + "," + t;
      SplitPieceComma(p[1..], t);
      assert [p[0]] + p[1..] == p;
    }
  }

  lemma {:induction false} SplitPiece(p: string)
    requires ',' !in p
    ensures Split(p) == [p]
    decreases |p|
  {
    if p != [] {
      SplitPiece(p[1..]);
      assert [p[0]] + p[1..] == p;
    }
  }

  /** Splitting a join of comma-free pieces gives the pieces back. */
  lemma {:induction false} SplitJoin(pieces: seq<string>)
    requires |pieces| >= 1
    requires forall i :: 0 <= i < |pieces| ==> ',' !in pieces[i]
    ensures Split(Join(pieces)) == pieces
    decreases |pieces|
  {
    if |pieces| == 1 {
      SplitPiece(pieces[0]);
    } else {
      SplitJoin(pieces[1..]);
      SplitPieceComma(pieces[0], Join(pieces[1..]));
    }
  }

  // ---------------------------------------------------------------- the exclusion list

  /** config('cypress.exclude'): a string, a list, or null (env() turns "null" into null). */
  datatype ExcludeConfig =
    | ExcludeString(text: string)
    | ExcludeList(environments: seq<string>)
    | ExcludeNull

  /** The shipped default: env('CYPRESS_EXCLUDED_ENV', 'production'). */
  const DefaultExclude: ExcludeConfig := ExcludeString("production")

  /**
   * The exclusion list boot() builds: a string is exploded on ",", a list is
   * kept, null starts empty; "production" is appended in every case.
   */
  function ExcludedEnvironments(config: ExcludeConfig): (envs: seq<string>)
    ensures |envs| >= 1 && envs[|envs| - 1] == "production"
    ensures config.ExcludeString? ==> envs[..|envs| - 1] == Split(config.text)
    ensures config.ExcludeString? ==> Join(envs[..|envs| - 1]) == config.text
    ensures config.ExcludeList? ==> envs == config.environments + ["production"]
    ensures config.ExcludeNull? ==> envs == ["production"]
  {
    var listed := match config
      case ExcludeString(text) => Split(text)
      case ExcludeList(environments) => environments
      case ExcludeNull => [];
    assert (listed + ["production"])[..|listed|] == listed;
    JoinSplit(if config.ExcludeString? then config.text else []);
    listed + ["production"]
  }

  // ---------------------------------------------------------------- app()->environment($patterns)

  /**
   * The pattern half of Str::is: "*" stands for any run of characters other
   * than a newline ('.*' without the s modifier), every other character for
   * itself, anchored at both ends.
   */
  predicate Wildcard(pattern: string, value: string)
    ensures '*' !in pattern ==> (Wildcard(pattern, value) <==> pattern == value)
    decreases |pattern| + |value|
  {
    if pattern == [] then
      value == []
    else if pattern[0] == '*' then
      Wildcard(pattern[1..], value) || (value != [] && value[0] != '\n' && Wildcard(pattern, value[1..]))
    else
      assert pattern == [pattern[0]] + pattern[1..];
      assert value != [] ==> value == [value[0]] + value[1..];
      value != [] && value[0] == pattern[0] && Wildcard(pattern[1..], value[1..])
  }

  /** Str::is(pattern, value): equal, or matched by the wildcard pattern. */
  predicate PatternMatches(pattern: string, value: string)
    ensures '*' !in pattern ==> (PatternMatches(pattern, value) <==> pattern == value)
  {
    pattern == value || Wildcard(pattern, value)
  }

  /** app()->environment($patterns): the environment matches some entry. */
  predicate EnvironmentIn(environment: string, patterns: seq<string>)
    ensures environment in patterns ==> EnvironmentIn(environment, patterns)
    ensures patterns == [] ==> !EnvironmentIn(environment, patterns)
    ensures (forall i | 0 <= i < |patterns| :: '*' !in patterns[i]) ==>
      (EnvironmentIn(environment, patterns) <==> environment in patterns)
  {
    exists i | 0 <= i < |patterns| :: PatternMatches(patterns[i], environment)
  }

  /** A lone "*" matches every environment name without a newline. */
  lemma {:induction false} StarMatchesAll(value: string)
    requires '\n' !in value
    ensures Wildcard("*", value)
    decreases |value|
  {
    if value != [] {
      StarMatchesAll(value[1..]);
    }
  }

  /** "production" is excluded whatever the configuration says. */
  lemma ProductionAlwaysExcluded(config: ExcludeConfig)
    ensures EnvironmentIn("production", ExcludedEnvironments(config))
  {
    var envs := ExcludedEnvironments(config);
    assert PatternMatches(envs[|envs| - 1], "production");
  }

  /** A comma-free string names one environment, which is excluded besides "production". */
  lemma SingleEnvironmentConfig(text: string)
    requires ',' !in text
    ensures ExcludedEnvironments(ExcludeString(text)) == [text, "production"]
  {
    SplitPiece(text);
    var envs := ExcludedEnvironments(ExcludeString(text));
    assert envs[..1] == [text];
  }

  /** A single literal name in the setting excludes that name and "production", nothing else. */
  lemma SingleEnvironmentGate(text: string, environment: string)
    requires ',' !in text && '*' !in text
    ensures EnvironmentIn(environment, ExcludedEnvironments(ExcludeString(text))) <==>
      environment == text || environment == "production"
  {
    SingleEnvironmentConfig(text);
  }

  /** With the default configuration only "production" is excluded. */
  lemma DefaultExcludesOnlyProduction(environment: string)
    ensures EnvironmentIn(environment, ExcludedEnvironments(DefaultExclude)) <==> environment == "production"
  {
    SingleEnvironmentGate("production", environment);
  }

  /** Two comma-separated literal names exclude both of them and "production", nothing else. */
  lemma TwoEnvironmentGate(first: string, second: string, environment: string)
    requires ',' !in first && '*' !in first && ',' !in second && '*' !in second
    ensures EnvironmentIn(environment, ExcludedEnvironments(ExcludeString(first + "," + second))) <==>
      environment == first || environment == second || environment == "production"
  {
    assert Join([first, second]) == first + "," + second;
    SplitJoin([first, second]);
    var envs := ExcludedEnvironments(ExcludeString(first + "," + second));
    assert envs == [first, second, "production"];
  }

  /** "production,staging" excludes staging, and lets "local" through. */
  lemma StagingExample()
    ensures EnvironmentIn("staging", ExcludedEnvironments(ExcludeString("production,staging")))
    ensures !EnvironmentIn("local", ExcludedEnvironments(ExcludeString("production,staging")))
  {
    assert "production,staging" == "production" + "," + "staging";
    TwoEnvironmentGate("production", "staging", "staging");
    TwoEnvironmentGate("production", "staging", "local");
  }

  // ---------------------------------------------------------------- boot

  /** What boot() has registered with the application. */
  class ServiceProvider {
    var routesRegistered: bool
    var publishesRegistered: bool
    var commandsRegistered: bool

    constructor ()
      ensures !routesRegistered && !publishesRegistered && !commandsRegistered
    {
      routesRegistered, publishesRegistered, commandsRegistered := false, false, false;
    }

    /**
     * boot(): in an excluded environment return before registering
     * anything; otherwise register the routes, and the publishable route
     * file and the install command when running in the console.
     */
    method Boot(config: ExcludeConfig, environment: string, runningInConsole: bool)
      modifies this
      ensures EnvironmentIn(environment, ExcludedEnvironments(config)) ==>
        routesRegistered == old(routesRegistered) &&
        publishesRegistered == old(publishesRegistered) &&
        commandsRegistered == old(commandsRegistered)
      ensures !EnvironmentIn(environment, ExcludedEnvironments(config)) ==>
        routesRegistered &&
        publishesRegistered == (old(publishesRegistered) || runningInConsole) &&
        commandsRegistered == (old(commandsRegistered) || runningInConsole)
    {
      var excluded: seq<string>;
      match config {
        case ExcludeString(text) => excluded := Split(text);
        case ExcludeList(environments) => excluded := environments;
        case ExcludeNull => excluded := [];
      }
      excluded := excluded + ["production"];
      assert excluded == ExcludedEnvironments(config);
      if EnvironmentIn(environment, excluded) {
        return;
      }
      routesRegistered := true;
      if runningInConsole {
        publishesRegistered := true;
        commandsRegistered := true;
      }
    }
  }

  /**
   * Booting with the default configuration in "production" registers no
   * route; booting in "acceptance" under the test runner (a console
   * process) registers the routes and the install command.
   */
  method BootExamples() returns (productionRoutes: bool, acceptanceRoutes: bool, acceptanceCommands: bool)
    ensures !productionRoutes
    ensures acceptanceRoutes && acceptanceCommands
  {
    var production := new ServiceProvider();
    ProductionAlwaysExcluded(DefaultExclude);
    production.Boot(DefaultExclude, "production", true);
    productionRoutes := production.routesRegistered;
    var acceptance := new ServiceProvider();
    DefaultExcludesOnlyProduction("acceptance");
    acceptance.Boot(DefaultExclude, "acceptance", true);
    acceptanceRoutes, acceptanceCommands := acceptance.routesRegistered, acceptance.commandsRegistered;
  }
}
