/**
 * The HTTP handlers of the fixture bridge (CypressController): the PHP source
 * normaliser of run-php, the route table, find-or-create login, logout, the
 * factory endpoint and the artisan pass-through.
 *
 * The ORM is a table of records per model class, a model factory is a set of
 * default attributes plus the model's hidden fields, and the authentication
 * guard is a single optional record.
 */
module CypressController {
  import opened Wrappers

  // ---------------------------------------------------------------- runPhp

  predicate StartsWith(s: string, prefix: string)
  {
    |prefix| <= |s| && s[..|prefix|] == prefix
  }

  /**
   * Str::contains(s, sub): the needle is not empty and occurs somewhere in
   * `s` (case-sensitive); an empty needle is skipped, so it is never found.
   */
  predicate Contains(s: string, sub: string)
    ensures sub != [] && StartsWith(s, sub) ==> Contains(s, sub)
    ensures Contains(s, sub) ==> sub != [] && |sub| <= |s|
    decreases |s|
  {
    sub != [] && (StartsWith(s, sub) || (s != [] && Contains(s[1..], sub)))
  }

  /** An occurrence at any offset is found. */
  lemma {:induction false} ContainsAt(s: string, sub: string, i: nat)
    requires sub != [] && i <= |s| && StartsWith(s[i..], sub)
    ensures Contains(s, sub)
    decreases i
  {
    if i > 0 {
      assert s[1..][i - 1..] == s[i..];
      ContainsAt(s[1..], sub, i - 1);
    } else {
      assert s[0..] == s;
    }
  }

  /** Conversely, a needle that is found occurs at some offset. */
  lemma {:induction false} ContainsOffset(s: string, sub: string)
    requires Contains(s, sub)
    ensures exists i :: 0 <= i <= |s| && StartsWith(s[i..], sub)
    decreases |s|
  {
    if StartsWith(s, sub) {
      assert s[0..] == s;
    } else {
      ContainsOffset(s[1..], sub);
      var j :| 0 <= j <= |s[1..]| && StartsWith(s[1..][j..], sub);
      assert s[1..][j..] == s[j + 1..];
    }
  }

  /**
   * Appending a character that differs from the last one of `sub` neither
   * creates nor destroys an occurrence of `sub`.
   */
  lemma {:induction false} ContainsSnoc(s: string, sub: string, c: char)
    requires sub != [] && c != sub[|sub| - 1]
    ensures Contains(s + [c], sub) <==> Contains(s, sub)
    decreases |s|
  {
    if s == [] {
      assert (s + [c])[1..] == [];
    } else {
      assert (s + [c])[1..] == s[1..] + [c];
      ContainsSnoc(s[1..], sub, c);
      if StartsWith(s, sub) {
        assert (s + [c])[..|sub|] == s[..|sub|];
      }
    }
  }

  /**
   * The normalisation run-php applies before evaluating the caller's text:
   * append ";" unless the text already ends with one, then prefix "return "
   * unless the text mentions "return" anywhere. The source reads the last
   * character with $code[-1], so it demands a non-empty command.
   */
  function NormalizeCode(code: string): (r: string)
    requires code != []
    ensures r != [] && r[|r| - 1] == ';'
    ensures Contains(r, "return")
    ensures Contains(code, "return") ==> r == code || r == code + ";"
    ensures !Contains(code, "return") ==> r == "return " + code || r == "return " + code + ";"
    ensures code[|code| - 1] == ';' ==> r == code || r == "return " + code
    ensures code[|code| - 1] != ';' ==> r == code + ";" || r == "return " + code + ";"
    ensures r == code <==> code[|code| - 1] == ';' && Contains(code, "return")
  {
    var terminated := if code[|code| - 1] != ';' then code + ";" else code;
    ContainsSnoc(code, "return", ';');
    if Contains(terminated, "return") then
      terminated
    else
      var wrapped := "return " + terminated;
      assert StartsWith(wrapped, "return");
      wrapped
  }

  datatype BridgeError =
    | EmptyCommand                // run-php: reading $code[-1] of "" raises
    | UnknownModel(name: string)   // no model class of that name
    | NoFactory(name: string)      // the model class has no factory() (no HasFactory)
    | UnknownCommand(name: string) // Artisan::call of a command that is not registered

  /** The run-php handler up to the eval call: the text that would be evaluated. */
  function RunPhp(command: string): (r: Result<string, BridgeError>)
    ensures r.Failure? <==> command == []
    ensures r.Failure? ==> r.error == EmptyCommand
    ensures r.Success? ==> r.value == NormalizeCode(command)
  {
    if command == [] then Failure(EmptyCommand) else Success(NormalizeCode(command))
  }

  /** Normalising twice is normalising once. */
  lemma NormalizeIdempotent(code: string)
    requires code != []
    ensures NormalizeCode(NormalizeCode(code)) == NormalizeCode(code)
  {
  }

  /** A bare expression becomes a return statement: "2 + 3" runs as "return 2 + 3;". */
  lemma NormalizeExpressionExample()
    ensures NormalizeCode("2 + 3") == "return 2 + 3;"
  {
    assert !StartsWith("2 + 3", "return");
  }

  /** Statement-form text with an explicit return passes through unmodified. */
  lemma NormalizeStatementsExample()
    ensures NormalizeCode("$a = 2; $b = 3; return $a + $b;") == "$a = 2; $b = 3; return $a + $b;"
  {
    var s := "$a = 2; $b = 3; return $a + $b;";
    assert StartsWith(s[16..], "return");
    ContainsAt(s, "return", 16);
  }

  // ---------------------------------------------------------------- routes

  /** A route as the host's route registry reports it. */
  datatype Route = Route(
    name: Option<string>,
    domain: Option<string>,
    actionName: string,
    uri: string,
    methods: seq<string>)

  /** The record the routes endpoint returns for one route. */
  datatype RouteRecord = RouteRecord(
    name: Option<string>,
    domain: Option<string>,
    action: string,
    uri: string,
    methods: seq<string>)  // the "method" key

  function ToRecord(route: Route): RouteRecord
  {
    RouteRecord(route.name, route.domain, route.actionName, route.uri, route.methods)
  }

  /** keyBy('name') turns a null name into the array key "", so every unnamed route lands on "". */
  function RouteKey(name: Option<string>): string
  {
    match name
    case None => ""
    case Some(n) => n
  }

  /** No later route in `routes` has the key of routes[j]. */
  ghost predicate LastWithKey(routes: seq<Route>, j: int)
  {
    0 <= j < |routes| &&
    forall i :: j < i < |routes| ==> RouteKey(routes[i].name) != RouteKey(routes[j].name)
  }

  /**
   * The routes endpoint: map every route to its record, then key the result
   * by name, a later route overwriting an earlier one of the same key.
   */
  function Routes(routes: seq<Route>): (table: map<string, RouteRecord>)
    ensures routes == [] ==> table == map[]
    ensures routes != [] ==>
      var last := routes[|routes| - 1];
      RouteKey(last.name) in table && table[RouteKey(last.name)] == ToRecord(last)
    decreases |routes|
  {
    if routes == [] then
      map[]
    else
      var last := routes[|routes| - 1];
      Routes(routes[..|routes| - 1])[RouteKey(last.name) := ToRecord(last)]
  }

  /** The routes table has exactly one key per distinct route name ("" for unnamed routes). */
  lemma {:induction false} RoutesKeys(routes: seq<Route>)
    ensures Routes(routes).Keys == set j | 0 <= j < |routes| :: RouteKey(routes[j].name)
    decreases |routes|
  {
    if routes != [] {
      var init := routes[..|routes| - 1];
      RoutesKeys(init);
      assert forall j :: 0 <= j < |init| ==> init[j] == routes[j];
      var w := set j | 0 <= j < |routes| :: RouteKey(routes[j].name);
      var v := set j | 0 <= j < |init| :: RouteKey(init[j].name);
      assert w == v + {RouteKey(routes[|routes| - 1].name)};
    }
  }

  /** Each entry is the record of the last route with that key. */
  lemma {:induction false} RoutesLastWins(routes: seq<Route>, j: int)
    requires LastWithKey(routes, j)
    ensures RouteKey(routes[j].name) in Routes(routes)
    ensures Routes(routes)[RouteKey(routes[j].name)] == ToRecord(routes[j])
    decreases |routes|
  {
    var init := routes[..|routes| - 1];
    if j < |init| {
      assert LastWithKey(init, j) by {
        assert forall i :: j < i < |init| ==> init[i] == routes[i];
      }
      RoutesLastWins(init, j);
    }
  }

  /** Every entry is stored under its own record's key. */
  lemma {:induction false} RoutesEntriesKeyed(routes: seq<Route>, k: string)
    requires k in Routes(routes)
    ensures RouteKey(Routes(routes)[k].name) == k
    decreases |routes|
  {
    var last := routes[|routes| - 1];
    if k != RouteKey(last.name) {
      RoutesEntriesKeyed(routes[..|routes| - 1], k);
    }
  }

  /** Keying by name never yields more entries than there are routes. */
  lemma {:induction false} RoutesSize(routes: seq<Route>)
    ensures |Routes(routes)| <= |routes|
    decreases |routes|
  {
    if routes != [] {
      RoutesSize(routes[..|routes| - 1]);
    }
  }

  /** Every unnamed route shares the key "", which holds the last of them. */
  lemma UnnamedRoutesCollapse(routes: seq<Route>, j: int)
    requires 0 <= j < |routes| && routes[j].name == None
    requires forall i :: j < i < |routes| ==> RouteKey(routes[i].name) != ""
    ensures "" in Routes(routes) && Routes(routes)[""] == ToRecord(routes[j])
  {
    RoutesLastWins(routes, j);
  }

  /** A GET route "foo" named "home" appears under "home" with methods GET and HEAD. */
  lemma RoutesExample()
    ensures var table := Routes([Route(Some("home"), None, "Closure", "foo", ["GET", "HEAD"])]);
      "home" in table && table["home"] == RouteRecord(Some("home"), None, "Closure", "foo", ["GET", "HEAD"])
  {
    var routes := [Route(Some("home"), None, "Closure", "foo", ["GET", "HEAD"])];
    RoutesLastWins(routes, 0);
  }

  // ---------------------------------------------------------------- records

  /** An Eloquent model: its attributes and the names it hides when serialised. */
  datatype Record = Record(attributes: map<string, string>, hidden: set<string>)

  /** The JSON a record serialises to: every attribute that is not hidden. */
  function Serialized(record: Record): (json: map<string, string>)
    ensures json.Keys == record.attributes.Keys - record.hidden
    ensures forall k :: k in json ==> json[k] == record.attributes[k]
  {
    map k | k in record.attributes && k !in record.hidden :: record.attributes[k]
  }

  /** setHidden([]): the same attributes, none of them hidden. */
  function Revealed(record: Record): (r: Record)
    ensures r.attributes == record.attributes && r.hidden == {}
    ensures Serialized(r) == record.attributes
  {
    record.(hidden := {})
  }

  /** where($attributes): every given column holds the given value (no attributes: any record). */
  predicate Matches(record: Record, attributes: map<string, string>)
    ensures Matches(record, attributes) ==> attributes.Keys <= record.attributes.Keys
    ensures attributes == map[] ==> Matches(record, attributes)
  {
    forall k :: k in attributes ==> k in record.attributes && record.attributes[k] == attributes[k]
  }

  /** ->first(): the index of the first record of the table that matches. */
  function FirstMatch(table: seq<Record>, attributes: map<string, string>): (r: Option<nat>)
    ensures r.Some? ==> r.value < |table| && Matches(table[r.value], attributes)
    ensures r.Some? ==> forall i :: 0 <= i < r.value ==> !Matches(table[i], attributes)
    ensures r.None? <==> forall i :: 0 <= i < |table| ==> !Matches(table[i], attributes)
    decreases |table|
  {
    if table == [] then
      None
    else if Matches(table[0], attributes) then
      Some(0)
    else
      match FirstMatch(table[1..], attributes)
      case None => None
      case Some(i) => Some(i + 1)
  }

  /** An empty attribute filter picks the first record of a non-empty table. */
  lemma EmptyFilterPicksFirst(table: seq<Record>)
    requires table != []
    ensures FirstMatch(table, map[]) == Some(0)
  {
  }

  /** A model factory: default attributes and the hidden fields of the model class. */
  datatype ModelFactory = ModelFactory(defaults: map<string, string>, hidden: set<string>)

  /** $factory->create($attributes) for one record: the given attributes override the defaults. */
  function Make(factory: ModelFactory, attributes: map<string, string>): (record: Record)
    ensures Matches(record, attributes)
    ensures record.attributes.Keys == factory.defaults.Keys + attributes.Keys
    ensures forall k :: k in factory.defaults && k !in attributes ==> record.attributes[k] == factory.defaults[k]
    ensures record.hidden == factory.hidden
  {
    Record(factory.defaults + attributes, factory.hidden)
  }

  /** The factory endpoint answers with one record, or with the whole list. */
  datatype FactoryResult = Single(record: Record) | Collection(records: seq<Record>)

  /** The records a factory answer carries, in order. */
  function Records(result: FactoryResult): seq<Record>
  {
    match result
    case Single(r) => [r]
    case Collection(rs) => rs
  }

  /** count() === 1 ? first() : the collection. */
  function Shape(created: seq<Record>): (result: FactoryResult)
    ensures result.Single? <==> |created| == 1
    ensures Records(result) == created
  {
    if |created| == 1 then Single(created[0]) else Collection(created)
  }

  /** intval($request->input('times', 1)) as a number of records: Laravel's factory makes none below 1. */
  function CreateCount(times: Option<int>): (count: nat)
    ensures times.None? ==> count == 1
    ensures times.Some? ==> count == if times.value < 1 then 0 else times.value
  {
    match times
    case None => 1
    case Some(n) => if n < 1 then 0 else n
  }

  /** One Artisan::call the bridge dispatched, as the command dispatcher receives it. */
  datatype ArtisanCall = ArtisanCall(command: string, parameters: map<string, string>)

  // ---------------------------------------------------------------- the application state

  /**
   * The state the controller reads and changes: one table per model class,
   * the authenticated user, and the artisan commands dispatched so far.
   */
  class Application {
    /** config('auth.providers.users.model'). */
    const userModel: string
    /** The model classes of the application. */
    const models: set<string>
    /** The model classes that have a factory, and their factories. */
    const factories: map<string, ModelFactory>
    /**
     * The calls Artisan::call runs: a command name or class name with its
     * parameters, or, with no parameters, a whole command line.
     */
    const accepts: set<(string, map<string, string>)>
    var tables: map<string, seq<Record>>
    /** auth()->user(). */
    var authenticated: Option<Record>
    var dispatched: seq<ArtisanCall>

    ghost predicate Valid()
      reads this
    {
      tables.Keys == models && factories.Keys <= models
    }

    constructor (userModel: string, models: set<string>, factories: map<string, ModelFactory>, accepts: set<(string, map<string, string>)>)
      ensures Valid()
      ensures this.userModel == userModel && this.models == models + factories.Keys
      ensures this.factories == factories && this.accepts == accepts
      ensures forall m :: m in this.models ==> tables[m] == []
      ensures authenticated == None && dispatched == []
    {
      this.userModel := userModel;
      this.models := models + factories.Keys;
      this.factories := factories;
      this.accepts := accepts;
      tables := map m | m in models + factories.Keys :: [];
      authenticated := None;
      dispatched := [];
    }

    /**
     * login: the first user matching every attribute, or else a new user
     * made by the factory with those attributes; it becomes the
     * authenticated user and is returned with nothing hidden. The factory
     * is needed only when no user matches.
     */
    method Login(attributes: map<string, string>) returns (r: Result<Record, BridgeError>)
      requires Valid()
      modifies this
      ensures Valid() && dispatched == old(dispatched)
      ensures r.Success? ==> authenticated == Some(r.value) && r.value.hidden == {} && Matches(r.value, attributes)
      ensures r.Failure? ==> tables == old(tables) && authenticated == old(authenticated)
      ensures userModel !in models ==> r == Failure(UnknownModel(userModel))
      ensures userModel in models ==>
        var before := old(tables)[userModel];
        match FirstMatch(before, attributes)
        case Some(i) => tables == old(tables) && r == Success(Revealed(before[i]))
        case None =>
          if userModel in factories then
            var made := Make(factories[userModel], attributes);
            tables == old(tables)[userModel := before + [made]] && r == Success(Revealed(made))
          else
            r == Failure(NoFactory(userModel))
    {
      if userModel !in models {
        return Failure(UnknownModel(userModel));
      }
      var table := tables[userModel];
      var user: Record;
      match FirstMatch(table, attributes) {
        case Some(i) =>
          user := table[i];
        case None =>
          if userModel !in factories {
            return Failure(NoFactory(userModel));
          }
          user := Make(factories[userModel], attributes);
          tables := tables[userModel := table + [user]];
      }
      authenticated := Some(user);
      user := Revealed(user);
      // auth()->login and setHidden act on the same object
      authenticated := Some(user);
      r := Success(user);
    }

    /** logout: nobody is authenticated afterwards. */
    method Logout()
      requires Valid()
      modifies this
      ensures Valid()
      ensures authenticated == None
      ensures tables == old(tables) && dispatched == old(dispatched)
    {
      authenticated := None;
    }

    /**
     * factory: create `times` records of `model` (default 1) with the given
     * attributes, clear the hidden list of each, and answer with the single
     * record or with the list.
     */
    method Factory(model: string, times: Option<int>, attributes: map<string, string>)
      returns (r: Result<FactoryResult, BridgeError>)
      requires Valid()
      modifies this
      ensures Valid() && authenticated == old(authenticated) && dispatched == old(dispatched)
      ensures model !in models ==> r == Failure(UnknownModel(model)) && tables == old(tables)
      ensures model in models && model !in factories ==> r == Failure(NoFactory(model)) && tables == old(tables)
      ensures model in factories ==>
        var made := Make(factories[model], attributes);
        var count := CreateCount(times);
        && r.Success?
        && tables == old(tables)[model := old(tables)[model] + seq(count, _ => made)]
        && |Records(r.value)| == count
        && (r.value.Single? <==> count == 1)
        && forall i :: 0 <= i < count ==> Records(r.value)[i] == Revealed(made)
    {
      if model !in models {
        return Failure(UnknownModel(model));
      }
      if model !in factories {
        return Failure(NoFactory(model));
      }
      var count := CreateCount(times);
      var made := Make(factories[model], attributes);
      var created := seq(count, _ => made);
      tables := tables[model := tables[model] + created];
      var visible: seq<Record> := [];
      var i := 0;
      while i < |created|
        invariant 0 <= i <= |created|
        invariant |visible| == i
        invariant forall j :: 0 <= j < i ==> visible[j] == Revealed(created[j])
      {
        visible := visible + [Revealed(created[i])];
        i := i + 1;
      }
      r := Success(Shape(visible));
    }

    /**
     * artisan: hand the command and its parameters (default none) to
     * Artisan::call unchanged; a call it does not accept raises.
     */
    method Artisan(command: string, parameters: Option<map<string, string>>) returns (r: Result<(), BridgeError>)
      requires Valid()
      modifies this
      ensures Valid() && tables == old(tables) && authenticated == old(authenticated)
      ensures
        var params := if parameters.None? then map[] else parameters.value;
        && ((command, params) !in accepts ==> r == Failure(UnknownCommand(command)) && dispatched == old(dispatched))
        && ((command, params) in accepts ==> r == Success(()) && dispatched == old(dispatched) + [ArtisanCall(command, params)])
    {
      var params := if parameters.None? then map[] else parameters.value;
      if (command, params) !in accepts {
        return Failure(UnknownCommand(command));
      }
      dispatched := dispatched + [ArtisanCall(command, params)];
      r := Success(());
    }
  }
}
