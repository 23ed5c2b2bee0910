/**
 * The client-side command library: how each browser-test command shapes the
 * HTTP request it sends to the bridge, the argument shuffle of `create`, the
 * `seed` and `refreshDatabase` shorthands for `artisan`, the globals that
 * `login` and `refreshRoutes` write, and the HTTP method `visit` picks for a
 * named route.
 */
module LaravelCommands {
  import opened Wrappers
  import CypressController

  /** The JavaScript values the commands pass around (numbers as integers). */
  datatype JsValue =
    | Undefined
    | Null
    | Bool(b: bool)
    | Number(n: int)
    | Str(s: string)
    | Array(items: seq<JsValue>)
    | Object(fields: map<string, JsValue>)

  /** typeof v === 'object': plain objects, arrays and null. */
  predicate TypeofObject(v: JsValue)
  {
    v.Null? || v.Array? || v.Object?
  }

  /** A parameter default: applies when the argument is undefined. */
  function WithDefault(v: JsValue, default: JsValue): JsValue
  {
    if v.Undefined? then default else v
  }

  /** JavaScript truthiness. */
  predicate Truthy(v: JsValue)
  {
    match v
    case Undefined => false
    case Null => false
    case Bool(b) => b
    case Number(n) => n != 0
    case Str(s) => s != []
    case _ => true
  }

  const EmptyObject: JsValue := Object(map[])

  // ---------------------------------------------------------------- requests

  datatype Verb = GET | POST

  datatype Request = Request(verb: Verb, url: string, body: Option<map<string, JsValue>>)

  /** The bridge commands, with their arguments after defaults and normalisation. */
  datatype Command =
    | Login(attributes: JsValue)
    | Logout
    | CsrfToken
    | RefreshRoutes
    | Create(model: JsValue, times: JsValue, attributes: JsValue, relations: JsValue)
    | Artisan(command: JsValue, parameters: JsValue)
    | Php(code: JsValue)

  function Url(command: Command): string
  {
    match command
    case Login(_) => "/__cypress__/login"
    case Logout => "/__cypress__/logout"
    case CsrfToken => "/__cypress__/csrf_token"
    case RefreshRoutes => "/__cypress__/routes"
    case Create(_, _, _, _) => "/__cypress__/factory"
    case Artisan(_, _) => "/__cypress__/artisan"
    case Php(_) => "/__cypress__/run-php"
  }

  /**
   * The request a command sends. Only the token fetch is a GET without a
   * body; every other command POSTs its fields together with the token the
   * fetch returned.
   */
  function RequestFor(command: Command, token: JsValue): (r: Request)
    ensures r.url == Url(command)
    ensures r.verb == GET <==> command.CsrfToken?
    ensures r.body.None? <==> command.CsrfToken?
    ensures r.body.Some? ==> "_token" in r.body.value && r.body.value["_token"] == token
    ensures command.Login? ==> r.body == Some(map["attributes" := command.attributes, "_token" := token])
    ensures command.Logout? || command.RefreshRoutes? ==> r.body == Some(map["_token" := token])
    ensures command.Php? ==> r.body == Some(map["command" := command.code, "_token" := token])
    ensures command.Create? ==>
      r.body == Some(map["attributes" := command.attributes, "model" := command.model,
                         "times" := command.times, "relations" := command.relations, "_token" := token])
    ensures command.Artisan? ==>
      r.body == Some(map["command" := command.command, "parameters" := command.parameters, "_token" := token])
  {
    match command
    case CsrfToken => Request(GET, Url(command), None)
    case Login(attributes) => Request(POST, Url(command), Some(map["attributes" := attributes, "_token" := token]))
    case Logout => Request(POST, Url(command), Some(map["_token" := token]))
    case RefreshRoutes => Request(POST, Url(command), Some(map["_token" := token]))
    case Create(model, times, attributes, relations) =>
      Request(POST, Url(command), Some(map["attributes" := attributes, "model" := model, "times" := times,
                                           "relations" := relations, "_token" := token]))
    case Artisan(name, parameters) =>
      Request(POST, Url(command), Some(map["command" := name, "parameters" := parameters, "_token" := token]))
    case Php(code) => Request(POST, Url(command), Some(map["command" := code, "_token" := token]))
  }

  /** Different kinds of command reach different endpoints. */
  lemma {:induction false} DistinctEndpoints(c1: Command, c2: Command)
    requires Url(c1) == Url(c2)
    ensures c1.Login? == c2.Login? && c1.Logout? == c2.Logout? && c1.CsrfToken? == c2.CsrfToken?
    ensures c1.RefreshRoutes? == c2.RefreshRoutes? && c1.Create? == c2.Create?
    ensures c1.Artisan? == c2.Artisan? && c1.Php? == c2.Php?
  {
    var u := Url(c1);
    assert u[|"/__cypress__/"|..] == Url(c2)[|"/__cypress__/"|..];
  }

  /** cy.login(attributes = {}). */
  function LoginCommand(attributes: JsValue): (c: Command)
    ensures c.Login? && (attributes.Undefined? ==> c.attributes == EmptyObject)
    ensures !attributes.Undefined? ==> c.attributes == attributes
  {
    Login(WithDefault(attributes, EmptyObject))
  }

  /**
   * The argument shuffle of cy.create(model, times = 1, attributes = {},
   * relations = []): an array in the `times` position is the relation list,
   * any other object (or null) there is the attribute map, and then the
   * third argument, or its default {}, becomes the relations.
   */
  method NormalizeCreateArgs(times0: JsValue, attributes0: JsValue, relations0: JsValue)
    returns (times: JsValue, attributes: JsValue, relations: JsValue)
    ensures !TypeofObject(times)
    ensures times0.Array? ==> times == Number(1) && attributes == EmptyObject && relations == times0
    ensures times0.Object? || times0.Null? ==>
      times == Number(1) && attributes == times0 && relations == WithDefault(attributes0, EmptyObject)
    ensures !TypeofObject(times0) ==>
      times == WithDefault(times0, Number(1)) &&
      attributes == WithDefault(attributes0, EmptyObject) &&
      relations == WithDefault(relations0, Array([]))
  {
    times := WithDefault(times0, Number(1));
    attributes := WithDefault(attributes0, EmptyObject);
    relations := WithDefault(relations0, Array([]));
    if times.Array? {
      attributes := EmptyObject;
      relations := times;
      times := Number(1);
    }
    if TypeofObject(times) {
      relations := attributes;
      attributes := times;
      times := Number(1);
    }
  }

  /** cy.create: shuffle the arguments, then POST them to the factory endpoint. */
  method CreateRequest(model: JsValue, times0: JsValue, attributes0: JsValue, relations0: JsValue, token: JsValue)
    returns (r: Request)
    ensures r.verb == POST && r.url == "/__cypress__/factory"
    ensures r.body.Some? && r.body.value.Keys == {"attributes", "model", "times", "relations", "_token"}
    ensures r.body.Some? ==> r.body.value["model"] == model && r.body.value["_token"] == token
    ensures r.body.Some? ==> !TypeofObject(r.body.value["times"])
    ensures r.body.Some? && !TypeofObject(times0) ==> r.body.value["times"] == WithDefault(times0, Number(1))
    ensures r.body.Some? && TypeofObject(times0) ==> r.body.value["times"] == Number(1)
    ensures r.body.Some? && times0.Array? ==>
      r.body.value["attributes"] == EmptyObject && r.body.value["relations"] == times0
    ensures r.body.Some? && (times0.Object? || times0.Null?) ==>
      r.body.value["attributes"] == times0 && r.body.value["relations"] == WithDefault(attributes0, EmptyObject)
    ensures r.body.Some? && !TypeofObject(times0) ==>
      r.body.value["attributes"] == WithDefault(attributes0, EmptyObject) &&
      r.body.value["relations"] == WithDefault(relations0, Array([]))
  {
    var times, attributes, relations := NormalizeCreateArgs(times0, attributes0, relations0);
    r := RequestFor(Create(model, times, attributes, relations), token);
  }

  // ---------------------------------------------------------------- artisan, seed, refreshDatabase

  /** A call of cy.artisan: the request it sends and whether it writes a log entry. */
  datatype ArtisanInvocation = ArtisanInvocation(request: Request, logged: bool)

  /**
   * cy.artisan(command, parameters = {}, options = {}): options are laid
   * over { log: true }, so logging is on unless the caller turns it off.
   */
  function ArtisanCommand(command: JsValue, parameters: JsValue, options: Option<map<string, JsValue>>, token: JsValue)
    : (call: ArtisanInvocation)
    ensures call.request == RequestFor(Artisan(command, WithDefault(parameters, EmptyObject)), token)
    ensures options.None? ==> call.logged
    ensures options.Some? ==> (call.logged <==> "log" !in options.value || Truthy(options.value["log"]))
  {
    var given := if options.None? then map[] else options.value;
    var merged := map["log" := Bool(true)] + given;
    ArtisanInvocation(RequestFor(Artisan(command, WithDefault(parameters, EmptyObject)), token), Truthy(merged["log"]))
  }

  /** cy.seed(seederClass): the db:seed command with --class set to the seeder. */
  function Seed(seederClass: JsValue, token: JsValue): (call: ArtisanInvocation)
    ensures call == ArtisanCommand(Str("db:seed"), Object(map["--class" := seederClass]), None, token)
    ensures call.logged && call.request.verb == POST && call.request.url == "/__cypress__/artisan"
    ensures call.request.body.Some? && call.request.body.value["command"] == Str("db:seed")
    ensures call.request.body.Some? && call.request.body.value["parameters"] == Object(map["--class" := seederClass])
  {
    ArtisanCommand(Str("db:seed"), Object(map["--class" := seederClass]), None, token)
  }

  /** cy.refreshDatabase(options = {}): migrate:fresh with the options as its parameters. */
  function RefreshDatabase(options: JsValue, token: JsValue): (call: ArtisanInvocation)
    ensures call == ArtisanCommand(Str("migrate:fresh"), WithDefault(options, EmptyObject), None, token)
    ensures call.logged && call.request.verb == POST && call.request.url == "/__cypress__/artisan"
    ensures call.request.body.Some? && call.request.body.value["command"] == Str("migrate:fresh")
    ensures call.request.body.Some? && call.request.body.value["parameters"] == WithDefault(options, EmptyObject)
  {
    ArtisanCommand(Str("migrate:fresh"), WithDefault(options, EmptyObject), None, token)
  }

  // ---------------------------------------------------------------- visit

  /** What cy.visit is given: a URL, or a { route, parameters } object. */
  datatype Subject = UrlSubject(url: string) | RouteSubject(route: string, parameters: JsValue)

  /** What the overwritten visit hands to the original command, or the TypeError it raises. */
  datatype Visit =
    | PassThrough(subject: Subject, options: JsValue)
    | Navigate(url: string, verb: JsValue)
    | UnknownRoute(route: string)  // routes[route] is undefined, so reading .method throws

  /**
   * The overwritten cy.visit: a subject with a (non-empty) route name is
   * turned into the route's URL, visited with the first HTTP method of that
   * route; anything else is passed through untouched. The URL builder
   * (Cypress.Laravel.route) is not modelled and is a parameter here.
   */
  function VisitTarget(subject: Subject, options: JsValue, routes: map<string, CypressController.RouteRecord>,
                       urlFor: (string, JsValue) -> string): (v: Visit)
    ensures subject.UrlSubject? || subject.route == [] ==> v == PassThrough(subject, options)
    ensures subject.RouteSubject? && subject.route != [] && subject.route !in routes ==> v == UnknownRoute(subject.route)
    ensures subject.RouteSubject? && subject.route != [] && subject.route in routes ==>
      v.Navigate? &&
      v.url == urlFor(subject.route, if Truthy(subject.parameters) then subject.parameters else EmptyObject) &&
      v.verb == (if routes[subject.route].methods == [] then Undefined else Str(routes[subject.route].methods[0]))
  {
    match subject
    case UrlSubject(_) => PassThrough(subject, options)
    case RouteSubject(route, parameters) =>
      if route == [] then
        PassThrough(subject, options)
      else if route !in routes then
        UnknownRoute(route)
      else
        var methods := routes[route].methods;
        Navigate(urlFor(route, if Truthy(parameters) then parameters else EmptyObject),
                 if methods == [] then Undefined else Str(methods[0]))
  }

  /**
   * Visiting a route by name after the route table has been fetched uses
   * the first method of the last route the server registered under that name.
   */
  lemma VisitRegisteredRoute(routes: seq<CypressController.Route>, j: int, parameters: JsValue,
                             urlFor: (string, JsValue) -> string)
    requires CypressController.LastWithKey(routes, j)
    requires routes[j].name.Some? && routes[j].name.value != [] && routes[j].methods != []
    ensures var name := routes[j].name.value;
      VisitTarget(RouteSubject(name, parameters), Undefined, CypressController.Routes(routes), urlFor).Navigate? &&
      VisitTarget(RouteSubject(name, parameters), Undefined, CypressController.Routes(routes), urlFor).verb ==
        Str(routes[j].methods[0])
  {
    CypressController.RoutesLastWins(routes, j);
  }

  // ---------------------------------------------------------------- Cypress.Laravel globals

  /** The Cypress.Laravel object the commands write to. */
  class LaravelGlobals {
    var currentUser: JsValue
    var routes: map<string, CypressController.RouteRecord>

    constructor ()
      ensures currentUser == Undefined && routes == map[]
    {
      currentUser := Undefined;
      routes := map[];
    }

    /** The login command stores the body of the login response. */
    method StoreCurrentUser(body: JsValue)
      modifies this
      ensures currentUser == body && routes == old(routes)
    {
      currentUser := body;
    }

    /** refreshRoutes stores the fetched route table. */
    method StoreRoutes(fetched: map<string, CypressController.RouteRecord>)
      modifies this
      ensures routes == fetched && currentUser == old(currentUser)
    {
      routes := fetched;
    }

    /** visit, reading the stored route table. */
    method Visit(subject: Subject, options: JsValue, urlFor: (string, JsValue) -> string) returns (v: Visit)
      ensures v == VisitTarget(subject, options, routes, urlFor)
    {
      v := VisitTarget(subject, options, routes, urlFor);
    }
  }
}
