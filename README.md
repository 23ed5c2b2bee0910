# Cypress bridge for Laravel, modelled in Dafny

This project models the parts of the laracasts/cypress package that contain logic. The package lets a Cypress
browser test reach into a Laravel application under test: it can log users in and out, create records through
model factories, run artisan commands and evaluate PHP, all over a few `/__cypress__/...` HTTP endpoints. Those
endpoints exist only outside production.

The model has five modules, one per core source file plus a small helper:

- `CypressController` (`cypress_controller.dfy`) models the HTTP handlers. `runPhp` normalises the source text it
  is given. `routes` builds the route table keyed by name. `login` finds or creates a user and authenticates it.
  `logout` clears the authentication. `factory` creates records and shapes the answer. `artisan` passes the command
  through. The ORM is one table of records per model class. A record is a map of attributes plus a set of hidden
  field names. A model factory is a set of default attributes plus the model's hidden fields. The auth guard is
  one `Option<Record>`. The application state is the class `Application`, and its methods change it in place.
- `CypressServiceProvider` (`cypress_service_provider.dfy`) models the boot-time environment gate. `explode(',')`
  and `implode(',')` are `Split`/`Join`, proved to round-trip in both directions. The exclusion list always
  gets `production` appended. `app()->environment()` is modelled as `Str::is` pattern matching with `*`
  wildcards. `ServiceProvider.Boot` registers the routes, and in the console the publishable file and the
  install command, only when the environment is not excluded.
- `LaravelCommands` (`laravel_commands.dfy`) models the client command library. It covers the request each
  command sends (verb, URL, body fields, anti-forgery token), the argument shuffle of `cy.create`, `seed` and
  `refreshDatabase` as shorthands for `artisan`, artisan's logging option, and the HTTP method `visit` picks for a
  named route. The globals `Cypress.Laravel.currentUser` and `Cypress.Laravel.routes` are the class
  `LaravelGlobals`.
- `SwapEnv` (`swap_env.dfy`) models the plugin that swaps `.env` for `.env.cypress` and back. The filesystem is a
  `map<string, string>` field of the class `Disk`, and each task is two `renameSync` calls. The two tasks are
  proved inverse to each other.
- `Wrappers` (`wrappers.dfy`) holds `Option` and `Result`.

Where the code differs from what the package's own tests and comments suggest, the model follows the code:

- `factory` reads the key `times`. The tests at `tests/CypressControllerTest.php:181` and `:207` send `count`
  instead, which the controller never reads, so those requests make one record. The model does the same.
- `login` and `factory` ignore `state` and `load`, although the tests at `tests/CypressControllerTest.php:83` and
  `:125-126` send them. `factory` resolves the model by class name only, while `:136-155` pass a morph name. The
  model resolves models by name in the `factories` map and has no `state`, `load` or morph aliases.
- The comment at `laravel-commands.js:2` says `login` creates a new user. The controller runs
  `where($attributes)->first()` instead, which with no attributes picks the first existing user. So `login()`
  creates a user only when the table is empty (`EmptyFilterPicksFirst`).
- `keyBy('name')` turns a missing name into the array key `""`. So every unnamed route, and any route literally
  named `""`, share one entry: the last of them.
- `cy.create(model, {attrs})` without a third argument sends `relations: {}`, not the `[]` declared as the default
  at `laravel-commands.js:127`. The second-argument shuffle moves the `attributes` default `{}` into `relations`.
  The server never reads `relations`.

## Model

| member | source | states |
|---|---|---|
| CypressController.NormalizeCode | src/Controllers/CypressController.php:88-94 | the result ends with `;` and contains `return`; it is the input, input+`;`, `return `+input or `return `+input+`;`, chosen by whether the input ends with `;` and whether it contains `return`; it equals the input exactly when both already hold |
| CypressController.RunPhp | src/Controllers/CypressController.php:84-94 | an empty command fails (reading `$code[-1]` of `""` raises); any other command yields its normalised text |
| CypressController.NormalizeIdempotent | src/Controllers/CypressController.php:88-94 | normalising already-normalised text changes nothing |
| CypressController.NormalizeExpressionExample | tests/CypressControllerTest.php:238-242 | `2 + 3` is evaluated as `return 2 + 3;` |
| CypressController.NormalizeStatementsExample | tests/CypressControllerTest.php:248-250 | statement-form text that ends with `;` and has an explicit `return` passes through unmodified |
| CypressController.Contains | src/Controllers/CypressController.php:92 | `Str::contains`: an empty needle is never found; a non-empty needle that starts the text is found, and a found needle is no longer than the text |
| CypressController.ContainsAt | src/Controllers/CypressController.php:92 | a non-empty needle occurring at any offset of the text is found |
| CypressController.ContainsOffset | src/Controllers/CypressController.php:92 | a needle that is found occurs at some offset of the text |
| CypressController.ContainsSnoc | src/Controllers/CypressController.php:89-92 | appending `;` cannot create or destroy an occurrence of `return`, so the `return` test sees the same answer before and after the `;` is added |
| CypressController.Routes | src/Controllers/CypressController.php:17-27 | no routes give an empty table; the last route is always present, under its own key, as its record |
| CypressController.RoutesKeys | src/Controllers/CypressController.php:17-27 | the route table has exactly one key per distinct route name, with `""` for unnamed routes |
| CypressController.RoutesLastWins | src/Controllers/CypressController.php:17-27 | the entry under a key is the record `{name, domain, action, uri, method}` of the last route with that key |
| CypressController.RoutesEntriesKeyed | src/Controllers/CypressController.php:27 | every entry is stored under its own record's name |
| CypressController.RoutesSize | src/Controllers/CypressController.php:17-27 | the table never has more entries than there are routes |
| CypressController.UnnamedRoutesCollapse | src/Controllers/CypressController.php:17-27 | all unnamed routes collapse onto the key `""`, which holds the last of them |
| CypressController.RoutesExample | tests/CypressControllerTest.php:32-44 | a GET route `foo` named `home` is listed under `home` with uri `foo`, action `Closure`, no domain and methods GET, HEAD |
| CypressController.Matches | src/Controllers/CypressController.php:36 | `where($attributes)`: a matching record has every queried column, and an empty query matches every record |
| CypressController.FirstMatch | src/Controllers/CypressController.php:34-37 | `where($attributes)->first()`: the index found matches every attribute and no earlier record does; none is found exactly when no record matches |
| CypressController.EmptyFilterPicksFirst | src/Controllers/CypressController.php:32-37 | with no attributes the query matches any record, so the first record of a non-empty table is taken |
| CypressController.Make | src/Controllers/CypressController.php:40-42 | a factory-made record carries every given attribute, keeps the defaults for the others and has the model's hidden fields |
| CypressController.Revealed | src/Controllers/CypressController.php:48 | `setHidden([])` keeps every attribute and empties the hidden list, so the record then serialises to all of its attributes |
| CypressController.Serialized | src/Controllers/CypressController.php:45-49 | the JSON form of a record holds exactly its attributes that are not hidden, with their values |
| CypressController.Shape | src/Controllers/CypressController.php:68 | the answer is a single record exactly when one record was created, and flattening the answer gives back the created records in order |
| CypressController.CreateCount | src/Controllers/CypressController.php:59-62 | `times` defaults to 1, and a count below 1 makes no records |
| CypressController.Application.Login | src/Controllers/CypressController.php:30-50 | if some user matches every attribute, the tables are unchanged and the first match is used; otherwise exactly one factory-made user carrying those attributes is appended, and if the user model has no factory the call fails; on success that user becomes the authenticated user and is returned with an empty hidden list; a missing user model class fails; a failure changes nothing |
| CypressController.Application.Logout | src/Controllers/CypressController.php:52-55 | afterwards no user is authenticated, and nothing else changes |
| CypressController.Application.Factory | src/Controllers/CypressController.php:57-69 | appends `CreateCount(times)` factory-made records to the model's table; answers with that many records, each with an empty hidden list, as a single record exactly when there is one; an unknown model class, or a model class without a factory, fails and changes nothing |
| CypressController.Application.Artisan | src/Controllers/CypressController.php:71-77 | a call `Artisan::call` accepts is dispatched exactly once, with the caller's command and parameters unchanged (parameters default to none); a call it does not accept fails and dispatches nothing |
| CypressServiceProvider.Split | src/CypressServiceProvider.php:17-19 | `explode(',')` gives at least one piece, and no piece contains `,` |
| CypressServiceProvider.JoinSplit | src/CypressServiceProvider.php:17-19 | joining the pieces with `,` gives back the configured string |
| CypressServiceProvider.SplitJoin | src/CypressServiceProvider.php:17-19 | splitting a join of comma-free pieces gives back the pieces, in order |
| CypressServiceProvider.ExcludedEnvironments | src/CypressServiceProvider.php:16-20 | `production` is always the last entry; a string setting contributes its comma-split pieces in order, untrimmed; a list is kept as is; null contributes nothing |
| CypressServiceProvider.ProductionAlwaysExcluded | src/CypressServiceProvider.php:20-24 | the `production` environment is excluded whatever the configuration says |
| CypressServiceProvider.Wildcard | src/CypressServiceProvider.php:22 | a wildcard pattern without `*` matches exactly the value it spells |
| CypressServiceProvider.PatternMatches | src/CypressServiceProvider.php:22 | `Str::is` with a pattern without `*` holds exactly when pattern and value are equal |
| CypressServiceProvider.EnvironmentIn | src/CypressServiceProvider.php:22 | a listed environment is in the list and an empty list holds nothing; for a list without wildcards, being in it is plain list membership |
| CypressServiceProvider.StarMatchesAll | src/CypressServiceProvider.php:22 | an entry `*` matches every environment name without a newline |
| CypressServiceProvider.SingleEnvironmentGate | src/CypressServiceProvider.php:16-22 | a single literal name in the setting excludes that name and `production`, and nothing else |
| CypressServiceProvider.DefaultExcludesOnlyProduction | config/cypress.php:17 | with the shipped default setting, an environment is excluded exactly when it is `production` |
| CypressServiceProvider.TwoEnvironmentGate | src/CypressServiceProvider.php:16-22 | `a,b` excludes `a`, `b` and `production`, and nothing else |
| CypressServiceProvider.StagingExample | config/cypress.php:14 | `production,staging` excludes `staging` and lets `local` through |
| CypressServiceProvider.ServiceProvider.Boot | src/CypressServiceProvider.php:10-37 | in an excluded environment it returns before registering anything; otherwise the routes are registered, and the publishable route file and the install command are registered exactly when running in the console |
| CypressServiceProvider.BootExamples | tests/CypressTest.php:20-36 | with the default setting and under the test runner (a console process), booting in `production` registers no route, and booting in `acceptance` registers the routes and the install command |
| LaravelCommands.RequestFor | src/stubs/support/laravel-commands.js:9-243 | each command goes to its own URL; the token fetch is the only GET and the only request without a body; every other request is a POST carrying the fetched token as `_token`; login bodies hold `attributes, _token`, logout and route-refresh bodies only `_token`, run-php bodies `command, _token`, factory bodies `attributes, model, times, relations, _token` and artisan bodies `command, parameters, _token` |
| LaravelCommands.DistinctEndpoints | src/stubs/support/laravel-commands.js:9-243 | two commands that reach the same URL are the same kind of command |
| LaravelCommands.LoginCommand | src/stubs/support/laravel-commands.js:9 | login attributes default to `{}` and are otherwise sent unchanged |
| LaravelCommands.NormalizeCreateArgs | src/stubs/support/laravel-commands.js:127-138 | `create(model, [rels])` gives times 1, attributes `{}` and the array as relations; `create(model, {attrs}, rels)` gives times 1, the object as attributes and the third argument (default `{}`) as relations; any other `times` passes through with its arguments (defaults 1, `{}`, `[]`); afterwards `times` is never an object, an array or null |
| LaravelCommands.CreateRequest | src/stubs/support/laravel-commands.js:127-148 | the factory request is a POST to `/__cypress__/factory` with exactly the fields `attributes, model, times, relations, _token`, and its `times` is never an object; an array second argument is sent as `relations` with `attributes` `{}`; an object (or null) second argument is sent as `attributes` with the third argument (default `{}`) as `relations`; otherwise `attributes` and `relations` are the caller's (defaults `{}` and `[]`) |
| LaravelCommands.ArtisanCommand | src/stubs/support/laravel-commands.js:195-214 | logging is on unless the caller's options turn `log` off; the request forwards `command` and `parameters` unchanged, with parameters defaulting to `{}` |
| LaravelCommands.Seed | src/stubs/support/laravel-commands.js:180-184 | `seed(c)` is `artisan('db:seed', {'--class': c})`: a logged POST to `/__cypress__/artisan` with that command and those parameters |
| LaravelCommands.RefreshDatabase | src/stubs/support/laravel-commands.js:168-170 | `refreshDatabase(o)` is `artisan('migrate:fresh', o)`, with `o` defaulting to `{}` |
| LaravelCommands.VisitTarget | src/stubs/support/laravel-commands.js:100-109 | a subject with a non-empty route name navigates to that route's URL, using the first method of the stored route (or none if it lists none); an unknown route raises; any other subject passes through unchanged |
| LaravelCommands.VisitRegisteredRoute | src/stubs/support/laravel-commands.js:104 | after the route table is fetched from the server, visiting a route by name uses the first method of the last route the server registered under that name |
| LaravelCommands.LaravelGlobals.StoreCurrentUser | src/stubs/support/laravel-commands.js:20-21 | the login response body becomes `Cypress.Laravel.currentUser`; the stored routes are untouched |
| LaravelCommands.LaravelGlobals.StoreRoutes | src/stubs/support/laravel-commands.js:83-88 | the fetched route table becomes `Cypress.Laravel.routes`; the current user is untouched |
| LaravelCommands.LaravelGlobals.Visit | src/stubs/support/laravel-commands.js:100-109 | visit reads the stored route table and decides as `VisitTarget` does |
| SwapEnv.Rename | src/stubs/plugins/swap-env.js:6-7 | `renameSync` throws exactly when the source is missing; otherwise the target holds the source's content, the source is gone, and every other path is unchanged |
| SwapEnv.ActivateCypress | src/stubs/plugins/swap-env.js:4-11 | without `.env.cypress` nothing changes; with it, it succeeds exactly when `.env` exists, and then `.env` holds the old `.env.cypress`, `.env.backup` holds the old `.env`, and `.env.cypress` is gone; no other file is touched |
| SwapEnv.ActivateLocal | src/stubs/plugins/swap-env.js:13-20 | without `.env.backup` nothing changes; with it, it succeeds exactly when `.env` exists, and then `.env.cypress` holds the old `.env`, `.env` holds the old `.env.backup`, and `.env.backup` is gone; no other file is touched |
| SwapEnv.CypressThenLocal | src/stubs/plugins/swap-env.js:4-20 | starting with `.env` and `.env.cypress` and no `.env.backup`, activating the test file and then the local one restores the original filesystem |
| SwapEnv.LocalThenCypress | src/stubs/plugins/swap-env.js:4-20 | starting with `.env` and `.env.backup` and no `.env.cypress`, activating the local file and then the test one restores the original filesystem |
| SwapEnv.Disk.RenameSync | src/stubs/plugins/swap-env.js:6 | one rename of the disk in place; a rename that throws changes nothing |
| SwapEnv.Disk.ActivateCypressEnvFile | src/stubs/plugins/swap-env.js:4-11 | the disk ends as `ActivateCypress` says; when it throws, it throws before anything was renamed, so the disk is left as it was |
| SwapEnv.Disk.ActivateLocalEnvFile | src/stubs/plugins/swap-env.js:13-20 | the disk ends as `ActivateLocal` says; when it throws, the disk is left as it was |
| SwapEnv.TestRun | src/stubs/plugins/swap-env.js:4-20 | running the two tasks in order on a disk with `.env` and `.env.cypress` leaves it exactly as it was |

## Left out

- `eval` of the normalised PHP text is not modelled: `RunPhp` stops at the text that would be evaluated.
- `csrfToken` on the server only returns the framework's `csrf_token()`, which is a foreign call. The client's
  token is an opaque parameter. Token validation by the framework is not modelled.
- Record lookup and creation by the ORM are reduced to a table of records. `first()` takes table order, which the
  source leaves to the database engine.
- The legacy `factory()` helper branch of `factoryBuilder` and the `class_exists` test are not modelled.
  Resolving the model class is a lookup in `models`, and finding its factory a lookup in the `factories` map.
- Faker-generated default values are not modelled: every record a factory makes has the same defaults.
- `state`, `load`, morph aliases and the `currentUser` endpoint are not modelled. The controller does not read
  `state` or `load` and has no `currentUser` handler.
- `userClassName` is the `userModel` field of `Application`, fixed at construction.
- `Artisan::call` is modelled as a log of dispatched calls. What the commands then do to the database is not.
- CypressController.Application.Artisan: which calls `Artisan::call` accepts is the abstract set `accepts` of
  (command, parameters) pairs. How the framework parses a command line with inline arguments (when no parameters
  are given) or resolves a command class name is not modelled.
- `env()` also turns the strings `true` and `false` into booleans. `ExcludeConfig` has no boolean case: with
  `true` the append at `src/CypressServiceProvider.php:20` raises, and with `false` PHP turns it into a list.
- `intval` of a non-numeric `times` string is not modelled: `times` is an optional integer.
- Route registration, middleware and HTTP verbs of the bridge's own routes are reduced to booleans of
  `ServiceProvider`. `mergeConfigFrom` and the published paths are also left out.
- The `u` (UTF-8) modifier of the regular expression `Str::is` builds is not modelled: strings are sequences of
  characters, with no encoding.
- The install command (`CypressBoilerplateCommand`), migrations, factories and fixtures are not modelled: they are
  installer I/O and test data.
- Cypress promise chains, `cy.request`, `Cypress.log` output, `cy.writeFile('cypress/support/routes.json')`, and
  JSON encoding (which drops `undefined` members) are not modelled. JavaScript numbers are integers here.
- The URL builder `Cypress.Laravel.route` is not part of this model. `VisitTarget` takes it as a function
  parameter.
- LaravelCommands.ArtisanCommand: takes `options` as an object or nothing. What `Object.assign` does with a
  primitive or an array in that position is not modelled.
- CypressController.Application.Login: an attribute naming a column the table does not have counts as "no
  match". In the source it is a database error.
- The order of keys in the JSON object that `routes` returns is not modelled, because a Dafny `map` is unordered.
