# RESTful resource routing — a Dafny model of the resources mapper

This project models the route-table builder of a convention-based routing
library for an MVC web framework. The builder is `ResourcesMapper`. Given a
resource name such as `blogs`, or a model type whose name it pluralises, it
appends seven route entries to the application's shared route collection.
The entries are index, create, new, the show/edit/delete family, update,
destroy, and a POST that a method-override handler turns into update or
destroy. For nested resources it then builds a child mapper whose path prefix
is `{basePath}{resource}/{singularId}` and hands it to a caller-supplied
callback.

Files:

- `web_routing.dfy` (module `WebRouting`) holds the framework shapes the
  mapper uses. `Route` is a value. `RouteCollection` is a class whose `routes`
  sequence is only appended to. It also holds the trailing-slash helper and
  lower-casing.
- `resources_mapper.dfy` (module `RestfulRouting`) holds the specification
  functions, the `RouteConfiguration` class and the `ResourcesMapper` class.
  - `ResourceRoutes` gives the seven entries of one resource.
  - `ScriptRoutes` gives everything a sequence of calls appends, nested
    calls included.
  - `BasePath` and `ChildPrefix` give the path prefixes.
  - The class's constructors and `Map` overloads work imperatively. The
    constructors are proved to compute `BasePath(prefix)`, and each `Map`
    overload is proved to append exactly what the specification functions
    say.
- `resources_mapper_properties.dfy` (module `RestfulRoutingProperties`) holds
  lemmas about those functions: the convention entry by entry, no
  deduplication, prefixes of nested templates, no doubled `/`, and controller
  overrides that do not reach children.
- `scenarios.dfy` (module `RestfulRoutingScenarios`) holds client methods.
  Each builds a table from scratch, as start-up registration does, and states
  the concrete table it gets.

How the callback is modelled: a callback is a caller-supplied script
`seq<Mapping>`. Each element is `Single(name)`, meaning `Map(name)`, or
`Nested(name, body)`, meaning `Map(name, m => run body on m)`. A name is
`Literal(resource)` or `Model(typeName)`. `ResourcesMapper.Run` executes a
script on a mapper. The child mapper the source builds as a
`RestfulRouteMapper` is modelled as a `ResourcesMapper` built with the same
`(collection, configuration)` constructor. The values of
`RouteConfiguration.Default()` are assumed as well: an empty path prefix and
no controller. The source of `RestfulRouteMapper`
is not part of this model.

External services: the inflector's `Pluralize` and `Singularize` are
caller-supplied total functions, the fields of an `Inflector` value. They are
not given any English semantics. Reflection over `typeof(TModel).Name` becomes
a `typeName` string parameter.

Where the code and its own comments differ (ResourcesMapper.cs:39-84), the
model follows the code:

- The comments name the actions `Create`, `New`, `Update` and `Delete`. The
  action defaults in the code are `"Index"`, `"create"`, `"new"`, `"show"`,
  `"update"` and `"destroy"`. Only `Index` is capitalised.
- The comment on the `/new` entry says `GET /blogs/new`, but the entry carries
  no constraint at all. It is built with the three-argument `Route`
  constructor.
- The comment on the seventh entry (POST to `{id}`) says `=> Update or
  Delete`, but the entry has a `controller` default and no `action` default.

## Model

| member | source | states |
|---|---|---|
| `WebRouting.RouteCollection.Add` | src/RestfulRouting/ResourcesMapper.cs:40-44 | adding an entry appends it at the end and leaves every earlier entry in place and in order |
| `WebRouting.RemoveTrailingSlash` | src/RestfulRouting/ResourcesMapper.cs:21 | the result is a prefix of the path, at most one character shorter, and shorter exactly when the path ends in `/` (assumed library semantics) |
| `WebRouting.Lower` | src/RestfulRouting/ResourcesMapper.cs:101 | lower-casing keeps the length, leaves no upper-case letter, keeps every other character, and keeps `/` exactly where it was |
| `RestfulRouting.ModelResource` | src/RestfulRouting/ResourcesMapper.cs:31 | a model's resource name is its pluralised type name, lower-cased: same length as the plural, with no upper-case letter |
| `RestfulRouting.SingularName` | src/RestfulRouting/ResourcesMapper.cs:101 | the id-placeholder name is the singularised resource, lower-cased: same length, with no upper-case letter |
| `RestfulRouting.BasePath` | src/RestfulRouting/ResourcesMapper.cs:21-25 | the base path is empty exactly when the prefix is `""` or `"/"`; a non-empty one ends in `/`; a prefix ending in `/` is kept as is; any other non-empty prefix gets `/` appended |
| `RestfulRouting.ChildPrefix` | src/RestfulRouting/ResourcesMapper.cs:103 | the child prefix extends `basePath + resource + "/{"` and ends with the closing `}` of the id placeholder |
| `RestfulRouting.ControllerFor` | src/RestfulRouting/ResourcesMapper.cs:37 | the controller is the configured one when set and non-empty, otherwise the resource name; it is empty only for an empty resource name |
| `RestfulRouting.ResourceRoutes` | src/RestfulRouting/ResourcesMapper.cs:39-89 | seven entries; all name the resolved controller; every template starts with `basePath + resource`; only the seventh uses the override handler, and it is the only one without an action default; a constrained action default lies inside its own constraint |
| `RestfulRouting.ScriptRoutes` | src/RestfulRouting/ResourcesMapper.cs:98-106 | a script appends seven entries per resource it maps, nested ones included |
| `RestfulRouting.ScriptRoutesAppend` | src/RestfulRouting/ResourcesMapper.cs:40-89 | the table is append-only, so running two scripts in turn appends the first one's entries followed by the second one's |
| `RestfulRouting.RouteConfiguration.Default` | src/RestfulRouting/ResourcesMapper.cs:102 | the default configuration has an empty prefix and no controller override |
| `RestfulRouting.ResourcesMapper.WithDefaultConfiguration` | src/RestfulRouting/ResourcesMapper.cs:14-16 | the one-argument constructor binds the given collection, uses a fresh default configuration, and so has an empty base path |
| `RestfulRouting.ResourcesMapper.constructor` | src/RestfulRouting/ResourcesMapper.cs:18-27 | the constructor binds the given collection and configuration, and its step-by-step normalisation yields exactly `BasePath(prefix)` |
| `RestfulRouting.ResourcesMapper.Map` | src/RestfulRouting/ResourcesMapper.cs:35-90 | the seven `Add` calls append exactly `ResourceRoutes(basePath, resource, controller)`; earlier entries are unchanged |
| `RestfulRouting.ResourcesMapper.MapModel` | src/RestfulRouting/ResourcesMapper.cs:29-33 | `Map<TModel>()` appends exactly what `Map` appends for the lower-cased plural of the type name |
| `RestfulRouting.ResourcesMapper.MapNested` | src/RestfulRouting/ResourcesMapper.cs:98-106 | appends the resource's seven entries, then exactly what the callback's calls append on a child mapper whose base path is `BasePath(ChildPrefix(...))` and which has no controller override |
| `RestfulRouting.ResourcesMapper.MapModelNested` | src/RestfulRouting/ResourcesMapper.cs:92-96 | `Map<TModel>(callback)` behaves as `Map(resource, callback)` for the lower-cased plural of the type name |
| `RestfulRouting.ResourcesMapper.MapName` | src/RestfulRouting/ResourcesMapper.cs:29-35 | the string and model-type overloads of `Map` both append the seven entries of the resolved name |
| `RestfulRouting.ResourcesMapper.MapNameNested` | src/RestfulRouting/ResourcesMapper.cs:92-98 | the string and model-type overloads of `Map(…, callback)` both append the resolved name's entries and then the body's |
| `RestfulRouting.ResourcesMapper.Apply` | src/RestfulRouting/ResourcesMapper.cs:105 | one call made by the callback appends exactly what `ScriptRoutes` says of that call |
| `RestfulRouting.ResourcesMapper.Run` | src/RestfulRouting/ResourcesMapper.cs:105 | the callback's calls, made in order on the mapper it receives, append exactly `ScriptRoutes` of the whole script |
| `RestfulRoutingProperties.ResourceRoutesConvention` | src/RestfulRouting/ResourcesMapper.cs:39-89 | the templates, in order, are base+resource twice, `/new`, `/{id}/{action}`, then `/{id}` three times; the verbs are GET, POST, none, GET, PUT, DELETE, POST; the actions are Index, create, new, show, update, destroy, none; only the fourth entry restricts the action, to {show, edit, delete} |
| `RestfulRoutingProperties.MapTwiceAppendsTwice` | src/RestfulRouting/ResourcesMapper.cs:35-90 | mapping one resource twice appends fourteen entries, the same seven twice, with no deduplication |
| `RestfulRoutingProperties.ChildBasePath` | src/RestfulRouting/ResourcesMapper.cs:101-104 | the child mapper's base path is `basePath + resource + "/{" + singular + "Id}/"` |
| `RestfulRoutingProperties.ScriptTemplatesUnderBase` | src/RestfulRouting/ResourcesMapper.cs:98-106 | every template a script appends, at any nesting depth, starts with the base path of the mapper it runs on |
| `RestfulRoutingProperties.NestedRoutesUnderParentMember` | src/RestfulRouting/ResourcesMapper.cs:98-106 | every entry a nested callback appends lies under `{basePath}{resource}/{singularId}/` |
| `RestfulRoutingProperties.NestedIgnoresControllerOverride` | src/RestfulRouting/ResourcesMapper.cs:102-104 | the child mapper is built from the default configuration, so the parent's controller override never changes what a nested body appends |
| `RestfulRoutingProperties.BasePathProper` | src/RestfulRouting/ResourcesMapper.cs:21-25 | a prefix without a doubled `/` yields a base path that is empty, or ends in one `/` and has no doubled `/` |
| `RestfulRoutingProperties.ResourceTemplatesNoDoubleSlash` | src/RestfulRouting/ResourcesMapper.cs:40-89 | under a proper base path, a one-segment resource name gives seven templates without a doubled `/` |
| `RestfulRoutingProperties.ChildBaseProper` | src/RestfulRouting/ResourcesMapper.cs:101-103 | the child base path is proper when the parent's is and the resource and singular names are single segments |
| `RestfulRoutingProperties.ScriptTemplatesNoDoubleSlash` | src/RestfulRouting/ResourcesMapper.cs:98-106 | well-named scripts (slash-free resource and singular names) under a proper base path give templates that contain no `//`, at every nesting depth |
| `RestfulRoutingScenarios.MapBlogs` | src/RestfulRouting/ResourcesMapper.cs:35-90 | `Map("blogs")` on an empty table with the default configuration gives templates `blogs`, `blogs`, `blogs/new`, `blogs/{id}/{action}`, `blogs/{id}` three times, the verbs in order, and controller `blogs` throughout |
| `RestfulRoutingScenarios.MapBlogsTwice` | src/RestfulRouting/ResourcesMapper.cs:35-90 | mapping `blogs` twice on an empty table gives fourteen entries, the last seven equal to the first seven |
| `RestfulRoutingScenarios.BlogsChildBase` | src/RestfulRouting/ResourcesMapper.cs:101-103 | when "blogs" singularises to "blog", the child base path is `blogs/{blogId}/` |
| `RestfulRoutingScenarios.MapBlogsWithComments` | src/RestfulRouting/ResourcesMapper.cs:98-106 | `Map("blogs", b => b.Map("comments"))` gives fourteen entries, and the comment entries have templates `blogs/{blogId}/comments…` and controller `comments` |
| `RestfulRoutingScenarios.MapWithController` | src/RestfulRouting/ResourcesMapper.cs:37 | with a non-empty configured controller every entry names that controller, and every template starts with the normalised prefix followed by the resource |

## Left out

- Request-time dispatch is not modelled. This covers first-match iteration
  over the table, binding `{id}`/`{action}` placeholders and evaluating the
  `show|edit|delete` regular expression. The model keeps the order of the
  entries and the constraint as a set of action names.
- The method-override translator (`PostOverrideRouteHandler`) is referenced
  but its source is not part of this model. The seventh entry carries it only
  as a handler tag.
- The English inflector is not modelled. Pluralise and singularise are
  arbitrary caller-supplied functions, so irregular nouns behave however the
  caller's functions say.
- `WebRouting.Lower`: models only ASCII `A`–`Z`. Culture-sensitive and
  non-ASCII case mapping of `ToLower()` is left out.
- `WebRouting.RemoveTrailingSlash`: assumes the framework helper drops exactly
  one trailing `/`. Its special handling of the root path `"/"` on its own is
  not modelled.
- `RestfulRouting.BasePath`: follows the modelled trailing-slash helper, so
  the prefix `"/"` gives the base path `""`. The framework helper returns
  `"/"` unchanged, so the source's base path for that prefix is `"//"`.
- `RestfulRouting.ResourcesMapper.Map`: the framework validates each template
  when `new Route(...)` is constructed. It throws for a template that starts
  with `/` or `~`, contains `?` or `//`, or names the same placeholder twice
  (names compare without regard to case). The throw can come part-way
  through the seven `Add` calls. For example, `Map("")` under the default
  configuration adds the two entries whose template is `""` and then throws
  on `"/new"`. A resource nested under itself three levels deep repeats its
  id placeholder. The model validates nothing and always appends all seven
  entries.
- `null` strings are not modelled as such. A `null` controller is `None`, and
  a `null` path prefix behaves as the empty prefix, as it does in the source.
- `RouteValueDictionary`, `HttpMethodConstraint` and handler objects become
  the fields of the `Route` value: `action`, `controller`, `verb`,
  `actionPattern` and `handler`.
- A callback can only make calls to `Map` overloads on the child mapper. A
  callback that keeps the child mapper for later or does unrelated work is
  outside the model.
- The sample application's controllers contain no routing logic and are left
  out.
