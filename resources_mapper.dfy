/** The conventional RESTful route builder: for a resource it appends seven
    route entries to a shared route collection and, for nested resources,
    hands a child mapper scoped under `{resource}/{singularId}` to the caller. */
module RestfulRouting {
  import opened WebRouting

  /** The English inflection service the mapper calls; it is external and
      given here as two caller-supplied total functions. */
  datatype Inflector = Inflector(pluralize: string -> string, singularize: string -> string)

  /** The resource name of a model type: its name pluralised, then lower-cased. */
  function ModelResource(typeName: string, inflector: Inflector): (resource: string)
    ensures |resource| == |inflector.pluralize(typeName)|
    ensures forall i | 0 <= i < |resource| :: !IsUpper(resource[i])
  {
    Lower(inflector.pluralize(typeName))
  }

  /** The name used for a nested child's id placeholder: the resource
      singularised, then lower-cased. */
  function SingularName(resource: string, inflector: Inflector): (singular: string)
    ensures |singular| == |inflector.singularize(resource)|
    ensures forall i | 0 <= i < |singular| :: !IsUpper(singular[i])
  {
    Lower(inflector.singularize(resource))
  }

  /** The base path a mapper puts in front of every template it emits, derived
      from the configured prefix: empty for the root, otherwise the prefix with
      its trailing slash normalised to exactly one. */
  function BasePath(prefix: string): (basePath: string)
    ensures basePath == "" <==> prefix == "" || prefix == "/"
    ensures basePath != "" ==> EndsWithSlash(basePath)
    ensures EndsWithSlash(prefix) && prefix != "/" ==> basePath == prefix
    ensures !EndsWithSlash(prefix) && prefix != "" ==> basePath == prefix + "/"
  {
    var stripped := RemoveTrailingSlash(prefix);
    if stripped != "" then stripped + "/" else stripped
  }

  /** The path prefix of the child configuration for resources nested under
      `resource`: the parent's path, then the singular id placeholder. */
  function ChildPrefix(basePath: string, resource: string, inflector: Inflector): (prefix: string)
    ensures basePath + resource + "/{" <= prefix
    ensures prefix != "" && prefix[|prefix| - 1] == '}'
  {
    basePath + resource + "/{" + SingularName(resource, inflector) + "Id}"
  }

  /** The controller every route of `resource` names: the configured
      controller when it is set and non-empty, otherwise the resource itself. */
  function ControllerFor(configured: Option<string>, resource: string): (controller: string)
    ensures configured == None || configured == Some("") ==> controller == resource
    ensures configured.Some? && configured.value != "" ==> controller == configured.value
    ensures controller == "" ==> resource == ""
  {
    if configured == None || configured.value == "" then resource else configured.value
  }

  /** The action names the `{id}/{action}` entry admits. */
  const MemberActions: set<string> := {"show", "edit", "delete"}

  /** The seven entries one mapping of `resource` appends, in dispatch order:
      index, create, new, the show/edit/delete family, update, destroy, and
      the POST that the method-override handler turns into update or destroy. */
  function ResourceRoutes(basePath: string, resource: string, controller: string): (routes: seq<Route>)
    ensures |routes| == 7
    ensures forall i | 0 <= i < |routes| :: routes[i].controller == controller
    ensures forall i | 0 <= i < |routes| :: basePath + resource <= routes[i].template
    ensures forall i | 0 <= i < |routes| :: routes[i].handler == PostOverride <==> i == 6
    ensures forall i | 0 <= i < |routes| :: routes[i].action == None <==> routes[i].handler == PostOverride
    ensures forall i | 0 <= i < |routes| && routes[i].actionPattern.Some? ::
              routes[i].action.Some? && routes[i].action.value in routes[i].actionPattern.value
  {
    [ Route(basePath + resource, Some("Index"), controller, Some(Get), None, Mvc),
      Route(basePath + resource, Some("create"), controller, Some(Post), None, Mvc),
      Route(basePath + resource + "/new", Some("new"), controller, None, None, Mvc),
      Route(basePath + resource + "/{id}/{action}", Some("show"), controller, Some(Get), Some(MemberActions), Mvc),
      Route(basePath + resource + "/{id}", Some("update"), controller, Some(Put), None, Mvc),
      Route(basePath + resource + "/{id}", Some("destroy"), controller, Some(Delete), None, Mvc),
      Route(basePath + resource + "/{id}", None, controller, Some(Post), None, PostOverride) ]
  }

  /** How a caller names a resource: directly, or by a model type whose name
      is pluralised. */
  datatype Name = Literal(resource: string) | Model(typeName: string)

  function Resolve(name: Name, inflector: Inflector): string {
    match name
    case Literal(resource) => resource
    case Model(typeName) => ModelResource(typeName, inflector)
  }

  /** One call a caller makes on a mapper: `Map(name)`, or `Map(name, callback)`
      where the callback runs `body` on the child mapper it is handed. */
  datatype Mapping = Single(name: Name) | Nested(name: Name, body: seq<Mapping>)

  /** The number of resources a script maps, nested ones included. */
  function Mappings(script: seq<Mapping>): nat
    decreases script
  {
    if script == [] then 0
    else
      1 + (if script[0].Nested? then Mappings(script[0].body) else 0) + Mappings(script[1..])
  }

  /** The entries a script appends when it runs on a mapper whose base path is
      `basePath` and whose configured controller is `configured`. */
  function ScriptRoutes(basePath: string, configured: Option<string>, script: seq<Mapping>,
                        inflector: Inflector): (routes: seq<Route>)
    ensures |routes| == 7 * Mappings(script)
    decreases Mappings(script)
  {
    if script == [] then []
    else
      var resource := Resolve(script[0].name, inflector);
      var own := ResourceRoutes(basePath, resource, ControllerFor(configured, resource));
      var childBase := BasePath(ChildPrefix(basePath, resource, inflector));
      var nested := if script[0].Nested? then ScriptRoutes(childBase, None, script[0].body, inflector) else [];
      own + nested + ScriptRoutes(basePath, configured, script[1..], inflector)
  }

  /** Running two scripts one after the other appends what each appends. */
  lemma {:induction false} ScriptRoutesAppend(basePath: string, configured: Option<string>,
                                              s: seq<Mapping>, t: seq<Mapping>, inflector: Inflector)
    ensures ScriptRoutes(basePath, configured, s + t, inflector)
         == ScriptRoutes(basePath, configured, s, inflector) + ScriptRoutes(basePath, configured, t, inflector)
    decreases |s|
  {
    if s == [] {
      assert s + t == t;
    } else {
      assert (s + t)[0] == s[0];
      assert (s + t)[1..] == s[1..] + t;
      ScriptRoutesAppend(basePath, configured, s[1..], t, inflector);
    }
  }

  /** The entries of the first `i + 1` calls of a script: those of the first
      `i`, then those of call `i`. */
  lemma ScriptRoutesSnoc(basePath: string, configured: Option<string>, script: seq<Mapping>, i: nat,
                         inflector: Inflector)
    requires i < |script|
    ensures ScriptRoutes(basePath, configured, script[..i + 1], inflector)
         == ScriptRoutes(basePath, configured, script[..i], inflector)
          + ScriptRoutes(basePath, configured, [script[i]], inflector)
  {
    assert script[..i + 1] == script[..i] + [script[i]];
    ScriptRoutesAppend(basePath, configured, script[..i], [script[i]], inflector);
  }

  lemma AppendAssociative<T>(a: seq<T>, b: seq<T>, c: seq<T>)
    ensures (a + b) + c == a + (b + c)
  {
  }

  /** What a single call appends: the resource's seven entries, then, for a
      nested call, whatever its body appends under the child base path. */
  lemma ScriptRoutesOfStep(basePath: string, configured: Option<string>, step: Mapping, inflector: Inflector)
    ensures Mappings([step]) == 1 + (if step.Nested? then Mappings(step.body) else 0)
    ensures var resource := Resolve(step.name, inflector);
      ScriptRoutes(basePath, configured, [step], inflector)
      == ResourceRoutes(basePath, resource, ControllerFor(configured, resource))
       + (if step.Nested?
          then ScriptRoutes(BasePath(ChildPrefix(basePath, resource, inflector)), None, step.body, inflector)
          else [])
  {
    assert [step][1..] == [];
  }

  /** One call of a script maps no more resources than the whole script. */
  lemma {:induction false} MappingsOfElement(script: seq<Mapping>, i: nat)
    requires i < |script|
    ensures Mappings([script[i]]) <= Mappings(script)
    decreases |script|
  {
    assert [script[0]][1..] == [];
    if i > 0 {
      MappingsOfElement(script[1..], i - 1);
    }
  }

  /** RouteConfiguration: the path prefix and the optional controller override
      a mapper is built with. */
  class RouteConfiguration {
    var pathPrefix: string
    var controller: Option<string>

    constructor Default()
      ensures pathPrefix == "" && controller == None
    {
      pathPrefix := "";
      controller := None;
    }
  }

  /** The resources mapper. The child mappers it hands to callbacks are built
      with the same (collection, configuration) constructor. */
  class ResourcesMapper {
    const collection: RouteCollection
    const configuration: RouteConfiguration
    var basePath: string

    constructor WithDefaultConfiguration(routeCollection: RouteCollection)
      ensures collection == routeCollection && fresh(configuration)
      ensures configuration.pathPrefix == "" && configuration.controller == None
      ensures basePath == ""
    {
      var defaults := new RouteConfiguration.Default();
      configuration := defaults;
      basePath := BasePath(defaults.pathPrefix);
      collection := routeCollection;
    }

    constructor (routeCollection: RouteCollection, configuration: RouteConfiguration)
      ensures this.collection == routeCollection && this.configuration == configuration
      ensures basePath == BasePath(configuration.pathPrefix)
    {
      this.configuration := configuration;
      basePath := RemoveTrailingSlash(configuration.pathPrefix);
      collection := routeCollection;
      new;
      if basePath != "" {
        basePath := basePath + "/";
      }
    }

    /** `Map<TModel>()`: maps the pluralised, lower-cased model type name. */
    method MapModel(typeName: string, inflector: Inflector)
      modifies collection
      ensures collection.routes == old(collection.routes)
        + ResourceRoutes(basePath, ModelResource(typeName, inflector),
                         ControllerFor(configuration.controller, ModelResource(typeName, inflector)))
    {
      var resource := Lower(inflector.pluralize(typeName));
      Map(resource);
    }

    /** `Map(resource)`: appends the seven conventional entries for `resource`. */
    method Map(resource: string)
      modifies collection
      ensures collection.routes == old(collection.routes)
        + ResourceRoutes(basePath, resource, ControllerFor(configuration.controller, resource))
    {
      var controller := if configuration.controller == None || configuration.controller.value == ""
                        then resource else configuration.controller.value;

      collection.Add(Route(basePath + resource, Some("Index"), controller, Some(Get), None, Mvc));
      collection.Add(Route(basePath + resource, Some("create"), controller, Some(Post), None, Mvc));
      collection.Add(Route(basePath + resource + "/new", Some("new"), controller, None, None, Mvc));
      collection.Add(Route(basePath + resource + "/{id}/{action}", Some("show"), controller,
                           Some(Get), Some(MemberActions), Mvc));
      collection.Add(Route(basePath + resource + "/{id}", Some("update"), controller, Some(Put), None, Mvc));
      collection.Add(Route(basePath + resource + "/{id}", Some("destroy"), controller, Some(Delete), None, Mvc));
      collection.Add(Route(basePath + resource + "/{id}", None, controller, Some(Post), None, PostOverride));
    }

    /** `Map<TModel>(callback)`: the nested mapping of the model's resource name. */
    method MapModelNested(typeName: string, body: seq<Mapping>, inflector: Inflector)
      modifies collection
      ensures collection.routes == old(collection.routes)
        + ResourceRoutes(basePath, ModelResource(typeName, inflector),
                         ControllerFor(configuration.controller, ModelResource(typeName, inflector)))
        + ScriptRoutes(BasePath(ChildPrefix(basePath, ModelResource(typeName, inflector), inflector)),
                       None, body, inflector)
      decreases Mappings(body), 3
    {
      var resource := Lower(inflector.pluralize(typeName));
      MapNested(resource, body, inflector);
    }

    /** `Map(resource, callback)`: maps `resource`, then runs the callback's
        `body` on a child mapper over the same collection whose prefix is
        `{basePath}{resource}/{singularId}` and which has no controller override. */
    method MapNested(resource: string, body: seq<Mapping>, inflector: Inflector)
      modifies collection
      ensures collection.routes == old(collection.routes)
        + ResourceRoutes(basePath, resource, ControllerFor(configuration.controller, resource))
        + ScriptRoutes(BasePath(ChildPrefix(basePath, resource, inflector)), None, body, inflector)
      decreases Mappings(body), 2
    {
      Map(resource);
      var singular := Lower(inflector.singularize(resource));
      var configuration := new RouteConfiguration.Default();
      configuration.pathPrefix := basePath + resource + "/{" + singular + "Id}";
      var mapper := new ResourcesMapper(collection, configuration);
      mapper.Run(body, inflector);
    }

    /** `Map(name)` with the overload the name selects. */
    method MapName(name: Name, inflector: Inflector)
      modifies collection
      ensures collection.routes == old(collection.routes)
        + ResourceRoutes(basePath, Resolve(name, inflector),
                         ControllerFor(configuration.controller, Resolve(name, inflector)))
    {
      match name {
        case Literal(resource) => Map(resource);
        case Model(typeName) => MapModel(typeName, inflector);
      }
    }

    /** `Map(name, callback)` with the overload the name selects. */
    method MapNameNested(name: Name, body: seq<Mapping>, inflector: Inflector)
      modifies collection
      ensures collection.routes == old(collection.routes)
        + ResourceRoutes(basePath, Resolve(name, inflector),
                         ControllerFor(configuration.controller, Resolve(name, inflector)))
        + ScriptRoutes(BasePath(ChildPrefix(basePath, Resolve(name, inflector), inflector)),
                       None, body, inflector)
      decreases Mappings(body), 4
    {
      match name {
        case Literal(resource) => MapNested(resource, body, inflector);
        case Model(typeName) => MapModelNested(typeName, body, inflector);
      }
    }

    /** One call of a caller's callback, made on this mapper. */
    method Apply(step: Mapping, inflector: Inflector)
      modifies collection
      ensures collection.routes == old(collection.routes)
        + ScriptRoutes(basePath, configuration.controller, [step], inflector)
      decreases Mappings([step]), 0
    {
      ScriptRoutesOfStep(basePath, configuration.controller, step, inflector);
      match step {
        case Single(name) => MapName(name, inflector);
        case Nested(name, body) => MapNameNested(name, body, inflector);
      }
    }

    /** A caller's callback: the calls of `script`, made on this mapper in order. */
    method Run(script: seq<Mapping>, inflector: Inflector)
      modifies collection
      ensures collection.routes == old(collection.routes)
        + ScriptRoutes(basePath, configuration.controller, script, inflector)
      decreases Mappings(script), 1
    {
      var i := 0;
      while i < |script|
        invariant 0 <= i <= |script|
        invariant collection.routes
               == old(collection.routes) + ScriptRoutes(basePath, configuration.controller, script[..i], inflector)
      {
        ghost var done := ScriptRoutes(basePath, configuration.controller, script[..i], inflector);
        ghost var step := ScriptRoutes(basePath, configuration.controller, [script[i]], inflector);
        MappingsOfElement(script, i);
        ScriptRoutesSnoc(basePath, configuration.controller, script, i, inflector);
        Apply(script[i], inflector);
        AppendAssociative(old(collection.routes), done, step);
        i := i + 1;
      }
      assert script[..i] == script;
    }
  }
}
