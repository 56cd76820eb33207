/** Properties of the route tables the resources mapper builds: the fixed
    seven-entry convention, append-only composition of calls, and the shape of
    the templates nested resources receive. */
module RestfulRoutingProperties {
  import opened WebRouting
  import opened RestfulRouting

  function Templates(routes: seq<Route>): seq<string> {
    seq(|routes|, i requires 0 <= i < |routes| => routes[i].template)
  }

  function Verbs(routes: seq<Route>): seq<Option<Verb>> {
    seq(|routes|, i requires 0 <= i < |routes| => routes[i].verb)
  }

  function Actions(routes: seq<Route>): seq<Option<string>> {
    seq(|routes|, i requires 0 <= i < |routes| => routes[i].action)
  }

  /** The convention, entry by entry: two collection templates, the "new"
      form, the show/edit/delete family, and three member templates; GET, POST,
      unconstrained, GET, PUT, DELETE, POST; and the action each defaults to. */
  lemma ResourceRoutesConvention(basePath: string, resource: string, controller: string)
    ensures var routes := ResourceRoutes(basePath, resource, controller);
      var collectionPath := basePath + resource;
      var memberPath := collectionPath + "/{id}";
      && Templates(routes) == [collectionPath, collectionPath, collectionPath + "/new",
                               memberPath + "/{action}", memberPath, memberPath, memberPath]
      && Verbs(routes) == [Some(Get), Some(Post), None, Some(Get), Some(Put), Some(Delete), Some(Post)]
      && Actions(routes) == [Some("Index"), Some("create"), Some("new"), Some("show"),
                             Some("update"), Some("destroy"), None]
      && routes[3].actionPattern == Some({"show", "edit", "delete"})
      && forall i | 0 <= i < 7 && i != 3 :: routes[i].actionPattern == None
  {
    var routes := ResourceRoutes(basePath, resource, controller);
    assert basePath + resource + "/{id}/{action}" == basePath + resource + "/{id}" + "/{action}";
  }

  /** Mapping the same resource twice is not deduplicated: the table grows by
      fourteen entries, the same seven twice over. */
  lemma MapTwiceAppendsTwice(basePath: string, configured: Option<string>, resource: string,
                             inflector: Inflector)
    ensures var once := ResourceRoutes(basePath, resource, ControllerFor(configured, resource));
      var twice := ScriptRoutes(basePath, configured, [Single(Literal(resource)), Single(Literal(resource))], inflector);
      twice == once + once && |twice| == 14
  {
    var step := Single(Literal(resource));
    ScriptRoutesAppend(basePath, configured, [step], [step], inflector);
    ScriptRoutesOfStep(basePath, configured, step, inflector);
    assert [step] + [step] == [step, step];
  }

  /** The base path a child mapper receives: the parent's path to one member of
      `resource`, ending in a slash, so the child's templates are joined to it
      without a doubled or a missing separator. */
  lemma ChildBasePath(basePath: string, resource: string, inflector: Inflector)
    ensures BasePath(ChildPrefix(basePath, resource, inflector))
         == basePath + resource + "/{" + SingularName(resource, inflector) + "Id}/"
  {
    var prefix := ChildPrefix(basePath, resource, inflector);
    assert !EndsWithSlash(prefix);
  }

  lemma PrefixTransitive(a: string, b: string, c: string)
    requires a <= b && b <= c
    ensures a <= c
  {
    assert forall k | 0 <= k < |a| :: a[k] == b[k] == c[k];
  }

  /** Every template of `routes` begins with `base`. */
  predicate AllUnder(routes: seq<Route>, base: string) {
    forall i | 0 <= i < |routes| :: base <= routes[i].template
  }

  lemma AllUnderAppend(a: seq<Route>, b: seq<Route>, base: string)
    requires AllUnder(a, base) && AllUnder(b, base)
    ensures AllUnder(a + b, base)
  {
    forall i | 0 <= i < |a + b|
      ensures base <= (a + b)[i].template
    {
      if i < |a| {
        assert (a + b)[i] == a[i];
      } else {
        assert (a + b)[i] == b[i - |a|];
      }
    }
  }

  lemma AllUnderShorter(routes: seq<Route>, base: string, shorter: string)
    requires AllUnder(routes, base) && shorter <= base
    ensures AllUnder(routes, shorter)
  {
    forall i | 0 <= i < |routes|
      ensures shorter <= routes[i].template
    {
      PrefixTransitive(shorter, base, routes[i].template);
    }
  }

  /** Every template a script produces begins with the base path of the mapper
      it runs on; entries of nested resources begin with it too, since a child
      base path extends its parent's. */
  lemma {:induction false} ScriptTemplatesUnderBase(basePath: string, configured: Option<string>,
                                                    script: seq<Mapping>, inflector: Inflector)
    ensures AllUnder(ScriptRoutes(basePath, configured, script, inflector), basePath)
    decreases Mappings(script)
  {
    if script != [] {
      var resource := Resolve(script[0].name, inflector);
      var own := ResourceRoutes(basePath, resource, ControllerFor(configured, resource));
      var childBase := BasePath(ChildPrefix(basePath, resource, inflector));
      var nested := if script[0].Nested? then ScriptRoutes(childBase, None, script[0].body, inflector) else [];
      var rest := ScriptRoutes(basePath, configured, script[1..], inflector);
      assert ScriptRoutes(basePath, configured, script, inflector) == own + nested + rest;
      AllUnderShorter(own, basePath + resource, basePath);
      if script[0].Nested? {
        MappingsOfElement(script, 0);
        ScriptTemplatesUnderBase(childBase, None, script[0].body, inflector);
        ChildBasePath(basePath, resource, inflector);
        AllUnderShorter(nested, childBase, basePath);
      }
      ScriptTemplatesUnderBase(basePath, configured, script[1..], inflector);
      AllUnderAppend(own, nested, basePath);
      AllUnderAppend(own + nested, rest, basePath);
    }
  }

  /** The routes `Map(resource, callback)` appends after the resource's own
      seven all lie under `{basePath}{resource}/{singularId}/`. */
  lemma NestedRoutesUnderParentMember(basePath: string, configured: Option<string>, name: Name,
                                      body: seq<Mapping>, inflector: Inflector)
    ensures var resource := Resolve(name, inflector);
      var routes := ScriptRoutes(basePath, configured, [Nested(name, body)], inflector);
      AllUnder(routes[7..], basePath + resource + "/{" + SingularName(resource, inflector) + "Id}/")
  {
    var resource := Resolve(name, inflector);
    var childBase := BasePath(ChildPrefix(basePath, resource, inflector));
    ScriptRoutesOfStep(basePath, configured, Nested(name, body), inflector);
    ChildBasePath(basePath, resource, inflector);
    ScriptTemplatesUnderBase(childBase, None, body, inflector);
    var routes := ScriptRoutes(basePath, configured, [Nested(name, body)], inflector);
    assert routes[7..] == ScriptRoutes(childBase, None, body, inflector);
  }

  /** A controller override reaches only the mapper it was configured on: the
      child mapper is built from the default configuration, so what a nested
      body appends does not depend on the parent's controller setting. */
  lemma NestedIgnoresControllerOverride(basePath: string, configured: Option<string>, name: Name,
                                        body: seq<Mapping>, inflector: Inflector)
    ensures ScriptRoutes(basePath, configured, [Nested(name, body)], inflector)[7..]
         == ScriptRoutes(basePath, None, [Nested(name, body)], inflector)[7..]
  {
    ScriptRoutesOfStep(basePath, configured, Nested(name, body), inflector);
    ScriptRoutesOfStep(basePath, None, Nested(name, body), inflector);
    var resource := Resolve(name, inflector);
    var nested := ScriptRoutes(BasePath(ChildPrefix(basePath, resource, inflector)), None, body, inflector);
    assert ScriptRoutes(basePath, configured, [Nested(name, body)], inflector)[7..] == nested;
    assert ScriptRoutes(basePath, None, [Nested(name, body)], inflector)[7..] == nested;
  }

  /** No two adjacent '/' characters. */
  predicate NoDoubleSlash(s: string) {
    forall i | 0 <= i < |s| - 1 :: !(s[i] == '/' && s[i + 1] == '/')
  }

  predicate SlashFree(s: string) {
    forall i | 0 <= i < |s| :: s[i] != '/'
  }

  /** A base path as the mapper builds it from a sensible prefix: empty, or
      ending in exactly one separator and free of doubled separators. */
  predicate ProperBase(basePath: string) {
    basePath == "" || (EndsWithSlash(basePath) && NoDoubleSlash(basePath))
  }

  /** Every resource a script names is a single non-empty path segment, and so
      is every singular name used for a nested id placeholder. */
  predicate WellNamed(script: seq<Mapping>, inflector: Inflector)
    decreases script
  {
    forall i | 0 <= i < |script| ::
      var resource := Resolve(script[i].name, inflector);
      && resource != [] && SlashFree(resource)
      && (script[i].Nested? ==>
            SlashFree(SingularName(resource, inflector)) && WellNamed(script[i].body, inflector))
  }

  lemma NoDoubleSlashAppend(a: string, b: string)
    requires NoDoubleSlash(a) && NoDoubleSlash(b)
    requires a == [] || b == [] || a[|a| - 1] != '/' || b[0] != '/'
    ensures NoDoubleSlash(a + b)
  {
    var s := a + b;
    forall i | 0 <= i < |s| - 1
      ensures !(s[i] == '/' && s[i + 1] == '/')
    {
      if i + 1 < |a| {
        assert s[i] == a[i] && s[i + 1] == a[i + 1];
      } else if i >= |a| {
        assert s[i] == b[i - |a|] && s[i + 1] == b[i + 1 - |a|];
      }
    }
  }

  /** Prefixing a single non-empty segment with a proper base path gives a
      path without doubled separators that does not end in one. */
  lemma SegmentUnderBase(basePath: string, segment: string)
    requires ProperBase(basePath) && segment != [] && SlashFree(segment)
    ensures NoDoubleSlash(basePath + segment)
    ensures (basePath + segment)[|basePath + segment| - 1] != '/'
  {
    assert NoDoubleSlash(segment);
    NoDoubleSlashAppend(basePath, segment);
    assert (basePath + segment)[|basePath + segment| - 1] == segment[|segment| - 1];
  }

  /** A prefix that has no doubled separator yields a proper base path. */
  lemma BasePathProper(prefix: string)
    requires NoDoubleSlash(prefix)
    ensures ProperBase(BasePath(prefix))
  {
    var stripped := RemoveTrailingSlash(prefix);
    if stripped != "" {
      assert NoDoubleSlash(stripped);
      if EndsWithSlash(prefix) {
        assert stripped[|stripped| - 1] == prefix[|prefix| - 2];
      }
      NoDoubleSlashAppend(stripped, "/");
    }
  }

  /** No template of `routes` has a doubled separator. */
  predicate AllSingleSlashed(routes: seq<Route>) {
    forall i | 0 <= i < |routes| :: NoDoubleSlash(routes[i].template)
  }

  lemma AllSingleSlashedAppend(a: seq<Route>, b: seq<Route>)
    requires AllSingleSlashed(a) && AllSingleSlashed(b)
    ensures AllSingleSlashed(a + b)
  {
    forall i | 0 <= i < |a + b|
      ensures NoDoubleSlash((a + b)[i].template)
    {
      if i < |a| {
        assert (a + b)[i] == a[i];
      } else {
        assert (a + b)[i] == b[i - |a|];
      }
    }
  }

  lemma WellNamedTail(script: seq<Mapping>, inflector: Inflector)
    requires script != [] && WellNamed(script, inflector)
    ensures WellNamed(script[1..], inflector)
  {
    forall i | 0 <= i < |script[1..]|
      ensures var r := Resolve(script[1..][i].name, inflector);
        && r != [] && SlashFree(r)
        && (script[1..][i].Nested? ==>
              SlashFree(SingularName(r, inflector)) && WellNamed(script[1..][i].body, inflector))
    {
      assert script[1..][i] == script[i + 1];
    }
  }

  /** The seven templates of a well-named resource under a proper base path
      have no doubled separator. */
  lemma ResourceTemplatesNoDoubleSlash(basePath: string, resource: string, controller: string)
    requires ProperBase(basePath) && resource != [] && SlashFree(resource)
    ensures AllSingleSlashed(ResourceRoutes(basePath, resource, controller))
  {
    var path := basePath + resource;
    SegmentUnderBase(basePath, resource);
    NoDoubleSlashAppend(path, "/new");
    NoDoubleSlashAppend(path, "/{id}/{action}");
    NoDoubleSlashAppend(path, "/{id}");
  }

  /** The base path of a child mapper is proper when its parent's is and the
      names involved are single segments. */
  lemma ChildBaseProper(basePath: string, resource: string, inflector: Inflector)
    requires ProperBase(basePath) && resource != [] && SlashFree(resource)
    requires SlashFree(SingularName(resource, inflector))
    ensures ProperBase(BasePath(ChildPrefix(basePath, resource, inflector)))
  {
    var singular := SingularName(resource, inflector);
    var path := basePath + resource;
    SegmentUnderBase(basePath, resource);
    NoDoubleSlashAppend(path, "/{");
    assert NoDoubleSlash(singular);
    NoDoubleSlashAppend(path + "/{", singular);
    var withSingular := path + "/{" + singular;
    assert withSingular != [] && withSingular[|withSingular| - 1] != '/' by {
      if singular == [] {
        assert withSingular[|withSingular| - 1] == '{';
      } else {
        assert withSingular[|withSingular| - 1] == singular[|singular| - 1];
      }
    }
    NoDoubleSlashAppend(withSingular, "Id}");
    NoDoubleSlashAppend(withSingular + "Id}", "/");
    ChildBasePath(basePath, resource, inflector);
  }

  /** Nesting composes templates by concatenation without ever doubling a
      separator: under a proper base path, a well-named script yields templates
      free of "//" at every depth. */
  lemma {:induction false} ScriptTemplatesNoDoubleSlash(basePath: string, configured: Option<string>,
                                                        script: seq<Mapping>, inflector: Inflector)
    requires ProperBase(basePath) && WellNamed(script, inflector)
    ensures AllSingleSlashed(ScriptRoutes(basePath, configured, script, inflector))
    decreases Mappings(script)
  {
    if script != [] {
      var resource := Resolve(script[0].name, inflector);
      var own := ResourceRoutes(basePath, resource, ControllerFor(configured, resource));
      var childBase := BasePath(ChildPrefix(basePath, resource, inflector));
      var nested := if script[0].Nested? then ScriptRoutes(childBase, None, script[0].body, inflector) else [];
      var rest := ScriptRoutes(basePath, configured, script[1..], inflector);
      assert ScriptRoutes(basePath, configured, script, inflector) == own + nested + rest;
      ResourceTemplatesNoDoubleSlash(basePath, resource, ControllerFor(configured, resource));
      if script[0].Nested? {
        ChildBaseProper(basePath, resource, inflector);
        MappingsOfElement(script, 0);
        ScriptTemplatesNoDoubleSlash(childBase, None, script[0].body, inflector);
      }
      WellNamedTail(script, inflector);
      ScriptTemplatesNoDoubleSlash(basePath, configured, script[1..], inflector);
      AllSingleSlashedAppend(own, nested);
      AllSingleSlashedAppend(own + nested, rest);
    }
  }
}
