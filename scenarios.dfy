/** Client code that builds route tables from scratch, in the way an
    application's start-up registration does, and what it can rely on. */
module RestfulRoutingScenarios {
  import opened WebRouting
  import opened RestfulRouting
  import opened RestfulRoutingProperties

  lemma LowerKeepsLowerCase(s: string)
    requires forall i | 0 <= i < |s| :: !IsUpper(s[i])
    ensures Lower(s) == s
  {
  }

  /** `Map("blogs")` with the default configuration on an empty table. */
  method MapBlogs() returns (routes: seq<Route>)
    ensures Templates(routes) == ["blogs", "blogs", "blogs/new", "blogs/{id}/{action}",
                                  "blogs/{id}", "blogs/{id}", "blogs/{id}"]
    ensures Verbs(routes) == [Some(Get), Some(Post), None, Some(Get), Some(Put), Some(Delete), Some(Post)]
    ensures forall i | 0 <= i < |routes| :: routes[i].controller == "blogs"
  {
    var table := new RouteCollection();
    var mapper := new ResourcesMapper.WithDefaultConfiguration(table);
    mapper.Map("blogs");
    routes := table.routes;
    ResourceRoutesConvention("", "blogs", "blogs");
    assert "" + "blogs" == "blogs";
    assert "blogs" + "/new" == "blogs/new";
    assert "blogs" + "/{id}" == "blogs/{id}";
    assert "blogs/{id}" + "/{action}" == "blogs/{id}/{action}";
  }

  /** Mapping "blogs" twice on an empty table: fourteen entries, the second
      seven a copy of the first. */
  method MapBlogsTwice() returns (routes: seq<Route>)
    ensures |routes| == 14
    ensures routes[7..] == routes[..7]
  {
    var table := new RouteCollection();
    var mapper := new ResourcesMapper.WithDefaultConfiguration(table);
    mapper.Map("blogs");
    mapper.Map("blogs");
    routes := table.routes;
  }

  /** The child base path of "blogs" when its singular is "blog". */
  lemma BlogsChildBase(inflector: Inflector)
    requires inflector.singularize("blogs") == "blog"
    ensures BasePath(ChildPrefix("", "blogs", inflector)) == "blogs/{blogId}/"
  {
    assert SingularName("blogs", inflector) == "blog" by {
      LowerKeepsLowerCase("blog");
    }
    assert "" + "blogs" + "/{" + "blog" + "Id}/" == "blogs/{blogId}/" by {
      assert "" + "blogs" == "blogs";
    }
    ChildBasePath("", "blogs", inflector);
  }

  /** The templates of the comments resource under "blogs/{blogId}/". */
  lemma CommentTemplates()
    ensures Templates(ResourceRoutes("blogs/{blogId}/", "comments", "comments"))
         == ["blogs/{blogId}/comments", "blogs/{blogId}/comments",
             "blogs/{blogId}/comments/new", "blogs/{blogId}/comments/{id}/{action}",
             "blogs/{blogId}/comments/{id}", "blogs/{blogId}/comments/{id}",
             "blogs/{blogId}/comments/{id}"]
  {
    ResourceRoutesConvention("blogs/{blogId}/", "comments", "comments");
    var path := "blogs/{blogId}/comments";
    assert "blogs/{blogId}/" + "comments" == path;
    assert path + "/new" == "blogs/{blogId}/comments/new";
    assert path + "/{id}" == "blogs/{blogId}/comments/{id}";
    assert path + "/{id}" + "/{action}" == "blogs/{blogId}/comments/{id}/{action}";
  }

  /** `Map("blogs", blogs => blogs.Map("comments"))`: the comment routes live
      under `blogs/{blogId}/` and name the comments controller. */
  method MapBlogsWithComments(inflector: Inflector) returns (routes: seq<Route>)
    requires inflector.singularize("blogs") == "blog"
    ensures |routes| == 14
    ensures Templates(routes[7..]) == ["blogs/{blogId}/comments", "blogs/{blogId}/comments",
                                       "blogs/{blogId}/comments/new", "blogs/{blogId}/comments/{id}/{action}",
                                       "blogs/{blogId}/comments/{id}", "blogs/{blogId}/comments/{id}",
                                       "blogs/{blogId}/comments/{id}"]
    ensures forall i | 7 <= i < |routes| :: routes[i].controller == "comments"
  {
    var table := new RouteCollection();
    var mapper := new ResourcesMapper.WithDefaultConfiguration(table);
    mapper.MapNested("blogs", [Single(Literal("comments"))], inflector);
    routes := table.routes;
    BlogsChildBase(inflector);
    ScriptRoutesOfStep("blogs/{blogId}/", None, Single(Literal("comments")), inflector);
    assert routes[7..] == ResourceRoutes("blogs/{blogId}/", "comments", "comments");
    CommentTemplates();
  }

  /** A configured controller names every entry of the mapped resource. */
  method MapWithController(prefix: string, resource: string, controller: string) returns (routes: seq<Route>)
    requires controller != ""
    ensures |routes| == 7
    ensures forall i | 0 <= i < |routes| :: routes[i].controller == controller
    ensures forall i | 0 <= i < |routes| :: BasePath(prefix) + resource <= routes[i].template
  {
    var table := new RouteCollection();
    var configuration := new RouteConfiguration.Default();
    configuration.pathPrefix := prefix;
    configuration.controller := Some(controller);
    var mapper := new ResourcesMapper(table, configuration);
    mapper.Map(resource);
    routes := table.routes;
  }
}
