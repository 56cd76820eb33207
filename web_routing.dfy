/** The parts of the web framework's routing layer that the resources mapper
    builds on: the route entry it creates, the shared route collection it
    appends to, and the path helper it calls on the configured prefix. */
module WebRouting {

  datatype Option<+T> = None | Some(value: T)

  /** The HTTP verbs named by the mapper's method constraints. */
  datatype Verb = Get | Post | Put | Delete

  /** Which handler serves a matched request: the ordinary MVC handler, or the
      handler that reads a method-override field from a POSTed form. */
  datatype Handler = Mvc | PostOverride

  /** One route entry: its path template, its default values (`action` and
      `controller`), its constraints (an HTTP method and, on one entry, the set
      of action names the `{action}` placeholder may take) and its handler. */
  datatype Route = Route(
    template: string,
    action: Option<string>,
    controller: string,
    verb: Option<Verb>,
    actionPattern: Option<set<string>>,
    handler: Handler)

  /** The application's route table: an ordered sequence of entries, only ever
      appended to. */
  class RouteCollection {
    var routes: seq<Route>

    constructor ()
      ensures routes == []
    {
      routes := [];
    }

    method Add(route: Route)
      modifies this
      ensures routes == old(routes) + [route]
    {
      routes := routes + [route];
    }
  }

  predicate EndsWithSlash(s: string) {
    s != [] && s[|s| - 1] == '/'
  }

  /** The framework's trailing-slash remover, under the assumed semantics that
      it drops exactly one trailing '/' and leaves any other path alone. */
  function RemoveTrailingSlash(path: string): (r: string)
    ensures r <= path && |path| <= |r| + 1
    ensures |r| < |path| <==> EndsWithSlash(path)
  {
    if EndsWithSlash(path) then path[..|path| - 1] else path
  }

  predicate IsUpper(c: char) {
    'A' <= c <= 'Z'
  }

  function LowerChar(c: char): (d: char)
    ensures !IsUpper(d)
    ensures !IsUpper(c) ==> d == c
    ensures IsUpper(c) ==> d as int == c as int + 32
  {
    if IsUpper(c) then (c as int + 32) as char else c
  }

  /** Lower-casing of a name, modelled on the ASCII letters: every upper-case
      letter becomes its lower-case form and every other character is kept. */
  function Lower(s: string): (r: string)
    ensures |r| == |s|
    ensures forall i | 0 <= i < |r| :: !IsUpper(r[i])
    ensures forall i | 0 <= i < |s| && !IsUpper(s[i]) :: r[i] == s[i]
    ensures forall i | 0 <= i < |s| :: r[i] == '/' <==> s[i] == '/'
  {
    seq(|s|, i requires 0 <= i < |s| => LowerChar(s[i]))
  }
}
