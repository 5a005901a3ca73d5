/** How the ingestor finds the project and the function in the path of a request. */
module RequestPath {
  import opened Text

  /** A pair of empty strings stands for a path that is not understood. */
  function ParsePath(path: string): (string, string) {
    var trimmed := Trim(path, '/');
    if trimmed == "" then ("", "")
    else
      var parts := Split(trimmed, '/');
      if |parts| < 3 || parts[0] != "lambda" then ("", "")
      else
        var idx := if parts[1] == "sse" || parts[1] == "ws" then 2 else 1;
        if |parts| <= idx + 1 then ("", "") else (parts[idx], parts[idx + 1])
  }

  /** The ways to call a function: one reply, a stream of server-sent events, or a web socket. */
  datatype Mode = Plain | Sse | WebSocket

  predicate IsComponent(s: string) {
    s != "" && '/' !in s
  }

  function Components(mode: Mode, project: string, name: string): (parts: seq<string>)
    ensures |parts| >= 3
  {
    match mode
    case Plain => ["lambda", project, name]
    case Sse => ["lambda", "sse", project, name]
    case WebSocket => ["lambda", "ws", project, name]
  }

  /** A route as clients print it, with further components after the function. */
  function Route(mode: Mode, project: string, name: string, further: seq<string>): string {
    Join(Components(mode, project, name) + further, '/')
  }

  lemma {:induction false} JoinEnds(parts: seq<string>)
    requires |parts| >= 1 && forall i :: 0 <= i < |parts| ==> IsComponent(parts[i])
    ensures var s := Join(parts, '/'); s != "" && s[0] != '/' && s[|s| - 1] != '/'
  {
    if |parts| > 1 {
      JoinEnds(parts[1..]);
    }
  }

  lemma RouteSplits(mode: Mode, project: string, name: string, further: seq<string>, left: nat, right: nat)
    requires IsComponent(project) && IsComponent(name) && forall i :: 0 <= i < |further| ==> IsComponent(further[i])
    ensures var trimmed := Trim(Repeat('/', left) + Route(mode, project, name, further) + Repeat('/', right), '/');
      trimmed != "" && Split(trimmed, '/') == Components(mode, project, name) + further
  {
    var parts := Components(mode, project, name) + further;
    assert forall i :: 0 <= i < |parts| ==> IsComponent(parts[i]);
    JoinEnds(parts);
    TrimSkips(left, Join(parts, '/'), right, '/');
    SplitJoin(parts, '/');
  }

  /**
   * Parsing undoes printing, whatever slashes surround the route and whatever components follow the function. With one
   * exception: the plain form of a project called "sse" or "ws" is taken for the other form.
   */
  lemma ParseUndoesRoute(mode: Mode, project: string, name: string, further: seq<string>, left: nat, right: nat)
    requires IsComponent(project) && IsComponent(name) && forall i :: 0 <= i < |further| ==> IsComponent(further[i])
    ensures var path := Repeat('/', left) + Route(mode, project, name, further) + Repeat('/', right);
      mode.Plain? && (project == "sse" || project == "ws") ==>
        ParsePath(path) == if further == [] then ("", "") else (name, further[0])
    ensures var path := Repeat('/', left) + Route(mode, project, name, further) + Repeat('/', right);
      !(mode.Plain? && (project == "sse" || project == "ws")) ==> ParsePath(path) == (project, name)
  {
    hide Trim, Split, Route, Repeat, Join;
    RouteSplits(mode, project, name, further, left, right);
    assert (Components(mode, project, name) + further)[3..] == if mode.Plain? then further else [name] + further;
  }

  /**
   * On the routes that stop at the function, parsing gives back the project and the name exactly when the form is
   * unambiguous.
   */
  lemma ParseRecoversIff(mode: Mode, project: string, name: string, left: nat, right: nat)
    requires IsComponent(project) && IsComponent(name)
    ensures ParsePath(Repeat('/', left) + Route(mode, project, name, []) + Repeat('/', right)) == (project, name)
       <==> !(mode.Plain? && project in {"sse", "ws"})
  {
    ParseUndoesRoute(mode, project, name, [], left, right);
  }

  /**
   * Which paths are not understood, whatever slashes surround them: those outside "lambda", and those that stop before
   * the function.
   */
  lemma RefusedIff(parts: seq<string>, left: nat, right: nat)
    requires parts != [] && forall i :: 0 <= i < |parts| ==> IsComponent(parts[i])
    ensures ParsePath(Repeat('/', left) + Join(parts, '/') + Repeat('/', right)) == ("", "")
       <==> parts[0] != "lambda" || |parts| < 3 || (|parts| == 3 && parts[1] in {"sse", "ws"})
  {
    JoinEnds(parts);
    TrimSkips(left, Join(parts, '/'), right, '/');
    SplitJoin(parts, '/');
    hide Trim, Split, Join, Repeat;
  }

  /** A path of slashes alone is not understood either. */
  lemma SlashesAreRefused(n: nat)
    ensures ParsePath(Repeat('/', n)) == ("", "")
  {
    TrimLeftSkips(n, "", '/');
    assert Repeat('/', n) + "" == Repeat('/', n);
  }

  /** Nothing outside "lambda" is understood, and what is understood are components of the path. */
  lemma ParsedAreComponents(path: string)
    ensures var (project, name) := ParsePath(path);
      '/' !in project && '/' !in name && (project + name != "" ==> HasPrefix(TrimLeft(path, '/'), "lambda/"))
  {
    var trimmed, whole := Trim(path, '/'), TrimLeft(path, '/');
    TrimRightIsPrefix(whole, '/');
    if |Split(trimmed, '/')| >= 2 {
      SplitStart(trimmed, '/');
      PrefixOfPrefix(whole, trimmed, Split(trimmed, '/')[0] + "/");
    }
    hide TrimLeft, TrimRight, Split, HasPrefix;
    assert "lambda" + "/" == "lambda/";
  }

  lemma PrefixOfPrefix(s: string, t: string, u: string)
    requires HasPrefix(s, t) && HasPrefix(t, u)
    ensures HasPrefix(s, u)
  {
    assert s[..|u|] == t[..|u|];
  }

  /** A text of several pieces starts with the first one and the separator. */
  lemma {:induction false} SplitStart(s: string, sep: char)
    requires |Split(s, sep)| >= 2
    ensures HasPrefix(s, Split(s, sep)[0] + [sep])
  {
    if s[0] != sep {
      SplitStart(s[1..], sep);
      var first := Split(s[1..], sep)[0];
      assert s[..|first| + 2] == [s[0]] + s[1..][..|first| + 1];
    }
  }

  lemma {:induction false} TrimRightIsPrefix(s: string, c: char)
    ensures HasPrefix(s, TrimRight(s, c))
  {
    if s != "" && s[|s| - 1] == c {
      TrimRightIsPrefix(s[..|s| - 1], c);
      var t := TrimRight(s[..|s| - 1], c);
      assert s[..|t|] == s[..|s| - 1][..|t|];
    }
  }
}
