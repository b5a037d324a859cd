/** URL templates of the REST API: a route is a path template with `{name}`
    placeholders and an HTTP method; compiling it prefixes the API base URL and
    fills the placeholders, left to right, with the arguments. */
module Routes {

  import opened Wrappers
  import opened Exceptions
  import opened Methods

  const ApiBaseUrl: string := "https://api.statuspage.io/v1"

  /** The HTTP methods the API uses (section 9.3 of RFC 9110). */
  datatype Method = GET | POST | PUT | PATCH | DELETE
  {
    /** `Enum.name()`. */
    function Name(): (name: string)
      ensures ' ' !in name && 3 <= |name| <= 6
    {
      match this
      case GET => "GET"
      case POST => "POST"
      case PUT => "PUT"
      case PATCH => "PATCH"
      case DELETE => "DELETE"
    }
  }

  datatype Route = Route(url: string, httpMethod: Method)

  /** A route together with the URL its placeholders were filled into. */
  datatype CompiledRoute = CompiledRoute(route: Route, compiledUrl: string)

  predicate BraceFree(s: string)
  {
    '{' !in s && '}' !in s
  }

  /** The private constructor of `Route`: it refuses a template whose numbers
      of opening and closing braces differ. */
  function NewRoute(url: string, httpMethod: Method): (r: Result<Route, JavaException>)
    ensures r.Success? <==> Occurrences(url, '{') == Occurrences(url, '}')
    ensures r.Success? ==> r.value.url == url && r.value.httpMethod == httpMethod
    ensures r.Failure? ==> r.error == IllegalArgumentException("There are unmatching parameter braces for route " + httpMethod.Name() + "~" + url)
  {
    if Occurrences(url, '{') != Occurrences(url, '}') then
      Failure(IllegalArgumentException("There are unmatching parameter braces for route " + httpMethod.Name() + "~" + url))
    else
      Success(Route(url, httpMethod))
  }

  /** `String.indexOf(char)` for a character that occurs. */
  function IndexOf(s: string, c: char): (i: nat)
    requires c in s
    ensures i < |s| && s[i] == c
  {
    if s[0] == c then 0
    else
      assert c in s[1..] by { var k :| 0 <= k < |s| && s[k] == c; assert s[1..][k - 1] == c; }
      IndexOf(s[1..], c) + 1
  }

  /** `IndexOf` finds the first occurrence. */
  lemma {:induction false} IndexOfFirst(s: string, c: char)
    requires c in s
    ensures c !in s[..IndexOf(s, c)]
  {
    if s[0] != c {
      assert c in s[1..] by { var k :| 0 <= k < |s| && s[k] == c; assert s[1..][k - 1] == c; }
      IndexOfFirst(s[1..], c);
      var j := IndexOf(s[1..], c);
      assert s[..j + 1] == [s[0]] + s[1..][..j];
    }
  }

  /** One rewrite of the compile loop: the text from the first `{` to the first
      `}` is replaced by `arg`. */
  function Substitute(text: string, arg: string): string
    requires '{' in text && '}' in text
  {
    text[..IndexOf(text, '{')] + arg + text[IndexOf(text, '}') + 1..]
  }

  /** What the compile loop computes from `text` when the next argument to
      consume is `args[param]`: it stops once `text` lacks a `{` or a `}`, and
      throws when it needs an argument past the end of `args`. */
  function Expand(text: string, args: seq<string>, param: nat): Result<string, JavaException>
    decreases |args| - param
  {
    if '{' in text && '}' in text then
      if param < |args| then Expand(Substitute(text, args[param]), args, param + 1)
      else Failure(ArrayIndexOutOfBoundsException(param))
    else
      Success(text)
  }

  /** The outcome of `route.compile(args...)`. */
  function CompileOf(route: Route, args: seq<string>): Result<CompiledRoute, JavaException>
  {
    match Expand(ApiBaseUrl + route.url, args, 0)
    case Success(u) => Success(CompiledRoute(route, u))
    case Failure(e) => Failure(e)
  }

  /** `compile`: the loop rewrites `compiledUrl` in place and counts the
      arguments it has used in `param`. */
  method Compile(route: Route, args: seq<string>) returns (r: Result<CompiledRoute, JavaException>)
    ensures r == CompileOf(route, args)
    ensures r.Success? ==> r.value.route == route && ApiBaseUrl <= r.value.compiledUrl
  {
    var compiledUrl := ApiBaseUrl + route.url;
    var param := 0;
    while '{' in compiledUrl && '}' in compiledUrl
      invariant param <= |args|
      invariant Expand(compiledUrl, args, param) == Expand(ApiBaseUrl + route.url, args, 0)
      invariant ApiBaseUrl <= compiledUrl
      decreases |args| - param
    {
      var paramStart := IndexOf(compiledUrl, '{');
      var paramEnd := IndexOf(compiledUrl, '}');
      if param >= |args| {
        return Failure(ArrayIndexOutOfBoundsException(param));
      }
      SubstituteKeepsBase(compiledUrl, args[param]);
      ExpandStep(compiledUrl, args, param);
      compiledUrl := compiledUrl[..paramStart] + args[param] + compiledUrl[paramEnd + 1..];
      param := param + 1;
    }
    r := Success(CompiledRoute(route, compiledUrl));
  }

  /** One unfolding of `Expand`: a text with both braces and an argument left
      continues with the rewritten text and the next argument. */
  lemma ExpandStep(text: string, args: seq<string>, param: nat)
    requires '{' in text && '}' in text && param < |args|
    ensures Expand(text, args, param) == Expand(Substitute(text, args[param]), args, param + 1)
  {
  }

  lemma BaseUrlBraceFree()
    ensures BraceFree(ApiBaseUrl)
  {
    assert ApiBaseUrl == "https://api.statuspage.io/v1";
  }

  /** A rewrite never touches the base URL, which holds no brace. */
  lemma SubstituteKeepsBase(text: string, arg: string)
    requires '{' in text && '}' in text && ApiBaseUrl <= text
    ensures ApiBaseUrl <= Substitute(text, arg)
  {
    var i := IndexOf(text, '{');
    BaseUrlBraceFree();
    IndexOfFirst(text, '{');
    assert text[..i][..|ApiBaseUrl|] == ApiBaseUrl;
    assert Substitute(text, arg)[..|ApiBaseUrl|] == text[..i][..|ApiBaseUrl|];
  }

  // ---------------------------------------------------------------------------
  // A reference description of well-formed templates and what compiling them means

  /** The template `lits[0] {names[0]} lits[1] {names[1]} ... lits[k]`. */
  function Render(lits: seq<string>, names: seq<string>): string
    requires |lits| == |names| + 1
    decreases |names|
  {
    if names == [] then lits[0]
    else lits[0] + "{" + names[0] + "}" + Render(lits[1..], names[1..])
  }

  /** The literal text with the arguments in place of the placeholders:
      `lits[0] args[0] lits[1] args[1] ... lits[k]`. */
  function Interleave(lits: seq<string>, args: seq<string>): string
    requires |lits| == |args| + 1
    decreases |args|
  {
    if args == [] then lits[0]
    else lits[0] + args[0] + Interleave(lits[1..], args[1..])
  }

  predicate AllBraceFree(ss: seq<string>)
  {
    forall i :: 0 <= i < |ss| ==> BraceFree(ss[i])
  }

  /** `IndexOf` is the first position holding the character. */
  lemma IndexOfAt(s: string, c: char, k: nat)
    requires k < |s| && s[k] == c && c !in s[..k]
    ensures IndexOf(s, c) == k
  {
    IndexOfFirst(s, c);
  }

  lemma IndexOfAtLeast(s: string, c: char, k: nat)
    requires c in s && k <= |s| && c !in s[..k]
    ensures IndexOf(s, c) >= k
  {
    IndexOfFirst(s, c);
  }

  lemma {:induction false} BraceFreeConcat(a: string, b: string)
    ensures BraceFree(a + b) <==> BraceFree(a) && BraceFree(b)
  {
    assert forall x :: x in a + b <==> x in a || x in b;
  }

  /** A rendered template holds exactly one `{` and one `}` per placeholder,
      so the route constructor accepts it. */
  lemma {:induction false} RenderCounts(lits: seq<string>, names: seq<string>, m: Method)
    requires |lits| == |names| + 1 && AllBraceFree(lits) && AllBraceFree(names)
    ensures Occurrences(Render(lits, names), '{') == |names|
    ensures Occurrences(Render(lits, names), '}') == |names|
    ensures NewRoute(Render(lits, names), m) == Success(Route(Render(lits, names), m))
    decreases |names|
  {
    if names == [] {
      OccurrencesZeroIffAbsent(lits[0], '{');
      OccurrencesZeroIffAbsent(lits[0], '}');
    } else {
      var rest := Render(lits[1..], names[1..]);
      RenderCounts(lits[1..], names[1..], m);
      assert BraceFree(lits[0]) && BraceFree(names[0]);
      OccurrencesZeroIffAbsent(lits[0], '{');
      OccurrencesZeroIffAbsent(lits[0], '}');
      OccurrencesZeroIffAbsent(names[0], '{');
      OccurrencesZeroIffAbsent(names[0], '}');
      assert Occurrences("{", '{') == 1 && Occurrences("{", '}') == 0;
      assert Occurrences("}", '}') == 1 && Occurrences("}", '{') == 0;
      forall c: char
        ensures Occurrences(Render(lits, names), c)
             == Occurrences(lits[0], c) + Occurrences("{", c) + Occurrences(names[0], c) + Occurrences("}", c) + Occurrences(rest, c)
      {
        OccurrencesConcat(lits[0], "{", c);
        OccurrencesConcat(lits[0] + "{", names[0], c);
        OccurrencesConcat(lits[0] + "{" + names[0], "}", c);
        OccurrencesConcat(lits[0] + "{" + names[0] + "}", rest, c);
      }
    }
  }

  /** Filling a template with brace-free arguments leaves no brace behind. */
  lemma {:induction false} InterleaveBraceFree(lits: seq<string>, args: seq<string>)
    requires |lits| == |args| + 1 && AllBraceFree(lits) && AllBraceFree(args)
    ensures BraceFree(Interleave(lits, args))
    decreases |args|
  {
    if args != [] {
      InterleaveBraceFree(lits[1..], args[1..]);
      assert BraceFree(lits[0]) && BraceFree(args[0]);
      BraceFreeConcat(lits[0], args[0]);
      BraceFreeConcat(lits[0] + args[0], Interleave(lits[1..], args[1..]));
    }
  }

  /** The first rewrite of a text whose first placeholder follows a
      brace-free part `p0`. */
  lemma SubstituteFirstPlaceholder(p0: string, name: string, rest: string, a: string)
    requires BraceFree(p0) && BraceFree(name)
    ensures '{' in p0 + "{" + name + "}" + rest && '}' in p0 + "{" + name + "}" + rest
    ensures Substitute(p0 + "{" + name + "}" + rest, a) == p0 + a + rest
  {
    var text := p0 + "{" + name + "}" + rest;
    assert text[|p0|] == '{' && text[..|p0|] == p0;
    IndexOfAt(text, '{', |p0|);
    var j := |p0| + 1 + |name|;
    assert text[j] == '}' && text[..j] == p0 + "{" + name;
    BraceFreeConcat(p0 + "{", name);
    IndexOfAt(text, '}', j);
    assert text[j + 1..] == rest;
  }

  /** One loop iteration on a rendered template with at least one placeholder. */
  lemma ExpandRenderedHead(text: string, prefix: string, lits: seq<string>, names: seq<string>, args: seq<string>, param: nat, next: string)
    requires |lits| == |names| + 1 && names != [] && text == prefix + Render(lits, names)
    requires BraceFree(prefix) && BraceFree(lits[0]) && BraceFree(names[0])
    requires param < |args| && next == (prefix + lits[0] + args[param]) + Render(lits[1..], names[1..])
    ensures Expand(text, args, param) == Expand(next, args, param + 1)
  {
    BraceFreeConcat(prefix, lits[0]);
    var p0 := prefix + lits[0];
    var rest := Render(lits[1..], names[1..]);
    assert text == p0 + "{" + names[0] + "}" + rest;
    SubstituteFirstPlaceholder(p0, names[0], rest, args[param]);
  }

  lemma InterleaveHead(prefix: string, lits: seq<string>, used: seq<string>)
    requires |lits| == |used| + 1 && used != []
    ensures prefix + Interleave(lits, used) == (prefix + lits[0] + used[0]) + Interleave(lits[1..], used[1..])
  {
  }

  /** The loop on a brace-free prefix followed by a rendered template, with
      enough arguments: each placeholder, left to right, is replaced by the
      next argument, the literal text is kept, and exactly one argument is
      consumed per placeholder. */
  lemma {:induction false} ExpandRenderedFills(text: string, prefix: string, lits: seq<string>, names: seq<string>, args: seq<string>, param: nat)
    requires |lits| == |names| + 1 && param + |names| <= |args| && text == prefix + Render(lits, names)
    requires BraceFree(prefix) && AllBraceFree(lits) && AllBraceFree(names) && AllBraceFree(args)
    ensures Expand(text, args, param) == Success(prefix + Interleave(lits, args[param..param + |names|]))
    decreases |names|
  {
    assert BraceFree(lits[0]);
    BraceFreeConcat(prefix, lits[0]);
    if names == [] {
      assert args[param..param] == [];
    } else {
      assert BraceFree(names[0]);
      var a := args[param];
      assert BraceFree(a);
      BraceFreeConcat(prefix + lits[0], a);
      var p1 := prefix + lits[0] + a;
      var next := p1 + Render(lits[1..], names[1..]);
      ExpandRenderedHead(text, prefix, lits, names, args, param, next);
      ExpandRenderedFills(next, p1, lits[1..], names[1..], args, param + 1);
      var used := args[param..param + |names|];
      var tail := args[param + 1..param + 1 + |names[1..]|];
      assert used[0] == a && used[1..] == tail;
      InterleaveHead(prefix, lits, used);
    }
  }

  /** A rendered template with a placeholder and no argument left throws. */
  lemma ExpandRenderedExhausted(text: string, prefix: string, lits: seq<string>, names: seq<string>, args: seq<string>, param: nat)
    requires |lits| == |names| + 1 && names != [] && text == prefix + Render(lits, names)
    requires BraceFree(prefix) && BraceFree(lits[0]) && BraceFree(names[0]) && param >= |args|
    ensures Expand(text, args, param) == Failure(ArrayIndexOutOfBoundsException(param))
  {
    BraceFreeConcat(prefix, lits[0]);
    var p0 := prefix + lits[0];
    var rest := Render(lits[1..], names[1..]);
    assert text == p0 + "{" + names[0] + "}" + rest;
    SubstituteFirstPlaceholder(p0, names[0], rest, "");
  }

  /** With fewer arguments than placeholders the loop throws at index `|args|`. */
  lemma {:induction false} ExpandRenderedFails(text: string, prefix: string, lits: seq<string>, names: seq<string>, args: seq<string>, param: nat)
    requires |lits| == |names| + 1 && param <= |args| < param + |names| && text == prefix + Render(lits, names)
    requires BraceFree(prefix) && AllBraceFree(lits) && AllBraceFree(names) && AllBraceFree(args)
    ensures Expand(text, args, param) == Failure(ArrayIndexOutOfBoundsException(|args|))
    decreases |names|
  {
    assert BraceFree(lits[0]) && BraceFree(names[0]);
    if param < |args| {
      var a := args[param];
      assert BraceFree(a);
      BraceFreeConcat(prefix, lits[0]);
      BraceFreeConcat(prefix + lits[0], a);
      var p1 := prefix + lits[0] + a;
      var next := p1 + Render(lits[1..], names[1..]);
      ExpandRenderedHead(text, prefix, lits, names, args, param, next);
      ExpandRenderedFails(next, p1, lits[1..], names[1..], args, param + 1);
    } else {
      ExpandRenderedExhausted(text, prefix, lits, names, args, param);
    }
  }

  /** `compile` on a well-formed template and brace-free arguments: the result
      starts with the base URL, fills the placeholders in order with the first
      arguments, ignores the others, carries the route unchanged and holds no
      brace; with fewer arguments than placeholders it throws. */
  lemma CompileRendered(route: Route, lits: seq<string>, names: seq<string>, args: seq<string>)
    requires |lits| == |names| + 1 && route.url == Render(lits, names)
    requires AllBraceFree(lits) && AllBraceFree(names) && AllBraceFree(args)
    ensures Occurrences(route.url, '{') == Occurrences(route.url, '}') == |names|
    ensures CompileOf(route, args)
         == if |args| < |names| then Failure(ArrayIndexOutOfBoundsException(|args|))
            else Success(CompiledRoute(route, ApiBaseUrl + Interleave(lits, args[..|names|])))
    ensures CompileOf(route, args).Success? ==> BraceFree(CompileOf(route, args).value.compiledUrl)
  {
    RenderCounts(lits, names, route.httpMethod);
    BaseUrlBraceFree();
    if |args| < |names| {
      ExpandRenderedFails(ApiBaseUrl + route.url, ApiBaseUrl, lits, names, args, 0);
    } else {
      ExpandRenderedFills(ApiBaseUrl + route.url, ApiBaseUrl, lits, names, args, 0);
      assert args[0..|names|] == args[..|names|];
      assert AllBraceFree(args[..|names|]);
      InterleaveBraceFree(lits, args[..|names|]);
      BraceFreeConcat(ApiBaseUrl, Interleave(lits, args[..|names|]));
    }
  }

  /** A template without a complete pair of braces compiles to exactly the
      base URL followed by the template, whatever the arguments. */
  lemma CompileWithoutPlaceholders(route: Route, args: seq<string>)
    requires '{' !in route.url || '}' !in route.url
    ensures CompileOf(route, args) == Success(CompiledRoute(route, ApiBaseUrl + route.url))
  {
    BaseUrlBraceFree();
    assert forall x :: x in ApiBaseUrl + route.url <==> x in ApiBaseUrl || x in route.url;
  }

  /** Arguments beyond those the loop consumed are ignored. */
  lemma {:induction false} ExpandIgnoresExtraArgs(text: string, args: seq<string>, extra: seq<string>, param: nat)
    requires Expand(text, args, param).Success?
    ensures Expand(text, args + extra, param) == Expand(text, args, param)
    decreases |args| - param
  {
    if '{' in text && '}' in text {
      assert (args + extra)[param] == args[param];
      ExpandIgnoresExtraArgs(Substitute(text, args[param]), args, extra, param + 1);
    }
  }

  lemma CompileIgnoresExtraArgs(route: Route, args: seq<string>, extra: seq<string>)
    requires CompileOf(route, args).Success?
    ensures CompileOf(route, args + extra) == CompileOf(route, args)
  {
    ExpandIgnoresExtraArgs(ApiBaseUrl + route.url, args, extra, 0);
  }

  /** One iteration on a placeholder whose name holds no `{`, with a brace-free
      argument, removes exactly one `{` and one `}`. */
  lemma SubstituteRemovesOnePair(text: string, arg: string)
    requires '{' in text && '}' in text && IndexOf(text, '{') < IndexOf(text, '}')
    requires '{' !in text[IndexOf(text, '{') + 1..IndexOf(text, '}')] && BraceFree(arg)
    ensures Occurrences(Substitute(text, arg), '{') == Occurrences(text, '{') - 1
    ensures Occurrences(Substitute(text, arg), '}') == Occurrences(text, '}') - 1
  {
    var i, j := IndexOf(text, '{'), IndexOf(text, '}');
    IndexOfFirst(text, '}');
    var a, n, b := text[..i], text[i + 1..j], text[j + 1..];
    assert text == a + "{" + n + "}" + b;
    assert '}' !in n by {
      assert n == text[..j][i + 1..];
    }
    OccurrencesZeroIffAbsent(n, '{');
    OccurrencesZeroIffAbsent(n, '}');
    OccurrencesZeroIffAbsent(arg, '{');
    OccurrencesZeroIffAbsent(arg, '}');
    assert Occurrences("{", '{') == 1 && Occurrences("{", '}') == 0;
    assert Occurrences("}", '}') == 1 && Occurrences("}", '{') == 0;
    forall c: char
      ensures Occurrences(text, c) == Occurrences(a, c) + Occurrences("{", c) + Occurrences(n, c) + Occurrences("}", c) + Occurrences(b, c)
      ensures Occurrences(Substitute(text, arg), c) == Occurrences(a, c) + Occurrences(arg, c) + Occurrences(b, c)
    {
      OccurrencesConcat(a, "{", c);
      OccurrencesConcat(a + "{", n, c);
      OccurrencesConcat(a + "{" + n, "}", c);
      OccurrencesConcat(a + "{" + n + "}", b, c);
      OccurrencesConcat(a, arg, c);
      OccurrencesConcat(a + arg, b, c);
    }
  }

  /** When the first `}` comes before the first `{`, every rewrite keeps it so:
      the loop consumes all arguments and throws. */
  lemma {:induction false} ExpandInvertedFails(text: string, args: seq<string>, param: nat)
    requires '{' in text && '}' in text && IndexOf(text, '}') < IndexOf(text, '{')
    ensures Expand(text, args, param).Failure?
    decreases |args| - param
  {
    if param < |args| {
      var io, ic := IndexOf(text, '{'), IndexOf(text, '}');
      var a := args[param];
      var t := Substitute(text, a);
      assert t == text[..io] + a + text[ic + 1..];
      IndexOfFirst(text, '{');
      IndexOfFirst(text, '}');
      assert t[ic] == '}' && t[..ic] == text[..ic];
      IndexOfAt(t, '}', ic);
      assert t[|text[..io] + a| + (io - ic - 1)] == '{';
      assert t[..io] == text[..io];
      IndexOfAtLeast(t, '{', io);
      ExpandInvertedFails(t, args, param + 1);
    }
  }

  /** The constructor's brace count is not enough: it accepts a template whose
      braces are out of order, and such a route never compiles. */
  lemma InvertedTemplateAcceptedButNeverCompiles(m: Method, args: seq<string>)
    ensures NewRoute("}{", m).Success?
    ensures CompileOf(Route("}{", m), args).Failure?
  {
    assert Occurrences("}{", '{') == 1 && Occurrences("}{", '}') == 1 by {
      assert "}{"[..1] == "}";
    }
    var text := ApiBaseUrl + "}{";
    BaseUrlBraceFree();
    assert text[..|ApiBaseUrl|] == ApiBaseUrl;
    IndexOfAt(text, '}', |ApiBaseUrl|);
    assert text[..|ApiBaseUrl| + 1] == ApiBaseUrl + "}";
    assert '{' !in ApiBaseUrl + "}";
    IndexOfAt(text, '{', |ApiBaseUrl| + 1);
    ExpandInvertedFails(text, args, 0);
  }

  // ---------------------------------------------------------------------------
  // The predefined routes

  const GetPageList := Route("/pages", GET)
  const GetPage := Route("/pages/{page_id}", GET)
  const UpdatePage := Route("/pages/{page_id}", PATCH)
  const UpdateFullPage := Route("/pages/{page_id}", PUT)
  const CreateComponent := Route("/pages/{page_id}/components", POST)
  const GetComponentList := Route("/pages/{page_id}/components", GET)
  const GetComponent := Route("/pages/{page_id}/components/{component_id}", GET)
  const UpdateComponent := Route("/pages/{page_id}/components/{component_id}", PATCH)
  const UpdateFullComponent := Route("/pages/{page_id}/components/{component_id}", PUT)
  const DeleteComponent := Route("/pages/{page_id}/components/{component_id}", DELETE)

  const PageLits: seq<string> := ["/pages/", ""]
  const ComponentListLits: seq<string> := ["/pages/", "/components"]
  const ComponentLits: seq<string> := ["/pages/", "/components/", ""]

  lemma RenderOne(l0: string, l1: string, n0: string)
    ensures Render([l0, l1], [n0]) == l0 + "{" + n0 + "}" + l1
  {
    assert [l0, l1][1..] == [l1] && [n0][1..] == [];
  }

  lemma RenderTwo(l0: string, l1: string, l2: string, n0: string, n1: string)
    ensures Render([l0, l1, l2], [n0, n1]) == l0 + "{" + n0 + "}" + (l1 + "{" + n1 + "}" + l2)
  {
    assert [l0, l1, l2][1..] == [l1, l2] && [n0, n1][1..] == [n1];
    RenderOne(l1, l2, n1);
  }

  /** The templates behind the predefined routes, as rendered templates. */
  lemma PageTemplate()
    ensures "/pages/{page_id}" == Render(PageLits, ["page_id"])
  {
    RenderOne("/pages/", "", "page_id");
    assert "/pages/" + "{" + "page_id" + "}" + "" == "/pages/{page_id}";
  }

  lemma ComponentListTemplate()
    ensures "/pages/{page_id}/components" == Render(ComponentListLits, ["page_id"])
  {
    RenderOne("/pages/", "/components", "page_id");
    assert "/pages/" + "{" + "page_id" + "}" + "/components" == "/pages/{page_id}/components";
  }

  lemma ComponentTemplate()
    ensures "/pages/{page_id}/components/{component_id}" == Render(ComponentLits, ["page_id", "component_id"])
  {
    RenderTwo("/pages/", "/components/", "", "page_id", "component_id");
    ComponentTemplateText();
  }

  lemma ComponentTemplateText()
    ensures "/pages/" + "{" + "page_id" + "}" + ("/components/" + "{" + "component_id" + "}" + "")
         == "/pages/{page_id}/components/{component_id}"
  {
    PageIdText();
    ComponentIdText();
    ComponentPathText();
  }

  lemma PageIdText()
    ensures "/pages/" + "{" + "page_id" + "}" == "/pages/{page_id}"
  {
  }

  lemma ComponentIdText()
    ensures "/components/" + "{" + "component_id" + "}" + "" == "/components/{component_id}"
  {
  }

  lemma ComponentPathText()
    ensures "/pages/{page_id}" + "/components/{component_id}" == "/pages/{page_id}/components/{component_id}"
  {
  }

  /** The page routes pass the brace check with one placeholder. */
  lemma PageRoutesAccepted()
    ensures NewRoute(GetPage.url, GET) == Success(GetPage) && Occurrences(GetPage.url, '{') == 1
    ensures NewRoute(UpdatePage.url, PATCH) == Success(UpdatePage)
    ensures NewRoute(UpdateFullPage.url, PUT) == Success(UpdateFullPage)
  {
    PageTemplate();
    assert AllBraceFree(PageLits) && AllBraceFree(["page_id"]);
    RenderCounts(PageLits, ["page_id"], GET);
    RenderCounts(PageLits, ["page_id"], PATCH);
    RenderCounts(PageLits, ["page_id"], PUT);
  }

  /** The component-list routes pass the brace check with one placeholder. */
  lemma ComponentListRoutesAccepted()
    ensures NewRoute(CreateComponent.url, POST) == Success(CreateComponent) && Occurrences(CreateComponent.url, '{') == 1
    ensures NewRoute(GetComponentList.url, GET) == Success(GetComponentList)
  {
    ComponentListTemplate();
    assert AllBraceFree(ComponentListLits) && AllBraceFree(["page_id"]);
    RenderCounts(ComponentListLits, ["page_id"], POST);
    RenderCounts(ComponentListLits, ["page_id"], GET);
  }

  /** The single-component routes pass the brace check with two placeholders. */
  lemma ComponentRoutesAccepted()
    ensures NewRoute(GetComponent.url, GET) == Success(GetComponent) && Occurrences(GetComponent.url, '{') == 2
    ensures NewRoute(UpdateComponent.url, PATCH) == Success(UpdateComponent)
    ensures NewRoute(UpdateFullComponent.url, PUT) == Success(UpdateFullComponent)
    ensures NewRoute(DeleteComponent.url, DELETE) == Success(DeleteComponent)
    ensures Occurrences(DeleteComponent.url, '{') == Occurrences(DeleteComponent.url, '}') == 2
  {
    ComponentTemplate();
    assert AllBraceFree(ComponentLits) && AllBraceFree(["page_id", "component_id"]);
    // The brace check does not look at the method: one count serves all four.
    RenderCounts(ComponentLits, ["page_id", "component_id"], GET);
  }

  /** Loading the route constants does not throw: every predefined template
      passes the brace check. The page routes have one placeholder, the
      component routes two, and the page list none. */
  lemma PredefinedRoutesAccepted()
    ensures NewRoute(GetPageList.url, GET) == Success(GetPageList) && Occurrences(GetPageList.url, '{') == 0
    ensures NewRoute(GetPage.url, GET) == Success(GetPage) && Occurrences(GetPage.url, '{') == 1
    ensures NewRoute(UpdatePage.url, PATCH) == Success(UpdatePage)
    ensures NewRoute(UpdateFullPage.url, PUT) == Success(UpdateFullPage)
    ensures NewRoute(CreateComponent.url, POST) == Success(CreateComponent) && Occurrences(CreateComponent.url, '{') == 1
    ensures NewRoute(GetComponentList.url, GET) == Success(GetComponentList)
    ensures NewRoute(GetComponent.url, GET) == Success(GetComponent) && Occurrences(GetComponent.url, '{') == 2
    ensures NewRoute(UpdateComponent.url, PATCH) == Success(UpdateComponent)
    ensures NewRoute(UpdateFullComponent.url, PUT) == Success(UpdateFullComponent)
    ensures NewRoute(DeleteComponent.url, DELETE) == Success(DeleteComponent)
    ensures Occurrences(DeleteComponent.url, '{') == Occurrences(DeleteComponent.url, '}') == 2
  {
    OccurrencesZeroIffAbsent("/pages", '{');
    OccurrencesZeroIffAbsent("/pages", '}');
    PageRoutesAccepted();
    ComponentListRoutesAccepted();
    ComponentRoutesAccepted();
  }

  /** `GET_PAGE_LIST.compile()` is the base URL followed by `/pages`. */
  lemma GetPageListCompiles()
    ensures CompileOf(GetPageList, []) == Success(CompiledRoute(GetPageList, ApiBaseUrl + "/pages"))
  {
    CompileWithoutPlaceholders(GetPageList, []);
  }

  lemma InterleaveOne(l0: string, l1: string, a: string)
    ensures Interleave([l0, l1], [a]) == l0 + a + l1
  {
    assert [l0, l1][1..] == [l1] && [a][1..] == [];
  }

  lemma InterleaveTwo(l0: string, l1: string, l2: string, a: string, b: string)
    ensures Interleave([l0, l1, l2], [a, b]) == l0 + a + l1 + b + l2
  {
    assert [l0, l1, l2][1..] == [l1, l2] && [a, b][1..] == [b];
    InterleaveOne(l1, l2, b);
  }

  lemma ConcatAssocEmpty(a: string, b: string, c: string, d: string, e: string)
    ensures a + (b + c + d + e + "") == a + b + c + d + e
  {
    assert b + c + d + e + "" == b + c + d + e;
  }

  lemma ConcatAssoc(a: string, b: string, c: string, d: string, e: string)
    ensures a + (b + c + d) == a + b + c + d
    ensures a + (b + c + d + e) == a + b + c + d + e
  {
  }

  /** Any route over a one-placeholder template `l0 {name} l1` compiles
      with one brace-free argument to the base URL, `l0`, the argument and `l1`. */
  lemma FillOnePlaceholder(route: Route, l0: string, name: string, l1: string, arg: string)
    requires route.url == Render([l0, l1], [name])
    requires BraceFree(l0) && BraceFree(name) && BraceFree(l1) && BraceFree(arg)
    ensures CompileOf(route, [arg]) == Success(CompiledRoute(route, ApiBaseUrl + l0 + arg + l1))
  {
    assert AllBraceFree([l0, l1]) && AllBraceFree([name]) && AllBraceFree([arg]);
    CompileRendered(route, [l0, l1], [name], [arg]);
    assert [arg][..1] == [arg];
    InterleaveOne(l0, l1, arg);
    ConcatAssoc(ApiBaseUrl, l0, arg, l1, "");
  }

  /** The page routes fill their one placeholder with the page id. */
  lemma PageRouteCompiles(route: Route, pageId: string)
    requires route == GetPage || route == UpdatePage || route == UpdateFullPage
    requires BraceFree(pageId)
    ensures CompileOf(route, [pageId]) == Success(CompiledRoute(route, ApiBaseUrl + "/pages/" + pageId))
  {
    PageTemplate();
    FillOnePlaceholder(route, "/pages/", "page_id", "", pageId);
    var u := ApiBaseUrl + "/pages/" + pageId;
    assert u + "" == u;
  }

  /** The component-list routes fill their one placeholder with the page id. */
  lemma ComponentListRouteCompiles(route: Route, pageId: string)
    requires route == CreateComponent || route == GetComponentList
    requires BraceFree(pageId)
    ensures CompileOf(route, [pageId]) == Success(CompiledRoute(route, ApiBaseUrl + "/pages/" + pageId + "/components"))
  {
    ComponentListTemplate();
    FillOnePlaceholder(route, "/pages/", "page_id", "/components", pageId);
  }

  /** Any route over a two-placeholder template `l0 {n0} l1 {n1} l2` compiles
      with two brace-free arguments to the base URL, `l0`, the first
      argument, `l1`, the second argument and `l2`. */
  lemma FillTwoPlaceholders(route: Route, l0: string, n0: string, l1: string, n1: string, l2: string, a: string, b: string)
    requires route.url == Render([l0, l1, l2], [n0, n1])
    requires BraceFree(l0) && BraceFree(n0) && BraceFree(l1) && BraceFree(n1) && BraceFree(l2)
    requires BraceFree(a) && BraceFree(b)
    ensures CompileOf(route, [a, b]) == Success(CompiledRoute(route, ApiBaseUrl + (l0 + a + l1 + b + l2)))
  {
    var args := [a, b];
    assert AllBraceFree([l0, l1, l2]) && AllBraceFree([n0, n1]) && AllBraceFree(args);
    CompileRendered(route, [l0, l1, l2], [n0, n1], args);
    assert args[..2] == args;
    InterleaveTwo(l0, l1, l2, a, b);
  }

  /** The component routes fill their two placeholders with the page id and
      the component id, in that order. */
  lemma ComponentRouteCompiles(route: Route, pageId: string, componentId: string)
    requires route == GetComponent || route == UpdateComponent || route == UpdateFullComponent || route == DeleteComponent
    requires BraceFree(pageId) && BraceFree(componentId)
    ensures CompileOf(route, [pageId, componentId])
         == Success(CompiledRoute(route, ApiBaseUrl + "/pages/" + pageId + "/components/" + componentId))
  {
    ComponentTemplate();
    FillTwoPlaceholders(route, "/pages/", "page_id", "/components/", "component_id", "", pageId, componentId);
    ConcatAssocEmpty(ApiBaseUrl, "/pages/", pageId, "/components/", componentId);
  }
}
