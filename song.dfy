/** song.go: the SONG server. Route files a handler into the per-verb route
    tables, getFirstPathComponent picks the first path segment, and the
    handler installed by Serve chooses the one stage that answers a request. */
module Song {
  import opened Wrappers
  import opened Http
  import opened GoStrings
  import Options
  import PostApi

  // ---------- Verbs and registration patterns ----------

  datatype Verb = GET | HEAD | OPTIONS | TRACE | PUT | DELETE | POST | PATCH | CONNECT

  /** The lower-case case label of the verb in Route's switch. */
  function VerbName(v: Verb): string
  {
    match v
    case GET => "get"
    case HEAD => "head"
    case OPTIONS => "options"
    case TRACE => "trace"
    case PUT => "put"
    case DELETE => "delete"
    case POST => "post"
    case PATCH => "patch"
    case CONNECT => "connect"
  }

  /** Route's switch on the lower-cased verb token. */
  function ParseVerb(token: string): (v: Option<Verb>)
    ensures forall u: Verb :: v == Some(u) <==> VerbName(u) == token
  {
    if token == "get" then Some(GET)
    else if token == "head" then Some(HEAD)
    else if token == "options" then Some(OPTIONS)
    else if token == "trace" then Some(TRACE)
    else if token == "put" then Some(PUT)
    else if token == "delete" then Some(DELETE)
    else if token == "post" then Some(POST)
    else if token == "patch" then Some(PATCH)
    else if token == "connect" then Some(CONNECT)
    else None
  }

  /** How Route files a pattern: a bare path, a verb and the route after the
      first space, or a verb token that matches no case label. */
  datatype Registration = Bare(path: string) | Verbed(verb: Verb, route: string) | Unrecognised(token: string)

  function Classify(pattern: string): Registration
  {
    var index := IndexOf(pattern, ' ');
    if index == -1 then Bare(pattern)
    else
      match ParseVerb(ToLower(pattern[..index]))
      case Some(v) => Verbed(v, pattern[index + 1..])
      case None => Unrecognised(pattern[..index])
  }

  // ---------- The nine route tables as a value ----------

  /** The contents of the nine route tables, one per verb. */
  datatype Tables = Tables(get: RouteMap, head: RouteMap, options: RouteMap, trace: RouteMap,
                           put: RouteMap, delete: RouteMap, post: RouteMap, patch: RouteMap,
                           connect: RouteMap)

  const EmptyTables := Tables(map[], map[], map[], map[], map[], map[], map[], map[], map[])

  function Table(t: Tables, v: Verb): RouteMap
  {
    match v
    case GET => t.get
    case HEAD => t.head
    case OPTIONS => t.options
    case TRACE => t.trace
    case PUT => t.put
    case DELETE => t.delete
    case POST => t.post
    case PATCH => t.patch
    case CONNECT => t.connect
  }

  function WithTable(t: Tables, v: Verb, m: RouteMap): (r: Tables)
    ensures Table(r, v) == m
    ensures forall u | u != v :: Table(r, u) == Table(t, u)
  {
    match v
    case GET => t.(get := m)
    case HEAD => t.(head := m)
    case OPTIONS => t.(options := m)
    case TRACE => t.(trace := m)
    case PUT => t.(put := m)
    case DELETE => t.(delete := m)
    case POST => t.(post := m)
    case PATCH => t.(patch := m)
    case CONNECT => t.(connect := m)
  }

  /** The tables after the AddRoute of verb v's table: the POST table adds the
      "/post" alias too, the others add the one key. */
  function AddTo(t: Tables, v: Verb, route: string, h: Handler): Tables
  {
    var m := Table(t, v);
    WithTable(t, v, if v == POST then PostApi.Added(m, route, h) else Options.Added(m, route, h))
  }

  /** The tables after Route(pattern, h). */
  function Register(t: Tables, pattern: string, h: Handler): Tables
  {
    match Classify(pattern)
    case Bare(p) => AddTo(AddTo(t, GET, p, h), POST, p, h)
    case Verbed(v, route) => AddTo(t, v, route, h)
    case Unrecognised(_) => t
  }

  /** AddTo changes verb v's table and no other. */
  lemma AddToChangesOneTable(t: Tables, v: Verb, route: string, h: Handler)
    ensures v == POST ==> Table(AddTo(t, v, route, h), v) == PostApi.Added(Table(t, v), route, h)
    ensures v != POST ==> Table(AddTo(t, v, route, h), v) == Options.Added(Table(t, v), route, h)
    ensures forall u | u != v :: Table(AddTo(t, v, route, h), u) == Table(t, u)
  {
  }

  /** A pattern with no space goes, unchanged, into the GET and the POST
      tables and no other. */
  lemma RegisterBare(t: Tables, p: string, h: Handler)
    requires ' ' !in p
    ensures Table(Register(t, p, h), GET) == Options.Added(Table(t, GET), p, h)
    ensures Table(Register(t, p, h), POST) == PostApi.Added(Table(t, POST), p, h)
    ensures forall u | u != GET && u != POST :: Table(Register(t, p, h), u) == Table(t, u)
  {
  }

  /** With the first space at index i, the route is everything after it
      (later spaces included) and only the table of the verb named before it,
      in any letter case, changes. */
  lemma RegisterVerbed(t: Tables, p: string, i: nat, v: Verb, h: Handler)
    requires i < |p| && p[i] == ' ' && ' ' !in p[..i]
    requires ToLower(p[..i]) == VerbName(v)
    ensures Register(t, p, h) == AddTo(t, v, p[i + 1..], h)
    ensures forall u | u != v :: Table(Register(t, p, h), u) == Table(t, u)
  {
    assert IndexOf(p, ' ') == i;
  }

  /** A verb token that names none of the nine verbs registers nothing. */
  lemma RegisterUnrecognised(t: Tables, p: string, i: nat, h: Handler)
    requires i < |p| && p[i] == ' ' && ' ' !in p[..i]
    requires forall v: Verb :: VerbName(v) != ToLower(p[..i])
    ensures Register(t, p, h) == t
  {
    assert IndexOf(p, ' ') == i;
  }

  /** Verb tokens that differ only in letter case register alike. */
  lemma RegisterCaseInsensitive(t: Tables, m1: string, m2: string, route: string, h: Handler)
    requires ' ' !in m1 && ' ' !in m2 && ToLower(m1) == ToLower(m2)
    ensures Register(t, m1 + " " + route, h) == Register(t, m2 + " " + route, h)
  {
    var p1, p2 := m1 + " " + route, m2 + " " + route;
    assert p1[..|m1|] == m1 && p1[|m1|] == ' ' && p1[|m1| + 1..] == route;
    assert p2[..|m2|] == m2 && p2[|m2|] == ' ' && p2[|m2| + 1..] == route;
    assert IndexOf(p1, ' ') == |m1|;
    assert IndexOf(p2, ' ') == |m2|;
  }

  /** Two table states that agree on every verb are equal. */
  lemma TablesEqual(a: Tables, b: Tables)
    requires forall u: Verb :: Table(a, u) == Table(b, u)
    ensures a == b
  {
    assert Table(a, GET) == Table(b, GET) && Table(a, HEAD) == Table(b, HEAD);
    assert Table(a, OPTIONS) == Table(b, OPTIONS) && Table(a, TRACE) == Table(b, TRACE);
    assert Table(a, PUT) == Table(b, PUT) && Table(a, DELETE) == Table(b, DELETE);
    assert Table(a, POST) == Table(b, POST) && Table(a, PATCH) == Table(b, PATCH);
    assert Table(a, CONNECT) == Table(b, CONNECT);
  }

  /** A second AddRoute of the same route in the same table replaces the first. */
  lemma AddToTwice(t: Tables, v: Verb, route: string, h1: Handler, h2: Handler)
    ensures AddTo(AddTo(t, v, route, h1), v, route, h2) == AddTo(t, v, route, h2)
  {
    var m := Table(t, v);
    if v == POST {
      PostApi.LastAddWins(m, route, h1, h2);
    } else {
      Options.LastAddWins(m, route, h1, h2);
    }
    TablesEqual(AddTo(AddTo(t, v, route, h1), v, route, h2), AddTo(t, v, route, h2));
  }

  /** AddRoute calls on two different tables commute. */
  lemma AddToCommute(t: Tables, u: Verb, v: Verb, route: string, h1: Handler, h2: Handler)
    requires u != v
    ensures AddTo(AddTo(t, u, route, h1), v, route, h2) == AddTo(AddTo(t, v, route, h2), u, route, h1)
  {
    TablesEqual(AddTo(AddTo(t, u, route, h1), v, route, h2), AddTo(AddTo(t, v, route, h2), u, route, h1));
  }

  /** A second pattern, different from the first but filed alike (such as
      "GET /x" after "get /x"), replaces the first one's handler in the
      tables. An identical second pattern never gets this far: the mux
      refuses it before any table changes. */
  lemma RegisterLastWins(t: Tables, p1: string, p2: string, h1: Handler, h2: Handler)
    requires p1 != p2 && Classify(p1) == Classify(p2)
    ensures Register(Register(t, p1, h1), p2, h2) == Register(t, p2, h2)
  {
    match Classify(p1)
    case Bare(_) =>
      // A bare pattern is filed as itself, so two distinct bare patterns
      // never classify alike and this arm cannot be reached.
    case Verbed(v, route) =>
      AddToTwice(t, v, route, h1, h2);
    case Unrecognised(_) =>
  }

  // ---------- The registrations Serve makes ----------

  /** The handler closure Serve installs under "/". */
  const Dispatcher := Handler("dispatch")
  /** The four documentation handlers, named by the file each serves. */
  const SongDoc := Handler("SONG/README.md")
  const VeniDoc := Handler("SONG/veni/README.md")
  const VidiDoc := Handler("SONG/vidi/README.md")
  const ViciDoc := Handler("SONG/vici/README.md")

  /** The routes of the four documentation pages Serve registers. */
  const SongRoute := "/song/"
  const VeniRoute := "/song/veni/"
  const VidiRoute := "/song/vidi/"
  const ViciRoute := "/song/vici/"

  /** Serve's registrations: "/" bare, then one "GET <route>" per page. */
  function ServeRegistrations(t: Tables): Tables
  {
    RegisterAll(t, SongRoute, VeniRoute, VidiRoute, ViciRoute)
  }

  function RegisterAll(t: Tables, r1: string, r2: string, r3: string, r4: string): Tables
  {
    var t1 := Register(t, "/", Dispatcher);
    var t2 := Register(t1, "GET " + r1, SongDoc);
    var t3 := Register(t2, "GET " + r2, VeniDoc);
    var t4 := Register(t3, "GET " + r3, VidiDoc);
    Register(t4, "GET " + r4, ViciDoc)
  }

  lemma LowerGet()
    ensures ToLower("GET") == "get"
  {
    assert ToLower("GET")[0] == 'g' && ToLower("GET")[1] == 'e' && ToLower("GET")[2] == 't';
  }

  /** "GET <route>" with a space-free route lands in the GET table only. */
  lemma RegisterGetDoc(t: Tables, route: string, h: Handler)
    requires ' ' !in route
    ensures Register(t, "GET " + route, h) == AddTo(t, GET, route, h)
  {
    var p := "GET " + route;
    assert p[..3] == "GET" && p[3] == ' ' && p[4..] == route;
    LowerGet();
    RegisterVerbed(t, p, 3, GET, h);
  }

  lemma RegisterAllTables(t: Tables, r1: string, r2: string, r3: string, r4: string)
    requires ' ' !in r1 && ' ' !in r2 && ' ' !in r3 && ' ' !in r4
    ensures Table(RegisterAll(t, r1, r2, r3, r4), GET)
         == Table(t, GET)["/" := Dispatcher][r1 := SongDoc][r2 := VeniDoc][r3 := VidiDoc][r4 := ViciDoc]
    ensures Table(RegisterAll(t, r1, r2, r3, r4), POST) == PostApi.Added(Table(t, POST), "/", Dispatcher)
    ensures forall u | u != GET && u != POST :: Table(RegisterAll(t, r1, r2, r3, r4), u) == Table(t, u)
  {
    var t1 := Register(t, "/", Dispatcher);
    RegisterBare(t, "/", Dispatcher);
    RegisterGetDoc(t1, r1, SongDoc);
    var t2 := AddTo(t1, GET, r1, SongDoc);
    RegisterGetDoc(t2, r2, VeniDoc);
    var t3 := AddTo(t2, GET, r2, VeniDoc);
    RegisterGetDoc(t3, r3, VidiDoc);
    var t4 := AddTo(t3, GET, r3, VidiDoc);
    RegisterGetDoc(t4, r4, ViciDoc);
  }

  /** Serve puts "/" in the GET and the POST tables and the four /song/ pages
      in the GET table only; the other seven tables are left alone. */
  lemma ServeRegistrationsTables(t: Tables)
    ensures Table(ServeRegistrations(t), GET)
         == Table(t, GET)["/" := Dispatcher][SongRoute := SongDoc][VeniRoute := VeniDoc]
                         [VidiRoute := VidiDoc][ViciRoute := ViciDoc]
    ensures Table(ServeRegistrations(t), POST) == PostApi.Added(Table(t, POST), "/", Dispatcher)
    ensures forall u | u != GET && u != POST :: Table(ServeRegistrations(t), u) == Table(t, u)
  {
    RegisterAllTables(t, SongRoute, VeniRoute, VidiRoute, ViciRoute);
  }

  // ---------- getFirstPathComponent ----------

  /** The first component that is not empty, or "" when there is none. */
  function FirstNonEmpty(parts: seq<string>): string
  {
    if |parts| == 0 then ""
    else if parts[0] != "" then parts[0]
    else FirstNonEmpty(parts[1..])
  }

  /** The first non-empty "/"-separated component of a parsed path. */
  function FirstComponent(path: string): string
  {
    FirstNonEmpty(Split(path, '/'))
  }

  /** The number of slashes the path starts with. */
  function SlashRun(s: string): (k: nat)
    ensures k <= |s|
    ensures forall i | 0 <= i < k :: s[i] == '/'
    ensures k < |s| ==> s[k] != '/'
  {
    if |s| == 0 || s[0] != '/' then 0 else 1 + SlashRun(s[1..])
  }

  /** The first piece of a split is the text up to the first separator. */
  lemma {:induction false} SplitHead(s: string, sep: char)
    ensures |Split(s, sep)[0]| <= |s|
    ensures Split(s, sep)[0] == s[..|Split(s, sep)[0]|]
    ensures |Split(s, sep)[0]| < |s| ==> s[|Split(s, sep)[0]|] == sep
    decreases |s|
  {
    if |s| > 0 && s[0] != sep {
      SplitHead(s[1..], sep);
    }
  }

  /** The component is the text right after the leading slashes, running up
      to the next slash or the end; it is "" exactly when the path is all
      slashes. */
  lemma {:induction false} FirstComponentShape(path: string)
    ensures var k, c := SlashRun(path), FirstComponent(path);
      && k + |c| <= |path|
      && c == path[k..k + |c|]
      && '/' !in c
      && (k + |c| == |path| || path[k + |c|] == '/')
      && (c == "" <==> k == |path|)
    decreases |path|
  {
    var parts := Split(path, '/');
    assert '/' !in parts[0];
    if |path| == 0 {
    } else if path[0] == '/' {
      FirstComponentShape(path[1..]);
      assert parts == [""] + Split(path[1..], '/');
      assert FirstComponent(path) == FirstComponent(path[1..]);
      var k, c := SlashRun(path[1..]), FirstComponent(path[1..]);
      assert path[1..][k..k + |c|] == path[k + 1..k + 1 + |c|];
    } else {
      SplitHead(path, '/');
      var c := parts[0];
      assert c[0] == path[0];
      assert FirstComponent(path) == c;
      assert path[0..|c|] == path[..|c|];
    }
  }

  /** An empty component means the path holds nothing but slashes. */
  lemma FirstComponentEmpty(path: string)
    ensures FirstComponent(path) == "" <==> forall i | 0 <= i < |path| :: path[i] == '/'
  {
    FirstComponentShape(path);
  }

  // ---------- The dispatch decision of Serve's handler ----------

  /** The collaborators the dispatch handler consults and cannot be seen here:
      url.Parse (None for a parse error, else the parsed path), the vidi and
      veni Comply checks, filepath.Clean, and whether opening a cleaned path
      fails with a not-exist error under ./SONG and under the target directory. */
  datatype Env = Env(parse: string -> Option<string>,
                     vidiComplies: Request -> bool,
                     veniComplies: Request -> bool,
                     clean: string -> string,
                     songNotExist: string -> bool,
                     targetNotExist: string -> bool)

  /** The stage that answers a request. */
  datatype Stage = ViciNotFound | ViciServe | Vidi | Veni | StaticNotFound | StaticServe
  {
    predicate IsVici() { this == ViciNotFound || this == ViciServe }
    predicate WritesNotFound() { this == ViciNotFound || this == StaticNotFound }
  }

  /** The base the handler switches on: the first component, or "" when the
      path does not parse. */
  function Base(path: string, e: Env): string
  {
    match e.parse(path)
    case None => ""
    case Some(p) => FirstComponent(p)
  }

  /** The handler's choice: vici when the lower-cased base is vi, else vidi,
      else veni, else the static file under the target directory. */
  function Decide(vi: string, r: Request, e: Env): Stage
  {
    if ToLower(Base(r.path, e)) == vi then
      if e.songNotExist(e.clean(r.path)) then ViciNotFound else ViciServe
    else if e.vidiComplies(r) then Vidi
    else if e.veniComplies(r) then Veni
    else if e.targetNotExist(e.clean(r.path)) then StaticNotFound
    else StaticServe
  }

  /** When the base names vici, vici answers and neither Comply check nor the
      target directory is consulted. */
  lemma DecideVici(vi: string, r: Request, e: Env,
                   vidi: Request -> bool, veni: Request -> bool, target: string -> bool)
    requires ToLower(Base(r.path, e)) == vi
    ensures Decide(vi, r, e).IsVici()
    ensures Decide(vi, r, e) == ViciNotFound <==> e.songNotExist(e.clean(r.path))
    ensures Decide(vi, r, e)
         == Decide(vi, r, e.(vidiComplies := vidi, veniComplies := veni, targetNotExist := target))
  {
  }

  /** Otherwise exactly one later stage answers, in priority order, and the
      ./SONG directory is not consulted. */
  lemma DecidePriority(vi: string, r: Request, e: Env, song: string -> bool)
    requires ToLower(Base(r.path, e)) != vi
    ensures !Decide(vi, r, e).IsVici()
    ensures Decide(vi, r, e) == Vidi <==> e.vidiComplies(r)
    ensures Decide(vi, r, e) == Veni <==> !e.vidiComplies(r) && e.veniComplies(r)
    ensures Decide(vi, r, e) == StaticNotFound
        <==> !e.vidiComplies(r) && !e.veniComplies(r) && e.targetNotExist(e.clean(r.path))
    ensures Decide(vi, r, e) == StaticServe
        <==> !e.vidiComplies(r) && !e.veniComplies(r) && !e.targetNotExist(e.clean(r.path))
    ensures Decide(vi, r, e) == Decide(vi, r, e.(songNotExist := song))
  {
  }

  /** A vi name with an upper-case letter can never match the lower-cased
      base, so the vici stage is unreachable. */
  lemma ViciNeedsLowerCase(vi: string, r: Request, e: Env)
    requires ToLower(vi) != vi
    ensures !Decide(vi, r, e).IsVici()
  {
    ToLowerIdempotent(Base(r.path, e));
  }

  /** With an empty vi name, every request whose path is all slashes, or
      does not parse, goes to vici. */
  lemma EmptyViciTakesRoot(r: Request, e: Env)
    requires e.parse(r.path).None?
          || forall i | 0 <= i < |e.parse(r.path).value| :: e.parse(r.path).value[i] == '/'
    ensures Decide("", r, e).IsVici()
  {
    if e.parse(r.path).Some? {
      FirstComponentEmpty(e.parse(r.path).value);
    }
  }

  // ---------- The server object ----------

  class Server {
    /** The route tables of the embedded veni context, one per verb. */
    var getApi: Options.Api
    var headApi: Options.Api
    var optionsApi: Options.Api
    var traceApi: Options.Api
    var putApi: Options.Api
    var deleteApi: Options.Api
    var postApi: PostApi.Api
    var patchApi: Options.Api
    var connectApi: Options.Api
    var targetDir: string
    var vi: string

    /** The eight plain tables are eight distinct objects. */
    ghost predicate Valid()
      reads this
    {
      && getApi != headApi && getApi != optionsApi && getApi != traceApi && getApi != putApi
      && getApi != deleteApi && getApi != patchApi && getApi != connectApi
      && headApi != optionsApi && headApi != traceApi && headApi != putApi && headApi != deleteApi
      && headApi != patchApi && headApi != connectApi
      && optionsApi != traceApi && optionsApi != putApi && optionsApi != deleteApi
      && optionsApi != patchApi && optionsApi != connectApi
      && traceApi != putApi && traceApi != deleteApi && traceApi != patchApi && traceApi != connectApi
      && putApi != deleteApi && putApi != patchApi && putApi != connectApi
      && deleteApi != patchApi && deleteApi != connectApi
      && patchApi != connectApi
    }

    /** The contents of the nine tables. */
    ghost function Contents(): Tables
      reads this, getApi, headApi, optionsApi, traceApi, putApi, deleteApi, postApi, patchApi, connectApi
    {
      Tables(getApi.routeMap, headApi.routeMap, optionsApi.routeMap, traceApi.routeMap,
             putApi.routeMap, deleteApi.routeMap, postApi.routeMap, patchApi.routeMap,
             connectApi.routeMap)
    }

    /** InitServer: nine empty tables. */
    constructor InitServer(dir: string, viciName: string)
      ensures Valid()
      ensures targetDir == dir && vi == viciName
      ensures Contents() == EmptyTables
      ensures fresh(getApi) && fresh(headApi) && fresh(optionsApi) && fresh(traceApi) && fresh(putApi)
      ensures fresh(deleteApi) && fresh(postApi) && fresh(patchApi) && fresh(connectApi)
    {
      connectApi := new Options.Api.InitAPI();
      deleteApi := new Options.Api.InitAPI();
      getApi := new Options.Api.InitAPI();
      headApi := new Options.Api.InitAPI();
      optionsApi := new Options.Api.InitAPI();
      patchApi := new Options.Api.InitAPI();
      putApi := new Options.Api.InitAPI();
      traceApi := new Options.Api.InitAPI();
      postApi := new PostApi.Api.InitAPI();
      targetDir := dir;
      vi := viciName;
    }

    /** The AddRoute call on verb v's table. */
    method AddToTable(v: Verb, route: string, h: Handler)
      requires Valid()
      modifies getApi, headApi, optionsApi, traceApi, putApi, deleteApi, postApi, patchApi, connectApi
      ensures Contents() == AddTo(old(Contents()), v, route, h)
    {
      match v
      case GET => getApi.AddRoute(route, h);
      case HEAD => headApi.AddRoute(route, h);
      case OPTIONS => optionsApi.AddRoute(route, h);
      case TRACE => traceApi.AddRoute(route, h);
      case PUT => putApi.AddRoute(route, h);
      case DELETE => deleteApi.AddRoute(route, h);
      case POST => postApi.AddRoute(route, h);
      case PATCH => patchApi.AddRoute(route, h);
      case CONNECT => connectApi.AddRoute(route, h);
    }

    /** Route: files the handler into the verb tables. */
    method Route(pattern: string, handler: Handler)
      requires Valid()
      modifies getApi, headApi, optionsApi, traceApi, putApi, deleteApi, postApi, patchApi, connectApi
      ensures Contents() == Register(old(Contents()), pattern, handler)
    {
      var index := IndexOf(pattern, ' ');
      if index != -1 {
        var target := index + 1;
        var method_ := pattern[0..index];
        var route := pattern[target..];
        var verb := ParseVerb(ToLower(method_));
        if verb.Some? {
          AddToTable(verb.value, route, handler);
          assert Classify(pattern) == Verbed(verb.value, route);
        } else {
          assert Classify(pattern) == Unrecognised(method_);
        }
      } else {
        AddToTable(GET, pattern, handler);
        AddToTable(POST, pattern, handler);
        assert Classify(pattern) == Bare(pattern);
      }
    }

    /** The registrations Serve makes before it starts listening. */
    method Serve()
      requires Valid()
      modifies getApi, headApi, optionsApi, traceApi, putApi, deleteApi, postApi, patchApi, connectApi
      ensures Contents() == ServeRegistrations(old(Contents()))
    {
      Route("/", Dispatcher);
      Route("GET " + SongRoute, SongDoc);
      Route("GET " + VeniRoute, VeniDoc);
      Route("GET " + VidiRoute, VidiDoc);
      Route("GET " + ViciRoute, ViciDoc);
    }

    /** getFirstPathComponent: url.Parse, then the first non-empty component. */
    static method GetFirstPathComponent(urlPath: string, parse: string -> Option<string>)
      returns (component: Option<string>)
      ensures component.None? <==> parse(urlPath).None?
      ensures parse(urlPath).Some? ==> component == Some(FirstComponent(parse(urlPath).value))
    {
      var parsed := parse(urlPath);
      if parsed.None? {
        return None;
      }
      var parts := Split(parsed.value, '/');
      var i := 0;
      while i < |parts|
        invariant 0 <= i <= |parts|
        invariant FirstNonEmpty(parts[i..]) == FirstComponent(parsed.value)
      {
        assert parts[i..][1..] == parts[i + 1..];
        if parts[i] != "" {
          return Some(parts[i]);
        }
        i := i + 1;
      }
      return Some("");
    }

    /** Serve's handler: the stage that answers, and the writer after a 404
        when that stage finds no file (the other stages receive w as it is). */
    method Dispatch(w: Writer, r: Request, e: Env) returns (stage: Stage, w': Writer)
      ensures stage == Decide(vi, r, e)
      ensures w' == if stage.WritesNotFound() then w.WriteHeader(StatusNotFound) else w
    {
      var got := GetFirstPathComponent(r.path, e.parse);
      var base := if got.Some? then got.value else "";
      assert base == Base(r.path, e);
      w' := w;
      if ToLower(base) == vi {
        if e.songNotExist(e.clean(r.path)) {
          w' := w.WriteHeader(StatusNotFound);
          return ViciNotFound, w';
        }
        stage := ViciServe;
      } else if e.vidiComplies(r) {
        stage := Vidi;
      } else if e.veniComplies(r) {
        stage := Veni;
      } else if e.targetNotExist(e.clean(r.path)) {
        w' := w.WriteHeader(StatusNotFound);
        return StaticNotFound, w';
      } else {
        stage := StaticServe;
      }
    }
  }
}
