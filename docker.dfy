/** main.go: the Docker dashboard demo. The docker ps row parser, the
    checks on the run and stop forms, and the text of one compose service.
    Command output arrives as a parameter: nothing here runs docker. */
module DockerDemo {
  import opened Wrappers
  import opened Http
  import opened GoStrings
  import opened StringOrder

  // ---------- runDockerPS: one container per well-formed row ----------

  /** One row of `docker ps`, in the column order of the --format string. */
  datatype Container = Container(id: string, image: string, command: string, created: string,
                                 status: string, ports: string, names: string)

  /** The seven columns of a row, in order. */
  function Fields(c: Container): seq<string>
  {
    [c.id, c.image, c.command, c.created, c.status, c.ports, c.names]
  }

  /** One output line: SplitN on tab into at most seven pieces; a line with
      fewer than seven is malformed and yields nothing. */
  function RowOf(line: string): Option<Container>
  {
    var f := SplitN(line, '\t', 7);
    if |f| < 7 then None
    else Some(Container(f[0], f[1], f[2], f[3], f[4], f[5], f[6]))
  }

  /** An accepted row's columns are the line's pieces: joined with tabs they
      give the line back, and only the last may hold a tab. */
  lemma RowOfFields(line: string)
    ensures RowOf(line).Some? ==> Join(Fields(RowOf(line).value), '\t') == line
    ensures RowOf(line).Some? ==> forall k | 0 <= k < 6 :: '\t' !in Fields(RowOf(line).value)[k]
  {
    var f := SplitN(line, '\t', 7);
    JoinSplitN(line, '\t', 7);
    SplitNPieces(line, '\t', 7);
    if |f| == 7 {
      FieldsOfRow(f);
    }
  }

  /** A container built from seven columns gives those columns back. */
  lemma FieldsOfRow(f: seq<string>)
    requires |f| == 7
    ensures Fields(Container(f[0], f[1], f[2], f[3], f[4], f[5], f[6])) == f
  {
  }

  /** A container whose first six columns hold no tab, written as one line
      with tabs between the columns, parses back to itself; the last column
      may hold tabs. */
  lemma RowOfRoundTrip(c: Container)
    requires forall k | 0 <= k < 6 :: '\t' !in Fields(c)[k]
    ensures RowOf(Join(Fields(c), '\t')) == Some(c)
  {
    assert CutAtSeparators(Fields(c), '\t', 7);
    SplitNJoin(Fields(c), '\t', 7);
    FieldsOfRow(Fields(c));
  }

  /** The results of f on xs, in order, with the Nones dropped. */
  function FilterMap<A, B>(f: A -> Option<B>, xs: seq<A>): seq<B>
  {
    if |xs| == 0 then []
    else
      var init := FilterMap(f, xs[..|xs| - 1]);
      match f(xs[|xs| - 1])
      case Some(y) => init + [y]
      case None => init
  }

  /** The containers of the lines, in line order, malformed lines skipped. */
  function ParseRows(lines: seq<string>): seq<Container>
  {
    FilterMap(RowOf, lines)
  }

  /** The lines docker ps printed: the trimmed output split on newlines. */
  function Lines(out: string): seq<string>
  {
    Split(TrimSpace(out), '\n')
  }

  /** runDockerPS after the command has run: the loop over the lines. */
  method ParseDockerPS(out: string) returns (containers: seq<Container>)
    ensures containers == ParseRows(Lines(out))
  {
    var lines := Lines(out);
    containers := [];
    var i := 0;
    while i < |lines|
      invariant 0 <= i <= |lines|
      invariant containers == FilterMap(RowOf, lines[..i])
    {
      assert lines[..i + 1][..i] == lines[..i];
      var row := RowOf(lines[i]);
      if row.Some? {
        containers := containers + [row.value];
      }
      i := i + 1;
    }
    assert lines[..|lines|] == lines;
  }

  /** No more results than inputs: no more containers than lines. */
  lemma {:induction false} FilterMapLength<A, B>(f: A -> Option<B>, xs: seq<A>)
    ensures |FilterMap(f, xs)| <= |xs|
  {
    if |xs| > 0 {
      FilterMapLength(f, xs[..|xs| - 1]);
    }
  }

  /** FilterMap distributes over concatenation: containers keep the order of
      their lines. */
  lemma {:induction false} FilterMapAppend<A, B>(f: A -> Option<B>, a: seq<A>, b: seq<A>)
    ensures FilterMap(f, a + b) == FilterMap(f, a) + FilterMap(f, b)
    decreases |b|
  {
    if |b| > 0 {
      var b' := b[..|b| - 1];
      assert (a + b)[..|a + b| - 1] == a + b';
      assert (a + b)[|a + b| - 1] == b[|b| - 1];
      FilterMapAppend(f, a, b');
    } else {
      assert a + b == a;
    }
  }

  /** When f accepts every input, the k-th result is f's value on the k-th
      input: with every line well formed, one container per line. */
  lemma {:induction false} FilterMapAllSome<A, B>(f: A -> Option<B>, xs: seq<A>)
    requires forall k | 0 <= k < |xs| :: f(xs[k]).Some?
    ensures |FilterMap(f, xs)| == |xs|
    ensures forall k | 0 <= k < |xs| :: FilterMap(f, xs)[k] == f(xs[k]).value
  {
    if |xs| > 0 {
      var init := xs[..|xs| - 1];
      assert forall k | 0 <= k < |init| :: init[k] == xs[k];
      FilterMapAllSome(f, init);
      assert FilterMap(f, xs) == FilterMap(f, init) + [f(xs[|xs| - 1]).value];
    }
  }

  /** Output that is nothing but white space yields no containers. */
  lemma BlankOutputHasNoContainers(out: string)
    requires AllSpace(out)
    ensures ParseRows(Lines(out)) == []
  {
    assert Lines(out) == [""];
    assert SplitN("", '\t', 7) == [""];
  }

  // ---------- runContainerHandler and stopContainerHandler ----------

  /** Why a form was refused. */
  datatype Rejection = MethodNotAllowed | ImageRequired | InvalidImageName | ContainerIdRequired
  {
    /** The status http.Error writes for it. */
    function Status(): int
    {
      if this == MethodNotAllowed then StatusMethodNotAllowed else StatusBadRequest
    }
  }

  /** The characters an image name may not contain. */
  const ForbiddenInImage: string := " \t\r\n\"'`$&|<>"

  /** The checks before `docker run`: POST only, a trimmed image name that
      is not empty and holds none of the forbidden characters. */
  function CheckRun(verb: string, image: string): (r: Result<string, Rejection>)
    ensures r == Failure(MethodNotAllowed) <==> verb != "POST"
    ensures r == Failure(ImageRequired) <==> verb == "POST" && AllSpace(image)
    ensures r == Failure(InvalidImageName)
        <==> verb == "POST" && !AllSpace(image)
             && exists i | 0 <= i < |TrimSpace(image)| :: TrimSpace(image)[i] in ForbiddenInImage
    ensures r.Success? <==> verb == "POST" && !AllSpace(image) && !ContainsAny(TrimSpace(image), ForbiddenInImage)
    ensures r.Success? ==> r.value == TrimSpace(image)
    ensures r.Failure? ==> (r.error.Status() == StatusMethodNotAllowed <==> verb != "POST")
    ensures r.Failure? ==> (r.error.Status() == StatusBadRequest <==> verb == "POST")
  {
    var name := TrimSpace(image);
    if verb != "POST" then Failure(MethodNotAllowed)
    else if name == "" then Failure(ImageRequired)
    else if ContainsAny(name, ForbiddenInImage) then Failure(InvalidImageName)
    else Success(name)
  }

  /** The checks before `docker stop`: POST only and a trimmed id that is
      not empty. */
  function CheckStop(verb: string, id: string): (r: Result<string, Rejection>)
    ensures r == Failure(MethodNotAllowed) <==> verb != "POST"
    ensures r == Failure(ContainerIdRequired) <==> verb == "POST" && AllSpace(id)
    ensures r.Success? <==> verb == "POST" && !AllSpace(id)
    ensures r.Success? ==> r.value == TrimSpace(id)
    ensures r.Failure? ==> (r.error.Status() == StatusMethodNotAllowed <==> verb != "POST")
    ensures r.Failure? ==> (r.error.Status() == StatusBadRequest <==> verb == "POST")
  {
    var trimmed := TrimSpace(id);
    if verb != "POST" then Failure(MethodNotAllowed)
    else if trimmed == "" then Failure(ContainerIdRequired)
    else Success(trimmed)
  }

  /** A trimmed string is its own trim. */
  lemma TrimSpaceIdempotent(s: string)
    ensures TrimSpace(TrimSpace(s)) == TrimSpace(s)
  {
    var t := TrimSpace(s);
    if t != "" {
      assert SkipSpace(t, 0) == 0;
      assert DropSpace(t, 0, |t|) == |t|;
      assert t[0..|t|] == t;
    }
  }

  /** An image name the run form accepts is accepted again as it stands:
      it has no white space at its ends and none of the forbidden runes. */
  lemma AcceptedImageIsStable(verb: string, image: string)
    requires CheckRun(verb, image).Success?
    ensures CheckRun("POST", CheckRun(verb, image).value) == CheckRun(verb, image)
    ensures forall i | 0 <= i < |CheckRun(verb, image).value|
              :: CheckRun(verb, image).value[i] !in ForbiddenInImage
  {
    TrimSpaceIdempotent(image);
  }

  // ---------- buildComposeYAML: the text of one service ----------

  /** One host binding of a container port; only HostPort is written. */
  datatype Binding = Binding(hostIp: string, hostPort: string)

  /** The port lines of one "port/proto" key: "p:p" when the port is
      unbound, else one "host:p" per binding, in binding order. */
  function KeyLines(key: string, bindings: seq<Binding>): (lines: seq<string>)
    ensures |lines| == if |bindings| == 0 then 1 else |bindings|
  {
    var containerPort := Split(key, '/')[0];
    if |bindings| == 0 then [containerPort + ":" + containerPort]
    else seq(|bindings|, i requires 0 <= i < |bindings| => bindings[i].hostPort + ":" + containerPort)
  }

  /** Every key in the visiting order is a key of the port map. */
  predicate KeysIn(ports: map<string, seq<Binding>>, order: seq<string>)
  {
    forall k | 0 <= k < |order| :: order[k] in ports
  }

  /** The port lines in the order the keys are visited. */
  function PortLines(ports: map<string, seq<Binding>>, order: seq<string>): seq<string>
    requires KeysIn(ports, order)
  {
    if |order| == 0 then []
    else
      var last := order[|order| - 1];
      PortLines(ports, order[..|order| - 1]) + KeyLines(last, ports[last])
  }

  /** Visiting the keys in two runs visits them in one. */
  lemma {:induction false} PortLinesAppend(ports: map<string, seq<Binding>>, a: seq<string>, b: seq<string>)
    requires KeysIn(ports, a) && KeysIn(ports, b)
    ensures KeysIn(ports, a + b)
    ensures PortLines(ports, a + b) == PortLines(ports, a) + PortLines(ports, b)
    decreases |b|
  {
    assert KeysIn(ports, a + b) by {
      forall k | 0 <= k < |a + b| ensures (a + b)[k] in ports {
        if k >= |a| {
          assert (a + b)[k] == b[k - |a|];
        }
      }
    }
    if |b| == 0 {
      assert a + b == a;
    } else {
      var b' := b[..|b| - 1];
      assert (a + b)[..|a + b| - 1] == a + b';
      assert (a + b)[|a + b| - 1] == b[|b| - 1];
      PortLinesAppend(ports, a, b');
    }
  }

  /** Taking the key at j out of the visiting order takes its lines out. */
  lemma PortLinesRemove(ports: map<string, seq<Binding>>, o: seq<string>, j: nat)
    requires KeysIn(ports, o)
    requires j < |o|
    ensures KeysIn(ports, o[..j] + o[j + 1..])
    ensures multiset(PortLines(ports, o))
         == multiset(PortLines(ports, o[..j] + o[j + 1..])) + multiset(KeyLines(o[j], ports[o[j]]))
  {
    var a, x, b := o[..j], o[j], o[j + 1..];
    SplitAround(o, j);
    assert KeysIn(ports, a) by {
      assert forall k | 0 <= k < |a| :: a[k] == o[k];
    }
    assert KeysIn(ports, b) by {
      assert forall k | 0 <= k < |b| :: b[k] == o[j + 1 + k];
    }
    PortLinesAround(ports, a, x, b);
  }

  lemma SplitAround<T>(o: seq<T>, j: nat)
    requires j < |o|
    ensures o == o[..j] + [o[j]] + o[j + 1..]
  {
  }

  /** The lines of a + [x] + b, against those of a + b. */
  lemma PortLinesAround(ports: map<string, seq<Binding>>, a: seq<string>, x: string, b: seq<string>)
    requires KeysIn(ports, a) && x in ports && KeysIn(ports, b)
    ensures KeysIn(ports, a + [x] + b) && KeysIn(ports, a + b)
    ensures multiset(PortLines(ports, a + [x] + b))
         == multiset(PortLines(ports, a + b)) + multiset(KeyLines(x, ports[x]))
  {
    var pa, px, pb := PortLines(ports, a), KeyLines(x, ports[x]), PortLines(ports, b);
    assert PortLines(ports, [x]) == px by {
      assert [x][..0] == [];
    }
    PortLinesAppend(ports, a, [x]);
    PortLinesAppend(ports, a + [x], b);
    PortLinesAppend(ports, a, b);
    assert multiset(pa + px + pb) == multiset(pa + pb) + multiset(px);
  }

  /** Removing x from o1 and from o2 keeps their multisets equal. */
  lemma MultisetRemove(o1: seq<string>, o2: seq<string>, j: nat)
    requires |o2| > 0 && j < |o1| && o1[j] == o2[|o2| - 1]
    requires multiset(o1) == multiset(o2)
    ensures multiset(o1[..j] + o1[j + 1..]) == multiset(o2[..|o2| - 1])
  {
    var x := o1[j];
    assert o1 == o1[..j] + [x] + o1[j + 1..];
    assert o2 == o2[..|o2| - 1] + [x];
    calc {
      multiset(o1);
      multiset(o1[..j] + [x]) + multiset(o1[j + 1..]);
      multiset(o1[..j] + o1[j + 1..]) + multiset{x};
    }
    assert multiset(o1[..j] + o1[j + 1..]) == multiset(o1) - multiset{x};
  }

  /** The multiset of port lines does not depend on the order the keys are
      visited in: Go's map iteration order cannot change which lines exist. */
  lemma {:induction false} PortLinesPermutation(ports: map<string, seq<Binding>>, o1: seq<string>, o2: seq<string>)
    requires KeysIn(ports, o1)
    requires KeysIn(ports, o2)
    requires multiset(o1) == multiset(o2)
    ensures multiset(PortLines(ports, o1)) == multiset(PortLines(ports, o2))
    decreases |o2|
  {
    if |o2| > 0 {
      var x := o2[|o2| - 1];
      var o2' := o2[..|o2| - 1];
      assert x in multiset(o1);
      var j :| 0 <= j < |o1| && o1[j] == x;
      MultisetRemove(o1, o2, j);
      PortLinesRemove(ports, o1, j);
      assert forall k | 0 <= k < |o2'| :: o2'[k] == o2[k];
      PortLinesPermutation(ports, o1[..j] + o1[j + 1..], o2');
    }
  }

  /** Some enumeration of a set of keys, standing for map iteration order. */
  ghost function KeyOrder(keys: set<string>): (order: seq<string>)
    ensures |order| == |keys|
    ensures forall k | 0 <= k < |order| :: order[k] in keys
    ensures forall key | key in keys :: key in order
    ensures multiset(order) == multiset(keys)
    decreases |keys|
  {
    if keys == {} then []
    else
      var key :| key in keys;
      [key] + KeyOrder(keys - {key})
  }

  /** An order that lists every key of the map exactly once. */
  predicate IsKeyOrder(ports: map<string, seq<Binding>>, order: seq<string>)
  {
    && KeysIn(ports, order)
    && multiset(order) == multiset(ports.Keys)
  }

  /** The port lines as sort.Strings leaves them, whatever order the map was
      visited in. */
  ghost function SortedPortLines(ports: map<string, seq<Binding>>): (lines: seq<string>)
    ensures Sorted(lines)
  {
    Sort(PortLines(ports, KeyOrder(ports.Keys)))
  }

  /** Sorting the port lines of any key order gives the canonical lines. */
  lemma SortedPortLinesAnyOrder(ports: map<string, seq<Binding>>, order: seq<string>)
    requires IsKeyOrder(ports, order)
    ensures Sort(PortLines(ports, order)) == SortedPortLines(ports)
  {
    var canonical := KeyOrder(ports.Keys);
    PortLinesPermutation(ports, order, canonical);
    SortedUnique(Sort(PortLines(ports, order)), Sort(PortLines(ports, canonical)));
  }

  /** Every key yields at least one line, so a service with ports has a
      ports section. */
  lemma {:induction false} PortLinesNonEmpty(ports: map<string, seq<Binding>>, order: seq<string>)
    requires KeysIn(ports, order)
    ensures |PortLines(ports, order)| >= |order|
  {
    if |order| > 0 {
      PortLinesNonEmpty(ports, order[..|order| - 1]);
    }
  }

  /** One entry of the ports list: the line in double quotes. */
  function PortItem(line: string): string
  {
    "      - \"" + line + "\"\n"
  }

  /** One entry of the environment list, unquoted. */
  function EnvItem(variable: string): string
  {
    "      - " + variable + "\n"
  }

  function PortItems(lines: seq<string>): string
  {
    if |lines| == 0 then ""
    else PortItems(lines[..|lines| - 1]) + PortItem(lines[|lines| - 1])
  }

  function EnvItems(env: seq<string>): string
  {
    if |env| == 0 then ""
    else EnvItems(env[..|env| - 1]) + EnvItem(env[|env| - 1])
  }

  /** The first two lines of a service: its name and its image. */
  function ServiceHeader(id: string, image: string): string
    requires |id| >= 12
  {
    "  svc_" + id[..12] + ":\n" + "    image: " + image + "\n"
  }

  /** The ports section, written only when there are port lines. */
  function PortsSection(lines: seq<string>): string
  {
    if |lines| == 0 then "" else "    ports:\n" + PortItems(lines)
  }

  /** The environment section, written only when there are variables. */
  function EnvSection(env: seq<string>): string
  {
    if |env| == 0 then "" else "    environment:\n" + EnvItems(env)
  }

  /** The service text: name, image, the sorted ports section when there
      are port lines, the environment section when there are variables. */
  function ServiceText(id: string, image: string, lines: seq<string>, env: seq<string>): string
    requires |id| >= 12
  {
    ServiceHeader(id, image) + PortsSection(lines) + EnvSection(env)
  }

  /** The loop over the port map: the port lines in visiting order. */
  method CollectPortLines(ports: map<string, seq<Binding>>, order: seq<string>)
    returns (portLines: seq<string>)
    requires KeysIn(ports, order)
    ensures portLines == PortLines(ports, order)
  {
    portLines := [];
    var i := 0;
    while i < |order|
      invariant 0 <= i <= |order|
      invariant portLines == PortLines(ports, order[..i])
    {
      assert order[..i + 1][..i] == order[..i];
      var key := order[i];
      var bindings := ports[key];
      var containerPort := Split(key, '/')[0];
      if |bindings| == 0 {
        portLines := portLines + [containerPort + ":" + containerPort];
      } else {
        var j := 0;
        ghost var before := portLines;
        while j < |bindings|
          invariant 0 <= j <= |bindings|
          invariant portLines == before + KeyLines(key, bindings)[..j]
        {
          assert KeyLines(key, bindings)[..j + 1]
              == KeyLines(key, bindings)[..j] + [bindings[j].hostPort + ":" + containerPort];
          portLines := portLines + [bindings[j].hostPort + ":" + containerPort];
          j := j + 1;
        }
        assert KeyLines(key, bindings)[..j] == KeyLines(key, bindings);
      }
      i := i + 1;
    }
    assert order[..|order|] == order;
  }

  /** The loop writing the ports list. */
  method WritePortItems(lines: seq<string>) returns (items: string)
    ensures items == PortItems(lines)
  {
    items := "";
    var k := 0;
    while k < |lines|
      invariant 0 <= k <= |lines|
      invariant items == PortItems(lines[..k])
    {
      assert lines[..k + 1][..k] == lines[..k];
      items := items + PortItem(lines[k]);
      k := k + 1;
    }
    assert lines[..k] == lines;
  }

  /** The loop writing the environment list. */
  method WriteEnvItems(env: seq<string>) returns (items: string)
    ensures items == EnvItems(env)
  {
    items := "";
    var k := 0;
    while k < |env|
      invariant 0 <= k <= |env|
      invariant items == EnvItems(env[..k])
    {
      assert env[..k + 1][..k] == env[..k];
      items := items + EnvItem(env[k]);
      k := k + 1;
    }
    assert env[..k] == env;
  }

  /** The ports part of a service: nothing for a container without ports,
      else the lines sorted and written under "ports:". */
  method WritePorts(ports: map<string, seq<Binding>>, order: seq<string>) returns (section: string)
    requires IsKeyOrder(ports, order)
    ensures section == PortsSection(SortedPortLines(ports))
  {
    section := "";
    SortedPortLinesAnyOrder(ports, order);
    if |ports| > 0 {
      var portLines := CollectPortLines(ports, order);
      if |portLines| > 0 {
        portLines := Sort(portLines);
        var items := WritePortItems(portLines);
        section := "    ports:\n" + items;
      }
    } else {
      assert multiset(ports.Keys) == multiset{};
      assert |multiset(order)| == 0;
      assert PortLines(ports, order) == [];
    }
  }

  /** The environment part of a service. */
  method WriteEnv(env: seq<string>) returns (section: string)
    ensures section == EnvSection(env)
  {
    section := "";
    if |env| > 0 {
      var items := WriteEnvItems(env);
      section := "    environment:\n" + items;
    }
  }

  /** The text buildComposeYAML writes for one inspected container. The
      id must hold at least twelve characters, as id[:12] demands. */
  method BuildService(id: string, image: string, ports: map<string, seq<Binding>>,
                      env: seq<string>, order: seq<string>)
    returns (text: string)
    requires |id| >= 12
    requires IsKeyOrder(ports, order)
    ensures text == ServiceText(id, image, SortedPortLines(ports), env)
  {
    text := "  svc_" + id[..12] + ":\n";
    text := text + "    image: " + image + "\n";
    var portsPart := WritePorts(ports, order);
    text := text + portsPart;
    var envPart := WriteEnv(env);
    text := text + envPart;
  }
}
