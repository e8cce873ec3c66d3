# SONG router and Docker dashboard: a Dafny model

SONG is a small Go web server. Its `Server` keeps nine route tables, one
per HTTP verb, inside its veni context. `Route` takes a pattern such as
`"GET /song/"` or a bare `"/"` and files the handler into the right table.
`Serve` installs one dispatching handler under `"/"` plus four
documentation pages. For every request, the dispatching handler picks the
single stage that answers it: the vici directory when the first path
component names it, then the vidi and veni contexts when their `Comply`
checks accept the request, then static files under the target directory.

The route tables come in two kinds:

- `options/options.go` is an exact-path map whose handlers return the
  response writer. The packages of the other eight verb tables are not
  part of this model; their tables are modelled with the map semantics
  of `options/options.go`.
- `post_api/post.go` is the POST table. It also registers every route
  under the route followed by `"/post"`.

The repository's `main.go` is a Docker dashboard built on the same
libraries. The model covers its pure parts:

- parsing the rows of `docker ps`;
- the checks on the run and stop forms;
- the text written for one service of the exported compose file.

Files:

- `wrappers.dfy`: `Option` and `Result`.
- `http.dfy`: handlers, requests, a response writer that records the
  statuses written to it, and the status codes used.
- `gostrings.dfy`: the Go `strings` functions the core relies on, written
  out with their properties. These are `Index`, `ToLower`, `Split`,
  `SplitN`, `Join`, `TrimSpace` and `ContainsAny`.
- `string_order.dfy`: Go's string order and `sort.Strings`, as the sorted
  permutation of its input.
- `options.dfy`, `post_api.dfy`: the two route-table classes, and the
  specification functions for their map updates.
- `song.dfy`: pattern classification, the nine tables as a value, the
  `Server` class (`InitServer`, `Route`, `Serve`, `getFirstPathComponent`,
  the dispatch handler), and the decision the handler makes.
- `docker.dfy`: `runDockerPS`'s loop, the run and stop validators, and the
  per-service text of `buildComposeYAML`.

Where the program depends on something outside the model, that dependency
is a parameter:

- `url.Parse`, `filepath.Clean` and the vidi and veni `Comply` checks;
- whether opening a file reports that it does not exist;
- the handlers themselves;
- the output of `docker ps`;
- Go's map iteration order.

The proofs hold for every value of these parameters.

## Model

| member | source | states |
|---|---|---|
| Options.Added | options/options.go:17-19 | after AddRoute the name maps to the handler, the key set grows by exactly that name, and every other entry is unchanged |
| Options.Removed | options/options.go:21-23 | after RemoveRoute the name is absent, the key set loses exactly that name, and the remaining entries are unchanged |
| Options.AddThenRemoveRestores | options/options.go:17-23 | adding an absent route and then removing it gives back the original table |
| Options.RemoveAbsentIsNoOp | options/options.go:21-23 | removing a route that is not there changes nothing and is not an error |
| Options.LastAddWins | options/options.go:17-19 | a second AddRoute of a name replaces the first |
| Options.Api.InitAPI | options/options.go:11-15 | a new table is empty |
| Options.Api.AddRoute | options/options.go:17-19 | the table becomes Added(old table, name, handler) |
| Options.Api.RemoveRoute | options/options.go:21-23 | the table becomes Removed(old table, name) |
| Options.Api.Process | options/options.go:25-33 | on an exact path match, returns the writer the stored handler returns; otherwise returns the same writer with 404 appended to its statuses |
| PostApi.Alias | post_api/post.go:20 | the alias is the name followed by five more characters, so it always differs from the name |
| PostApi.Added | post_api/post.go:17-22 | AddRoute maps both the name and name + "/post" to the handler, adds exactly those two keys, and leaves every other entry unchanged |
| PostApi.Removed | post_api/post.go:24-29 | RemoveRoute deletes both the name and its alias and nothing else |
| PostApi.AddThenRemoveRestores | post_api/post.go:17-29 | adding a route whose two keys were absent and then removing it gives back the original table |
| PostApi.RemoveAbsentIsNoOp | post_api/post.go:24-29 | removing a route whose two keys are absent changes nothing |
| PostApi.LastAddWins | post_api/post.go:17-22 | a second AddRoute of a name replaces the first under both keys |
| PostApi.AliasShadowsExplicitRoute | post_api/post.go:17-29 | a route registered directly as n + "/post" is overwritten by AddRoute(n) and deleted by RemoveRoute(n) |
| PostApi.Api.InitAPI | post_api/post.go:11-15 | a new table is empty |
| PostApi.Api.AddRoute | post_api/post.go:17-22 | the table becomes PostApi.Added(old table, name, handler) |
| PostApi.Api.RemoveRoute | post_api/post.go:24-29 | the table becomes PostApi.Removed(old table, name) |
| PostApi.Api.Process | post_api/post.go:31-39 | a handler is invoked exactly when the path is a key, and it is the stored handler; otherwise the outcome is 404 |
| Song.ParseVerb | song.go:68-87 | a token is recognised as verb v exactly when it equals v's lower-case case label |
| Song.AddToChangesOneTable | song.go:68-91 | an AddRoute on one verb's table applies that table's update (with the alias for POST) and leaves the other eight tables unchanged |
| Song.RegisterBare | song.go:88-92 | a pattern with no space is added unchanged to the GET and POST tables and to no other |
| Song.RegisterVerbed | song.go:62-87 | with the first space at i, the route is everything after it, later spaces included, and only the table of the verb named before it, in any case, changes |
| Song.RegisterUnrecognised | song.go:68-87 | a verb token that names none of the nine verbs leaves all tables unchanged |
| Song.RegisterCaseInsensitive | song.go:68 | verb tokens that differ only in letter case register identically |
| Song.AddToTwice | song.go:68-91 | two AddRoutes of one route in one table equal the last one alone |
| Song.AddToCommute | song.go:68-91 | AddRoutes on two different tables commute |
| Song.RegisterLastWins | song.go:60-93 | routing a second pattern that differs from the first but is filed alike (such as "get /x" after "GET /x", which the mux accepts side by side) leaves the tables as routing the second alone, so its handler replaces the first |
| Song.RegisterGetDoc | song.go:193-196 | "GET " followed by a space-free route adds the route to the GET table only |
| Song.RegisterAllTables | song.go:192-196 | the five registrations put "/" and the four pages in the GET table, put "/" and "//post" in the POST table, and leave the other seven tables unchanged |
| Song.ServeRegistrationsTables | song.go:192-196 | the same, for the routes Serve actually uses: "/song/", "/song/veni/", "/song/vidi/" and "/song/vici/" |
| Song.FirstComponentShape | song.go:116-133 | the component comes right after the leading slashes, contains no slash, is followed by a slash or the end of the path, and is empty exactly when the path is all slashes |
| Song.FirstComponentEmpty | song.go:122-132 | the component is empty exactly when every character of the path is a slash |
| Song.DecideVici | song.go:150-168 | when the lower-cased base equals vi, vici answers (404 exactly when the file does not exist under ./SONG) and neither Comply check nor the target directory can change the result |
| Song.DecidePriority | song.go:169-187 | otherwise vidi answers exactly when it complies, veni exactly when vidi does not and veni does, and static serving answers in the remaining cases (404 exactly when the file does not exist); ./SONG is never consulted |
| Song.ViciNeedsLowerCase | song.go:150-151 | if vi has an upper-case letter, the vici stage can never be chosen, because the base is lower-cased before the comparison |
| Song.EmptyViciTakesRoot | song.go:145-151 | with an empty vi, a path that does not parse or is all slashes goes to vici |
| Song.Server.InitServer | song.go:37-58 | the nine tables are new objects and start empty, the eight plain tables are distinct, and targetDir and vi are stored |
| Song.Server.AddToTable | song.go:68-87 | the AddRoute call on one verb's table changes the tables as AddTo specifies |
| Song.Server.Route | song.go:60-93 | the new table contents are Register(old contents, pattern, handler) |
| Song.Server.Serve | song.go:192-196 | the new table contents are Serve's five registrations applied to the old ones |
| Song.Server.GetFirstPathComponent | song.go:116-133 | fails exactly when url.Parse fails, and otherwise returns the first non-empty component of the parsed path |
| Song.Server.Dispatch | song.go:144-189 | the stage chosen is Decide(vi, request, environment), and 404 is written exactly when the chosen stage finds no file |
| GoStrings.ToLowerIdempotent | song.go:150 | lower-casing twice is the same as lower-casing once |
| GoStrings.JoinSplit | song.go:123 | joining the pieces of Split gives back the string |
| GoStrings.SplitNPieces | main.go:66 | no piece of SplitN except the last contains a tab, and the last contains one only when all seven pieces were used |
| GoStrings.JoinSplitN | main.go:66 | joining the pieces of SplitN gives back the line |
| GoStrings.SplitNJoin | main.go:66 | SplitN returns unchanged any pieces it could have produced once they are joined |
| GoStrings.TrimSpace | main.go:63 | the result is a slice of the input with only white space outside it, it does not end in white space, and it is empty exactly when the input is all white space |
| StringOrder.Sort | main.go:161 | sort.Strings leaves a sorted permutation of its input |
| StringOrder.SortedUnique | main.go:161 | two sorted arrangements of the same multiset are equal, so the sorted lines do not depend on their original order |
| DockerDemo.RowOfFields | main.go:66-78 | the columns of an accepted row, joined with tabs, give back the line, and none of the first six contains a tab |
| DockerDemo.RowOfRoundTrip | main.go:66-78 | a container whose first six columns contain no tab, written as a tab-separated line, parses back to itself |
| DockerDemo.ParseDockerPS | main.go:63-80 | the loop returns the containers of the trimmed output's lines, in line order, with malformed lines skipped |
| DockerDemo.FilterMapLength | main.go:64-79 | there are never more containers than lines |
| DockerDemo.FilterMapAppend | main.go:65-79 | parsing two runs of lines is parsing them one after the other, so the containers keep their line order |
| DockerDemo.FilterMapAllSome | main.go:65-79 | when every line is well formed, the k-th container comes from the k-th line |
| DockerDemo.BlankOutputHasNoContainers | main.go:63-69 | output that is only white space yields no containers |
| DockerDemo.CheckRun | main.go:202-214 | 405 exactly for a non-POST request; "image required" exactly when the image is all white space; "invalid" exactly when the trimmed name holds a forbidden character; a POST whose trimmed name is non-empty and free of forbidden characters is accepted, and the trimmed name is the result; a refusal carries 405 exactly for a non-POST request and 400 otherwise |
| DockerDemo.CheckStop | main.go:229-237 | 405 exactly for a non-POST request; "id required" exactly when the id is all white space; otherwise the trimmed id is accepted; a refusal carries 405 exactly for a non-POST request and 400 otherwise |
| DockerDemo.TrimSpaceIdempotent | main.go:206 | trimming a trimmed string changes nothing |
| DockerDemo.AcceptedImageIsStable | main.go:206-214 | an accepted image name is accepted again unchanged and holds no forbidden character |
| DockerDemo.PortLinesAppend | main.go:147-159 | visiting the port keys in two runs gives the lines of both runs, in order |
| DockerDemo.PortLinesRemove | main.go:147-159 | taking one key out of the visiting order takes exactly its lines out of the multiset of port lines |
| DockerDemo.PortLinesAround | main.go:147-159 | one key between two runs adds exactly its lines to the multiset of the runs' lines |
| DockerDemo.PortLinesPermutation | main.go:147-159 | any two visiting orders of the same keys produce the same multiset of port lines |
| DockerDemo.SortedPortLines | main.go:160-161 | the canonical port lines are sorted |
| DockerDemo.SortedPortLinesAnyOrder | main.go:147-161 | sorting the lines of any map iteration order gives the canonical lines, so the text does not depend on map order |
| DockerDemo.PortLinesNonEmpty | main.go:145-160 | every key yields at least one line, so a container with ports always gets a ports section |
| DockerDemo.CollectPortLines | main.go:146-159 | the nested loops produce the port lines of the keys in visiting order: "p:p" for an unbound port, one "host:p" per binding otherwise |
| DockerDemo.WritePortItems | main.go:163-165 | the loop writes one quoted list item per port line, in order |
| DockerDemo.WriteEnvItems | main.go:172-174 | the loop writes one list item per environment variable, in order |
| DockerDemo.WritePorts | main.go:145-167 | the ports part is the canonical sorted lines under "ports:", or nothing when there are no lines |
| DockerDemo.WriteEnv | main.go:170-175 | the environment part is the variables under "environment:", or nothing when there are none |
| DockerDemo.BuildService | main.go:138-176 | the text of one service is its svc_ name from the first twelve characters of the id, its image, the canonical sorted ports section and the environment section |

## Left out

- Song.RegisterLastWins: covers only two different patterns that are filed
  alike. Routing the identical pattern a second time panics in the mux at
  song.go:61 before any verb table changes. The model does not capture
  that panic.
- Registration on the standard `http.ServeMux` (song.go:61): the model
  does not record mux patterns. It therefore does not capture the panic
  that `HandleFunc` raises on a duplicate or malformed pattern, nor mux
  routing itself.
- Console output of `Route` and the dispatch handler, `log.Fatal`, and
  `ListenAndServe`: these are I/O.
- `serveDirectory` (song.go:95-114), `http.FileServer`, `http.ServeFile`
  and the file system: opening a file is represented only by the
  does-not-exist predicates in `Song.Env`. Any other open error leads to
  serving, as in the source.
- `url.Parse` and `filepath.Clean` are parameters of `Song.Env`. A parse
  error yields the empty base, as in the source.
- `Song.Server.Dispatch`: the effect on the writer of the stages that
  serve content (the file servers and vidi's and veni's processing) is not
  modelled. Only the 404 the handler itself writes is recorded.
- The veni and vidi contexts: their `Comply` checks are parameters, and
  `ProcessRequest` and `Process` are out of scope. The eight non-POST verb
  packages are not part of this model. Their tables are modelled with the
  semantics of `options/options.go`.
- `PostApi.Api.Process`: a POST handler writes to the response itself.
  The model returns which handler was invoked, or that 404 was written.
- `InitServer`'s port string, veni and vidi names and vidi data manager:
  the port string is used only by `ListenAndServe`. The names and the
  data manager build the veni and vidi contexts, so they reach routing
  only through those contexts' `Comply` checks, which `Song.Env` takes
  as parameters.
- `GoStrings.ToLower`: covers ASCII and Latin-1 plus the two non-ASCII
  runes that lower-case into ASCII (U+0130 and U+212A). Other Unicode case
  mappings are left out.
- Strings are sequences of runes. Go's `id[:12]` slices bytes, which is
  the same for Docker's hexadecimal ids. `BuildService` requires at least
  twelve characters, where Go would panic.
- In `main.go`:
  - running `docker` (`exec`) and `fetchTags` (HTTP and JSON) are I/O;
  - the HTML template, redirects, `stopAll` and the other handlers are
    outside the core.
  - `buildComposeYAML` outside the per-service text is also left out: the
    version and services header, the no-containers message,
    `strings.Fields` on the id list, and inspect or decode errors.
- Go's map iteration order is the parameter `order`, which may be any
  enumeration of the keys.
- `sort.Strings` sorts the slice in place. The model uses the sorted value
  (`StringOrder.Sort`).
- Concurrency between requests is not modelled.
