/** The generated file contents (src/lib/templates/fileContents.js): the
    entry file parameterised by the port, the constant route and controller
    files, and the package manifest record. The text pieces below are the
    template literals of the source cut at their interpolations and at the
    module specifiers, so that the properties can name them. */
module Templates {
  import opened Prelude
  import opened FileSystem

  /** Module specifiers, as segments: the entry file loads the route file,
      the route file loads the controller. */
  const RouteModule: seq<string> := [".", "src", "routes", "main.route"]
  const ControllerModule: seq<string> := ["..", "controllers", "main.controller"]
  /** The specifier texts `./src/routes/main.route` and
      `../controllers/main.controller`: the segments joined by `/`. */
  const RouteSpecifier: string := JoinSlash(RouteModule)
  const ControllerSpecifier: string := JoinSlash(ControllerModule)

  /** The handler name the controller exports and the route imports. */
  const Endpoint: string := "mainEndpoint"

  const AppImports: string :=
    "\nconst cors = require('cors');" + "\nconst helmet = require('helmet');"
    + "\nconst express = require('express');" + "\nconst mainRoute = "
  const AppSetup: string := ";\n\nconst app = express();\n"
  const PortLinePrefix: string := "const PORT = process.env.PORT || "
  const AppBody: string := MiddlewareText + RoutesText
  const MiddlewareText: string :=
    "\n\n// Middleware setup for security" + " and data parsing"
    + "\napp.use(cors());" + "\napp.use(helmet());" + "\napp.use(express.json());"
  const RoutesText: string :=
    "\napp.use(express.urlencoded(" + "{ extended:false }));"
    + "\n\n// Routes" + "\napp.use('/', mainRoute);" + "\n\n// Start server\n"
  const ListenPrefix: string := "app.listen(PORT, () => console.log(" + "'Server up and running on port "
  const AppEnd: string := "'));\n"

  /** `${port || 3000}`: a truthy (non-empty) port, else 3000. */
  function PortOrDefault(port: Option<string>): (r: string)
    ensures r != ""
    ensures port.Some? && port.value != "" ==> r == port.value
    ensures port.None? || port.value == "" ==> r == "3000"
  {
    if port.Some? && port.value != "" then port.value else "3000"
  }

  /** `${port}`: the raw value; an absent port prints as `undefined`. */
  function RawPort(port: Option<string>): (r: string)
    ensures port.Some? ==> r == port.value
    ensures port.None? ==> r == "undefined"
  {
    if port.Some? then port.value else "undefined"
  }

  function Require(specifier: string): string {
    "require('" + specifier + "')"
  }

  /** The PORT line: the environment first, then the port or its default. */
  function PortLine(port: Option<string>): string {
    PortLinePrefix + (PortOrDefault(port) + ";")
  }

  /** The start-up message, which prints the raw port. */
  function ListenLine(port: Option<string>): string {
    ListenPrefix + (RawPort(port) + AppEnd)
  }

  function AppHead(): string {
    AppImports + Require(RouteSpecifier) + AppSetup
  }

  /** `appFileContent(port)`. */
  function AppFileContent(port: Option<string>): (r: string)
    ensures Contains(r, PortLine(port))
    ensures Contains(r, ListenLine(port))
    ensures Contains(r, Require(RouteSpecifier))
  {
    var tail := AppBody + ListenLine(port);
    var r := AppHead() + (PortLine(port) + tail);
    ContainsSelf(PortLine(port));
    ContainsAppendLeft(PortLine(port), tail, PortLine(port));
    ContainsAppendRight(AppHead(), PortLine(port) + tail, PortLine(port));
    ContainsSelf(ListenLine(port));
    ContainsAppendRight(AppBody, ListenLine(port), ListenLine(port));
    ContainsAppendRight(PortLine(port), tail, ListenLine(port));
    ContainsAppendRight(AppHead(), PortLine(port) + tail, ListenLine(port));
    ContainsSelf(Require(RouteSpecifier));
    ContainsAppendRight(AppImports, Require(RouteSpecifier), Require(RouteSpecifier));
    ContainsAppendLeft(AppImports + Require(RouteSpecifier), AppSetup, Require(RouteSpecifier));
    ContainsAppendLeft(AppHead(), PortLine(port) + tail, Require(RouteSpecifier));
    r
  }

  /** Different non-empty ports give different entry files. */
  lemma AppFileDistinguishesPorts(a: string, b: string)
    requires a != "" && b != ""
    requires AppFileContent(Some(a)) == AppFileContent(Some(b))
    ensures a == b
  {
    var ta, tb := AppBody + ListenLine(Some(a)), AppBody + ListenLine(Some(b));
    assert |ta| == |AppBody| + |ListenPrefix| + |a| + |AppEnd|;
    assert |tb| == |AppBody| + |ListenPrefix| + |b| + |AppEnd|;
    assert |a| == |b|;
    AppendCancel(AppHead(), PortLine(Some(a)) + ta, AppHead(), PortLine(Some(b)) + tb);
    AppendCancel(PortLine(Some(a)), ta, PortLine(Some(b)), tb);
    AppendCancel(PortLinePrefix, a + ";", PortLinePrefix, b + ";");
    AppendCancel(a, ";", b, ";");
  }

  /** An absent port and an empty one both bind 3000, but the listen message
      tells them apart: the raw value is printed without a fallback. */
  lemma AbsentAndEmptyPortDiffer()
    ensures PortOrDefault(None) == PortOrDefault(Some("")) == "3000"
    ensures AppFileContent(None) != AppFileContent(Some(""))
  {
    assert |ListenLine(None)| == |ListenLine(Some(""))| + |"undefined"|;
    assert |AppFileContent(None)| == |AppFileContent(Some(""))| + |"undefined"|;
  }

  /** A character other than `/` that no segment holds is not in the joined text. */
  lemma {:induction false} JoinSlashAvoids(segments: seq<string>, c: char)
    requires c != '/' && forall k :: 0 <= k < |segments| ==> c !in segments[k]
    ensures c !in JoinSlash(segments)
  {
    if |segments| > 1 {
      JoinSlashAvoids(segments[1..], c);
      NotInAppend(segments[0] + "/", JoinSlash(segments[1..]), c);
    }
  }

  lemma NotInAppend(a: string, b: string, c: char)
    requires c !in a && c !in b
    ensures c !in a + b
  {
    assert forall i :: 0 <= i < |a + b| ==> (a + b)[i] == if i < |a| then a[i] else b[i - |a|];
  }

  /** The fixed pieces of the entry file avoid the digit 3, piece by piece. */
  lemma ImportsHaveNoThree()
    ensures '3' !in AppImports
  {
    NotInAppend("\nconst cors = require('cors');", "\nconst helmet = require('helmet');", '3');
    NotInAppend("\nconst cors = require('cors');" + "\nconst helmet = require('helmet');", "\nconst express = require('express');", '3');
    NotInAppend("\nconst cors = require('cors');" + "\nconst helmet = require('helmet');" + "\nconst express = require('express');", "\nconst mainRoute = ", '3');
  }

  lemma MiddlewareHasNoThree()
    ensures '3' !in MiddlewareText
  {
    NotInAppend("\n\n// Middleware setup for security", " and data parsing", '3');
    NotInAppend("\n\n// Middleware setup for security" + " and data parsing", "\napp.use(cors());", '3');
    NotInAppend("\n\n// Middleware setup for security" + " and data parsing" + "\napp.use(cors());", "\napp.use(helmet());", '3');
    NotInAppend("\n\n// Middleware setup for security" + " and data parsing" + "\napp.use(cors());" + "\napp.use(helmet());", "\napp.use(express.json());", '3');
  }

  lemma RoutesHasNoThree()
    ensures '3' !in RoutesText
  {
    NotInAppend("\napp.use(express.urlencoded(", "{ extended:false }));", '3');
    NotInAppend("\napp.use(express.urlencoded(" + "{ extended:false }));", "\n\n// Routes", '3');
    NotInAppend("\napp.use(express.urlencoded(" + "{ extended:false }));" + "\n\n// Routes", "\napp.use('/', mainRoute);", '3');
    NotInAppend("\napp.use(express.urlencoded(" + "{ extended:false }));" + "\n\n// Routes" + "\napp.use('/', mainRoute);", "\n\n// Start server\n", '3');
  }

  lemma BodyHasNoThree()
    ensures '3' !in AppBody
  {
    MiddlewareHasNoThree();
    RoutesHasNoThree();
    NotInAppend(MiddlewareText, RoutesText, '3');
  }

  lemma ListenPrefixHasNoThree()
    ensures '3' !in ListenPrefix
  {
    NotInAppend("app.listen(PORT, () => console.log(", "'Server up and running on port ", '3');
  }

  lemma FixedTextHasNoThree()
    ensures '3' !in AppImports
    ensures '3' !in AppSetup
    ensures '3' !in PortLinePrefix
    ensures '3' !in AppBody
    ensures '3' !in ListenPrefix
    ensures '3' !in AppEnd
    ensures '3' !in Require(RouteSpecifier)
  {
    ImportsHaveNoThree();
    BodyHasNoThree();
    ListenPrefixHasNoThree();
    JoinSlashAvoids(RouteModule, '3');
    NotInAppend("require('", RouteSpecifier, '3');
    NotInAppend("require('" + RouteSpecifier, "')", '3');
  }

  /** The port is the only number in the entry file: for a port without the
      digit 3 the text contains no `3000`, so no fallback port is hidden in
      the fixed text. */
  lemma NoOtherPortLiteral(port: string)
    requires port != "" && '3' !in port
    ensures !Contains(AppFileContent(Some(port)), "3000")
  {
    var p := Some(port);
    FixedTextHasNoThree();
    NotInAppend(port, ";", '3');
    NotInAppend(PortLinePrefix, port + ";", '3');
    NotInAppend(port, AppEnd, '3');
    NotInAppend(ListenPrefix, port + AppEnd, '3');
    NotInAppend(AppBody, ListenLine(p), '3');
    NotInAppend(PortLine(p), AppBody + ListenLine(p), '3');
    NotInAppend(AppImports, Require(RouteSpecifier), '3');
    NotInAppend(AppImports + Require(RouteSpecifier), AppSetup, '3');
    NotInAppend(AppHead(), PortLine(p) + (AppBody + ListenLine(p)), '3');
    assert AppFileContent(p) == AppHead() + (PortLine(p) + (AppBody + ListenLine(p)));
    NoThreeNoPort(AppFileContent(p));
  }

  /** A text without the digit 3 does not contain `3000`. */
  lemma NoThreeNoPort(r: string)
    requires '3' !in r
    ensures !Contains(r, "3000")
  {
    forall i, j | 0 <= i <= j <= |r|
      ensures r[i..j] != "3000"
    {
      if j - i == 4 { assert r[i..j][0] == r[i]; }
    }
  }

  const RouteHead: string := "\nconst router = require('express').Router();\nconst "
  const RouteGet: string := ";\n\n// Root endpoint route\n"
  const RouteTail: string := ";\n\nmodule.exports = router;\n  "

  /** The route file's import of the handler from the controller. */
  function RouteImport(): string {
    "{ " + Endpoint + " } = " + Require(ControllerSpecifier)
  }

  /** The `GET /` mount of the route file. */
  function RouteMount(): string {
    "router.get('/', " + Endpoint + ")"
  }

  /** `routeFileContent()`. */
  function RouteFileContent(): (r: string)
    ensures Contains(r, RouteImport())
    ensures Contains(r, RouteMount())
  {
    var rest := RouteGet + (RouteMount() + RouteTail);
    var r := RouteHead + (RouteImport() + rest);
    ContainsSelf(RouteImport());
    ContainsAppendLeft(RouteImport(), rest, RouteImport());
    ContainsAppendRight(RouteHead, RouteImport() + rest, RouteImport());
    ContainsSelf(RouteMount());
    ContainsAppendLeft(RouteMount(), RouteTail, RouteMount());
    ContainsAppendRight(RouteGet, RouteMount() + RouteTail, RouteMount());
    ContainsAppendRight(RouteImport(), rest, RouteMount());
    ContainsAppendRight(RouteHead, RouteImport() + rest, RouteMount());
    r
  }

  const ControllerHead: string := "\n\nconst "
  const ControllerArrow: string := " = async (req, res) => {\n  "
  const ControllerTry: string := "try {"
  const ControllerSuccessNote: string := "\n    // Success response for root endpoint\n    "
  const ControllerCatch: string := "catch (e) {"
  const ControllerErrorNote: string := "\n    // Error handling for server issues\n    console.error(e)\n    "
  const ControllerBetween: string := "\n  } "
  const ControllerTail: string := "\n  }\n}\n\n"
  const ControllerEnd: string := "\n  "
  const Status200: string := "res.status(200)"
  const Status500: string := "res.status(500)"

  /** The reply of the try block. */
  function SuccessResponse(): string {
    Status200 + ".json({res: 'Your API is up and running  \U{1F680}'})"
  }

  /** The reply of the catch block. */
  function ErrorResponse(): string {
    Status500 + ".json({res: 'Server Error'})"
  }

  function TryBlock(): string {
    ControllerTry + ControllerSuccessNote + SuccessResponse()
  }

  function CatchBlock(): string {
    ControllerCatch + ControllerErrorNote + ErrorResponse()
  }

  function ControllerExport(): string {
    "module.exports = {\n  " + Endpoint + "\n}"
  }

  /** `controllerFileContent()`: a handler that answers 200 from its try block
      and 500 from its catch block, exported under the name the route imports. */
  function ControllerFileContent(): (r: string)
    ensures Contains(r, TryBlock()) && Contains(TryBlock(), Status200)
    ensures Contains(r, CatchBlock()) && Contains(CatchBlock(), Status500)
    ensures Contains(r, ControllerExport()) && Contains(ControllerExport(), Endpoint)
  {
    var a := ControllerHead + Endpoint + ControllerArrow;
    var e := ControllerTail + (ControllerExport() + ControllerEnd);
    var c := ControllerBetween + (CatchBlock() + e);
    var r := a + (TryBlock() + c);
    ContainsSelf(TryBlock());
    ContainsAppendLeft(TryBlock(), c, TryBlock());
    ContainsAppendRight(a, TryBlock() + c, TryBlock());
    ContainsSelf(CatchBlock());
    ContainsAppendLeft(CatchBlock(), e, CatchBlock());
    ContainsAppendRight(ControllerBetween, CatchBlock() + e, CatchBlock());
    ContainsAppendRight(TryBlock(), c, CatchBlock());
    ContainsAppendRight(a, TryBlock() + c, CatchBlock());
    ContainsSelf(ControllerExport());
    ContainsAppendLeft(ControllerExport(), ControllerEnd, ControllerExport());
    ContainsAppendRight(ControllerTail, ControllerExport() + ControllerEnd, ControllerExport());
    ContainsAppendRight(CatchBlock(), e, ControllerExport());
    ContainsAppendRight(ControllerBetween, CatchBlock() + e, ControllerExport());
    ContainsAppendRight(TryBlock(), c, ControllerExport());
    ContainsAppendRight(a, TryBlock() + c, ControllerExport());
    ContainsSelf(Status200);
    ContainsAppendLeft(Status200, ".json({res: 'Your API is up and running  \U{1F680}'})", Status200);
    ContainsAppendRight(ControllerTry + ControllerSuccessNote, SuccessResponse(), Status200);
    ContainsSelf(Status500);
    ContainsAppendLeft(Status500, ".json({res: 'Server Error'})", Status500);
    ContainsAppendRight(ControllerCatch + ControllerErrorNote, ErrorResponse(), Status500);
    ContainsSelf(Endpoint);
    ContainsAppendRight("module.exports = {\n  ", Endpoint, Endpoint);
    ContainsAppendLeft("module.exports = {\n  " + Endpoint, "\n}", Endpoint);
    r
  }

  /** A JSON value as `fs.writeJson` receives it; object fields keep their order. */
  datatype Json = JString(text: string) | JArray(items: seq<Json>) | JObject(fields: seq<(string, Json)>)

  /** The keys of an object, in order. */
  function Keys(j: Json): seq<string> {
    if j.JObject? then seq(|j.fields|, i requires 0 <= i < |j.fields| => j.fields[i].0) else []
  }

  /** `j[key]`: the value of the first field named `key`. */
  function Lookup(j: Json, key: string): (r: Option<Json>)
    ensures r.None? <==> key !in Keys(j)
  {
    if !j.JObject? then None else LookupField(j.fields, key)
  }

  function LookupField(fields: seq<(string, Json)>, key: string): (r: Option<Json>)
    ensures r.None? <==> forall i :: 0 <= i < |fields| ==> fields[i].0 != key
  {
    if fields == [] then None
    else if fields[0].0 == key then Some(fields[0].1)
    else
      var r := LookupField(fields[1..], key);
      assert forall i :: 1 <= i < |fields| ==> fields[i] == fields[1..][i - 1];
      r
  }

  const ManifestKeys: seq<string> :=
    ["name", "version", "description", "main", "scripts", "keywords", "author", "license", "type"]

  /** `packageJsonFileContent(projectName)`. */
  function PackageJsonFileContent(projectName: string): (r: Json)
    ensures Keys(r) == ManifestKeys
  {
    JObject([
      ("name", JString(projectName)),
      ("version", JString("1.0.0")),
      ("description", JString("")),
      ("main", JString("app.js")),
      ("scripts", JObject([("start", JString("node app.js")), ("dev", JString("node --watch app.js"))])),
      ("keywords", JArray([])),
      ("author", JString("")),
      ("license", JString("ISC")),
      ("type", JString("commonjs"))
    ])
  }

  /** Lookup finds the first field with the key. */
  lemma {:induction false} LookupFirst(fields: seq<(string, Json)>, i: nat, key: string)
    requires i < |fields| && fields[i].0 == key
    requires forall k :: 0 <= k < i ==> fields[k].0 != key
    ensures LookupField(fields, key) == Some(fields[i].1)
  {
    if i > 0 {
      assert fields[1..][i - 1] == fields[i];
      LookupFirst(fields[1..], i - 1, key);
    }
  }

  /** The nine keys start with nine different letters. */
  lemma ManifestKeysDistinct(i: nat, j: nat)
    requires i < |ManifestKeys| && j < |ManifestKeys| && ManifestKeys[i] == ManifestKeys[j]
    ensures i == j
  {
    assert ManifestKeys[i][0] == ManifestKeys[j][0];
  }

  /** Looking up the `i`-th key finds the `i`-th field. */
  lemma ManifestLookup(projectName: string, i: nat, key: string)
    requires i < |ManifestKeys| && key == ManifestKeys[i]
    ensures Lookup(PackageJsonFileContent(projectName), key) == Some(PackageJsonFileContent(projectName).fields[i].1)
  {
    var m := PackageJsonFileContent(projectName);
    var f := m.fields;
    assert forall k :: 0 <= k < |f| ==> f[k].0 == Keys(m)[k];
    forall k | 0 <= k < i
      ensures f[k].0 != ManifestKeys[i]
    {
      if f[k].0 == ManifestKeys[i] {
        ManifestKeysDistinct(k, i);
      }
    }
    LookupFirst(f, i, ManifestKeys[i]);
  }

  /** Reading the manifest back by key gives the project name and the fixed
      descriptive fields. */
  lemma ManifestFields(projectName: string)
    ensures var m := PackageJsonFileContent(projectName);
      && Lookup(m, "name") == Some(JString(projectName))
      && Lookup(m, "version") == Some(JString("1.0.0"))
      && Lookup(m, "description") == Some(JString(""))
      && Lookup(m, "main") == Some(JString("app.js"))
  {
    ManifestLookup(projectName, 0, "name");
    ManifestLookup(projectName, 1, "version");
    ManifestLookup(projectName, 2, "description");
    ManifestLookup(projectName, 3, "main");
  }

  /** The remaining fixed fields: no keywords, no author, ISC, CommonJS. */
  lemma ManifestMetadata(projectName: string)
    ensures var m := PackageJsonFileContent(projectName);
      && Lookup(m, "keywords") == Some(JArray([]))
      && Lookup(m, "author") == Some(JString(""))
      && Lookup(m, "license") == Some(JString("ISC"))
      && Lookup(m, "type") == Some(JString("commonjs"))
  {
    ManifestLookup(projectName, 5, "keywords");
    ManifestLookup(projectName, 6, "author");
    ManifestLookup(projectName, 7, "license");
    ManifestLookup(projectName, 8, "type");
  }

  /** The scripts object holds exactly `start` (plain node) and `dev` (node in
      watch mode). */
  lemma ManifestScripts(projectName: string)
    ensures var s := Lookup(PackageJsonFileContent(projectName), "scripts");
      && s.Some?
      && Keys(s.value) == ["start", "dev"]
      && Lookup(s.value, "start") == Some(JString("node app.js"))
      && Lookup(s.value, "dev") == Some(JString("node --watch app.js"))
  {
    var f := PackageJsonFileContent(projectName).fields;
    ManifestLookup(projectName, 4, "scripts");
    var s := f[4].1;
    LookupFirst(s.fields, 0, "start");
    LookupFirst(s.fields, 1, "dev");
    assert Keys(s) == [s.fields[0].0, s.fields[1].0];
  }

  /** The manifest determines the project name it was made for. */
  lemma ManifestNameInjective(a: string, b: string)
    requires PackageJsonFileContent(a) == PackageJsonFileContent(b)
    ensures a == b
  {
    ManifestFields(a);
  }
}
