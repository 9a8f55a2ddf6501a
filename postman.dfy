/** The Postman collection generator (`generate_postman_collection`): routes are grouped by
    tag in the order tags are first seen, each tagged route with methods becomes a request
    item, the upload route gets a fixed header and a form-data body, and a route whose method
    set is exactly {POST, PUT} gets an example JSON body built from its body model's fields.

    A route is given by the attributes the generator reads; a missing attribute is `None`
    (or `NoBodyField`). The OpenAPI schema the function computes first is never used and is
    not modelled; JSON serialisation and the file write are left out. */
module Postman {
  import opened Common
  import opened Text

  // ---------------------------------------------------------------------------------------
  // Routes and the collection

  /** A Python value usable as a field default or an example value. */
  datatype JsonValue = JStr(s: string) | JInt(i: int) | JBool(b: bool) | JList(items: seq<JsonValue>) | JNull

  /** `field.type_`, as far as the example builder distinguishes it. */
  datatype FieldType = StrType | IntType | BoolType | ListType | OtherType

  /** A field of a body model: its name, its default (`None` is Python's None) and type. */
  datatype ModelField = ModelField(name: string, default: Option<JsonValue>, fieldType: FieldType)

  /** `route.body_field`: no such attribute, the attribute set to None, or a model. */
  datatype BodyField = NoBodyField | NullBodyField | BodyModel(fields: seq<ModelField>)

  /** What the generator reads of a route. `methods` lists the method set in its iteration
      order; `dependencies` holds `str(dep)` of each route dependency. */
  datatype Route = Route(path: string, name: string, tags: Option<seq<string>>, methods: Option<seq<string>>,
                         dependencies: seq<string>, description: Option<string>, bodyField: BodyField)

  datatype Header = Header(key: string, value: string, description: string)
  datatype Url = Url(raw: string, host: seq<string>, path: seq<string>)
  /** A `formdata` body with one file entry, or a `raw` body holding the example object. */
  datatype Body = FormData(key: string, fileType: string, src: string, description: string)
                | Raw(example: seq<(string, JsonValue)>)
  datatype Request = Request(verb: string, headers: seq<Header>, url: Url, description: string, body: Option<Body>)
  datatype Item = Item(name: string, request: Request)
  datatype Folder = Folder(name: string, items: seq<Item>)
  datatype Variable = Variable(key: string, value: string, varType: string, description: Option<string>)
  datatype Info = Info(name: string, description: string, schema: string)
  datatype Collection = Collection(info: Info, folders: seq<Folder>, variables: seq<Variable>)

  /** `list(route.methods)[0]` on an empty set (IndexError), or `None.type_` (AttributeError). */
  datatype GenError = NoMethod(route: string) | BodyFieldIsNone(route: string)

  const BaseUrl := "{{base_url}}"

  const AuthHeader := Header("Authorization", "Bearer {{auth_token}}", "Required for authenticated endpoints")

  const UploadBody := FormData("files", "file", "/path/to/your/file.pdf",
                               "Upload PDF or DOC files. Make sure you have set the auth_token in environment variables.")

  const CollectionInfo := Info("MyQuery API", "API collection for the MyQuery document AI chatbot",
                               "https://schema.getpostman.com/json/collection/v2.1.0/collection.json")

  const Variables := [
    Variable("base_url", "http://localhost:8000", "string", None),
    Variable("auth_token", "your_auth_token_here", "string", Some("Get this token from the /users endpoint response")),
    Variable("user_id", "your_user_id_here", "string", Some("Get this ID from the /users endpoint response")),
    Variable("session_id", "your_session_id_here", "string", None)]

  // ---------------------------------------------------------------------------------------
  // Grouping by tag

  /** The tags the grouping loop iterates over for a route (none when it has no truthy tags). */
  function TagList(r: Route): seq<string>
  {
    if r.tags.Some? then r.tags.value else []
  }

  /** Every tag occurrence, route by route. */
  function AllTags(routes: seq<Route>): seq<string>
  {
    if |routes| == 0 then [] else AllTags(routes[..|routes| - 1]) + TagList(routes[|routes| - 1])
  }

  /** The distinct elements of `s` in order of first occurrence: the keys of a dict filled in
      that order. */
  function FirstSeen(s: seq<string>): (d: seq<string>)
    ensures forall x :: x in d <==> x in s
    ensures forall i, j :: 0 <= i < j < |d| ==> d[i] != d[j]
  {
    if |s| == 0 then []
    else
      var d := FirstSeen(s[..|s| - 1]);
      var x := s[|s| - 1];
      assert forall y :: y in s <==> y in s[..|s| - 1] || y == x;
      if x in d then d else d + [x]
  }

  /** The first position of `x` in `s`. */
  function FirstIndex(s: seq<string>, x: string): (k: nat)
    requires x in s
    ensures k < |s| && s[k] == x && forall i :: 0 <= i < k ==> s[i] != x
  {
    if s[0] == x then 0 else 1 + FirstIndex(s[1..], x)
  }

  /** Appending does not move a first occurrence, and a new element is first seen at the end. */
  lemma FirstIndexAppend(s: seq<string>, y: string, x: string)
    requires x in s + [y]
    ensures x in s ==> FirstIndex(s + [y], x) == FirstIndex(s, x)
    ensures x !in s ==> FirstIndex(s + [y], x) == |s|
  {
    var k := FirstIndex(s + [y], x);
    if x in s {
      var j := FirstIndex(s, x);
      assert (s + [y])[j] == x;
    }
  }

  /** The keys come in the order each was first seen. */
  lemma {:induction false} FirstSeenOrder(s: seq<string>)
    ensures forall i, j :: 0 <= i < j < |FirstSeen(s)| ==> FirstIndex(s, FirstSeen(s)[i]) < FirstIndex(s, FirstSeen(s)[j])
  {
    if |s| > 0 {
      var p, x := s[..|s| - 1], s[|s| - 1];
      assert s == p + [x];
      FirstSeenOrder(p);
      var dp := FirstSeen(p);
      var d := FirstSeen(s);
      forall i, j | 0 <= i < j < |d| ensures FirstIndex(s, d[i]) < FirstIndex(s, d[j]) {
        assert d[i] == dp[i] && dp[i] in dp;
        assert d[i] in p;
        FirstIndexAppend(p, x, d[i]);
        assert FirstIndex(s, d[i]) == FirstIndex(p, d[i]) < |p|;
        if j < |dp| {
          assert d[j] == dp[j] && dp[j] in dp;
          FirstIndexAppend(p, x, d[j]);
          assert FirstIndex(p, dp[i]) < FirstIndex(p, dp[j]);
          assert FirstIndex(s, d[j]) == FirstIndex(p, d[j]);
        } else {
          assert d[j] == x && x !in dp;
          FirstIndexAppend(p, x, x);
          assert FirstIndex(s, d[j]) == |p|;
        }
      }
    }
  }

  /** The tag groups, in first-seen order. */
  function TagsOf(routes: seq<Route>): seq<string>
  {
    FirstSeen(AllTags(routes))
  }

  /** How often `t` occurs in `s`. */
  function Count(t: string, s: seq<string>): nat
  {
    if |s| == 0 then 0 else Count(t, s[..|s| - 1]) + (if s[|s| - 1] == t then 1 else 0)
  }

  /** `n` copies of a route. */
  function Repeat(r: Route, n: nat): (rs: seq<Route>)
    ensures |rs| == n && forall i :: 0 <= i < n ==> rs[i] == r
  {
    if n == 0 then [] else Repeat(r, n - 1) + [r]
  }

  /** `endpoints_by_tag[t]`: each route once per occurrence of `t` in its tags, in input order. */
  function RoutesUnder(routes: seq<Route>, t: string): seq<Route>
  {
    if |routes| == 0 then []
    else
      var r := routes[|routes| - 1];
      RoutesUnder(routes[..|routes| - 1], t) + Repeat(r, Count(t, TagList(r)))
  }

  lemma {:induction false} CountPositive(t: string, s: seq<string>)
    ensures Count(t, s) > 0 <==> t in s
  {
    if |s| > 0 {
      CountPositive(t, s[..|s| - 1]);
      assert forall y :: y in s <==> y in s[..|s| - 1] || y == s[|s| - 1];
    }
  }

  /** Grouping keeps the input order: the group of a concatenation is the concatenation of
      the groups. */
  lemma {:induction false} RoutesUnderAppend(a: seq<Route>, b: seq<Route>, t: string)
    ensures RoutesUnder(a + b, t) == RoutesUnder(a, t) + RoutesUnder(b, t)
  {
    if |b| == 0 {
      assert a + b == a;
    } else {
      var p := b[..|b| - 1];
      assert (a + b)[..|a + b| - 1] == a + p;
      assert (a + b)[|a + b| - 1] == b[|b| - 1];
      RoutesUnderAppend(a, p, t);
    }
  }

  /** A route is in the group of `t` exactly when one of its tags is `t`: routes without
      tags are in no group, and a tagged route is in every group it names. */
  lemma {:induction false} RoutesUnderMembers(routes: seq<Route>, t: string)
    ensures forall r :: r in RoutesUnder(routes, t) <==> r in routes && t in TagList(r)
    ensures t in TagsOf(routes) <==> |RoutesUnder(routes, t)| > 0
  {
    if |routes| > 0 {
      var p, r := routes[..|routes| - 1], routes[|routes| - 1];
      RoutesUnderMembers(p, t);
      CountPositive(t, TagList(r));
      assert routes == p + [r];
      assert forall x :: x in routes <==> x in p || x == r;
      assert forall y :: y in AllTags(routes) <==> y in AllTags(p) || y in TagList(r);
    }
  }

  /** A tag never seen has an empty group. */
  lemma RoutesUnderUnseen(routes: seq<Route>, t: string)
    requires t !in AllTags(routes)
    ensures RoutesUnder(routes, t) == []
  {
    RoutesUnderMembers(routes, t);
  }

  // ---------------------------------------------------------------------------------------
  // Items

  /** `name.replace("_", " ").title()`, used for group and item names. */
  function DisplayName(s: string): (r: string)
    ensures |r| == |s| && '_' !in r
  {
    var spaced := Replace(s, '_', ' ');
    var r := Title(spaced);
    assert forall i :: 0 <= i < |r| ==> r[i] != '_' by {
      forall i | 0 <= i < |r| ensures r[i] != '_' {
        var c := spaced[i];
        assert c != '_';
        assert r[i] == TitleChar(c, i > 0 && IsLetter(spaced[i - 1]));
        if IsLetter(c) {
          assert IsLetter(ToLower(c)) && IsLetter(ToUpper(c));
        }
      }
    }
    r
  }

  /** The url of a path: raw is the base-url variable followed by the path, the host is the
      variable, and the segments are the path stripped of `/` and split on `/`. */
  function UrlFor(path: string): Url
  {
    Url(BaseUrl + path, [BaseUrl], Split(Strip(path, {'/'}), '/'))
  }

  /** `any(... "get_user" in str(dep))`. */
  predicate NeedsAuth(r: Route)
  {
    exists i :: 0 <= i < |r.dependencies| && Contains(r.dependencies[i], "get_user")
  }

  /** A JSON value of the kind a field type stands for (`null` for any other type). */
  predicate OfType(v: JsonValue, t: FieldType)
  {
    match t
    case StrType => v.JStr?
    case IntType => v.JInt?
    case BoolType => v.JBool?
    case ListType => v.JList?
    case OtherType => v.JNull?
  }

  /** The placeholders the generator uses: "string", 0, False, [] and None. */
  predicate Placeholder(v: JsonValue)
  {
    v == JStr("string") || v == JInt(0) || v == JBool(false) || v == JList([]) || v == JNull
  }

  /** The example value of a field: its default if it has one, else the placeholder of the
      field's type. */
  function ExampleValue(f: ModelField): (v: JsonValue)
    ensures f.default.Some? ==> v == f.default.value
    ensures f.default.None? ==> Placeholder(v) && OfType(v, f.fieldType)
  {
    if f.default.Some? then f.default.value
    else
      match f.fieldType
      case StrType => JStr("string")
      case IntType => JInt(0)
      case BoolType => JBool(false)
      case ListType => JList([])
      case OtherType => JNull
  }

  /** The example object: one entry per field, in field order. */
  function Example(fields: seq<ModelField>): (ex: seq<(string, JsonValue)>)
  {
    if |fields| == 0 then [] else Example(fields[..|fields| - 1]) + [(fields[|fields| - 1].name, ExampleValue(fields[|fields| - 1]))]
  }

  lemma {:induction false} ExampleEntries(fields: seq<ModelField>)
    ensures |Example(fields)| == |fields|
    ensures forall k :: 0 <= k < |fields| ==> Example(fields)[k] == (fields[k].name, ExampleValue(fields[k]))
  {
    if |fields| > 0 {
      ExampleEntries(fields[..|fields| - 1]);
    }
  }

  /** `list(route.methods)`, in the set's iteration order (empty when there is none). */
  function Methods(r: Route): seq<string>
  {
    if r.methods.Some? then r.methods.value else []
  }

  /** The set of methods is exactly {POST, PUT}. */
  predicate PostAndPut(methods: seq<string>)
  {
    (set m | m in methods) == {"POST", "PUT"}
  }

  /** The item's body: the upload form, an example for {POST, PUT} routes with a body
      model, or none; a body field set to None raises. */
  function BodyFor(r: Route): Result<Option<Body>, GenError>
  {
    if r.path == "/upload" then Ok(Some(UploadBody))
    else if PostAndPut(Methods(r)) then
      match r.bodyField
      case NoBodyField => Ok(None)
      case NullBodyField => Err(BodyFieldIsNone(r.name))
      case BodyModel(fields) => Ok(Some(Raw(Example(fields))))
    else Ok(None)
  }

  /** The headers: the auth header when a dependency is the user lookup, and for the upload
      route the list replaced by the single auth header. */
  function HeadersFor(r: Route): seq<Header>
  {
    if r.path == "/upload" then [AuthHeader] else if NeedsAuth(r) then [AuthHeader] else []
  }

  /** The request item of a route (only used for routes that have `methods`). */
  function ItemFor(r: Route): Result<Item, GenError>
  {
    if |Methods(r)| == 0 then Err(NoMethod(r.name))
    else
      match BodyFor(r)
      case Err(e) => Err(e)
      case Ok(body) =>
        var description := if r.description.Some? then r.description.value else "";
        Ok(Item(DisplayName(r.name), Request(Methods(r)[0], HeadersFor(r), UrlFor(r.path), description, body)))
  }

  /** The items of a group, each built by `item`: routes without methods are skipped and the
      first error aborts. The generator uses `ItemFor`; the grouping lemmas below hold for
      any item builder. */
  function ItemsFor(routes: seq<Route>, item: Route -> Result<Item, GenError>): Result<seq<Item>, GenError>
  {
    if |routes| == 0 then Ok([])
    else
      match ItemsFor(routes[..|routes| - 1], item)
      case Err(e) => Err(e)
      case Ok(items) =>
        var r := routes[|routes| - 1];
        if r.methods.None? then Ok(items)
        else
          match item(r)
          case Err(e) => Err(e)
          case Ok(it) => Ok(items + [it])
  }

  /** The folders of the given tags, in order. */
  function FoldersFor(routes: seq<Route>, tags: seq<string>, item: Route -> Result<Item, GenError>)
    : Result<seq<Folder>, GenError>
  {
    if |tags| == 0 then Ok([])
    else
      match FoldersFor(routes, tags[..|tags| - 1], item)
      case Err(e) => Err(e)
      case Ok(folders) =>
        var t := tags[|tags| - 1];
        match ItemsFor(RoutesUnder(routes, t), item)
        case Err(e) => Err(e)
        case Ok(items) => Ok(folders + [Folder(DisplayName(t), items)])
  }

  /** The whole collection. */
  function CollectionFor(routes: seq<Route>): Result<Collection, GenError>
  {
    match FoldersFor(routes, TagsOf(routes), ItemFor)
    case Err(e) => Err(e)
    case Ok(folders) => Ok(Collection(CollectionInfo, folders, Variables))
  }

  // ---------------------------------------------------------------------------------------
  // Properties of the collection

  /** The upload route always gets exactly the auth header and the form-data body with the
      `files` key, whatever its dependencies and methods. */
  lemma UploadOverride(r: Route)
    requires |Methods(r)| > 0 && r.path == "/upload"
    ensures ItemFor(r).Ok?
    ensures ItemFor(r).value.request.headers == [AuthHeader]
    ensures ItemFor(r).value.request.body == Some(UploadBody) && UploadBody.key == "files"
  {
  }

  /** A raw JSON body is built only for a route, other than the upload route, whose method
      set is exactly {POST, PUT} and that has a body model; its entries follow the fields. */
  lemma RawBodyOnlyForPostAndPut(r: Route)
    requires ItemFor(r).Ok?
    ensures var body := ItemFor(r).value.request.body;
      && (body.Some? && body.value.Raw? <==> r.path != "/upload" && PostAndPut(Methods(r)) && r.bodyField.BodyModel?)
      && (body.Some? && body.value.Raw? ==>
            |body.value.example| == |r.bodyField.fields|
            && forall k :: 0 <= k < |r.bodyField.fields| ==>
                 body.value.example[k] == (r.bodyField.fields[k].name, ExampleValue(r.bodyField.fields[k])))
  {
    if r.bodyField.BodyModel? {
      ExampleEntries(r.bodyField.fields);
    }
  }

  /** A route fails only through an empty method set or a {POST, PUT} route whose body field
      is None. */
  lemma ItemFails(r: Route)
    ensures ItemFor(r).Err? <==>
      |Methods(r)| == 0 || (r.path != "/upload" && PostAndPut(Methods(r)) && r.bodyField.NullBodyField?)
  {
  }

  /** Every item's name and url follow the route: the name has no underscores, the raw url is
      the base-url variable followed by the path, and the segments joined with `/` give the
      path without its outer slashes. */
  lemma ItemUrl(r: Route)
    requires ItemFor(r).Ok?
    ensures var req := ItemFor(r).value.request;
      && '_' !in ItemFor(r).value.name && |ItemFor(r).value.name| == |r.name|
      && req.verb == Methods(r)[0] && req.verb in Methods(r)
      && req.url.raw == "{{base_url}}" + r.path && req.url.host == ["{{base_url}}"]
      && Join(req.url.path, '/') == Strip(r.path, {'/'})
      && (r.path != "/upload" ==> (req.headers == [AuthHeader] <==> NeedsAuth(r)) && |req.headers| <= 1)
  {
    JoinSplit(Strip(r.path, {'/'}), '/');
  }

  /** A group fails exactly when one of its routes with methods fails. */
  lemma {:induction false} ItemsForFails(routes: seq<Route>, item: Route -> Result<Item, GenError>)
    ensures ItemsFor(routes, item).Err? <==>
      exists k :: 0 <= k < |routes| && routes[k].methods.Some? && item(routes[k]).Err?
  {
    if |routes| > 0 {
      var p, r := routes[..|routes| - 1], routes[|routes| - 1];
      ItemsForFails(p, item);
      if ItemsFor(routes, item).Err? {
        if ItemsFor(p, item).Err? {
          var k :| 0 <= k < |p| && p[k].methods.Some? && item(p[k]).Err?;
          assert routes[k] == p[k];
        } else {
          assert routes[|routes| - 1] == r;
        }
      } else {
        forall k | 0 <= k < |routes| && routes[k].methods.Some? ensures item(routes[k]).Ok? {
          if k < |p| {
            assert routes[k] == p[k];
          }
        }
      }
    }
  }

  /** The items of a group are those of its routes with methods, in order. */
  lemma {:induction false} ItemsForAll(routes: seq<Route>, item: Route -> Result<Item, GenError>)
    requires ItemsFor(routes, item).Ok?
    ensures |ItemsFor(routes, item).value| <= |routes|
    ensures forall k :: 0 <= k < |routes| && routes[k].methods.Some? ==>
              item(routes[k]).Ok? && item(routes[k]).value in ItemsFor(routes, item).value
    ensures forall it :: it in ItemsFor(routes, item).value ==>
              exists k :: 0 <= k < |routes| && routes[k].methods.Some? && item(routes[k]) == Ok(it)
  {
    if |routes| > 0 {
      var p, r := routes[..|routes| - 1], routes[|routes| - 1];
      ItemsForAll(p, item);
      var items := ItemsFor(routes, item).value;
      var itemsP := ItemsFor(p, item).value;
      forall k | 0 <= k < |routes| && routes[k].methods.Some?
        ensures item(routes[k]).Ok? && item(routes[k]).value in items
      {
        if k < |p| {
          assert routes[k] == p[k];
        }
      }
      forall it | it in items
        ensures exists k :: 0 <= k < |routes| && routes[k].methods.Some? && item(routes[k]) == Ok(it)
      {
        if it in itemsP {
          var k :| 0 <= k < |p| && p[k].methods.Some? && item(p[k]) == Ok(it);
          assert routes[k] == p[k];
        } else {
          assert routes[|routes| - 1] == r;
        }
      }
    }
  }

  /** The groups are named after the given tags, in order, each holding the items of the
      routes that carry the tag. */
  lemma {:induction false} FoldersForShape(routes: seq<Route>, tags: seq<string>, item: Route -> Result<Item, GenError>)
    requires FoldersFor(routes, tags, item).Ok?
    ensures var fs := FoldersFor(routes, tags, item).value;
      && |fs| == |tags|
      && forall i :: 0 <= i < |tags| ==>
           ItemsFor(RoutesUnder(routes, tags[i]), item).Ok?
           && fs[i] == Folder(DisplayName(tags[i]), ItemsFor(RoutesUnder(routes, tags[i]), item).value)
  {
    if |tags| > 0 {
      FoldersForShape(routes, tags[..|tags| - 1], item);
    }
  }

  /** The first failing group makes the whole list of groups fail with its error. */
  lemma {:induction false} FoldersForFailsAt(routes: seq<Route>, tags: seq<string>, i: nat, item: Route -> Result<Item, GenError>)
    requires i < |tags| && FoldersFor(routes, tags[..i], item).Ok? && ItemsFor(RoutesUnder(routes, tags[i]), item).Err?
    ensures FoldersFor(routes, tags, item) == Err(ItemsFor(RoutesUnder(routes, tags[i]), item).error)
    decreases |tags|
  {
    if |tags| == i + 1 {
      assert tags[..i] == tags[..|tags| - 1];
    } else {
      var p := tags[..|tags| - 1];
      assert p[..i] == tags[..i] && p[i] == tags[i];
      FoldersForFailsAt(routes, p, i, item);
    }
  }

  /** The first failing route of a group makes the group fail with its error. */
  lemma {:induction false} ItemsForFailsFrom(routes: seq<Route>, j: nat, item: Route -> Result<Item, GenError>)
    requires j < |routes| && ItemsFor(routes[..j], item).Ok?
    requires routes[j].methods.Some? && item(routes[j]).Err?
    ensures ItemsFor(routes, item) == Err(item(routes[j]).error)
    decreases |routes|
  {
    if |routes| == j + 1 {
      assert routes[..j] == routes[..|routes| - 1];
    } else {
      var p := routes[..|routes| - 1];
      assert p[..j] == routes[..j] && p[j] == routes[j];
      ItemsForFailsFrom(p, j, item);
    }
  }

  /** The collection holds one group per distinct tag, in the order of `TagsOf` (first
      appearance, by `FirstSeenOrder`), with the fixed info and variables; every group holds
      the items of the routes carrying its tag. */
  lemma CollectionShape(routes: seq<Route>)
    requires CollectionFor(routes).Ok?
    ensures var c := CollectionFor(routes).value;
      && c.info == CollectionInfo && c.variables == Variables
      && |c.folders| == |TagsOf(routes)|
      && forall i :: 0 <= i < |TagsOf(routes)| ==>
            c.folders[i].name == DisplayName(TagsOf(routes)[i])
            && ItemsFor(RoutesUnder(routes, TagsOf(routes)[i]), ItemFor) == Ok(c.folders[i].items)
  {
    FoldersForShape(routes, TagsOf(routes), ItemFor);
  }

  /** The groups are the distinct tags of the routes, each once, in order of first
      appearance. */
  lemma TagsOfOrder(routes: seq<Route>)
    ensures forall t :: t in TagsOf(routes) <==> t in AllTags(routes)
    ensures forall i, j :: 0 <= i < j < |TagsOf(routes)| ==> TagsOf(routes)[i] != TagsOf(routes)[j]
    ensures forall i, j :: 0 <= i < j < |TagsOf(routes)| ==>
      FirstIndex(AllTags(routes), TagsOf(routes)[i]) < FirstIndex(AllTags(routes), TagsOf(routes)[j])
  {
    FirstSeenOrder(AllTags(routes));
  }

  // ---------------------------------------------------------------------------------------
  // The generator, step by step

  /** The example loop over the model's fields. */
  method BuildExample(fields: seq<ModelField>) returns (example: seq<(string, JsonValue)>)
    ensures example == Example(fields)
  {
    example := [];
    var k := 0;
    while k < |fields|
      invariant 0 <= k <= |fields|
      invariant example == Example(fields[..k])
    {
      assert fields[..k + 1][..k] == fields[..k];
      var f := fields[k];
      var value;
      if f.default.Some? {
        value := f.default.value;
      } else if f.fieldType == StrType {
        value := JStr("string");
      } else if f.fieldType == IntType {
        value := JInt(0);
      } else if f.fieldType == BoolType {
        value := JBool(false);
      } else if f.fieldType == ListType {
        value := JList([]);
      } else {
        value := JNull;
      }
      example := example + [(f.name, value)];
      k := k + 1;
    }
    assert fields[..k] == fields;
  }

  /** One request item: the header list is built, then overwritten for the upload route. */
  method BuildItem(r: Route) returns (res: Result<Item, GenError>)
    requires r.methods.Some?
    ensures res == ItemFor(r)
  {
    var methods := r.methods.value;
    if |methods| == 0 {
      return Err(NoMethod(r.name));
    }
    var description := if r.description.Some? then r.description.value else "";
    var headers: seq<Header> := [];
    if NeedsAuth(r) {
      headers := headers + [AuthHeader];
    }
    var body: Option<Body> := None;
    if r.path == "/upload" {
      headers := [AuthHeader];
      body := Some(UploadBody);
    } else if PostAndPut(methods) {
      match r.bodyField {
        case NoBodyField =>
        case NullBodyField =>
          return Err(BodyFieldIsNone(r.name));
        case BodyModel(fields) =>
          var example := BuildExample(fields);
          body := Some(Raw(example));
      }
    }
    assert headers == HeadersFor(r);
    assert BodyFor(r) == Ok(body);
    res := Ok(Item(DisplayName(r.name), Request(methods[0], headers, UrlFor(r.path), description, body)));
  }

  lemma CountSnoc(t: string, s: seq<string>, x: string)
    ensures Count(t, s + [x]) == Count(t, s) + (if x == t then 1 else 0)
  {
    assert (s + [x])[..|s|] == s;
  }

  /** The grouping state part-way through a route: every key so far holds its earlier routes
      followed by one copy of `r` per occurrence of the key among the tags handled so far. */
  ghost predicate Grouped(byTag: map<string, seq<Route>>, tags: seq<string>, seen: seq<Route>, r: Route,
                          part: seq<string>)
  {
    (forall t :: t in byTag <==> t in tags)
    && forall t :: t in byTag ==> byTag[t] == RoutesUnder(seen, t) + Repeat(r, Count(t, part))
  }

  /** Appending the route under one more of its tags. */
  lemma GroupedStep(byTag: map<string, seq<Route>>, tags: seq<string>, seen: seq<Route>, r: Route,
                    part: seq<string>, tag: string)
    requires Grouped(byTag, tags, seen, r, part)
    requires tag !in byTag ==> RoutesUnder(seen, tag) == [] && Count(tag, part) == 0
    ensures var group := if tag in byTag then byTag[tag] else [];
      Grouped(byTag[tag := group + [r]], if tag in byTag then tags else tags + [tag], seen, r, part + [tag])
  {
    var group := if tag in byTag then byTag[tag] else [];
    var m := byTag[tag := group + [r]];
    forall t | t in m
      ensures m[t] == RoutesUnder(seen, t) + Repeat(r, Count(t, part + [tag]))
    {
      CountSnoc(t, part, tag);
      if t != tag {
        assert m[t] == byTag[t];
      }
    }
  }

  /** The state after all of the route's tags is the grouping of the longer prefix. */
  lemma GroupedDone(byTag: map<string, seq<Route>>, tags: seq<string>, seen: seq<Route>, r: Route)
    requires Grouped(byTag, tags, seen, r, TagList(r))
    requires tags == FirstSeen(AllTags(seen) + TagList(r))
    ensures tags == TagsOf(seen + [r])
    ensures forall t :: t in byTag <==> t in tags
    ensures forall t :: t in byTag ==> byTag[t] == RoutesUnder(seen + [r], t)
  {
    RouteSnoc(seen, r);
  }

  /** One more route appends its tags, and a copy of itself under each of them. */
  lemma RouteSnoc(seen: seq<Route>, r: Route)
    ensures AllTags(seen + [r]) == AllTags(seen) + TagList(r)
    ensures forall t :: RoutesUnder(seen + [r], t) == RoutesUnder(seen, t) + Repeat(r, Count(t, TagList(r)))
  {
    assert (seen + [r])[..|seen + [r]| - 1] == seen;
  }

  /** The inner grouping loop for one route: each of its tags gets the route appended,
      a tag seen for the first time becoming a new key. */
  method AddRoute(tags: seq<string>, byTag: map<string, seq<Route>>, ghost seen: seq<Route>, r: Route)
    returns (tags': seq<string>, byTag': map<string, seq<Route>>)
    requires tags == TagsOf(seen)
    requires forall t :: t in byTag <==> t in tags
    requires forall t :: t in byTag ==> byTag[t] == RoutesUnder(seen, t)
    ensures tags' == TagsOf(seen + [r])
    ensures forall t :: t in byTag' <==> t in tags'
    ensures forall t :: t in byTag' ==> byTag'[t] == RoutesUnder(seen + [r], t)
  {
    var rt := TagList(r);
    tags', byTag' := tags, byTag;
    var j := 0;
    assert AllTags(seen) + rt[..0] == AllTags(seen);
    assert Grouped(byTag', tags', seen, r, rt[..0]);
    while j < |rt|
      invariant 0 <= j <= |rt|
      invariant tags' == FirstSeen(AllTags(seen) + rt[..j])
      invariant Grouped(byTag', tags', seen, r, rt[..j])
    {
      var tag := rt[j];
      GroupStep(seen, rt, j);
      if tag !in byTag' {
        UnseenTag(seen, rt, j);
      }
      GroupedStep(byTag', tags', seen, r, rt[..j], tag);
      var group: seq<Route> := [];
      if tag in byTag' {
        group := byTag'[tag];
      } else {
        tags' := tags' + [tag];
      }
      byTag' := byTag'[tag := group + [r]];
      j := j + 1;
    }
    assert rt[..j] == rt;
    GroupedDone(byTag', tags', seen, r);
  }

  /** One step of the inner loop, on the tag sequence seen so far. */
  lemma GroupStep(seen: seq<Route>, rt: seq<string>, j: nat)
    requires j < |rt|
    ensures AllTags(seen) + rt[..j + 1] == (AllTags(seen) + rt[..j]) + [rt[j]]
    ensures rt[..j + 1] == rt[..j] + [rt[j]]
    ensures FirstSeen(AllTags(seen) + rt[..j + 1]) ==
      var d := FirstSeen(AllTags(seen) + rt[..j]);
      if rt[j] in d then d else d + [rt[j]]
  {
    var s := AllTags(seen) + rt[..j];
    assert AllTags(seen) + rt[..j + 1] == s + [rt[j]];
    assert (s + [rt[j]])[..|s|] == s;
  }

  /** A tag met for the first time has no routes yet. */
  lemma UnseenTag(seen: seq<Route>, rt: seq<string>, j: nat)
    requires j < |rt| && rt[j] !in FirstSeen(AllTags(seen) + rt[..j])
    ensures RoutesUnder(seen, rt[j]) == [] && Count(rt[j], rt[..j]) == 0
  {
    assert rt[j] !in AllTags(seen);
    assert rt[j] !in rt[..j];
    RoutesUnderUnseen(seen, rt[j]);
    CountPositive(rt[j], rt[..j]);
  }

  /** The grouping loop: `endpoints_by_tag` as a key list in insertion order and a map. */
  method GroupByTag(routes: seq<Route>) returns (tags: seq<string>, byTag: map<string, seq<Route>>)
    ensures tags == TagsOf(routes)
    ensures forall t :: t in tags ==> t in byTag && byTag[t] == RoutesUnder(routes, t)
  {
    tags, byTag := [], map[];
    var i := 0;
    while i < |routes|
      invariant 0 <= i <= |routes|
      invariant tags == TagsOf(routes[..i])
      invariant forall t :: t in byTag <==> t in tags
      invariant forall t :: t in byTag ==> byTag[t] == RoutesUnder(routes[..i], t)
    {
      assert routes[..i + 1] == routes[..i] + [routes[i]];
      tags, byTag := AddRoute(tags, byTag, routes[..i], routes[i]);
      i := i + 1;
    }
    assert routes[..i] == routes;
  }

  /** The items of one group, in order, skipping routes without methods. */
  method BuildItems(group: seq<Route>) returns (res: Result<seq<Item>, GenError>)
    ensures res == ItemsFor(group, ItemFor)
  {
    var items: seq<Item> := [];
    var j := 0;
    while j < |group|
      invariant 0 <= j <= |group|
      invariant ItemsFor(group[..j], ItemFor) == Ok(items)
    {
      assert group[..j + 1][..j] == group[..j];
      var r := group[j];
      if r.methods.Some? {
        var item := BuildItem(r);
        if item.Err? {
          ItemsForFailsFrom(group, j, ItemFor);
          return Err(item.error);
        }
        items := items + [item.value];
      }
      j := j + 1;
    }
    assert group[..j] == group;
    res := Ok(items);
  }

  /** One more tag adds its folder at the end. */
  lemma FoldersForSnoc(routes: seq<Route>, tags: seq<string>, i: nat, item: Route -> Result<Item, GenError>,
                       folders: seq<Folder>, items: seq<Item>)
    requires i < |tags| && FoldersFor(routes, tags[..i], item) == Ok(folders)
    requires ItemsFor(RoutesUnder(routes, tags[i]), item) == Ok(items)
    ensures FoldersFor(routes, tags[..i + 1], item) == Ok(folders + [Folder(DisplayName(tags[i]), items)])
  {
    assert tags[..i + 1][..i] == tags[..i];
  }

  /** `generate_postman_collection`. */
  method GenerateCollection(routes: seq<Route>) returns (res: Result<Collection, GenError>)
    ensures res == CollectionFor(routes)
  {
    var tags, byTag := GroupByTag(routes);
    var folders: seq<Folder> := [];
    var i := 0;
    while i < |tags|
      invariant 0 <= i <= |tags|
      invariant FoldersFor(routes, tags[..i], ItemFor) == Ok(folders)
    {
      var tag := tags[i];
      assert tag in tags;
      var items := BuildItems(byTag[tag]);
      if items.Err? {
        FoldersForFailsAt(routes, tags, i, ItemFor);
        return Err(items.error);
      }
      FoldersForSnoc(routes, tags, i, ItemFor, folders, items.value);
      folders := folders + [Folder(DisplayName(tag), items.value)];
      i := i + 1;
    }
    assert tags[..i] == tags;
    res := Ok(Collection(CollectionInfo, folders, Variables));
  }
}
