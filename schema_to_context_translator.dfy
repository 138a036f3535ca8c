/**
 * The SAMM JSON schema to JSON-LD context translator: a recursive descent over the schema
 * that builds one context node per schema node, resolving `$ref` paths against the whole
 * schema and cutting reference cycles with a depth counter.
 *
 * The descent is written as functions that take the translator's settings (`Env`) and
 * thread the depth counter through every call (`Step.depth`); the class at the end holds
 * the fields that `schema_to_jsonld` updates. Every exception the source raises is caught
 * and re-raised as a generic one, so all of them become the single `TranslationFailed`.
 * The `fuel` argument stands for Python's recursion limit: when it runs out the source
 * raises RecursionError, which the model reports as `TranslationFailed` as well.
 */
module SchemaContextTranslator {
  import opened Wrappers
  import opened Json
  import opened Strs

  const RootRef: char := '#'
  const RefKey: string := "$ref"
  const PathSep: string := "#/"
  const ActualPathSep: string := "/-/"
  const RefPathSep: char := '/'
  const PropertiesKey: string := "properties"
  const ItemKey: string := "items"
  const SchemaPrefix: string := "schema"
  const ContextPrefix: string := "@context"
  const RecursionDepth: nat := 2

  /** The JSON-LD `@version`, kept as an opaque number. */
  const Version: Json := JNum(1.1)

  const InitialJsonLd: Fields := [("@version", Version), (SchemaPrefix, JStr("https://schema.org/"))]
  const ContextTemplate: Fields := [("@version", Version), ("id", JStr("@id")), ("type", JStr("@type"))]

  datatype TransError = TranslationFailed

  /** The translator fields the descent reads: the schema `$ref` paths resolve against, and the aspect prefix. */
  datatype Env = Env(baseSchema: Json, aspectPrefix: string)

  /** A node (a dict, or None) or a failure, and the depth counter after computing it. */
  datatype Step = Step(node: Result<Option<Fields>, TransError>, depth: nat)

  function Fail(depth: nat): Step { Step(Err(TranslationFailed), depth) }
  function NoNode(depth: nat): Step { Step(Ok(None), depth) }

  /** Python truthiness of a node that is a dict or None. */
  predicate NonEmpty(n: Option<Fields>) { n.Some? && |n.value| > 0 }

  /** A node as the JSON value stored under `@context`: None becomes null. */
  function AsJson(n: Option<Fields>): Json {
    match n
    case None => JNull
    case Some(fs) => JObj(fs)
  }

  // ---------------------------------------------------------------- key sanitising

  /** `filter_key`: drops every `@` and turns every space into `-`. */
  function FilterKey(key: string): (r: string)
    ensures '@' !in r && ' ' !in r
  {
    ReplaceChar(RemoveChar(key, '@'), ' ', '-')
  }

  /** A key with neither `@` nor a space passes through unchanged. */
  lemma FilterKeyClean(key: string)
    requires '@' !in key && ' ' !in key
    ensures FilterKey(key) == key
  {
    RemoveCharAbsent(key, '@');
    var r := ReplaceChar(key, ' ', '-');
    assert forall i :: 0 <= i < |key| ==> r[i] == key[i];
  }

  /** Filtering twice is filtering once. */
  lemma FilterKeyIdempotent(key: string)
    ensures FilterKey(FilterKey(key)) == FilterKey(key)
  {
    FilterKeyClean(FilterKey(key));
  }

  /** Filtering keeps every character other than `@` and space, in order, and turns spaces into dashes. */
  lemma {:induction false} FilterKeyAppend(a: string, b: string)
    ensures FilterKey(a + b) == FilterKey(a) + FilterKey(b)
  {
    RemoveCharAppend(a, b, '@');
    var ta, tb := RemoveChar(a, '@'), RemoveChar(b, '@');
    var r := ReplaceChar(ta + tb, ' ', '-');
    var ra, rb := ReplaceChar(ta, ' ', '-'), ReplaceChar(tb, ' ', '-');
    assert forall i :: 0 <= i < |r| ==> r[i] == (ra + rb)[i];
  }

  /** `@type` filters to `type`. */
  lemma FilterKeyAtSign()
    ensures FilterKey("@type") == "type"
  {
    assert "@type" == "@" + "type";
    FilterKeyAppend("@", "type");
    FilterKeyClean("type");
  }

  /** A single space filters to a dash. */
  lemma FilterKeyBlank()
    ensures FilterKey(" ") == "-"
  {
    RemoveCharAbsent(" ", '@');
    var r := ReplaceChar(" ", ' ', '-');
    assert |r| == 1 && r[0] == '-';
  }

  /** A space between two clean words becomes a dash, and the words are kept. */
  lemma FilterKeySpaceBetween(a: string, b: string)
    requires '@' !in a && ' ' !in a && '@' !in b && ' ' !in b
    ensures FilterKey(a + " " + b) == a + "-" + b
  {
    FilterKeyBlank();
    FilterKeyClean(a);
    FilterKeyClean(b);
    FilterKeyAppend(a + " ", b);
    FilterKeyAppend(a, " ");
  }

  /** `my property` filters to `my-property`. */
  lemma FilterKeySpace()
    ensures FilterKey("my property") == "my-property"
  {
    FilterKeySpaceBetween("my", "property");
    assert "my" + " " + "property" == "my property";
    assert "my" + "-" + "property" == "my-property";
  }

  /** `@my property` filters to `my-property`. */
  lemma FilterKeyBoth()
    ensures FilterKey("@my property") == "my-property"
  {
    assert "@my property" == "@" + "my property";
    FilterKeyAppend("@", "my property");
    FilterKeySpace();
  }

  // ---------------------------------------------------------------- `$ref` resolution

  /** The keys of a `get_attribute` walk, from `cur` down. */
  function Walk(cur: Json, keys: seq<string>): (r: Result<Json, PyError>)
    decreases |keys|
  {
    if |keys| == 0 then Ok(cur)
    else match PyIn(keys[0], cur)
      case Err(e) => Err(e)
      case Ok(false) => Ok(JNull)
      case Ok(true) =>
        match PyIndex(cur, keys[0])
        case Err(e) => Err(e)
        case Ok(next) => Walk(next, keys[1..])
  }

  /** A walk along keys that are all present in nested dicts ends at the innermost value. */
  lemma {:induction false} WalkPresent(cur: Json, k: string, keys: seq<string>)
    requires cur.JObj? && Get(cur.fields, k).Some?
    ensures Walk(cur, [k] + keys) == Walk(Get(cur.fields, k).value, keys)
  {
    assert ([k] + keys)[1..] == keys;
  }

  /** A walk that meets a dict without the next key gives the default, None. */
  lemma WalkMissing(cur: Json, k: string, keys: seq<string>)
    requires cur.JObj? && Get(cur.fields, k).None?
    ensures Walk(cur, [k] + keys) == Ok(JNull)
  {
  }

  /**
   * `op.get_attribute(source, path, "/")` with default None: a None source or an empty path
   * gives the default; otherwise the path's `/`-separated keys are walked through dicts.
   */
  function GetAttribute(source: Json, path: string): (r: Result<Json, PyError>)
    ensures source.JNull? || path == "" ==> r == Ok(JNull)
  {
    if source.JNull? || path == "" then Ok(JNull)
    else Walk(source, Split(path, RefPathSep))
  }

  /** A path without `/` is a single key: its value in a dict source, or the default when absent. */
  lemma GetAttributeSingleKey(source: Json, path: string)
    requires source.JObj? && path != "" && RefPathSep !in path
    ensures GetAttribute(source, path) == Ok(Get(source.fields, path).GetOr(JNull))
  {
    SplitNoSep(path, RefPathSep);
    assert Split(path, RefPathSep) == [path] + [];
    if Get(source.fields, path).Some? {
      WalkPresent(source, path, []);
    } else {
      WalkMissing(source, path, []);
    }
  }

  /** A nested path through dicts reaches the innermost value (`a.b.c` in the helper's tests). */
  lemma GetAttributeNested()
    ensures GetAttribute(JObj([("a", JObj([("b", JObj([("c", JNum(123.0))]))]))]), "a/b/c") == Ok(JNum(123.0))
  {
    var abc := JObj([("a", JObj([("b", JObj([("c", JNum(123.0))]))]))]);
    assert Split("a/b/c", '/') == ["a", "b", "c"] by {
      assert "a/b/c" == "a" + ['/'] + "b/c";
      assert "b/c" == "b" + ['/'] + "c";
      SplitAround("a", '/', "b/c");
      SplitAround("b", '/', "c");
      SplitNoSep("a", '/');
      SplitNoSep("b", '/');
      SplitNoSep("c", '/');
    }
    WalkPresent(abc, "a", ["b", "c"]);
    WalkPresent(JObj([("b", JObj([("c", JNum(123.0))]))]), "b", ["c"]);
    WalkPresent(JObj([("c", JNum(123.0))]), "c", []);
  }

  /** A missing key on the way gives the default (`a.x.c` in the helper's tests). */
  lemma GetAttributeMissing()
    ensures GetAttribute(JObj([("a", JObj([("b", JObj([("c", JNum(123.0))]))]))]), "a/x/c") == Ok(JNull)
  {
    var abc := JObj([("a", JObj([("b", JObj([("c", JNum(123.0))]))]))]);
    assert Split("a/x/c", '/') == ["a", "x", "c"] by {
      assert "a/x/c" == "a" + ['/'] + "x/c";
      assert "x/c" == "x" + ['/'] + "c";
      SplitAround("a", '/', "x/c");
      SplitAround("x", '/', "c");
      SplitNoSep("a", '/');
      SplitNoSep("x", '/');
      SplitNoSep("c", '/');
    }
    WalkPresent(abc, "a", ["x", "c"]);
    WalkMissing(JObj([("b", JObj([("c", JNum(123.0))]))]), "x", ["c"]);
  }

  /** A source that cannot hold keys raises TypeError (the helper's test with source 42). */
  lemma GetAttributeNotSubscriptable()
    ensures GetAttribute(JNum(42.0), "a/b") == Err(TypeError)
  {
    assert Split("a/b", '/') == ["a", "b"] by {
      assert "a/b" == "a" + ['/'] + "b";
      SplitAround("a", '/', "b");
      SplitNoSep("a", '/');
      SplitNoSep("b", '/');
    }
  }

  /** Empty keys produced by the split are walked like any other (the helper's test with path `.`). */
  lemma GetAttributeEmptyKeys()
    ensures GetAttribute(JObj([("", JObj([("", JNum(100.0))]))]), "/") == Ok(JNum(100.0))
  {
    assert Split("/", '/') == ["", ""] by {
      assert "/" == "" + ['/'] + "";
      SplitAround("", '/', "");
      SplitNoSep("", '/');
    }
    var inner := JObj([("", JNum(100.0))]);
    WalkPresent(JObj([("", inner)]), "", [""]);
    WalkPresent(inner, "", []);
  }

  /** The depth counter after `get_schema_ref` meets `ref` on the path `actualref`. */
  function RefDepth(ref: string, actualref: string, depth: nat): nat {
    if !Contains(actualref, ref) then depth
    else if depth >= RecursionDepth then 0
    else depth + 1
  }

  /** A schema lookup: the node found (null when none), or a failure, and the new depth. */
  datatype Lookup = Lookup(target: Result<Json, TransError>, depth: nat)

  /**
   * `get_schema_ref`: a non-string ref finds nothing; a ref already on the path counts
   * one more level, and past the limit the counter is reset and nothing is found; otherwise
   * the ref, without its `#/` prefix, is looked up in the base schema.
   */
  function GetSchemaRef(env: Env, ref: Json, actualref: string, depth: nat): (r: Lookup)
    ensures !ref.JStr? ==> r == Lookup(Ok(JNull), depth)
    ensures ref.JStr? ==> r.depth == RefDepth(ref.s, actualref, depth)
    ensures ref.JStr? && Contains(actualref, ref.s) && depth >= RecursionDepth ==> r.target == Ok(JNull) && r.depth == 0
    ensures ref.JStr? && !(Contains(actualref, ref.s) && depth >= RecursionDepth) ==>
      && (r.target.Ok? <==> GetAttribute(env.baseSchema, RemovePrefix(ref.s, PathSep)).Ok?)
      && (r.target.Ok? ==> r.target.value == GetAttribute(env.baseSchema, RemovePrefix(ref.s, PathSep)).value)
    ensures depth <= RecursionDepth ==> r.depth <= RecursionDepth
  {
    if !ref.JStr? then Lookup(Ok(JNull), depth)
    else if Contains(actualref, ref.s) && depth >= RecursionDepth then Lookup(Ok(JNull), 0)
    else
      var d := RefDepth(ref.s, actualref, depth);
      match GetAttribute(env.baseSchema, RemovePrefix(ref.s, PathSep))
      case Err(_) => Lookup(Err(TranslationFailed), d)
      case Ok(j) => Lookup(Ok(j), d)
  }

  // ---------------------------------------------------------------- node construction

  /**
   * `node.setdefault("@context", {})["@definition"] = desc`: fails when the node already
   * holds a `@context` that is not a dict (None, a list, a string...).
   */
  function SetDefinition(node: Fields, desc: Json): (r: Result<Fields, TransError>)
    ensures r.Ok? <==> Get(node, ContextPrefix).None? || Get(node, ContextPrefix).value.JObj?
    ensures r.Ok? ==>
      && Get(r.value, ContextPrefix).Some? && Get(r.value, ContextPrefix).value.JObj?
      && Get(Get(r.value, ContextPrefix).value.fields, "@definition") == Some(desc)
      && (forall k :: k != ContextPrefix ==> Get(r.value, k) == Get(node, k))
    ensures r.Ok? && Get(node, ContextPrefix).None? ==> Get(r.value, ContextPrefix) == Some(JObj([("@definition", desc)]))
  {
    match Get(node, ContextPrefix)
    case None => Ok(Set(node, ContextPrefix, JObj([("@definition", desc)])))
    case Some(c) =>
      if c.JObj? then Ok(Set(node, ContextPrefix, JObj(Set(c.fields, "@definition", desc))))
      else Err(TranslationFailed)
  }

  /** Whether `key` is given and non-empty, as Python's `if key`. */
  predicate HasKey(key: Option<string>) { key.Some? && key.value != "" }

  /** `create_simple_node`: `@id` from the key when one is given, `@context.@definition` from the description. */
  function CreateSimpleNode(env: Env, property: Json, key: Option<string>): (r: Result<Option<Fields>, TransError>)
    ensures !Truthy(property) ==> r == Ok(None)
    ensures r.Err? <==> Truthy(property) && (PyIn("description", property).Err?
                          || (PyIn("description", property) == Ok(true) && !property.JObj?))
    ensures r.Ok? && Truthy(property) ==>
      && r.value.Some?
      && (Get(r.value.value, "@id").Some? <==> HasKey(key))
      && (HasKey(key) ==> Get(r.value.value, "@id") == Some(JStr(env.aspectPrefix + ":" + key.value)))
      && (Get(r.value.value, ContextPrefix).Some? <==> PyIn("description", property) == Ok(true))
      && (PyIn("description", property) == Ok(true) ==>
            Get(r.value.value, ContextPrefix) == Some(JObj([("@definition", Get(property.fields, "description").value)])))
      && (forall k :: k != "@id" && k != ContextPrefix ==> Get(r.value.value, k).None?)
  {
    if !Truthy(property) then Ok(None)
    else
      var node: Fields := if HasKey(key) then [("@id", JStr(env.aspectPrefix + ":" + key.value))] else [];
      match PyIn("description", property)
      case Err(_) => Err(TranslationFailed)
      case Ok(present) =>
        if !present then Ok(Some(node))
        else
          match PyIndex(property, "description")
          case Err(_) => Err(TranslationFailed)
          case Ok(desc) =>
            match SetDefinition(node, desc)
            case Err(e) => Err(e)
            case Ok(n) => Ok(Some(n))
  }

  /** `create_value_node`: sets `@type` to `schema:<type>`; None when the property has no type. */
  function CreateValueNode(property: Json, node: Fields): (r: Result<Option<Fields>, TransError>)
    ensures PyIn("type", property) == Ok(false) ==> r == Ok(None)
    ensures r.Err? <==> PyIn("type", property).Err? || (PyIn("type", property) == Ok(true) && !property.JObj?)
    ensures r.Ok? && PyIn("type", property) == Ok(true) ==>
      && r.value.Some?
      && Get(r.value.value, "@type") == Some(JStr(SchemaPrefix + ":" + PyStr(Get(property.fields, "type").value)))
      && (forall k :: k != "@type" ==> Get(r.value.value, k) == Get(node, k))
  {
    match PyIn("type", property)
    case Err(_) => Err(TranslationFailed)
    case Ok(present) =>
      if !present then Ok(None)
      else
        match PyIndex(property, "type")
        case Err(_) => Err(TranslationFailed)
        case Ok(t) => Ok(Some(Set(node, "@type", JStr(SchemaPrefix + ":" + PyStr(t)))))
  }

  /** The type a property declares, when it is a dict with a `type` key. */
  function TypeOf(property: Json): Option<Json> {
    if property.JObj? then Get(property.fields, "type") else None
  }

  /**
   * `create_node`: None for an empty or typeless property, or when the simple node is
   * empty (no key and no description); otherwise an object, array or value node by `type`.
   */
  function CreateNode(env: Env, fuel: nat, property: Json, actualref: string, key: Option<string>, depth: nat): (r: Step)
    ensures !Truthy(property) || PyIn("type", property) == Ok(false) ==> r == NoNode(depth)
    ensures r.node.Ok? && r.node.value.Some? ==>
      && TypeOf(property).Some?
      && (HasKey(key) ==> Get(r.node.value.value, "@id") == Some(JStr(env.aspectPrefix + ":" + key.value)))
      && (TypeOf(property).value == JStr("array") ==> Get(r.node.value.value, "@container") == Some(JStr("@list")))
      && (TypeOf(property).value == JStr("object") ==> Get(r.node.value.value, ContextPrefix).Some?)
      && (TypeOf(property).value != JStr("object") && TypeOf(property).value != JStr("array") ==>
            Get(r.node.value.value, "@type") == Some(JStr(SchemaPrefix + ":" + PyStr(TypeOf(property).value))))
    ensures var simple := CreateSimpleNode(env, property, key);
      Truthy(property) && PyIn("type", property) == Ok(true) && simple.Ok? && !NonEmpty(simple.value) ==> r == NoNode(depth)
    ensures TypeOf(property) == Some(JStr("object")) && PyIn(PropertiesKey, property) == Ok(false) ==> r.node == Ok(None)
    ensures TypeOf(property) == Some(JStr("array")) && PyIn(ItemKey, property) == Ok(false) ==> r.node == Ok(None)
    ensures Truthy(property) && PyIn("type", property).Err? ==> r == Fail(depth)
    ensures Truthy(property) && PyIn("type", property) == Ok(true) && CreateSimpleNode(env, property, key).Err? ==> r == Fail(depth)
    ensures var simple := CreateSimpleNode(env, property, key);
      Truthy(property) && property.JObj? && PyIn("type", property) == Ok(true) && simple.Ok? && NonEmpty(simple.value) ==>
        r == if TypeOf(property) == Some(JStr("object")) then CreateObjectNode(env, fuel, property, simple.value.value, actualref, depth)
             else if TypeOf(property) == Some(JStr("array")) then CreateArrayNode(env, fuel, property, simple.value.value, actualref, depth)
             else Step(CreateValueNode(property, simple.value.value), depth)
    ensures depth <= RecursionDepth ==> r.depth <= RecursionDepth
    decreases fuel, 6, 0
  {
    if !Truthy(property) then NoNode(depth)
    else match PyIn("type", property)
      case Err(_) => Fail(depth)
      case Ok(present) =>
        if !present then NoNode(depth)
        else match CreateSimpleNode(env, property, key)
          case Err(_) => Fail(depth)
          case Ok(simple) =>
            if !NonEmpty(simple) then NoNode(depth)
            else match PyIndex(property, "type")
              case Err(_) => Fail(depth)
              case Ok(t) =>
                if t == JStr("object") then CreateObjectNode(env, fuel, property, simple.value, actualref, depth)
                else if t == JStr("array") then CreateArrayNode(env, fuel, property, simple.value, actualref, depth)
                else Step(CreateValueNode(property, simple.value), depth)
  }

  /** `create_object_node`: `@context` becomes the properties context (null when that is None). */
  function CreateObjectNode(env: Env, fuel: nat, property: Json, node: Fields, actualref: string, depth: nat): (r: Step)
    ensures PyIn(PropertiesKey, property) == Ok(false) ==> r == NoNode(depth)
    ensures r.node.Ok? && r.node.value.Some? ==>
      && Get(r.node.value.value, ContextPrefix).Some?
      && (forall k :: k != ContextPrefix ==> Get(r.node.value.value, k) == Get(node, k))
    ensures property.JObj? && Get(property.fields, PropertiesKey).Some? ==>
      var c := CreatePropertiesContext(env, fuel, Get(property.fields, PropertiesKey).value, actualref, depth);
      && (c.node.Err? ==> r == Step(Err(c.node.error), c.depth))
      && (c.node.Ok? ==> r == Step(Ok(Some(Set(node, ContextPrefix, AsJson(c.node.value)))), c.depth))
    ensures depth <= RecursionDepth ==> r.depth <= RecursionDepth
    decreases fuel, 5, 0
  {
    match PyIn(PropertiesKey, property)
    case Err(_) => Fail(depth)
    case Ok(present) =>
      if !present then NoNode(depth)
      else match PyIndex(property, PropertiesKey)
        case Err(_) => Fail(depth)
        case Ok(props) =>
          var c := CreatePropertiesContext(env, fuel, props, actualref, depth);
          match c.node
          case Err(e) => Step(Err(e), c.depth)
          case Ok(ctx) => Step(Ok(Some(Set(node, ContextPrefix, AsJson(ctx)))), c.depth)
  }

  /**
   * `create_array_node`: None without `items`; otherwise `@container` is `@list`, and the
   * item decides the rest: a list item adds nothing, an item without `$ref` makes a value
   * node, and a `$ref` item sets `@context` to the item context.
   */
  function CreateArrayNode(env: Env, fuel: nat, property: Json, node: Fields, actualref: string, depth: nat): (r: Step)
    ensures PyIn(ItemKey, property) == Ok(false) ==> r == NoNode(depth)
    ensures r.node.Ok? && r.node.value.Some? ==>
      && Get(r.node.value.value, "@container") == Some(JStr("@list"))
      && (forall k :: k != ContextPrefix && k != "@type" && k != "@container" ==> Get(r.node.value.value, k) == Get(node, k))
    ensures PyIn(ItemKey, property) == Ok(true) && property.JObj? && Get(property.fields, ItemKey).value.JArr? ==>
      r == Step(Ok(Some(Set(node, "@container", JStr("@list")))), depth)
    ensures PyIn(ItemKey, property) == Ok(true) && property.JObj? && !Get(property.fields, ItemKey).value.JArr?
            && PyIn(RefKey, Get(property.fields, ItemKey).value) == Ok(false) ==>
      r == Step(CreateValueNode(Get(property.fields, ItemKey).value, Set(node, "@container", JStr("@list"))), depth)
    ensures PyIn(ItemKey, property) == Ok(true) && property.JObj? && !Get(property.fields, ItemKey).value.JArr?
            && PyIn(RefKey, Get(property.fields, ItemKey).value) == Ok(true) ==>
      var c := CreateItemContext(env, fuel, Get(property.fields, ItemKey).value, actualref, depth);
      && (c.node.Err? ==> r == Step(Err(c.node.error), c.depth))
      && (c.node.Ok? ==> r == Step(Ok(Some(Set(Set(node, "@container", JStr("@list")), ContextPrefix, AsJson(c.node.value)))), c.depth))
    ensures depth <= RecursionDepth ==> r.depth <= RecursionDepth
    decreases fuel, 5, 0
  {
    match PyIn(ItemKey, property)
    case Err(_) => Fail(depth)
    case Ok(present) =>
      if !present then NoNode(depth)
      else match PyIndex(property, ItemKey)
        case Err(_) => Fail(depth)
        case Ok(item) =>
          var listed := Set(node, "@container", JStr("@list"));
          if item.JArr? then Step(Ok(Some(listed)), depth)
          else match PyIn(RefKey, item)
            case Err(_) => Fail(depth)
            case Ok(hasRef) =>
              if !hasRef then Step(CreateValueNode(item, listed), depth)
              else
                var c := CreateItemContext(env, fuel, item, actualref, depth);
                match c.node
                case Err(e) => Step(Err(e), c.depth)
                case Ok(ctx) => Step(Ok(Some(Set(listed, ContextPrefix, AsJson(ctx)))), c.depth)
  }

  /** Some property key of `fields` filters to `k`. */
  ghost predicate FromProperties(k: string, fields: Fields) {
    exists j :: 0 <= j < |fields| && FilterKey(fields[j].0) == k
  }

  /** A key filtered from a later property is filtered from the properties. */
  lemma FromPropertiesTail(k: string, fields: Fields)
    requires |fields| > 0 && FromProperties(k, fields[1..])
    ensures FromProperties(k, fields)
  {
    var j :| 0 <= j < |fields[1..]| && FilterKey(fields[1..][j].0) == k;
    assert fields[j + 1] == fields[1..][j];
  }

  /**
   * `create_properties_context`: None for a non-dict or empty properties value; otherwise
   * the template, with one entry per property whose node is non-empty.
   */
  function CreatePropertiesContext(env: Env, fuel: nat, properties: Json, actualref: string, depth: nat): (r: Step)
    ensures !properties.JObj? || |properties.fields| == 0 ==> r == NoNode(depth)
    ensures r.node.Ok? && properties.JObj? && |properties.fields| > 0 ==>
      && r.node.value.Some?
      && Get(r.node.value.value, "@version") == Some(Version)
      && (forall k :: !FromProperties(k, properties.fields) ==> Get(r.node.value.value, k) == Get(ContextTemplate, k))
    ensures properties.JObj? && |properties.fields| > 0 ==>
      r == PropertiesLoop(env, fuel, properties.fields, actualref, ContextTemplate, depth)
    ensures depth <= RecursionDepth ==> r.depth <= RecursionDepth
    decreases fuel, 4, 0
  {
    if !properties.JObj? || |properties.fields| == 0 then NoNode(depth)
    else
      NoPropertyIsVersion(properties.fields);
      PropertiesLoop(env, fuel, properties.fields, actualref, ContextTemplate, depth)
  }

  /** No filtered key starts with `@`, so no property overwrites `@version`. */
  lemma NoPropertyIsVersion(fields: Fields)
    ensures !FromProperties("@version", fields)
  {
    forall j | 0 <= j < |fields| ensures FilterKey(fields[j].0) != "@version" {
      var f := FilterKey(fields[j].0);
      assert "@version"[0] == '@';
    }
  }

  /** The `for propKey, prop in properties.items()` loop, over the properties not yet visited. */
  function PropertiesLoop(env: Env, fuel: nat, rest: Fields, actualref: string, context: Fields, depth: nat): (r: Step)
    ensures r.node.Ok? ==>
      && r.node.value.Some?
      && (forall k :: !FromProperties(k, rest) ==> Get(r.node.value.value, k) == Get(context, k))
    ensures |rest| == 0 ==> r == Step(Ok(Some(context)), depth)
    ensures depth <= RecursionDepth ==> r.depth <= RecursionDepth
    decreases fuel, 3, |rest|
  {
    if |rest| == 0 then Step(Ok(Some(context)), depth)
    else
      var key := FilterKey(rest[0].0);
      var p := CreateNodeProperty(env, fuel, key, rest[0].1, actualref, depth);
      match p.node
      case Err(e) => Step(Err(e), p.depth)
      case Ok(n) =>
        var next := if NonEmpty(n) then Set(context, key, JObj(n.value)) else context;
        var r := PropertiesLoop(env, fuel, rest[1..], actualref, next, p.depth);
        assert FromProperties(key, rest) by { assert FilterKey(rest[0].0) == key; }
        forall k | FromProperties(k, rest[1..]) ensures FromProperties(k, rest) {
          FromPropertiesTail(k, rest);
        }
        r
  }

  /**
   * One turn of the loop: the first property's node is built from its filtered key; its error
   * ends the loop, otherwise a non-empty node is stored under the key and the loop goes on.
   */
  lemma PropertiesLoopStep(env: Env, fuel: nat, rest: Fields, actualref: string, context: Fields, depth: nat)
    requires |rest| > 0
    ensures var key := FilterKey(rest[0].0);
      var p := CreateNodeProperty(env, fuel, key, rest[0].1, actualref, depth);
      var r := PropertiesLoop(env, fuel, rest, actualref, context, depth);
      && (p.node.Err? ==> r == Step(Err(p.node.error), p.depth))
      && (p.node.Ok? ==> r == PropertiesLoop(env, fuel, rest[1..], actualref,
                                             if NonEmpty(p.node.value) then Set(context, key, JObj(p.node.value.value)) else context,
                                             p.depth))
  {
  }

  /**
   * The first property's node ends up under its filtered key, unless a later property filters
   * to the same key: its non-empty node when there is one, otherwise the context's entry.
   */
  lemma PropertiesLoopHead(env: Env, fuel: nat, rest: Fields, actualref: string, context: Fields, depth: nat)
    requires |rest| > 0 && !FromProperties(FilterKey(rest[0].0), rest[1..])
    requires PropertiesLoop(env, fuel, rest, actualref, context, depth).node.Ok?
    ensures var p := CreateNodeProperty(env, fuel, FilterKey(rest[0].0), rest[0].1, actualref, depth);
      && p.node.Ok?
      && Get(PropertiesLoop(env, fuel, rest, actualref, context, depth).node.value.value, FilterKey(rest[0].0)) ==
           if NonEmpty(p.node.value) then Some(JObj(p.node.value.value)) else Get(context, FilterKey(rest[0].0))
  {
    var key := FilterKey(rest[0].0);
    var p := CreateNodeProperty(env, fuel, key, rest[0].1, actualref, depth);
    var next := if p.node.Ok? && NonEmpty(p.node.value) then Set(context, key, JObj(p.node.value.value)) else context;
    PropertiesLoopStep(env, fuel, rest, actualref, context, depth);
    assert p.node.Ok?;
    var tail := PropertiesLoop(env, fuel, rest[1..], actualref, next, p.depth);
    assert Get(tail.node.value.value, key) == Get(next, key);
  }

  /**
   * `create_item_context`: the template updated with the expanded `$ref` node, plus the
   * item's description; None when the item is empty or its reference expands to nothing.
   */
  function CreateItemContext(env: Env, fuel: nat, item: Json, actualref: string, depth: nat): (r: Step)
    ensures !Truthy(item) ==> r == NoNode(depth)
    ensures Truthy(item) && item.JObj? && Get(item.fields, RefKey).Some? ==>
      var e := ExpandNode(env, fuel, Get(item.fields, RefKey).value, actualref, None, depth);
      && (e.node.Err? ==> r == Step(Err(e.node.error), e.depth))
      && (e.node.Ok? && !NonEmpty(e.node.value) ==> r == NoNode(e.depth))
      && (e.node.Ok? && NonEmpty(e.node.value) && Get(item.fields, "description").None? ==>
            r == Step(Ok(Some(Update(ContextTemplate, e.node.value.value))), e.depth))
      && (e.node.Ok? && NonEmpty(e.node.value) && Get(item.fields, "description").Some?
          && SetDefinition(Update(ContextTemplate, e.node.value.value), Get(item.fields, "description").value).Ok? ==>
            r == Step(Ok(Some(SetDefinition(Update(ContextTemplate, e.node.value.value), Get(item.fields, "description").value).value)), e.depth))
    ensures depth <= RecursionDepth ==> r.depth <= RecursionDepth
    decreases fuel, 3, 0
  {
    if !Truthy(item) then NoNode(depth)
    else match PyIndex(item, RefKey)
      case Err(_) => Fail(depth)
      case Ok(ref) =>
        var e := ExpandNode(env, fuel, ref, actualref, None, depth);
        match e.node
        case Err(err) => Step(Err(err), e.depth)
        case Ok(n) =>
          if !NonEmpty(n) then NoNode(e.depth)
          else
            var context := Update(ContextTemplate, n.value);
            match PyIn("description", item)
            case Err(_) => Fail(e.depth)
            case Ok(present) =>
              if !present then Step(Ok(Some(context)), e.depth)
              else match PyIndex(item, "description")
                case Err(_) => Fail(e.depth)
                case Ok(desc) =>
                  match SetDefinition(context, desc)
                  case Err(_) => Fail(e.depth)
                  case Ok(c) => Step(Ok(Some(c)), e.depth)
  }

  /**
   * `create_node_property`: the expanded `$ref` node of one property, named after `key`,
   * with the property's description; None for an empty key, an empty property, or one
   * without `$ref`.
   */
  function CreateNodeProperty(env: Env, fuel: nat, key: string, node: Json, actualref: string, depth: nat): (r: Step)
    ensures key == "" || !Truthy(node) || PyIn(RefKey, node) == Ok(false) ==> r == NoNode(depth)
    ensures r.node.Ok? && NonEmpty(r.node.value) ==> Get(r.node.value.value, "@id") == Some(JStr(env.aspectPrefix + ":" + key))
    ensures key != "" && node.JObj? && Get(node.fields, RefKey).Some? ==>
      var e := ExpandNode(env, fuel, Get(node.fields, RefKey).value, actualref, Some(key), depth);
      && (e.node.Err? ==> r == Step(Err(e.node.error), e.depth))
      && (e.node.Ok? && !NonEmpty(e.node.value) ==> r == NoNode(e.depth))
      && (e.node.Ok? && NonEmpty(e.node.value) && Get(node.fields, "description").None? ==> r == Step(e.node, e.depth))
      && (e.node.Ok? && NonEmpty(e.node.value) && Get(node.fields, "description").Some?
          && SetDefinition(e.node.value.value, Get(node.fields, "description").value).Ok? ==>
            r == Step(Ok(Some(SetDefinition(e.node.value.value, Get(node.fields, "description").value).value)), e.depth))
    ensures depth <= RecursionDepth ==> r.depth <= RecursionDepth
    decreases fuel, 2, 0
  {
    if key == "" || !Truthy(node) then NoNode(depth)
    else match PyIn(RefKey, node)
      case Err(_) => Fail(depth)
      case Ok(hasRef) =>
        if !hasRef then NoNode(depth)
        else match PyIndex(node, RefKey)
          case Err(_) => Fail(depth)
          case Ok(ref) =>
            var e := ExpandNode(env, fuel, ref, actualref, Some(key), depth);
            match e.node
            case Err(err) => Step(Err(err), e.depth)
            case Ok(n) =>
              if !NonEmpty(n) then NoNode(e.depth)
              else match PyIn("description", node)
                case Err(_) => Fail(e.depth)
                case Ok(present) =>
                  if !present then Step(Ok(n), e.depth)
                  else match PyIndex(node, "description")
                    case Err(_) => Fail(e.depth)
                    case Ok(desc) =>
                      match SetDefinition(n.value, desc)
                      case Err(_) => Fail(e.depth)
                      case Ok(c) => Step(Ok(Some(c)), e.depth)
  }

  /**
   * `expand_node`: resolves `ref` and builds the node it points to, one level deeper on the
   * reference path `actualref + "/-/" + ref`. Running out of fuel is the source's RecursionError.
   */
  function ExpandNode(env: Env, fuel: nat, ref: Json, actualref: string, key: Option<string>, depth: nat): (r: Step)
    ensures !Truthy(ref) || !ref.JStr? ==> r == NoNode(depth)
    ensures r.node.Ok? && r.node.value.Some? && HasKey(key) ==>
      Get(r.node.value.value, "@id") == Some(JStr(env.aspectPrefix + ":" + key.value))
    ensures ref.JStr? && ref.s != "" ==>
      var g := GetSchemaRef(env, ref, actualref, depth);
      && (g.target.Err? ==> r == Fail(g.depth))
      && (g.target.Ok? && !Truthy(g.target.value) ==> r == NoNode(g.depth))
      && (g.target.Ok? && Truthy(g.target.value) && fuel == 0 ==> r == Fail(g.depth))
      && (g.target.Ok? && Truthy(g.target.value) && fuel > 0 ==>
            r == CreateNode(env, fuel - 1, g.target.value, actualref + ActualPathSep + ref.s, key, g.depth))
    ensures depth <= RecursionDepth ==> r.depth <= RecursionDepth
    decreases fuel, 1, 0
  {
    if !Truthy(ref) then NoNode(depth)
    else
      var g := GetSchemaRef(env, ref, actualref, depth);
      match g.target
      case Err(_) => Fail(g.depth)
      case Ok(target) =>
        if !Truthy(target) then NoNode(g.depth)
        else if fuel == 0 then Fail(g.depth)
        else CreateNode(env, fuel - 1, target, actualref + ActualPathSep + ref.s, key, g.depth)
  }

  // ---------------------------------------------------------------- the whole translation

  /** The translation's answer and the depth counter after it. */
  datatype Translation = Translation(result: Result<Json, TransError>, depth: nat)

  /**
   * The shape `schema_to_jsonld` promises: one `@context` entry holding `@version`, the
   * schema.org prefix and the aspect prefix (each unless a later key overwrote it), and the
   * root node under the aspect name with `@id` `<prefix>:<name>`.
   */
  ghost predicate AspectContext(root: Json, prefix: string, path: string, name: string) {
    && root.JObj? && |root.fields| == 1 && root.fields[0].0 == ContextPrefix
    && root.fields[0].1.JObj?
    && var ctx := root.fields[0].1.fields;
    && Get(ctx, name).Some? && Get(ctx, name).value.JObj?
    && Get(Get(ctx, name).value.fields, "@id") == Some(JStr(prefix + ":" + name))
    && (prefix != name ==> Get(ctx, prefix) == Some(JStr(path + [RootRef])))
    && (prefix != SchemaPrefix && name != SchemaPrefix ==> Get(ctx, SchemaPrefix) == Some(JStr("https://schema.org/")))
    && (prefix != "@version" && name != "@version" ==> Get(ctx, "@version") == Some(Version))
  }

  /** `ctx[prefix] = path + "#"; ctx[name] = node; return {"@context": ctx}` over the initial context. */
  function WrapRoot(prefix: string, path: string, name: string, node: Fields): (r: Json)
    requires Get(node, "@id") == Some(JStr(prefix + ":" + name))
    ensures AspectContext(r, prefix, path, name)
  {
    var ctx := Set(Set(InitialJsonLd, prefix, JStr(path + [RootRef])), name, JObj(node));
    JObj([(ContextPrefix, JObj(ctx))])
  }

  /**
   * The root node `n` built from `schema`, given the `@id` `<prefix>:<name>` and the schema's
   * description, wrapped in the context; the source raises unless the node is non-empty and
   * the id has exactly two parts.
   */
  function WrapDescribedRoot(prefix: string, schema: Json, parts: seq<string>, n: Option<Fields>): (r: Result<Json, TransError>)
    ensures r.Ok? ==> |parts| == 2 && AspectContext(r.value, prefix, parts[0], parts[1])
    ensures !NonEmpty(n) || |parts| != 2 ==> r == Err(TranslationFailed)
    ensures NonEmpty(n) && |parts| == 2 && schema.JObj? ==>
      var root := Set(n.value, "@id", JStr(prefix + ":" + parts[1]));
      && (Get(schema.fields, "description").None? ==> r == Ok(WrapRoot(prefix, parts[0], parts[1], root)))
      && (Get(schema.fields, "description").Some? && SetDefinition(root, Get(schema.fields, "description").value).Ok? ==>
            r == Ok(WrapRoot(prefix, parts[0], parts[1], SetDefinition(root, Get(schema.fields, "description").value).value)))
  {
    if !NonEmpty(n) || |parts| != 2 then Err(TranslationFailed)
    else
      var node := Set(n.value, "@id", JStr(prefix + ":" + parts[1]));
      match PyIn("description", schema)
      case Err(_) => Err(TranslationFailed)
      case Ok(present) =>
        if !present then Ok(WrapRoot(prefix, parts[0], parts[1], node))
        else match PyIndex(schema, "description")
          case Err(_) => Err(TranslationFailed)
          case Ok(desc) =>
            match SetDefinition(node, desc)
            case Err(_) => Err(TranslationFailed)
            case Ok(described) => Ok(WrapRoot(prefix, parts[0], parts[1], described))
  }

  /**
   * The part of `schema_to_jsonld` after the semantic id has been checked: builds the root
   * node with `create_node`, then wraps it as `WrapDescribedRoot` says.
   */
  function TranslateRoot(env: Env, fuel: nat, schema: Json, parts: seq<string>, depth: nat): (r: Translation)
    ensures r.result.Ok? ==> |parts| == 2 && AspectContext(r.result.value, env.aspectPrefix, parts[0], parts[1])
    ensures var c := CreateNode(env, fuel, schema, "", None, depth);
      && r.depth == c.depth
      && (c.node.Err? ==> r.result == Err(c.node.error))
      && (c.node.Ok? ==> r.result == WrapDescribedRoot(env.aspectPrefix, schema, parts, c.node.value))
    ensures depth <= RecursionDepth ==> r.depth <= RecursionDepth
  {
    var c := CreateNode(env, fuel, schema, "", None, depth);
    match c.node
    case Err(e) => Translation(Err(e), c.depth)
    case Ok(n) => Translation(WrapDescribedRoot(env.aspectPrefix, schema, parts, n), c.depth)
  }

  /**
   * A typed root schema without `description` fails: with no key the root's simple node is
   * empty, so `create_node` gives None and `schema_to_jsonld` raises, whatever the id.
   */
  lemma RootNeedsDescription(env: Env, fuel: nat, schema: Json, parts: seq<string>, depth: nat)
    requires schema.JObj? && Get(schema.fields, "type").Some? && Get(schema.fields, "description").None?
    ensures TranslateRoot(env, fuel, schema, parts, depth).result == Err(TranslationFailed)
  {
    var simple := CreateSimpleNode(env, schema, None);
    assert Truthy(schema);
    assert simple == Ok(Some([]));
  }

  /**
   * A described value schema translates: the aspect entry is the value node of the root, with
   * `@type` `schema:<type>`, `@id` `<prefix>:<name>` and the description as `@definition`.
   */
  lemma DescribedValueRootTranslates(env: Env, fuel: nat, schema: Json, parts: seq<string>, depth: nat)
    requires schema.JObj? && |parts| == 2
    requires Get(schema.fields, "type").Some? && Get(schema.fields, "type").value.JStr?
    requires Get(schema.fields, "type").value != JStr("object") && Get(schema.fields, "type").value != JStr("array")
    requires Get(schema.fields, "description").Some?
    ensures var r := TranslateRoot(env, fuel, schema, parts, depth).result;
      && r.Ok? && r.value.JObj? && |r.value.fields| == 1 && r.value.fields[0].1.JObj?
      && var entry := Get(r.value.fields[0].1.fields, parts[1]);
      && entry.Some? && entry.value.JObj?
      && Get(entry.value.fields, "@type") == Some(JStr(SchemaPrefix + ":" + Get(schema.fields, "type").value.s))
      && Get(entry.value.fields, "@id") == Some(JStr(env.aspectPrefix + ":" + parts[1]))
      && Get(entry.value.fields, ContextPrefix) == Some(JObj([("@definition", Get(schema.fields, "description").value)]))
  {
    var desc := Get(schema.fields, "description").value;
    var simple := CreateSimpleNode(env, schema, None);
    assert Truthy(schema);
    assert simple.Ok? && Get(simple.value.value, ContextPrefix) == Some(JObj([("@definition", desc)]));
    var valued := CreateValueNode(schema, simple.value.value);
    assert valued.Ok? && Get(valued.value.value, ContextPrefix) == Some(JObj([("@definition", desc)]));
    var c := CreateNode(env, fuel, schema, "", None, depth);
    assert c.node == valued;
    var root := Set(valued.value.value, "@id", JStr(env.aspectPrefix + ":" + parts[1]));
    var described := SetDefinition(root, desc);
    assert described.Ok?;
    assert Get(described.value, ContextPrefix) == Some(JObj([("@definition", desc)])) by {
      var def: Fields := [("@definition", desc)];
      assert Get(root, ContextPrefix) == Some(JObj(def));
      assert Set(def, "@definition", desc) == [("@definition", desc)] + def[1..] == def;
      assert described.value == Set(root, ContextPrefix, JObj(def));
    }
  }

  /** A semantic id the translator accepts: exactly one `#`, followed by a non-empty aspect name. */
  lemma SemanticIdAccepted(env: Env, fuel: nat, schema: Json, semanticId: string, depth: nat)
    requires TranslateRoot(env, fuel, schema, Split(semanticId, RootRef), depth).result.Ok?
    requires Split(semanticId, RootRef)[1] != ""
    ensures exists path, name :: semanticId == path + [RootRef] + name && RootRef !in path && RootRef !in name && name != ""
  {
    var parts := Split(semanticId, RootRef);
    JoinSplit(semanticId, RootRef);
    assert semanticId == parts[0] + [RootRef] + parts[1] by {
      assert Join(parts, RootRef) == parts[0] + [RootRef] + parts[1];
    }
  }

  class SammSchemaContextTranslator {
    var baseSchema: Json
    var aspectPrefix: string
    var depth: nat

    constructor ()
      ensures baseSchema == JObj([]) && aspectPrefix == "aspect" && depth == 0
    {
      baseSchema := JObj([]);
      aspectPrefix := "aspect";
      depth := 0;
    }

    /**
     * `schema_to_jsonld`: only a dict or list schema can be copied into `baseSchema`; the
     * semantic id must have a non-empty part after its first `#` before anything is built;
     * a non-empty `aspectPrefix` replaces the stored one, an empty one keeps it.
     */
    method SchemaToJsonLd(semanticId: string, schema: Json, fuel: nat, aspectPrefix: Option<string> := Some("aspect"))
      returns (r: Result<Json, TransError>)
      modifies this
      ensures !(schema.JObj? || schema.JArr?) ==> r.Err? && unchanged(this)
      ensures (schema.JObj? || schema.JArr?) ==> baseSchema == schema
      ensures var parts := Split(semanticId, RootRef);
        (schema.JObj? || schema.JArr?) && (|parts| < 2 || parts[1] == "") ==>
          r.Err? && this.aspectPrefix == old(this.aspectPrefix) && depth == old(depth)
      ensures var parts := Split(semanticId, RootRef);
        (schema.JObj? || schema.JArr?) && |parts| >= 2 && parts[1] != "" ==>
          && this.aspectPrefix == (if HasKey(aspectPrefix) then aspectPrefix.value else old(this.aspectPrefix))
          && Translation(r, depth) == TranslateRoot(Env(schema, this.aspectPrefix), fuel, schema, parts, old(depth))
      ensures r.Ok? ==> |Split(semanticId, RootRef)| == 2 && Split(semanticId, RootRef)[1] != ""
      ensures old(depth) <= RecursionDepth ==> depth <= RecursionDepth
    {
      if !(schema.JObj? || schema.JArr?) {
        return Err(TranslationFailed);
      }
      baseSchema := schema;
      var parts := Split(semanticId, RootRef);
      if |parts| < 2 || parts[1] == "" {
        return Err(TranslationFailed);
      }
      if HasKey(aspectPrefix) {
        this.aspectPrefix := aspectPrefix.value;
      }
      var t := TranslateRoot(Env(baseSchema, this.aspectPrefix), fuel, schema, parts, depth);
      depth := t.depth;
      r := t.result;
    }
  }
}
