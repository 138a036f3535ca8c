/**
 * `submodel_schema_finder`: a SAMM semantic id `urn:samm:<namespace>:<version>#<aspect>`
 * becomes the URL of the aspect's generated JSON schema, which is then fetched. The fetch
 * is a function from the URL to the response status and, when the body parses, its JSON.
 */
module SubmodelValidation {
  import opened Wrappers
  import opened Json
  import opened Strs

  const DefaultLinkCore: string := "https://raw.githubusercontent.com/eclipse-tractusx/sldt-semantic-models/main/"
  const SuccessMessage: string := "Submodel validation schema retrieved successfully"

  /**
   * `MalformedSemanticId`, `SchemaNotFound` and `InvalidJson` are the three 422 HTTPErrors
   * the function raises. `IndexError` is raised by the id's fourth segment having no `#`,
   * and `NoLinkCore` is the TypeError raised by a `None` link core.
   */
  datatype SchemaError = MalformedSemanticId | IndexError | NoLinkCore | SchemaNotFound(link: string) | InvalidJson(link: string)

  /** What `get(schema_link)` yields: the status, and the body when `response.json()` succeeds. */
  datatype Fetched = Fetched(status: int, body: Option<Json>)

  /**
   * Lines 40-46: the schema URL, or the error raised while composing it. The concatenation
   * is evaluated left to right, so a `None` link core fails before the aspect is indexed.
   */
  function SchemaLink(semanticId: string, linkCore: Option<string>): (r: Result<string, SchemaError>)
    ensures r == Err(MalformedSemanticId) <==> |Split(semanticId, ':')| < 4
    ensures r == Err(NoLinkCore) <==> |Split(semanticId, ':')| >= 4 && linkCore.None?
    ensures r == Err(IndexError) <==>
      |Split(semanticId, ':')| >= 4 && linkCore.Some? && |Split(Split(semanticId, ':')[3], '#')| < 2
    ensures r.Ok? ==> linkCore.Some? && linkCore.value <= r.value
    ensures r.Ok? ==> |r.value| >= |"-schema.json"| && r.value[|r.value| - |"-schema.json"|..] == "-schema.json"
  {
    var seg := Split(semanticId, ':');
    if |seg| < 4 then Err(MalformedSemanticId)
    else
      var loc := Split(seg[3], '#');
      if linkCore.None? then Err(NoLinkCore)
      else if |loc| < 2 then Err(IndexError)
      else
        var link := linkCore.value + seg[2] + "/" + loc[0] + "/gen/" + loc[1] + "-schema.json";
        assert link == (linkCore.value + seg[2] + "/" + loc[0] + "/gen/" + loc[1]) + "-schema.json";
        Ok(link)
  }

  /**
   * The composed URL for any id whose first four `:`-separated segments are `parts[..4]`,
   * the fourth being `<version>#<aspect>`: the link core verbatim, the namespace, the
   * version and the aspect. Segments after the fourth do not matter.
   */
  lemma SchemaLinkOf(parts: seq<string>, version: string, aspect: string, linkCore: string)
    requires |parts| >= 4
    requires forall i :: 0 <= i < |parts| ==> ':' !in parts[i]
    requires parts[3] == version + "#" + aspect && '#' !in version && '#' !in aspect
    ensures SchemaLink(Join(parts, ':'), Some(linkCore))
      == Ok(linkCore + parts[2] + "/" + version + "/gen/" + aspect + "-schema.json")
  {
    SplitJoin(parts, ':');
    SplitAround(version, '#', aspect);
    SplitNoSep(version, '#');
    SplitNoSep(aspect, '#');
    assert version + "#" + aspect == version + ['#'] + aspect;
  }

  /** An id with fewer than four segments is rejected before anything is fetched. */
  lemma SchemaLinkTooShort(parts: seq<string>, linkCore: Option<string>)
    requires 1 <= |parts| < 4
    requires forall i :: 0 <= i < |parts| ==> ':' !in parts[i]
    ensures SchemaLink(Join(parts, ':'), linkCore) == Err(MalformedSemanticId)
  {
    SplitJoin(parts, ':');
  }

  /**
   * A fourth segment without `#` has no aspect name: indexing for it raises IndexError, unless
   * the link core is `None`, whose concatenation raises TypeError first.
   */
  lemma SchemaLinkNoAspect(parts: seq<string>, linkCore: Option<string>)
    requires |parts| >= 4
    requires forall i :: 0 <= i < |parts| ==> ':' !in parts[i]
    requires '#' !in parts[3]
    ensures SchemaLink(Join(parts, ':'), linkCore) == if linkCore.None? then Err(NoLinkCore) else Err(IndexError)
  {
    SplitJoin(parts, ':');
    SplitNoSep(parts[3], '#');
  }

  /** `urn:samm:io.catenax.batch:3.0.0#Batch`, written segment by segment, against any link core. */
  lemma SchemaLinkExample(linkCore: string)
    ensures SchemaLink("urn" + ":" + "samm" + ":" + "io.catenax.batch" + ":" + "3.0.0" + "#" + "Batch", Some(linkCore))
      == Ok(linkCore + "io.catenax.batch" + "/" + "3.0.0" + "/gen/" + "Batch" + "-schema.json")
  {
    var parts := ["urn", "samm", "io.catenax.batch", "3.0.0" + "#" + "Batch"];
    assert Join(parts[3..], ':') == parts[3];
    assert Join(parts[2..], ':') == parts[2] + ":" + Join(parts[3..], ':');
    assert Join(parts[1..], ':') == parts[1] + ":" + Join(parts[2..], ':');
    assert Join(parts, ':') == "urn" + ":" + "samm" + ":" + "io.catenax.batch" + ":" + "3.0.0" + "#" + "Batch";
    SchemaLinkOf(parts, "3.0.0", "Batch", linkCore);
  }

  /** `urn:samm:io.catenax.batch`, written segment by segment, lacks the version and aspect segment. */
  lemma SchemaLinkExampleTooShort()
    ensures SchemaLink("urn" + ":" + "samm" + ":" + "io.catenax.batch", Some(DefaultLinkCore)) == Err(MalformedSemanticId)
  {
    var parts := ["urn", "samm", "io.catenax.batch"];
    assert Join(parts, ':') == "urn" + ":" + "samm" + ":" + "io.catenax.batch";
    SchemaLinkTooShort(parts, Some(DefaultLinkCore));
  }

  /** `urn:samm:io.catenax.batch:3.0.0` has no aspect; with a `None` link core the TypeError comes first. */
  lemma SchemaLinkExampleNoCore()
    ensures SchemaLink("urn" + ":" + "samm" + ":" + "io.catenax.batch" + ":" + "3.0.0", None) == Err(NoLinkCore)
    ensures SchemaLink("urn" + ":" + "samm" + ":" + "io.catenax.batch" + ":" + "3.0.0", Some(DefaultLinkCore)) == Err(IndexError)
  {
    var parts := ["urn", "samm", "io.catenax.batch", "3.0.0"];
    assert Join(parts[3..], ':') == parts[3];
    assert Join(parts[2..], ':') == parts[2] + ":" + Join(parts[3..], ':');
    assert Join(parts[1..], ':') == parts[1] + ":" + Join(parts[2..], ':');
    assert Join(parts, ':') == "urn" + ":" + "samm" + ":" + "io.catenax.batch" + ":" + "3.0.0";
    SchemaLinkNoAspect(parts, None);
    SchemaLinkNoAspect(parts, Some(DefaultLinkCore));
  }

  /**
   * `submodel_schema_finder`: fetch the composed link; any status but 200, or a body that
   * does not parse, is an error; otherwise a report with status `ok` and the schema.
   */
  function SubmodelSchemaFinder(semanticId: string, get: string -> Fetched, linkCore: Option<string> := Some(DefaultLinkCore))
    : (r: Result<Json, SchemaError>)
    ensures SchemaLink(semanticId, linkCore).Err? ==> r == Err(SchemaLink(semanticId, linkCore).error)
    ensures SchemaLink(semanticId, linkCore).Ok? ==>
      var link := SchemaLink(semanticId, linkCore).value;
      && (get(link).status != 200 ==> r == Err(SchemaNotFound(link)))
      && (get(link).status == 200 && get(link).body.None? ==> r == Err(InvalidJson(link)))
    ensures r.Ok? <==>
      && SchemaLink(semanticId, linkCore).Ok?
      && get(SchemaLink(semanticId, linkCore).value).status == 200
      && get(SchemaLink(semanticId, linkCore).value).body.Some?
    ensures r.Ok? ==>
      && r.value.JObj?
      && Get(r.value.fields, "status") == Some(JStr("ok"))
      && Get(r.value.fields, "message") == Some(JStr(SuccessMessage))
      && Get(r.value.fields, "schema") == get(SchemaLink(semanticId, linkCore).value).body
    ensures r.Ok? ==>
      r.value == JObj([("status", JStr("ok")), ("message", JStr(SuccessMessage)),
                       ("schema", get(SchemaLink(semanticId, linkCore).value).body.value)])
  {
    match SchemaLink(semanticId, linkCore)
    case Err(e) => Err(e)
    case Ok(link) =>
      var response := get(link);
      if response.status != 200 then Err(SchemaNotFound(link))
      else
        match response.body
        case None => Err(InvalidJson(link))
        case Some(schema) =>
          var report := [("status", JStr("ok")), ("message", JStr(SuccessMessage)), ("schema", schema)];
          assert DistinctKeys(report);
          GetAt(report, 0); GetAt(report, 1); GetAt(report, 2);
          Ok(JObj(report))
  }
}
