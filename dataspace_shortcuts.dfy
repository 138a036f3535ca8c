/**
 * The dataspace shortcuts: the asset, contract definition and policy payloads they build
 * before one create call each. The call into the connector service (and the model factory
 * that wraps the payload) is the `create` parameter, a function from request to response.
 */
module DataspaceShortcuts {
  import opened Wrappers
  import opened Json

  const EdcNamespace: string := "https://w3id.org/edc/v0.0.1/ns/"
  const AssetIdProperty: string := "https://w3id.org/edc/v0.0.1/ns/id"
  const HeaderPrefix: string := "header:"
  const AasSemanticsPrefix: string := "aas-semantics"
  const AasSemantics: string := "https://admin-shell.io/aas/3/0/HasSemantics/"

  /** The namespaces every asset declares. */
  const AssetContext: Fields := [
    ("edc", JStr(EdcNamespace)),
    ("cx-common", JStr("https://w3id.org/catenax/ontology/common#")),
    ("cx-taxo", JStr("https://w3id.org/catenax/taxonomy#")),
    ("dct", JStr("http://purl.org/dc/terms/"))
  ]

  /** The default `proxy_params` of `create_asset`. */
  const DefaultProxyParams: Fields := [
    ("proxyQueryParams", JStr("false")),
    ("proxyPath", JStr("true")),
    ("proxyMethod", JStr("true")),
    ("proxyBody", JStr("false"))
  ]

  /** The data address before proxy parameters and headers are added. */
  function BaseDataAddress(baseUrl: string): Fields {
    [("@type", JStr("DataAddress")), ("type", JStr("HttpData")), ("baseUrl", JStr(baseUrl))]
  }

  /** ValueError raised when the connector answers a create call with a status other than 200. */
  datatype ShortcutError = CreationFailed(status: int)

  /** A create call's answer: the parsed body on 200, the status otherwise. */
  function Created(response: Response): (r: Result<Json, ShortcutError>)
    ensures r.Ok? <==> response.status == 200
    ensures r.Ok? ==> r.value == response.body
    ensures r.Err? ==> r.error == CreationFailed(response.status)
  {
    if response.status != 200 then Err(CreationFailed(response.status)) else Ok(response.body)
  }

  // ---------------------------------------------------------------- assets

  /** What `create_asset` hands to the asset model factory. */
  datatype AssetRequest = AssetRequest(
    connectorVersion: string,
    context: Fields,
    oid: string,
    properties: Fields,
    privateProperties: Option<Fields>,
    dataAddress: Fields)

  /**
   * The value a data address holds under `k`: a header (as `header:<name>`) wins over a
   * proxy parameter, which wins over the base entries.
   */
  function DataAddressEntry(k: string, baseUrl: string, proxyParams: Option<Fields>, headers: Option<Fields>): Option<Json> {
    if headers.Some? && HeaderPrefix <= k && Get(headers.value, k[|HeaderPrefix|..]).Some? then
      Get(headers.value, k[|HeaderPrefix|..])
    else if proxyParams.Some? && Get(proxyParams.value, k).Some? then Get(proxyParams.value, k)
    else Get(BaseDataAddress(baseUrl), k)
  }

  /** Every header `k -> v` appears in the data address as `header:k -> v`. */
  lemma DataAddressHeader(baseUrl: string, proxyParams: Option<Fields>, headers: Fields, name: string, v: Json)
    requires Get(headers, name) == Some(v)
    ensures DataAddressEntry(HeaderPrefix + name, baseUrl, proxyParams, Some(headers)) == Some(v)
  {
    assert (HeaderPrefix + name)[|HeaderPrefix|..] == name;
  }

  /** The base entries survive unless a proxy parameter of the same name replaces them. */
  lemma DataAddressBase(baseUrl: string, proxyParams: Option<Fields>, headers: Option<Fields>)
    ensures proxyParams.None? || Get(proxyParams.value, "@type").None? ==>
      DataAddressEntry("@type", baseUrl, proxyParams, headers) == Some(JStr("DataAddress"))
    ensures proxyParams.None? || Get(proxyParams.value, "type").None? ==>
      DataAddressEntry("type", baseUrl, proxyParams, headers) == Some(JStr("HttpData"))
    ensures proxyParams.None? || Get(proxyParams.value, "baseUrl").None? ==>
      DataAddressEntry("baseUrl", baseUrl, proxyParams, headers) == Some(JStr(baseUrl))
  {
    assert "@type"[0] != HeaderPrefix[0] && "type"[0] != HeaderPrefix[0] && "baseUrl"[0] != HeaderPrefix[0];
    var base := BaseDataAddress(baseUrl);
    assert DistinctKeys(base);
    GetAt(base, 1);
    GetAt(base, 2);
  }

  /** One turn of the header loop: `data_address["header:" + key] = value` for the next header. */
  lemma HeaderStep(da: Fields, baseUrl: string, proxyParams: Option<Fields>, hs: Fields, i: nat)
    requires i < |hs| && DistinctKeys(hs)
    requires forall k :: Get(da, k) == DataAddressEntry(k, baseUrl, proxyParams, Some(hs[..i]))
    ensures forall k :: Get(Set(da, HeaderPrefix + hs[i].0, hs[i].1), k) == DataAddressEntry(k, baseUrl, proxyParams, Some(hs[..i + 1]))
  {
    var name := hs[i].0;
    assert hs[..i + 1] == hs[..i] + [hs[i]];
    assert Get(hs[..i], name).None? by {
      assert forall j :: 0 <= j < i ==> hs[..i][j].0 != name;
    }
    forall k ensures Get(Set(da, HeaderPrefix + name, hs[i].1), k) == DataAddressEntry(k, baseUrl, proxyParams, Some(hs[..i + 1])) {
      if HeaderPrefix <= k {
        GetAppend(hs[..i], name, hs[i].1, k[|HeaderPrefix|..]);
        assert k == HeaderPrefix + k[|HeaderPrefix|..];
      }
      if k == HeaderPrefix + name {
        assert k[|HeaderPrefix|..] == name;
      }
    }
  }

  /** The data address `create_asset` builds: the base entries, then the proxy parameters, then the headers. */
  method BuildDataAddress(baseUrl: string, proxyParams: Option<Fields>, headers: Option<Fields>)
    returns (dataAddress: Fields)
    requires proxyParams.Some? ==> DistinctKeys(proxyParams.value)
    requires headers.Some? ==> DistinctKeys(headers.value)
    ensures forall k :: Get(dataAddress, k) == DataAddressEntry(k, baseUrl, proxyParams, headers)
  {
    dataAddress := BaseDataAddress(baseUrl);
    if proxyParams.Some? {
      dataAddress := Update(dataAddress, proxyParams.value);
    }
    assert forall k :: Get(dataAddress, k) == DataAddressEntry(k, baseUrl, proxyParams, None);
    if headers.Some? {
      var hs := headers.value;
      var i := 0;
      while i < |hs|
        invariant 0 <= i <= |hs|
        invariant forall k :: Get(dataAddress, k) == DataAddressEntry(k, baseUrl, proxyParams, Some(hs[..i]))
      {
        HeaderStep(dataAddress, baseUrl, proxyParams, hs, i);
        dataAddress := Set(dataAddress, HeaderPrefix + hs[i].0, hs[i].1);
        i := i + 1;
      }
      assert hs[..i] == hs;
    }
  }

  /** The asset properties: the `dct:type`, and the version and semantic id when given. */
  function AssetProperties(dctType: string, version: Option<string>, semanticId: Option<string>): (p: Fields)
    ensures Get(p, "dct:type") == Some(JObj([("@id", JStr(dctType))]))
    ensures Get(p, "cx-common:version") == if version.Some? then Some(JStr(version.value)) else None
    ensures Get(p, "aas-semantics:semanticId") ==
      if semanticId.Some? then Some(JObj([("@id", JStr(semanticId.value))])) else None
    ensures forall k :: k != "dct:type" && k != "cx-common:version" && k != "aas-semantics:semanticId" ==> Get(p, k).None?
  {
    var base: Fields := [("dct:type", JObj([("@id", JStr(dctType))]))];
    var versioned := if version.Some? then Set(base, "cx-common:version", JStr(version.value)) else base;
    if semanticId.Some? then Set(versioned, "aas-semantics:semanticId", JObj([("@id", JStr(semanticId.value))]))
    else versioned
  }

  /** The asset context: the fixed namespaces, plus the AAS semantics namespace when a semantic id is given. */
  function AssetContextFor(semanticId: Option<string>): (c: Fields)
    ensures Get(c, AasSemanticsPrefix) == if semanticId.Some? then Some(JStr(AasSemantics)) else None
    ensures forall k :: k != AasSemanticsPrefix ==> Get(c, k) == Get(AssetContext, k)
  {
    if semanticId.Some? then Set(AssetContext, AasSemanticsPrefix, JStr(AasSemantics)) else AssetContext
  }

  /**
   * `create_asset`: builds the context, the properties and the data address, hands them to
   * the connector, and raises ValueError unless it answers 200.
   */
  method CreateAsset(create: AssetRequest -> Response, assetId: string, baseUrl: string, dctType: string,
                     version: Option<string> := Some("3.0"), semanticId: Option<string> := None,
                     proxyParams: Option<Fields> := Some(DefaultProxyParams), headers: Option<Fields> := None,
                     privateProperties: Option<Fields> := None, connectorVersion: string := "jupiter")
    returns (sent: AssetRequest, r: Result<Json, ShortcutError>)
    requires proxyParams.Some? ==> DistinctKeys(proxyParams.value)
    requires headers.Some? ==> DistinctKeys(headers.value)
    ensures sent.oid == assetId && sent.connectorVersion == connectorVersion
    ensures sent.privateProperties == privateProperties
    ensures forall k :: Get(sent.dataAddress, k) == DataAddressEntry(k, baseUrl, proxyParams, headers)
    ensures Get(sent.properties, "dct:type") == Some(JObj([("@id", JStr(dctType))]))
    ensures Get(sent.properties, "cx-common:version") == if version.Some? then Some(JStr(version.value)) else None
    ensures Get(sent.properties, "aas-semantics:semanticId") ==
      if semanticId.Some? then Some(JObj([("@id", JStr(semanticId.value))])) else None
    ensures forall k :: k != "dct:type" && k != "cx-common:version" && k != "aas-semantics:semanticId" ==>
      Get(sent.properties, k).None?
    ensures Get(sent.context, AasSemanticsPrefix) == if semanticId.Some? then Some(JStr(AasSemantics)) else None
    ensures forall k :: k != AasSemanticsPrefix ==> Get(sent.context, k) == Get(AssetContext, k)
    ensures r == Created(create(sent))
  {
    var dataAddress := BuildDataAddress(baseUrl, proxyParams, headers);
    sent := AssetRequest(connectorVersion, AssetContextFor(semanticId), assetId,
                         AssetProperties(dctType, version, semanticId), privateProperties, dataAddress);
    r := Created(create(sent));
  }

  // ---------------------------------------------------------------- contract definitions

  /** What `create_contract` hands to the contract definition model factory. */
  datatype ContractRequest = ContractRequest(
    connectorVersion: string,
    context: Fields,
    oid: string,
    assetsSelector: seq<Json>,
    contractPolicyId: string,
    accessPolicyId: string)

  /** The asset selector of a contract definition: one equality on the asset id. */
  function AssetSelector(assetId: string): seq<Json> {
    [JObj([("operandLeft", JStr(AssetIdProperty)), ("operator", JStr("=")), ("operandRight", JStr(assetId))])]
  }

  /** An equality criterion holds for the asset whose property `operandLeft` equals `operandRight`. */
  predicate CriterionHolds(criterion: Json, assetProperties: Fields) {
    && criterion.JObj?
    && Get(criterion.fields, "operator") == Some(JStr("="))
    && Get(criterion.fields, "operandLeft").Some? && Get(criterion.fields, "operandLeft").value.JStr?
    && Get(criterion.fields, "operandRight").Some?
    && Get(assetProperties, Get(criterion.fields, "operandLeft").value.s) == Get(criterion.fields, "operandRight")
  }

  /** A selector selects the assets that satisfy all of its criteria. */
  predicate Selects(selector: seq<Json>, assetProperties: Fields) {
    forall c :: c in selector ==> CriterionHolds(c, assetProperties)
  }

  /** The contract's selector selects exactly the asset with the given id. */
  lemma AssetSelectorSelectsOnly(assetId: string, assetProperties: Fields)
    ensures Selects(AssetSelector(assetId), assetProperties) <==> Get(assetProperties, AssetIdProperty) == Some(JStr(assetId))
  {
    var c := AssetSelector(assetId)[0];
    assert DistinctKeys(c.fields);
    GetAt(c.fields, 0);
    GetAt(c.fields, 1);
    GetAt(c.fields, 2);
    assert AssetSelector(assetId) == [c];
    assert Selects([c], assetProperties) <==> CriterionHolds(c, assetProperties);
  }

  /**
   * `create_contract`: a contract definition under the edc vocabulary whose asset selector
   * is the equality on the asset id; ValueError unless the connector answers 200.
   */
  function CreateContract(create: ContractRequest -> Response, contractId: string, usagePolicyId: string,
                          accessPolicyId: string, assetId: string, connectorVersion: string := "jupiter")
    : (r: (ContractRequest, Result<Json, ShortcutError>))
    ensures r.0.oid == contractId && r.0.contractPolicyId == usagePolicyId && r.0.accessPolicyId == accessPolicyId
    ensures r.0.connectorVersion == connectorVersion
    ensures r.0.context == [("@vocab", JStr(EdcNamespace))]
    ensures forall props :: Selects(r.0.assetsSelector, props) <==> Get(props, AssetIdProperty) == Some(JStr(assetId))
    ensures r.1.Ok? <==> create(r.0).status == 200
    ensures r.1.Ok? ==> r.1.value == create(r.0).body
    ensures r.1 == Created(create(r.0))
  {
    forall props ensures Selects(AssetSelector(assetId), props) <==> Get(props, AssetIdProperty) == Some(JStr(assetId)) {
      AssetSelectorSelectsOnly(assetId, props);
    }
    var contract := ContractRequest(connectorVersion, [("@vocab", JStr(EdcNamespace))], contractId,
                                    AssetSelector(assetId), usagePolicyId, accessPolicyId);
    (contract, Created(create(contract)))
  }

  // ---------------------------------------------------------------- policies

  /** What `create_policy` hands to the policy model factory. */
  datatype PolicyRequest = PolicyRequest(
    connectorVersion: string,
    oid: string,
    context: Json,
    permissions: Json,
    prohibitions: Json,
    obligations: Json)

  /** `create_policy`: the policy parts as given (empty by default); ValueError unless the connector answers 200. */
  function CreatePolicy(create: PolicyRequest -> Response, policyId: string, context: Json := JObj([]),
                        permissions: Json := JArr([]), prohibitions: Json := JArr([]), obligations: Json := JArr([]),
                        connectorVersion: string := "jupiter")
    : (r: (PolicyRequest, Result<Json, ShortcutError>))
    ensures r.0 == PolicyRequest(connectorVersion, policyId, context, permissions, prohibitions, obligations)
    ensures r.1.Ok? <==> create(r.0).status == 200
    ensures r.1.Err? ==> r.1.error == CreationFailed(create(r.0).status)
    ensures r.1 == Created(create(r.0))
  {
    var policy := PolicyRequest(connectorVersion, policyId, context, permissions, prohibitions, obligations);
    (policy, Created(create(policy)))
  }
}
