/**
 * Digital Twin Registry client: the base URLs it composes at construction, and for each
 * of its four queries the parameter map, header map and path it builds before the single
 * GET request. The request itself is a function from the sent request to the response,
 * and the URL-safe base64 encoder is a function parameter.
 */
module Dtr {
  import opened Wrappers
  import opened Json
  import Strs
  import AasModels

  /** `ValueError` from the limit check, or `HTTPError` from `raise_for_status`. */
  datatype DtrError = ValueError | HttpError(status: int)

  /** One GET request as handed to the HTTP layer. Requests without parameters send `[]`. */
  datatype Request = Request(url: string, params: Fields, headers: Fields)

  /** `response.raise_for_status(); return response.json()`: 4xx and 5xx statuses raise. */
  function RaiseForStatus(resp: Response): (r: Result<Json, DtrError>)
    ensures r.Err? <==> 400 <= resp.status < 600
    ensures r.Ok? ==> r.value == resp.body
    ensures r.Err? ==> r.error == HttpError(resp.status)
  {
    if 400 <= resp.status < 600 then Err(HttpError(resp.status)) else Ok(resp.body)
  }

  /** Python truthiness of an optional string argument. */
  predicate Given(s: Option<string>) {
    s.Some? && s.value != ""
  }

  /** The headers every query sends: `Accept: application/json`, and `Edc-Bpn` iff a BPN is given. */
  function HeaderFor(k: string, bpn: Option<string>): Option<Json> {
    if k == "Accept" then Some(JStr("application/json"))
    else if k == "Edc-Bpn" && Given(bpn) then Some(JStr(bpn.value))
    else None
  }

  /** The paging parameters: `limit` iff a limit is given, `cursor` iff the cursor is non-empty. */
  function PagingParam(k: string, limit: Option<int>, cursor: Option<string>): Option<Json> {
    if k == "limit" && limit.Some? then Some(JNum(limit.value as real))
    else if k == "cursor" && Given(cursor) then Some(JStr(cursor.value))
    else None
  }

  /**
   * The parameters of the shell listing: the paging ones, `assetKind` iff a kind is given,
   * and `assetType` iff a type is given, sent encoded.
   */
  function ShellParam(k: string, limit: Option<int>, cursor: Option<string>, assetKind: Option<AasModels.AssetKind>,
                      assetType: Option<string>, enc: string -> string): Option<Json> {
    if k == "assetKind" then (if assetKind.Some? then Some(JStr(assetKind.value.Value())) else None)
    else if k == "assetType" then (if Given(assetType) then Some(JStr(enc(assetType.value))) else None)
    else PagingParam(k, limit, cursor)
  }

  /** `limit is not None and limit < 1`. */
  predicate BadLimit(limit: Option<int>) {
    limit.Some? && limit.value < 1
  }

  /** The header map every query builds by conditional assignment. */
  method BuildHeaders(bpn: Option<string>) returns (h: Fields)
    ensures forall k :: Get(h, k) == HeaderFor(k, bpn)
  {
    h := [("Accept", JStr("application/json"))];
    if Given(bpn) {
      h := Set(h, "Edc-Bpn", JStr(bpn.value));
    }
  }

  /** The paging parameters of the two listing queries, built by conditional assignment. */
  method BuildPagingParams(limit: Option<int>, cursor: Option<string>) returns (p: Fields)
    ensures forall k :: Get(p, k) == PagingParam(k, limit, cursor)
  {
    p := [];
    if limit.Some? {
      p := Set(p, "limit", JNum(limit.value as real));
    }
    if Given(cursor) {
      p := Set(p, "cursor", JStr(cursor.value));
    }
  }

  /** The parameters of the shell listing, built by conditional assignment. */
  method BuildShellParams(limit: Option<int>, cursor: Option<string>, assetKind: Option<AasModels.AssetKind>,
                          assetType: Option<string>, enc: string -> string) returns (p: Fields)
    ensures forall k :: Get(p, k) == ShellParam(k, limit, cursor, assetKind, assetType, enc)
  {
    p := BuildPagingParams(limit, cursor);
    if assetKind.Some? {
      p := Set(p, "assetKind", JStr(assetKind.value.Value()));
    }
    if Given(assetType) {
      var encoded := enc(assetType.value);
      p := Set(p, "assetType", JStr(encoded));
    }
  }

  /** The registry paths, each one extending the previous one. */
  function ShellsPath(dtrUrl: string): string {
    dtrUrl + "/shell-descriptors"
  }

  function ShellPath(dtrUrl: string, aas: string): string {
    ShellsPath(dtrUrl) + "/" + aas
  }

  function SubmodelsPath(dtrUrl: string, aas: string): string {
    ShellPath(dtrUrl, aas) + "/submodel-descriptors"
  }

  function SubmodelPath(dtrUrl: string, aas: string, sm: string): string {
    SubmodelsPath(dtrUrl, aas) + "/" + sm
  }

  /** Every query path lies below the shell listing, and the submodel paths below their shell. */
  lemma PathsNest(dtrUrl: string, aas: string, sm: string)
    ensures dtrUrl <= ShellsPath(dtrUrl)
    ensures ShellsPath(dtrUrl) + "/" <= ShellPath(dtrUrl, aas)
    ensures ShellPath(dtrUrl, aas) + "/" <= SubmodelsPath(dtrUrl, aas)
    ensures SubmodelsPath(dtrUrl, aas) + "/" <= SubmodelPath(dtrUrl, aas, sm)
  {
    var s := ShellsPath(dtrUrl);
    assert ShellPath(dtrUrl, aas) == (s + "/") + aas;
    var t := ShellPath(dtrUrl, aas);
    assert SubmodelsPath(dtrUrl, aas) == (t + "/") + "submodel-descriptors";
    var u := SubmodelsPath(dtrUrl, aas);
    assert SubmodelPath(dtrUrl, aas, sm) == (u + "/") + sm;
  }

  /**
   * `base.rstrip('/') + endpoint.rstrip('/')`: the composed URL never ends in `/`, so the
   * query paths appended to it never produce `//` at the join.
   */
  lemma ComposedUrlNoTrailingSlash(base: string, endpoint: string)
    ensures var u := Strs.TrimEnd(base, '/') + Strs.TrimEnd(endpoint, '/');
      u == [] || u[|u| - 1] != '/'
    ensures var u := Strs.TrimEnd(base, '/') + Strs.TrimEnd(endpoint, '/');
      ShellsPath(u)[|u|] == '/' && (u == [] || ShellsPath(u)[|u| - 1] != '/')
  {
    var b := Strs.TrimEnd(base, '/');
    var e := Strs.TrimEnd(endpoint, '/');
    if e == [] {
      assert b + e == b;
    }
  }

  /** The registry client; its URLs are fixed at construction. */
  class DtrService {
    const dtrBaseUrl: string
    const dtrBaseLookupUrl: string
    const dtrApiEndpoint: string
    const dtrUrl: string
    const dtrLookupUrl: string

    constructor(dtrBaseUrl: string, dtrBaseLookupUrl: string, dtrApiEndpoint: string)
      ensures this.dtrBaseUrl == dtrBaseUrl && this.dtrBaseLookupUrl == dtrBaseLookupUrl
      ensures this.dtrApiEndpoint == dtrApiEndpoint
      ensures dtrUrl == Strs.TrimEnd(dtrBaseUrl, '/') + Strs.TrimEnd(dtrApiEndpoint, '/')
      ensures dtrLookupUrl == Strs.TrimEnd(dtrBaseLookupUrl, '/') + Strs.TrimEnd(dtrApiEndpoint, '/')
    {
      this.dtrBaseUrl := dtrBaseUrl;
      this.dtrBaseLookupUrl := dtrBaseLookupUrl;
      this.dtrApiEndpoint := dtrApiEndpoint;
      dtrUrl := Strs.TrimEnd(dtrBaseUrl, '/') + Strs.TrimEnd(dtrApiEndpoint, '/');
      dtrLookupUrl := Strs.TrimEnd(dtrBaseLookupUrl, '/') + Strs.TrimEnd(dtrApiEndpoint, '/');
    }

    /**
     * `get_all_ass_descriptors`: a limit below 1 fails before any request; otherwise one GET
     * on the shell listing with the optional parameters and headers.
     */
    method GetAllAssDescriptors(
      get: Request -> Response, enc: string -> string,
      limit: Option<int> := None, cursor: Option<string> := None,
      assetKind: Option<AasModels.AssetKind> := None, assetType: Option<string> := None,
      bpn: Option<string> := None) returns (sent: Option<Request>, r: Result<Json, DtrError>)
      ensures BadLimit(limit) ==> sent.None? && r == Err(ValueError)
      ensures !BadLimit(limit) ==>
        && sent.Some?
        && sent.value.url == ShellsPath(dtrUrl)
        && (forall k :: Get(sent.value.params, k) == ShellParam(k, limit, cursor, assetKind, assetType, enc))
        && (forall k :: Get(sent.value.headers, k) == HeaderFor(k, bpn))
        && r == RaiseForStatus(get(sent.value))
    {
      if BadLimit(limit) {
        return None, Err(ValueError);
      }
      var params := BuildShellParams(limit, cursor, assetKind, assetType, enc);
      var headers := BuildHeaders(bpn);
      var req := Request(ShellsPath(dtrUrl), params, headers);
      sent := Some(req);
      r := RaiseForStatus(get(req));
    }

    /** `get_aas_descriptor_by_id`: one GET on the encoded shell id, without parameters. */
    method GetAasDescriptorById(get: Request -> Response, enc: string -> string, aasIdentifier: string,
                                bpn: Option<string> := None) returns (sent: Request, r: Result<Json, DtrError>)
      ensures sent.url == ShellPath(dtrUrl, enc(aasIdentifier))
      ensures sent.params == []
      ensures forall k :: Get(sent.headers, k) == HeaderFor(k, bpn)
      ensures r == RaiseForStatus(get(sent))
    {
      var headers := BuildHeaders(bpn);
      var encodedIdentifier := enc(aasIdentifier);
      sent := Request(ShellPath(dtrUrl, encodedIdentifier), [], headers);
      r := RaiseForStatus(get(sent));
    }

    /**
     * `get_submodel_descriptors_by_aas`: a limit below 1 fails before any request; otherwise
     * one GET on the shell's submodel listing with the paging parameters.
     */
    method GetSubmodelDescriptorsByAas(
      get: Request -> Response, enc: string -> string, aasIdentifier: string,
      limit: Option<int> := None, cursor: Option<string> := None,
      bpn: Option<string> := None) returns (sent: Option<Request>, r: Result<Json, DtrError>)
      ensures BadLimit(limit) ==> sent.None? && r == Err(ValueError)
      ensures !BadLimit(limit) ==>
        && sent.Some?
        && sent.value.url == SubmodelsPath(dtrUrl, enc(aasIdentifier))
        && (forall k :: Get(sent.value.params, k) == PagingParam(k, limit, cursor))
        && (forall k :: Get(sent.value.headers, k) == HeaderFor(k, bpn))
        && r == RaiseForStatus(get(sent.value))
    {
      if BadLimit(limit) {
        return None, Err(ValueError);
      }
      var params := BuildPagingParams(limit, cursor);
      var headers := BuildHeaders(bpn);
      var encodedIdentifier := enc(aasIdentifier);
      var req := Request(SubmodelsPath(dtrUrl, encodedIdentifier), params, headers);
      sent := Some(req);
      r := RaiseForStatus(get(req));
    }

    /** `get_submodel_descriptor`: one GET on the encoded shell and submodel ids, without parameters. */
    method GetSubmodelDescriptor(get: Request -> Response, enc: string -> string, aasIdentifier: string,
                                 submodelIdentifier: string, bpn: Option<string> := None)
      returns (sent: Request, r: Result<Json, DtrError>)
      ensures sent.url == SubmodelPath(dtrUrl, enc(aasIdentifier), enc(submodelIdentifier))
      ensures sent.params == []
      ensures forall k :: Get(sent.headers, k) == HeaderFor(k, bpn)
      ensures r == RaiseForStatus(get(sent))
    {
      var headers := BuildHeaders(bpn);
      var encodedAasIdentifier := enc(aasIdentifier);
      var encodedSubmodelIdentifier := enc(submodelIdentifier);
      sent := Request(SubmodelPath(dtrUrl, encodedAasIdentifier, encodedSubmodelIdentifier), [], headers);
      r := RaiseForStatus(get(sent));
    }
  }
}
