# Tractus-X SDK core, modelled in Dafny

This project models the core of the Tractus-X SDK, a Python library for taking part in the
Catena-X dataspace. The modelled parts are:

- **Connection cache** (`memory_connection_manager.dfy`, module `MemoryConnection`). The
  in-memory cache of negotiated EDR connections. Entries are keyed by counter-party id,
  counter-party address, query checksum and policy checksum, and a counter records how many
  EDRs have been saved.
- **Discovery** (`discovery_services.dfy`, module `Discovery`). The discovery finder lookup,
  the connector discovery service's URL cache with its stale-value fallback, and the scan
  that finds a connector by BPN.
- **SAMM schema translator** (`schema_to_context_translator.dfy`, module
  `SchemaContextTranslator`). Turns a SAMM JSON schema into a JSON-LD context: a recursive
  descent that resolves `$ref` paths. A depth counter cuts a repeated `$ref`, but the counter
  is shared by the whole translation and reset to 0 at each cut, so a schema with two
  self-references can still recurse until Python's recursion limit (running out of fuel here).
- **Dataspace shortcuts** (`dataspace_shortcuts.dfy`, module `DataspaceShortcuts`). The
  asset, contract definition and policy payloads the shortcuts build, and how they read the
  connector's answer.
- **AAS models** (`asset_admin_shell_models.dfy`, module `AasModels`). The Asset
  Administration Shell descriptor records, with their field length bounds, and the shell
  descriptor's four append methods.
- **Digital Twin Registry client** (`dtr_service.dfy`, module `Dtr`). The URLs, query
  parameters and headers of its four queries.
- **Keycloak token cache** (`keycloak_service.dfy`, module `Keycloak`). The token cache
  and its refresh.
- **URL helper** (`adapter.dfy`, module `Adapter`). `Adapter.concat_into_url`.
- **Submodel schema finder** (`validate_submodels.dfy`, module `SubmodelValidation`).
  Builds the schema URL from a semantic id and reads the fetched schema.

Shared helper modules:

- `Wrappers`: `Option` and `Result`.
- `Strs`: split, join, strip and character replacement on strings, with their laws. `Strip`
  removes one end character at a time, and `Strs.StripTrims` proves it equals `rstrip`
  followed by `lstrip`.
- `Json`: a JSON value whose objects are ordered key/value sequences, as Python dicts are. It
  also holds Python's `in`, indexing and truthiness on such values.

Anything outside the model is a parameter:

- Most HTTP calls are functions from the request to the response: the connector discovery
  POST, the registry queries, the schema fetch, the token endpoint and the connector's
  create calls. The discovery finder's answer is an input value (`Discovery.FinderCall`),
  standing for the response to the one request a resolution makes.
- Clocks are integer arguments.
- Encoders are function parameters.
- The OAuth connection state is a boolean argument.

Every exception the source raises is an `Err` value of a per-module error datatype.

## Model

| member | source | states |
|---|---|---|
| MemoryConnection.EntriesLookup | src/tractusx_sdk/dataspace/managers/connection/memory/memory_connection_manager.py:80-88 | the four-level cache, seen as one map from the four keys, holds exactly what a four-level lookup finds |
| MemoryConnection.LookupStore | src/tractusx_sdk/dataspace/managers/connection/memory/memory_connection_manager.py:45-70 | an entry stored under four keys is found again under them |
| MemoryConnection.LookupStoreOther | src/tractusx_sdk/dataspace/managers/connection/memory/memory_connection_manager.py:45-70 | storing under four keys changes nothing under any other four keys |
| MemoryConnection.LookupRemove | src/tractusx_sdk/dataspace/managers/connection/memory/memory_connection_manager.py:97-110 | removing makes the four keys absent and leaves every other key as it was |
| MemoryConnection.EntriesStore | src/tractusx_sdk/dataspace/managers/connection/memory/memory_connection_manager.py:45-70 | in the flat view, storing is a single-key map update |
| MemoryConnection.EntriesRemove | src/tractusx_sdk/dataspace/managers/connection/memory/memory_connection_manager.py:97-110 | in the flat view, deleting is a single-key map removal |
| MemoryConnection.TransferIdOf | src/tractusx_sdk/dataspace/managers/connection/memory/memory_connection_manager.py:39-42 | an entry is accepted iff its transfer id is present, not None and not empty, and the accepted id is that value |
| MemoryConnection.Sanitized | src/tractusx_sdk/dataspace/managers/connection/memory/memory_connection_manager.py:66-67 | the cached copy has exactly the entry's keys minus `@type`, the provider-id key and `@context`, with the same values |
| MemoryConnection.MemoryConnectionManager.constructor | src/tractusx_sdk/dataspace/managers/connection/memory/memory_connection_manager.py:28-34 | the cache starts empty, with no counter, and the counter invariant holds |
| MemoryConnection.MemoryConnectionManager.AddConnection | src/tractusx_sdk/dataspace/managers/connection/memory/memory_connection_manager.py:37-78 | no transfer id: nothing changes. Missing envelope key: the path is created with an empty placeholder entry and the counter is unchanged. Otherwise: the sanitized copy is stored, the counter goes up by one, and the transfer id is returned |
| MemoryConnection.MemoryConnectionManager.EnsurePath | src/tractusx_sdk/dataspace/managers/connection/memory/memory_connection_manager.py:45-64 | afterwards the cache holds the full four-level path of the key. An entry already stored there is kept; a missing one becomes an empty placeholder. Every other path is untouched |
| MemoryConnection.MemoryConnectionManager.AddConnectionChecked | src/tractusx_sdk/dataspace/managers/connection/memory/memory_connection_manager.py:37-78 | corrected add: it fails iff the transfer id or an envelope key is missing, and a failure changes nothing. Success is a single-key update of the flat view plus one on the counter, and it keeps the counter invariant |
| MemoryConnection.MemoryConnectionManager.GetConnection | src/tractusx_sdk/dataspace/managers/connection/memory/memory_connection_manager.py:80-88 | the stored entry, or `{}` when any level of the path is missing |
| MemoryConnection.MemoryConnectionManager.GetConnectionTransferId | src/tractusx_sdk/dataspace/managers/connection/memory/memory_connection_manager.py:90-94 | the stored entry's transfer id, or None when there is no entry or no id |
| MemoryConnection.MemoryConnectionManager.DeleteConnection | src/tractusx_sdk/dataspace/managers/connection/memory/memory_connection_manager.py:97-110 | returns True iff an entry is stored under the four keys. If so it is removed and an existing counter goes down by one; otherwise nothing changes |
| MemoryConnection.MemoryConnectionManager.DeleteConnectionValid | src/tractusx_sdk/dataspace/managers/connection/memory/memory_connection_manager.py:97-110 | deleting removes exactly that key from the flat view and keeps the counter at or above the number of entries |
| MemoryConnection.PhantomEntryScenario | src/tractusx_sdk/dataspace/managers/connection/memory/memory_connection_manager.py:45-67 | as written: a good add, its delete, then an add without envelope keys and its delete leave the counter at -1 |
| Discovery.EndpointPair | src/tractusx_sdk/dataspace/services/discovery/discovery_services.py:61 | an endpoint reads as a pair iff it is a dict with a string type and an address, and the pair is those two values |
| Discovery.ProjectOk | src/tractusx_sdk/dataspace/services/discovery/discovery_services.py:61 | the endpoint projection succeeds iff every endpoint reads as a pair |
| Discovery.ProjectLastWins | src/tractusx_sdk/dataspace/services/discovery/discovery_services.py:61 | each endpoint type maps to the address of the last endpoint with that type |
| Discovery.ProjectKeys | src/tractusx_sdk/dataspace/services/discovery/discovery_services.py:61 | every key of the projection is the type of some endpoint |
| Discovery.FindDiscoveryUrls | src/tractusx_sdk/dataspace/services/discovery/discovery_services.py:35-61 | not connected: ConnectionError. No response or a status other than 200: error. Endpoints missing or empty: error. A non-empty endpoint list gives exactly its projection (type to address, or an error when an endpoint cannot be read), and endpoints that are not a list give an error |
| Discovery.GetConnectorDiscoveryUrl | src/tractusx_sdk/dataspace/services/discovery/discovery_services.py:113-140 | the finder's error propagates. A key absent from the finder's answer is an error; otherwise the URL under that key |
| Discovery.FirstByBpnNone | src/tractusx_sdk/dataspace/services/discovery/discovery_services.py:240-244 | when the scan finds nothing, every item was a dict with another BPN |
| Discovery.FirstByBpnFound | src/tractusx_sdk/dataspace/services/discovery/discovery_services.py:240-244 | a found value is the endpoint list of the first item whose BPN matches |
| Discovery.ScanForBpn | src/tractusx_sdk/dataspace/services/discovery/discovery_services.py:240-244 | the loop returns what the recursive scan specifies, and a body that cannot be iterated is an error |
| Discovery.ConnectorDiscoveryService.Empty | src/tractusx_sdk/dataspace/services/discovery/discovery_services.py:79-110 | the fields as given, with an empty cache and no URL yet |
| Discovery.ConnectorDiscoveryService.Resolve | src/tractusx_sdk/dataspace/services/discovery/discovery_services.py:142-207 | a fresh entry is returned without calling the finder. Otherwise the finder is called. A truthy URL is stored with the current time and returned. A failed refresh falls back to the cached URL, however stale, and without one it is the finder's error or a cache miss |
| Discovery.ConnectorDiscoveryService.ResolveKeepsOthers | src/tractusx_sdk/dataspace/services/discovery/discovery_services.py:162-181 | the cache never loses a key, and only the resolved key's entry can change or appear |
| Discovery.ConnectorDiscoveryService.ResolveAvailable | src/tractusx_sdk/dataspace/services/discovery/discovery_services.py:188-207 | once a key is cached, resolving it always yields a URL, whatever the finder answers |
| Discovery.ConnectorDiscoveryService.ResolveReuse | src/tractusx_sdk/dataspace/services/discovery/discovery_services.py:162-181 | a URL just fetched is returned without a finder call by every resolution within the timeout |
| Discovery.ConnectorDiscoveryService.GetOrUpdateDiscoveryUrl | src/tractusx_sdk/dataspace/services/discovery/discovery_services.py:142-207 | the result, the finder-call decision and the new cache are exactly those `Resolve` gives for the old cache |
| Discovery.ConnectorDiscoveryService.Create | src/tractusx_sdk/dataspace/services/discovery/discovery_services.py:79-111 | construction succeeds iff the default key resolves to a truthy URL. The new service holds that URL and a cache with exactly that entry |
| Discovery.ConnectorDiscoveryService.FindConnectorByBpn | src/tractusx_sdk/dataspace/services/discovery/discovery_services.py:209-244 | the cache becomes what `Resolve` gives for the default key, and its error is returned unchanged. Otherwise `[bpn]` is posted to the resolved URL. No response or a status other than 200 is an error. A 200 body that cannot be iterated is an error, and any other body gives the first match of the BPN scan |
| SchemaContextTranslator.FilterKey | src/tractusx_sdk/extensions/samm/schema_to_context_translator.py:137-138 | the filtered key holds no `@` and no space |
| SchemaContextTranslator.FilterKeyClean | src/tractusx_sdk/extensions/samm/schema_to_context_translator.py:137-138 | a key without `@` and spaces is unchanged (test `normalKey`) |
| SchemaContextTranslator.FilterKeyIdempotent | src/tractusx_sdk/extensions/samm/schema_to_context_translator.py:137-138 | filtering twice is filtering once |
| SchemaContextTranslator.FilterKeyAppend | src/tractusx_sdk/extensions/samm/schema_to_context_translator.py:137-138 | filtering distributes over concatenation |
| SchemaContextTranslator.FilterKeyAtSign | tests/extensions/semantics/test_schema_to_context_translator.py:403-406 | `@type` filters to `type` |
| SchemaContextTranslator.FilterKeyBlank | src/tractusx_sdk/extensions/samm/schema_to_context_translator.py:138 | a single space filters to `-` |
| SchemaContextTranslator.FilterKeySpaceBetween | src/tractusx_sdk/extensions/samm/schema_to_context_translator.py:138 | a space between two clean words becomes `-` and the words are kept |
| SchemaContextTranslator.FilterKeySpace | tests/extensions/semantics/test_schema_to_context_translator.py:408-411 | `my property` filters to `my-property` |
| SchemaContextTranslator.FilterKeyBoth | tests/extensions/semantics/test_schema_to_context_translator.py:413-416 | `@my property` filters to `my-property` |
| SchemaContextTranslator.WalkPresent | src/dataspace/tests/tool/test_operators.py:583-595 | a nested-attribute walk through a present key continues from that key's value |
| SchemaContextTranslator.WalkMissing | src/dataspace/tests/tool/test_operators.py:597 | a walk that meets a dict without the next key gives the default |
| SchemaContextTranslator.GetAttribute | src/tractusx_sdk/extensions/samm/schema_to_context_translator.py:200-201 | a None source or an empty path gives the default None |
| SchemaContextTranslator.GetAttributeSingleKey | src/tractusx_sdk/extensions/samm/schema_to_context_translator.py:200-201 | a path without `/` is a single key: its value, or None when absent |
| SchemaContextTranslator.GetAttributeNested | src/dataspace/tests/tool/test_operators.py:583-595 | `a/b/c` through nested dicts reaches 123 |
| SchemaContextTranslator.GetAttributeMissing | src/dataspace/tests/tool/test_operators.py:597 | `a/x/c` gives the default |
| SchemaContextTranslator.GetAttributeNotSubscriptable | src/dataspace/tests/tool/test_operators.py:644-649 | a number as source raises TypeError |
| SchemaContextTranslator.GetAttributeEmptyKeys | src/dataspace/tests/tool/test_operators.py:635-642 | empty keys from the split are walked like any other |
| SchemaContextTranslator.GetSchemaRef | src/tractusx_sdk/extensions/samm/schema_to_context_translator.py:190-201 | a non-string ref finds nothing. A ref already on the path raises the depth, and at the limit resets it to 0 and finds nothing. Otherwise the ref without `#/` is looked up in the base schema. The depth never exceeds the limit |
| SchemaContextTranslator.SetDefinition | src/tractusx_sdk/extensions/samm/schema_to_context_translator.py:183-184 | `setdefault("@context", {})["@definition"]` succeeds iff `@context` is absent or a dict. It then holds the description, and every other key is unchanged |
| SchemaContextTranslator.CreateSimpleNode | src/tractusx_sdk/extensions/samm/schema_to_context_translator.py:179-188 | an empty property gives None. `@id` is `<prefix>:<key>` iff a key is given. `@context.@definition` holds the description iff there is one. No other key is set |
| SchemaContextTranslator.CreateValueNode | src/tractusx_sdk/extensions/samm/schema_to_context_translator.py:105-112 | no `type`: None. Otherwise `@type` is `schema:<type>` and every other key is kept |
| SchemaContextTranslator.CreateNode | src/tractusx_sdk/extensions/samm/schema_to_context_translator.py:90-103 | empty or typeless: None. A `type` test or simple node that fails is a failure. An empty simple node (no key and no description): None. Otherwise the node is exactly the object node, the array node or the value node built on the simple node, by the type. A node has the key's `@id`. An array node has `@container: @list`, an object node has `@context`, and any other type gives `@type: schema:<type>`. An object without properties or an array without items gives None. The depth stays within the limit |
| SchemaContextTranslator.CreateObjectNode | src/tractusx_sdk/extensions/samm/schema_to_context_translator.py:114-121 | no `properties`: None. Otherwise the properties context's error is returned, or `@context` is set to that context (null for None) with every other key kept |
| SchemaContextTranslator.CreateArrayNode | src/tractusx_sdk/extensions/samm/schema_to_context_translator.py:123-135 | no `items`: None. Otherwise `@container` is `@list`. A list item adds nothing more, and an item without `$ref` makes a value node. A `$ref` item sets `@context` to the item context (null when that is None) and passes on its error and depth |
| SchemaContextTranslator.FromPropertiesTail | src/tractusx_sdk/extensions/samm/schema_to_context_translator.py:144-147 | a key filtered from a later property is filtered from the properties |
| SchemaContextTranslator.CreatePropertiesContext | src/tractusx_sdk/extensions/samm/schema_to_context_translator.py:140-151 | a non-dict or empty value gives None. Otherwise the properties loop over the template: a context with `@version`, where every key that no property filters to keeps the template's value |
| SchemaContextTranslator.PropertiesLoop | src/tractusx_sdk/extensions/samm/schema_to_context_translator.py:144-147 | the loop only writes keys filtered from the properties it visits, and with no properties left it returns the context |
| SchemaContextTranslator.PropertiesLoopStep | src/tractusx_sdk/extensions/samm/schema_to_context_translator.py:144-147 | one turn: the node of the first property under its filtered key; its error ends the loop, otherwise a non-empty node is stored under the key and the loop continues with the rest |
| SchemaContextTranslator.PropertiesLoopHead | src/tractusx_sdk/extensions/samm/schema_to_context_translator.py:144-147 | a property whose filtered key no later property shares ends up with its non-empty node under that key, or the key keeps its earlier entry |
| SchemaContextTranslator.CreateItemContext | src/tractusx_sdk/extensions/samm/schema_to_context_translator.py:153-165 | an empty item gives None. For a `$ref` item: the expansion's error, None for an empty expansion, otherwise the template updated with the expanded node, with the item's description as `@definition`. The depth stays within the limit |
| SchemaContextTranslator.CreateNodeProperty | src/tractusx_sdk/extensions/samm/schema_to_context_translator.py:167-177 | an empty key, an empty property or one without `$ref` gives None. For a present `$ref`: the expansion's error, None for an empty expansion, otherwise the expanded node, with the property's description as `@definition` when given. A non-empty node carries `@id` `<prefix>:<key>` |
| SchemaContextTranslator.ExpandNode | src/tractusx_sdk/extensions/samm/schema_to_context_translator.py:80-88 | an empty or non-string ref gives None. An unresolvable ref fails and a falsy target gives None; a truthy target is `create_node` of it, one level deeper on the reference path, or a failure when the fuel is spent. An expanded node carries the key's `@id`, and the depth stays within the limit |
| SchemaContextTranslator.WrapRoot | src/tractusx_sdk/extensions/samm/schema_to_context_translator.py:68-75 | one `@context` holding the version, the schema.org prefix, the aspect prefix and the root node named after the aspect |
| SchemaContextTranslator.TranslateRoot | src/tractusx_sdk/extensions/samm/schema_to_context_translator.py:64-75 | `create_node`'s error is returned; a successful root node is wrapped as WrapDescribedRoot states; success yields the aspect context shape |
| SchemaContextTranslator.WrapDescribedRoot | src/tractusx_sdk/extensions/samm/schema_to_context_translator.py:64-75 | an empty root node or an id without exactly two parts fails. Otherwise the aspect entry is the root node with `@id` `<prefix>:<name>`, plus the schema's description as `@definition` when given |
| SchemaContextTranslator.DescribedValueRootTranslates | src/tractusx_sdk/extensions/samm/schema_to_context_translator.py:64-75 | a described value schema translates: the aspect entry has `@type` `schema:<type>`, the `@id` and the description as `@definition` |
| SchemaContextTranslator.RootNeedsDescription | src/tractusx_sdk/extensions/samm/schema_to_context_translator.py:64-66 | a typed root schema without `description` has an empty simple node, so the translation fails whatever the id |
| SchemaContextTranslator.SemanticIdAccepted | src/tractusx_sdk/extensions/samm/schema_to_context_translator.py:58-60 | an accepted semantic id is `<path>#<name>` with a single `#` and a non-empty name |
| SchemaContextTranslator.SammSchemaContextTranslator.constructor | src/tractusx_sdk/extensions/samm/schema_to_context_translator.py:29-53 | empty base schema, aspect prefix `aspect`, depth 0 |
| SchemaContextTranslator.SammSchemaContextTranslator.SchemaToJsonLd | src/tractusx_sdk/extensions/samm/schema_to_context_translator.py:55-78 | a schema that cannot be copied fails and changes nothing. An id without a non-empty part after `#` fails before anything is built. A non-empty prefix replaces the stored one; the prefix defaults to `aspect`. The result is the root translation, and the depth stays within the limit |
| DataspaceShortcuts.Created | src/tractusx_sdk/dataspace/tools/dataspace_shortcuts.py:95-99 | the body on status 200; otherwise ValueError with the status |
| DataspaceShortcuts.DataAddressHeader | src/tractusx_sdk/dataspace/tools/dataspace_shortcuts.py:67-69 | every header `k: v` appears in the data address as `header:k: v` |
| DataspaceShortcuts.DataAddressBase | src/tractusx_sdk/dataspace/tools/dataspace_shortcuts.py:58-65 | the base `@type`, `type` and `baseUrl` survive unless a proxy parameter of that name replaces them |
| DataspaceShortcuts.HeaderStep | src/tractusx_sdk/dataspace/tools/dataspace_shortcuts.py:68-69 | one turn of the header loop keeps the data address equal to its specification |
| DataspaceShortcuts.CreateAsset | src/tractusx_sdk/dataspace/tools/dataspace_shortcuts.py:31-99 | the sent asset has the given id and version. Its data address is the base, then the proxy parameters, then the headers. Its properties hold the type, the optional version and the optional semantic id, and no other key. The semantics namespace is in the context iff a semantic id is given. The result is the connector's answer read by `Created` |
| DataspaceShortcuts.BuildDataAddress | src/tractusx_sdk/dataspace/tools/dataspace_shortcuts.py:58-69 | for every key, the data address holds the `header:`-prefixed header if there is one, else the proxy parameter, else the base `@type`, `type` and `baseUrl` entries |
| DataspaceShortcuts.AssetProperties | src/tractusx_sdk/dataspace/tools/dataspace_shortcuts.py:71-82 | `dct:type` always holds the type. `cx-common:version` is present exactly when a version is given. `aas-semantics:semanticId` is present exactly when a semantic id is given. No other key is present |
| DataspaceShortcuts.AssetContextFor | src/tractusx_sdk/dataspace/tools/dataspace_shortcuts.py:51-81 | the four fixed prefixes are always present. The `aas-semantics` prefix is added exactly when a semantic id is given |
| DataspaceShortcuts.AssetSelectorSelectsOnly | src/tractusx_sdk/dataspace/tools/dataspace_shortcuts.py:115-121 | the contract's asset selector selects an asset iff its id property equals the asset id |
| DataspaceShortcuts.CreateContract | src/tractusx_sdk/dataspace/tools/dataspace_shortcuts.py:101-140 | the sent definition has the given ids and the edc vocabulary, and selects exactly the given asset. The result is the connector's answer read by `Created`: the body on 200, otherwise ValueError with the status |
| DataspaceShortcuts.CreatePolicy | src/tractusx_sdk/dataspace/tools/dataspace_shortcuts.py:142-169 | the policy parts are sent as given. The result is the connector's answer read by `Created`: the body on 200, otherwise ValueError with the status |
| AasModels.AssetKind.Value | industry/models/asset_admin_shell_models.py:36-41 | every asset kind has a non-empty value, so it is truthy |
| AasModels.AssetKindValueInjective | industry/models/asset_admin_shell_models.py:36-41 | distinct asset kinds have distinct values |
| AasModels.NewReferenceKey | industry/models/asset_admin_shell_models.py:80-84 | valid iff the value has 1 to 2000 characters, with the fields as given |
| AasModels.NewAdministrativeInformation | industry/models/asset_admin_shell_models.py:133-142 | valid iff version and revision have 1 to 4 characters and the template id 1 to 2000, when given |
| AasModels.NewSubModelDescriptor | industry/models/asset_admin_shell_models.py:152-160 | valid iff the short id has at most 128 characters and the id 1 to 2000, when given |
| AasModels.NewSpecificAssetId | industry/models/asset_admin_shell_models.py:171-180 | valid iff the name has 1 to 64 characters and the value 1 to 2000 |
| AasModels.ShellDescriptor.Init | industry/models/asset_admin_shell_models.py:183-205 | every field as given |
| AasModels.ShellDescriptor.Create | industry/models/asset_admin_shell_models.py:183-205 | construction succeeds iff the short id, id and global asset id are within bounds. The new descriptor holds the given fields |
| AasModels.ShellDescriptor.AddDescription | industry/models/asset_admin_shell_models.py:207-209 | appends one `(language, text)` entry to the descriptions and keeps validity |
| AasModels.ShellDescriptor.AddDisplayName | industry/models/asset_admin_shell_models.py:211-213 | appends one `(language, text)` entry to the display names and keeps validity |
| AasModels.ShellDescriptor.AddSpecificAssetId | industry/models/asset_admin_shell_models.py:215-217 | appends the asset id. The descriptor stays valid iff the appended id is valid |
| AasModels.ShellDescriptor.AddSubmodel | industry/models/asset_admin_shell_models.py:219-221 | appends the submodel. The descriptor stays valid iff the appended submodel is valid |
| AasModels.DescribeInEnglish | industry/models/asset_admin_shell_models.py:207-209 | the default language is `en` |
| Dtr.RaiseForStatus | industry/services/dtr_service.py:94 | error iff the status is 4xx or 5xx, carrying the status; otherwise the body |
| Dtr.BuildHeaders | industry/services/dtr_service.py:83-85 | `Accept: application/json` always, and `Edc-Bpn` iff a BPN is given |
| Dtr.BuildPagingParams | industry/services/dtr_service.py:162-166 | `limit` iff given and `cursor` iff given |
| Dtr.BuildShellParams | industry/services/dtr_service.py:71-80 | the paging parameters, plus `assetKind` as the kind's value and `assetType` encoded, each iff given |
| Dtr.PathsNest | industry/services/dtr_service.py:88-215 | each query path lies below the previous one, separated by `/` |
| Dtr.ComposedUrlNoTrailingSlash | industry/services/dtr_service.py:30-39 | the composed base URL never ends in `/`, so the shell path adds exactly one `/` |
| Dtr.DtrService.constructor | industry/services/dtr_service.py:30-39 | each URL is the base with trailing `/` removed, followed by the endpoint with trailing `/` removed |
| Dtr.DtrService.GetAllAssDescriptors | industry/services/dtr_service.py:41-97 | a limit below 1 fails before any request. Otherwise one GET on the shell listing, with the parameters and headers above, read by `RaiseForStatus` |
| Dtr.DtrService.GetAasDescriptorById | industry/services/dtr_service.py:99-133 | one GET on the encoded shell id, without parameters |
| Dtr.DtrService.GetSubmodelDescriptorsByAas | industry/services/dtr_service.py:135-186 | a limit below 1 fails before any request. Otherwise one GET on the shell's submodel listing with the paging parameters |
| Dtr.DtrService.GetSubmodelDescriptor | industry/services/dtr_service.py:188-222 | one GET on the encoded shell and submodel ids, without parameters |
| Keycloak.AccessToken | industry/services/keycloak_service.py:92 | the token's `access_token`, or KeyError when it has none |
| Keycloak.RefreshToken | industry/services/keycloak_service.py:67-92 | the endpoint is called iff the token is unset or expired. A live token is returned unchanged. A new token is cached first, then its expiry `now + expires_in`, then the `Authorization: Bearer` header. A failure at any step keeps what was already assigned |
| Keycloak.TokenReused | industry/services/keycloak_service.py:67-92 | a refreshed token is reused, without a call, until it expires |
| Keycloak.MissingAccessTokenPinned | industry/services/keycloak_service.py:85-91 | a token with a lifetime but no access token is cached before the header step raises. Until it expires every refresh fails without a call, and the old header is kept |
| Keycloak.KeycloakService.constructor | industry/services/keycloak_service.py:40-57 | no token and no expiry; the session headers as given |
| Keycloak.KeycloakService.Refresh | industry/services/keycloak_service.py:78-92 | the field-by-field refresh ends in the state, result and call decision that `RefreshToken` specifies |
| Keycloak.KeycloakService.GetSession | industry/services/keycloak_service.py:59-65 | refreshes as `RefreshToken` specifies, then hands out the session or the refresh error |
| Adapter.StripAll | src/tractusx_sdk/dataspace/adapters/adapter.py:42 | each part with its surrounding `/` stripped, in order |
| Adapter.ConcatIntoUrl | src/tractusx_sdk/dataspace/adapters/adapter.py:33-42 | no parts: empty. One part: that part stripped. The first stripped part is always a prefix |
| Adapter.ConcatAppend | src/tractusx_sdk/dataspace/adapters/adapter.py:42 | adding a part adds exactly one `/` and the stripped part |
| Adapter.ConcatTwo | src/tractusx_sdk/dataspace/adapters/adapter.py:42 | two parts are the stripped parts around one `/` |
| Adapter.NoDoubleSlashAtJoin | src/tractusx_sdk/dataspace/adapters/adapter.py:42 | between non-empty parts there is exactly one `/` |
| Adapter.ConcatClean | src/tractusx_sdk/dataspace/adapters/adapter.py:42 | parts without slashes at their ends are joined unchanged, interior slashes included |
| Adapter.ConcatExamplePlain | tests/dataspace/adapters/test_adapter.py:51-57 | clean parts are joined as they are |
| Adapter.ConcatSlashedParts | tests/dataspace/adapters/test_adapter.py:59-65 | slashes at part boundaries collapse into the single separator |
| Adapter.ConcatExampleSlashes | tests/dataspace/adapters/test_adapter.py:59-65 | the slashed-boundary case with the test's parts |
| Adapter.ConcatExampleEmptyPath | tests/dataspace/adapters/test_adapter.py:67-73 | an empty last part leaves a trailing `/` |
| SubmodelValidation.SchemaLink | src/tractusx_sdk/dataspace/tools/validate_submodels.py:40-46 | rejected as malformed iff the id has fewer than four `:` segments. Otherwise a `None` link core is a TypeError, checked before the aspect is indexed; with a link core, a fourth segment without `#` is an IndexError. A link starts with the link core and ends with `-schema.json` |
| SubmodelValidation.SchemaLinkOf | src/tractusx_sdk/dataspace/tools/validate_submodels.py:40-46 | the link of `...:<namespace>:<version>#<aspect>` is `<core><namespace>/<version>/gen/<aspect>-schema.json`; later segments do not matter |
| SubmodelValidation.SchemaLinkTooShort | src/tractusx_sdk/dataspace/tools/validate_submodels.py:42-43 | fewer than four segments is the malformed-id error |
| SubmodelValidation.SchemaLinkNoAspect | src/tractusx_sdk/dataspace/tools/validate_submodels.py:45-46 | a fourth segment without `#` raises IndexError, unless the link core is `None`, whose TypeError comes first |
| SubmodelValidation.SchemaLinkExampleNoCore | src/tractusx_sdk/dataspace/tools/validate_submodels.py:45-46 | `urn:samm:io.catenax.batch:3.0.0` gives TypeError with a `None` link core and IndexError with the default one |
| SubmodelValidation.SchemaLinkExample | tests/dataspace/tools/test_validate_submodels.py:34-49 | the batch aspect's link |
| SubmodelValidation.SchemaLinkExampleTooShort | tests/dataspace/tools/test_validate_submodels.py:51-56 | `urn:samm:io.catenax.batch` is rejected |
| SubmodelValidation.SubmodelSchemaFinder | src/tractusx_sdk/dataspace/tools/validate_submodels.py:32-61 | link errors propagate. A status other than 200 or an unparsable body is an error. Success iff all steps succeed, giving exactly the report `{status: ok, message, schema}` with the success message and the schema |

## Left out

- HTTP transport, sessions and retries: every request is a function from request to response, so timeouts, redirects and connection errors other than "no response" are not modelled.
- Response bodies are already-parsed JSON values. In the source, `response.json()` raises on a body that is not JSON (discovery, DTR and dataspace shortcut calls); that error path is not representable here. Only the submodel schema fetch models an unparsable body.
- OAuth: the discovery finder's OAuth manager is reduced to a `connected` flag.
- Locking: the connection cache's `threading.Lock` is not modelled, since the model is sequential.
- MemoryConnection.MemoryConnectionManager.GetConnectionTransferId: as written it holds the non-reentrant lock and then calls `get_connection`, which takes the same lock again (memory_connection_manager.py:91-92), so it deadlocks. The model gives only the lookup result.
- Discovery.EndpointPair: an endpoint whose type is a number, boolean or null is rejected as MalformedResponse, whereas Python's `dict` accepts any hashable key. The model keys the projection by strings, since the cache looks keys up by string, and Python's cross-type key equality (`1 == True == 1.0`) is out of scope.
- Discovery.ConnectorDiscoveryService.FindConnectorByBpn: the OAuth header added to the POST is not modelled.
- MemoryConnection.MemoryConnectionManager.AddConnection: the counter is a separate field rather than the entry under `edrs_key` in the same dictionary, so a counter-party id equal to `edrs_key` does not clash with the counter. `TRANSFER_ID_KEY` comes from a base class that is not part of this model and is a constructor argument. `edrs_key` is not a parameter.
- Logging, `traceback.print_exc` and verbose flags: no observable effect on results once a logger is given (see the shortcuts line below).
- DataspaceShortcuts.CreateAsset, DataspaceShortcuts.CreateContract, DataspaceShortcuts.CreatePolicy: the model assumes a logger is passed. With the default `logger=None`, `create_contract` and `create_policy` raise AttributeError at their first `logger.info`, before any request, and `create_asset` raises AttributeError instead of ValueError on a status other than 200.
- Serialisation: `to_dict`, `to_json_string` and pydantic aliases are not modelled (industry/models/asset_admin_shell_models.py:166-168, 223-229).
- AasModels.ShellDescriptor.Create: the `uuid4()` default for `id` is not modelled, because randomness is out of scope, so `id` is always given.
- AasModels: pydantic type coercion is not modelled. Only the length bounds are checked.
- Dtr: the URL-safe base64 encoder is a function parameter. `dtr_lookup_url` is composed but none of the four queries uses it. A request without parameters is modelled as sending `[]`.
- Dtr.BuildPagingParams: `limit` is sent as a JSON number rather than a Python int.
- Keycloak: the `keycloak` client configuration (server URL, realm, client id and secret) and the HTTP session object are left out. The session is represented by its headers.
- Keycloak.KeycloakService.Refresh: headers are compared case-sensitively, whereas the HTTP library's header dictionary is case-insensitive. Both `datetime.now()` reads are one `now` argument, in whole seconds.
- Keycloak.Bearer, SchemaContextTranslator.CreateValueNode: `str()` of a list, dict or number is a placeholder (`<list>`, `<dict>`, `<number>`), so the model does not render those values.
- SchemaContextTranslator: `@version` 1.1 is a JSON number kept as a constant, since floating point is out of scope.
- SchemaContextTranslator: running out of `fuel` stands for Python's RecursionError, which the source turns into a generic exception like every other one. The fuel bound does not model the interpreter's actual recursion limit.
- SchemaContextTranslator.CreatePropertiesContext, SchemaContextTranslator.PropertiesLoop: the contracts state one turn of the loop (PropertiesLoopStep) and the first property's key (PropertiesLoopHead), but not the final entry under every key in one formula. Each property's node is built with the depth counter that the earlier properties left behind, so it has no closed form in terms of the property alone.
- SchemaContextTranslator: line 29 (`logger=logging.logger=None`) and line 195 (`self.logger not None`) of the translator are not valid Python. The model follows the evident intent: an optional logger, and a warning that is only logged.
- SchemaContextTranslator.GetAttribute: the `op.get_attribute` helper is not part of this model. Its behaviour (None source, empty path, key walk, TypeError on a non-subscriptable value) is taken from its tests, with separator `/` and default None as the translator calls it.
- Json: duplicate keys in a JSON object are not modelled, because Python dicts cannot hold them; `Get` returns the first match.
- MemoryConnection.MemoryConnectionManager.GetConnection: the source returns the cached dict itself, so a caller that mutates the result changes the cache. The model returns the entry as a value, so this aliasing is not captured.
- Adapter.ConcatIntoUrl: parts are strings, so `str(x)` on non-string arguments is not modelled.
- SubmodelValidation.SchemaLink: a fourth segment without `#` raises IndexError, not the 422 HTTP error the surrounding message suggests. It is modelled as written. A `None` link core is a TypeError, raised before that IndexError because the concatenation is evaluated left to right.
- DataspaceShortcuts: the model factory that wraps the payload is part of the `create` call, and logging of the response text is left out.

## Findings

| source | as written | input that shows it | evidently intended | confidence | as-written member | corrected member |
|---|---|---|---|---|---|---|
| src/tractusx_sdk/dataspace/managers/connection/memory/memory_connection_manager.py:45-67,97-110 | `add_connection` creates the path levels and an empty `{}` entry before deleting the envelope keys. When one of them is missing the `del` raises, and the empty entry stays cached. A later `delete_connection` finds it, returns True and decrements the counter | add and delete one full entry, then add an entry with a transfer id but no `@type` under other keys, then delete it: the counter reads -1 | validate the entry before touching the cache, so a rejected add changes nothing and the counter stays at or above the number of entries | not executed | MemoryConnection.PhantomEntryScenario | MemoryConnection.MemoryConnectionManager.AddConnectionChecked |
