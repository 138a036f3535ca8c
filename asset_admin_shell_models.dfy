/**
 * Asset Administration Shell descriptor records. The declared field length bounds are
 * validity predicates, construction that checks them is a function into `Result`, and
 * the shell descriptor is a class whose list fields the `Add*` methods append to.
 */
module AasModels {
  import opened Wrappers
  import opened Json

  /** Construction rejected a field value that violates its declared bounds. */
  datatype ValidationError = ValidationError

  /** `lo <= len(s) <= hi`, with Python lengths counted in characters. */
  predicate LenIn(s: string, lo: nat, hi: nat) {
    lo <= |s| <= hi
  }

  /** An optional field: absent, or present within its bounds. */
  predicate OptLenIn(o: Option<string>, lo: nat, hi: nat) {
    o.None? || LenIn(o.value, lo, hi)
  }

  datatype MultiLanguage = MultiLanguage(language: string, text: string)

  datatype AssetKind = Instance | NotApplicable | Type
  {
    /** The wire value of the enum member. */
    function Value(): (v: string)
      ensures v != ""
    {
      match this
      case Instance => "Instance"
      case NotApplicable => "NotApplicable"
      case Type => "Type"
    }
  }

  /** Different kinds are sent as different values. */
  lemma AssetKindValueInjective(a: AssetKind, b: AssetKind)
    requires a.Value() == b.Value()
    ensures a == b
  {
  }

  datatype ReferenceTypes = ModelReference | ExternalReference

  datatype ReferenceKeyTypes =
    | AnnotatedRelationshipElement | AssetAdministrationShell | BasicEventElement | Blob
    | Capability | ConceptDescription | DataElement | Entity | EventElement | File
    | FragmentReference | GlobalReference | Identifiable | MultiLanguageProperty | Operation
    | Property | Range | Referable | ReferenceElement | RelationshipElement | Submodel
    | SubmodelElement | SubmodelElementCollection | SubmodelElementList

  datatype ReferenceKey = ReferenceKey(keyType: ReferenceKeyTypes, value: string)
  {
    predicate Valid() {
      LenIn(value, 1, 2000)
    }
  }

  /** `ReferenceKey(type=..., value=...)`: the value must hold 1 to 2000 characters. */
  function NewReferenceKey(keyType: ReferenceKeyTypes, value: string): (r: Result<ReferenceKey, ValidationError>)
    ensures r.Ok? <==> 1 <= |value| <= 2000
    ensures r.Ok? ==> r.value.keyType == keyType && r.value.value == value && r.value.Valid()
  {
    if LenIn(value, 1, 2000) then Ok(ReferenceKey(keyType, value)) else Err(ValidationError)
  }

  datatype Reference = Reference(refType: ReferenceTypes, keys: seq<ReferenceKey>)
  {
    predicate Valid() {
      forall i :: 0 <= i < |keys| ==> keys[i].Valid()
    }
  }

  predicate OptRefValid(r: Option<Reference>) {
    r.None? || r.value.Valid()
  }

  predicate RefsValid(rs: seq<Reference>) {
    forall i :: 0 <= i < |rs| ==> rs[i].Valid()
  }

  datatype SecurityAttributesTypes = NoSecurity | RfcTlsa | W3cDid

  datatype ProtocolInformationSecurityAttributes =
    ProtocolInformationSecurityAttributes(attrType: Option<SecurityAttributesTypes>, key: Option<string>, value: Option<string>)

  datatype ProtocolInformation = ProtocolInformation(
    href: Option<string>,
    endpointProtocol: Option<string>,
    endpointProtocolVersion: Option<seq<string>>,
    subprotocol: Option<string>,
    subprotocolBody: Option<string>,
    subprotocolBodyEncoding: Option<string>,
    securityAttributes: seq<ProtocolInformationSecurityAttributes>)

  datatype EmbeddedDataSpecification =
    EmbeddedDataSpecification(dataSpecification: Option<Reference>, dataSpecificationContent: Option<Fields>)
  {
    predicate Valid() {
      OptRefValid(dataSpecification)
    }
  }

  datatype AdministrativeInformation = AdministrativeInformation(
    embeddedDataSpecifications: Option<EmbeddedDataSpecification>,
    version: Option<string>,
    revision: Option<string>,
    creator: Option<Reference>,
    templateId: Option<string>)
  {
    /** The bounds declared on this record's own fields. */
    predicate Bounded() {
      OptLenIn(version, 1, 4) && OptLenIn(revision, 1, 4) && OptLenIn(templateId, 1, 2000)
    }

    predicate Valid() {
      Bounded()
      && (embeddedDataSpecifications.None? || embeddedDataSpecifications.value.Valid())
      && OptRefValid(creator)
    }
  }

  /**
   * `AdministrativeInformation(...)`: version and revision hold 1 to 4 characters and the
   * template id 1 to 2000, each when present.
   */
  function NewAdministrativeInformation(
    embeddedDataSpecifications: Option<EmbeddedDataSpecification>,
    version: Option<string>,
    revision: Option<string>,
    creator: Option<Reference>,
    templateId: Option<string>): (r: Result<AdministrativeInformation, ValidationError>)
    ensures r.Ok? <==>
      (version.None? || 1 <= |version.value| <= 4)
      && (revision.None? || 1 <= |revision.value| <= 4)
      && (templateId.None? || 1 <= |templateId.value| <= 2000)
    ensures r.Ok? ==> r.value == AdministrativeInformation(embeddedDataSpecifications, version, revision, creator, templateId)
    ensures r.Ok? && (embeddedDataSpecifications.None? || embeddedDataSpecifications.value.Valid()) && OptRefValid(creator)
      ==> r.value.Valid()
  {
    var a := AdministrativeInformation(embeddedDataSpecifications, version, revision, creator, templateId);
    if a.Bounded() then Ok(a) else Err(ValidationError)
  }

  predicate OptAdminValid(a: Option<AdministrativeInformation>) {
    a.None? || a.value.Valid()
  }

  datatype Endpoint = Endpoint(interface: string, protocolInformation: ProtocolInformation)

  datatype SubModelDescriptor = SubModelDescriptor(
    description: seq<MultiLanguage>,
    displayName: seq<MultiLanguage>,
    administration: Option<AdministrativeInformation>,
    endpoints: seq<Endpoint>,
    idShort: Option<string>,
    id: Option<string>,
    semanticId: Option<Reference>,
    supplementalSemanticIds: seq<Reference>)
  {
    predicate Bounded() {
      OptLenIn(idShort, 0, 128) && OptLenIn(id, 1, 2000)
    }

    predicate Valid() {
      Bounded() && OptAdminValid(administration) && OptRefValid(semanticId) && RefsValid(supplementalSemanticIds)
    }
  }

  /**
   * `SubModelDescriptor(...)`: the short id holds at most 128 characters and the id 1 to
   * 2000, each when present.
   */
  function NewSubModelDescriptor(
    description: seq<MultiLanguage>,
    displayName: seq<MultiLanguage>,
    administration: Option<AdministrativeInformation>,
    endpoints: seq<Endpoint>,
    idShort: Option<string>,
    id: Option<string>,
    semanticId: Option<Reference>,
    supplementalSemanticIds: seq<Reference>): (r: Result<SubModelDescriptor, ValidationError>)
    ensures r.Ok? <==> (idShort.None? || |idShort.value| <= 128) && (id.None? || 1 <= |id.value| <= 2000)
    ensures r.Ok? ==> r.value == SubModelDescriptor(description, displayName, administration, endpoints, idShort, id, semanticId, supplementalSemanticIds)
    ensures r.Ok? && OptAdminValid(administration) && OptRefValid(semanticId) && RefsValid(supplementalSemanticIds)
      ==> r.value.Valid()
  {
    var d := SubModelDescriptor(description, displayName, administration, endpoints, idShort, id, semanticId, supplementalSemanticIds);
    if d.Bounded() then Ok(d) else Err(ValidationError)
  }

  datatype SpecificAssetId = SpecificAssetId(
    name: string,
    value: string,
    semanticId: Option<Reference>,
    supplementalSemanticIds: seq<Reference>,
    externalSubjectId: Option<Reference>)
  {
    predicate Bounded() {
      LenIn(name, 1, 64) && LenIn(value, 1, 2000)
    }

    predicate Valid() {
      Bounded() && OptRefValid(semanticId) && RefsValid(supplementalSemanticIds) && OptRefValid(externalSubjectId)
    }
  }

  /** `SpecificAssetId(...)`: the name holds 1 to 64 characters and the value 1 to 2000. */
  function NewSpecificAssetId(
    name: string,
    value: string,
    semanticId: Option<Reference>,
    supplementalSemanticIds: seq<Reference>,
    externalSubjectId: Option<Reference>): (r: Result<SpecificAssetId, ValidationError>)
    ensures r.Ok? <==> 1 <= |name| <= 64 && 1 <= |value| <= 2000
    ensures r.Ok? ==> r.value == SpecificAssetId(name, value, semanticId, supplementalSemanticIds, externalSubjectId)
    ensures r.Ok? && OptRefValid(semanticId) && RefsValid(supplementalSemanticIds) && OptRefValid(externalSubjectId)
      ==> r.value.Valid()
  {
    var s := SpecificAssetId(name, value, semanticId, supplementalSemanticIds, externalSubjectId);
    if s.Bounded() then Ok(s) else Err(ValidationError)
  }

  /** The bounds a shell descriptor declares on its own scalar fields. */
  predicate ShellBounded(idShort: Option<string>, id: string, globalAssetId: Option<string>) {
    OptLenIn(idShort, 0, 128) && LenIn(id, 1, 2000) && OptLenIn(globalAssetId, 1, 2000)
  }

  /** Asset Administration Shell descriptor; its four `add_*` methods append in place. */
  class ShellDescriptor {
    var description: seq<MultiLanguage>
    var displayName: seq<MultiLanguage>
    var administration: Option<AdministrativeInformation>
    var idShort: Option<string>
    var assetKind: Option<AssetKind>
    var assetType: Option<string>
    var endpoints: seq<Endpoint>
    var id: string
    var globalAssetId: Option<string>
    var specificAssetIds: seq<SpecificAssetId>
    var submodelDescriptors: seq<SubModelDescriptor>

    /** Every declared bound holds, here and in every nested record. */
    predicate Valid()
      reads this
    {
      ShellBounded(idShort, id, globalAssetId)
      && OptAdminValid(administration)
      && (forall i :: 0 <= i < |specificAssetIds| ==> specificAssetIds[i].Valid())
      && (forall i :: 0 <= i < |submodelDescriptors| ==> submodelDescriptors[i].Valid())
    }

    constructor Init(
      description: seq<MultiLanguage>,
      displayName: seq<MultiLanguage>,
      administration: Option<AdministrativeInformation>,
      idShort: Option<string>,
      assetKind: Option<AssetKind>,
      assetType: Option<string>,
      endpoints: seq<Endpoint>,
      id: string,
      globalAssetId: Option<string>,
      specificAssetIds: seq<SpecificAssetId>,
      submodelDescriptors: seq<SubModelDescriptor>)
      ensures this.description == description && this.displayName == displayName
      ensures this.administration == administration && this.idShort == idShort
      ensures this.assetKind == assetKind && this.assetType == assetType && this.endpoints == endpoints
      ensures this.id == id && this.globalAssetId == globalAssetId
      ensures this.specificAssetIds == specificAssetIds && this.submodelDescriptors == submodelDescriptors
    {
      this.description := description;
      this.displayName := displayName;
      this.administration := administration;
      this.idShort := idShort;
      this.assetKind := assetKind;
      this.assetType := assetType;
      this.endpoints := endpoints;
      this.id := id;
      this.globalAssetId := globalAssetId;
      this.specificAssetIds := specificAssetIds;
      this.submodelDescriptors := submodelDescriptors;
    }

    /**
     * `ShellDescriptor(...)`: succeeds iff the short id holds at most 128 characters, the id
     * 1 to 2000 and the global asset id 1 to 2000 when present.
     */
    static method Create(
      description: seq<MultiLanguage>,
      displayName: seq<MultiLanguage>,
      administration: Option<AdministrativeInformation>,
      idShort: Option<string>,
      assetKind: Option<AssetKind>,
      assetType: Option<string>,
      endpoints: seq<Endpoint>,
      id: string,
      globalAssetId: Option<string>,
      specificAssetIds: seq<SpecificAssetId>,
      submodelDescriptors: seq<SubModelDescriptor>) returns (r: Result<ShellDescriptor, ValidationError>)
      ensures r.Ok? <==>
        (idShort.None? || |idShort.value| <= 128)
        && 1 <= |id| <= 2000
        && (globalAssetId.None? || 1 <= |globalAssetId.value| <= 2000)
      ensures r.Ok? ==> fresh(r.value)
      ensures r.Ok? ==>
        r.value.description == description && r.value.displayName == displayName
        && r.value.administration == administration && r.value.idShort == idShort
        && r.value.assetKind == assetKind && r.value.assetType == assetType
        && r.value.endpoints == endpoints && r.value.id == id && r.value.globalAssetId == globalAssetId
        && r.value.specificAssetIds == specificAssetIds && r.value.submodelDescriptors == submodelDescriptors
    {
      if !ShellBounded(idShort, id, globalAssetId) {
        return Err(ValidationError);
      }
      var d := new ShellDescriptor.Init(description, displayName, administration, idShort, assetKind,
        assetType, endpoints, id, globalAssetId, specificAssetIds, submodelDescriptors);
      r := Ok(d);
    }

    /** `add_description`: one entry appended at the end, in English unless a language is given. */
    method AddDescription(text: string, language: string := "en")
      modifies this`description
      ensures description == old(description) + [MultiLanguage(language, text)]
      ensures old(Valid()) ==> Valid()
    {
      description := description + [MultiLanguage(language, text)];
    }

    /** `add_display_name`: one entry appended at the end, in English unless a language is given. */
    method AddDisplayName(text: string, language: string := "en")
      modifies this`displayName
      ensures displayName == old(displayName) + [MultiLanguage(language, text)]
      ensures old(Valid()) ==> Valid()
    {
      displayName := displayName + [MultiLanguage(language, text)];
    }

    /** `add_specific_asset_id`: the given id appended; the descriptor stays valid if the id is. */
    method AddSpecificAssetId(assetId: SpecificAssetId)
      modifies this`specificAssetIds
      ensures specificAssetIds == old(specificAssetIds) + [assetId]
      ensures old(Valid()) && assetId.Valid() ==> Valid()
      ensures !assetId.Valid() ==> !Valid()
    {
      specificAssetIds := specificAssetIds + [assetId];
      assert specificAssetIds[|specificAssetIds| - 1] == assetId;
    }

    /** `add_submodel`: the given descriptor appended; the shell stays valid if the submodel is. */
    method AddSubmodel(submodel: SubModelDescriptor)
      modifies this`submodelDescriptors
      ensures submodelDescriptors == old(submodelDescriptors) + [submodel]
      ensures old(Valid()) && submodel.Valid() ==> Valid()
      ensures !submodel.Valid() ==> !Valid()
    {
      submodelDescriptors := submodelDescriptors + [submodel];
      assert submodelDescriptors[|submodelDescriptors| - 1] == submodel;
    }
  }

  /** `add_description` with its default language, seen from outside the object. */
  method DescribeInEnglish(d: ShellDescriptor, text: string)
    modifies d`description
    ensures |d.description| == |old(d.description)| + 1
    ensures d.description[|d.description| - 1] == MultiLanguage("en", text)
    ensures d.description[..|d.description| - 1] == old(d.description)
  {
    d.AddDescription(text);
  }

  datatype PagingMetadata = PagingMetadata(cursor: Option<string>)

  datatype GetAllShellDescriptorsResponse =
    GetAllShellDescriptorsResponse(pagingMetadata: Option<PagingMetadata>, result: seq<ShellDescriptor>)

  datatype GetSubmodelDescriptorsByAssResponse =
    GetSubmodelDescriptorsByAssResponse(pagingMetadata: Option<PagingMetadata>, result: seq<SubModelDescriptor>)
}
