/** The request validators of the software catalogue
    (`backend/app/schemas/software.py`): the installer type, the source type
    and the target OS must come from their allowed lists. A failing validator
    turns the request into a 422 that lists every failing field. */
module SoftwareSchema {
  import opened Common
  import opened Constants

  datatype SoftwareCreate = SoftwareCreate(
    name: string,
    slug: Option<string>,
    version: Option<string>,
    installerType: string,
    sourceType: string,
    source: Option<string>,
    installArgs: Option<string>,
    uninstallArgs: Option<string>,
    targetOsType: Option<string>)

  /** Every field optional; an absent field is `None`, as its default. */
  datatype SoftwareUpdate = SoftwareUpdate(
    name: Option<string>,
    slug: Option<string>,
    version: Option<string>,
    installerType: Option<string>,
    sourceType: Option<string>,
    source: Option<string>,
    installArgs: Option<string>,
    uninstallArgs: Option<string>,
    targetOsType: Option<string>)

  /** One entry of the 422 response: the field and the validator's message. */
  datatype FieldError = FieldError(field: string, message: string)

  const InstallerTypeError := FieldError("installer_type", "Invalid installer_type")
  const SourceTypeError := FieldError("source_type", "Invalid source_type")
  const TargetOsError := FieldError("target_os_type", "Invalid target_os_type")

  /** The validators of an optional field: `None` passes, any other value is
      checked against `allowed`. */
  predicate OptionalIn(v: Option<string>, allowed: seq<string>) {
    v.None? || v.value in allowed
  }

  /** The errors of a create body, in field order. */
  function CreateErrors(b: SoftwareCreate): (errs: seq<FieldError>)
    ensures InstallerTypeError in errs <==> b.installerType !in AllowedInstallerTypes
    ensures SourceTypeError in errs <==> b.sourceType !in AllowedSourceTypes
    ensures TargetOsError in errs <==> !OsAllowed(b.targetOsType)
    ensures forall e :: e in errs ==> e in [InstallerTypeError, SourceTypeError, TargetOsError]
    ensures errs == [] <==>
      b.installerType in AllowedInstallerTypes && b.sourceType in AllowedSourceTypes && OsAllowed(b.targetOsType)
  {
    (if b.installerType in AllowedInstallerTypes then [] else [InstallerTypeError])
    + (if b.sourceType in AllowedSourceTypes then [] else [SourceTypeError])
    + (if OsAllowed(b.targetOsType) then [] else [TargetOsError])
  }

  /** The errors of an update body, in field order. */
  function UpdateErrors(u: SoftwareUpdate): (errs: seq<FieldError>)
    ensures InstallerTypeError in errs <==> !OptionalIn(u.installerType, AllowedInstallerTypes)
    ensures SourceTypeError in errs <==> !OptionalIn(u.sourceType, AllowedSourceTypes)
    ensures TargetOsError in errs <==> !OsAllowed(u.targetOsType)
    ensures forall e :: e in errs ==> e in [InstallerTypeError, SourceTypeError, TargetOsError]
  {
    (if OptionalIn(u.installerType, AllowedInstallerTypes) then [] else [InstallerTypeError])
    + (if OptionalIn(u.sourceType, AllowedSourceTypes) then [] else [SourceTypeError])
    + (if OsAllowed(u.targetOsType) then [] else [TargetOsError])
  }

  /** The parsed body, or a 422 with the failing fields. */
  datatype Parsed<T> = Valid(body: T) | Invalid(code: int, errors: seq<FieldError>)

  function ParseCreate(b: SoftwareCreate): (r: Parsed<SoftwareCreate>)
    ensures r.Valid? <==> CreateErrors(b) == []
    ensures r.Valid? ==> r.body == b
    ensures r.Invalid? ==> r.code == UnprocessableEntity && r.errors == CreateErrors(b) && r.errors != []
  {
    var errs := CreateErrors(b);
    if errs == [] then Valid(b) else Invalid(UnprocessableEntity, errs)
  }

  function ParseUpdate(u: SoftwareUpdate): (r: Parsed<SoftwareUpdate>)
    ensures r.Valid? <==> UpdateErrors(u) == []
    ensures r.Valid? ==> r.body == u
    ensures r.Invalid? ==> r.code == UnprocessableEntity && r.errors == UpdateErrors(u) && r.errors != []
  {
    var errs := UpdateErrors(u);
    if errs == [] then Valid(u) else Invalid(UnprocessableEntity, errs)
  }

  /** An update naming all three checked fields is judged exactly as a create
      with the same values. */
  lemma UpdateChecksLikeCreate(u: SoftwareUpdate, b: SoftwareCreate)
    requires u.installerType == Some(b.installerType) && u.sourceType == Some(b.sourceType)
    requires u.targetOsType == b.targetOsType
    ensures UpdateErrors(u) == CreateErrors(b)
  {
  }

  /** An update that leaves the three checked fields out always passes. */
  lemma UpdateWithoutCheckedFieldsPasses(u: SoftwareUpdate)
    requires u.installerType.None? && u.sourceType.None? && u.targetOsType.None?
    ensures ParseUpdate(u) == Valid(u)
  {
  }
}
