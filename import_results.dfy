/**
 * The converters' result and error records: common/exceptions.py,
 * common/models.py and `generate_import_source_result` of
 * common/base_converter/base_converter.py.
 */
module ImportResults {
  import opened Wrappers
  import opened Text
  import opened Values
  import opened SiteInputs

  // ------------------------------------------------------------ exceptions

  /** The two subclasses of `ImportException`; neither adds behaviour of its own. */
  datatype ExceptionClass = ImportSourceException | ImportParkingSiteException

  function ClassName(c: ExceptionClass): (r: string)
    ensures |r| > 0 && ' ' !in r
  {
    match c
    case ImportSourceException => "ImportSourceException"
    case ImportParkingSiteException => "ImportParkingSiteException"
  }

  /** An import exception: the constructor stores `uid` and `message` unchanged (the uid may be any value, or None). */
  datatype ImportException = ImportException(cls: ExceptionClass, uid: Value, message: string)

  function SiteError(uid: Value, message: string): ImportException {
    ImportException(ImportParkingSiteException, uid, message)
  }

  function SourceError(sourceId: string, message: string): ImportException {
    ImportException(ImportSourceException, Str(sourceId), message)
  }

  /** `f'{v}'` for the scalar values the converters format; a container is shown by a placeholder. */
  function Formatted(v: Value): string {
    if v.List? || v.Obj? then "<container>"
    else if v.Moment? && !ValidDateTime(v.dt) then "<datetime>"
    else PyStr(v)
  }

  /** `__repr__`: "<ClassName> <uid>: <message>". */
  function Repr(e: ImportException): (r: string)
    ensures |r| > |ClassName(e.cls)| && r[..|ClassName(e.cls)|] == ClassName(e.cls)
    ensures r[|ClassName(e.cls)|] == ' '
    ensures |r| >= |e.message| + 2 && r[|r| - |e.message|..] == e.message
    ensures r[|r| - |e.message| - 2..|r| - |e.message|] == ": "
  {
    ClassName(e.cls) + " " + Formatted(e.uid) + ": " + e.message
  }

  /** The text before the first space of a repr is the class name, so the two subclasses never print alike. */
  lemma ReprClassPrefix(e: ImportException)
    ensures Find(Repr(e), " ") == Some(|ClassName(e.cls)|)
    ensures Split(Repr(e), " ")[0] == ClassName(e.cls)
  {
    var r := Repr(e);
    var name := ClassName(e.cls);
    assert r == name + " " + (Formatted(e.uid) + ": " + e.message);
    FindSepAfter(name, " ", Formatted(e.uid) + ": " + e.message);
  }

  lemma ReprDistinguishesClasses(a: ImportException, b: ImportException)
    requires a.cls != b.cls
    ensures Repr(a) != Repr(b)
  {
    ReprClassPrefix(a);
    ReprClassPrefix(b);
  }

  // ---------------------------------------------------------------- models

  datatype SourceStatus = Disabled | Active | Failed | Provisioned

  /** The parts of a converter's `source_info` the results use. */
  datatype SourceInfo = SourceInfo(id: string, name: string, publicUrl: Option<string>)

  datatype ImportSourceResult = ImportSourceResult(
    uid: string, name: string, status: SourceStatus, publicUrl: Option<string>,
    attributionLicense: Option<string>, attributionContributor: Option<string>, attributionUrl: Option<string>,
    staticInputs: Option<seq<StaticParkingSiteInput>>, realtimeInputs: Option<seq<RealtimeParkingSiteInput>>,
    staticErrors: Option<seq<ImportException>>, realtimeErrors: Option<seq<ImportException>>)

  /** `ImportSourceResult(uid, name, status)`: every optional field left at its default None. */
  function NewImportSourceResult(uid: string, name: string, status: SourceStatus): (r: ImportSourceResult)
    ensures r.uid == uid && r.name == name && r.status == status
    ensures r.publicUrl.None? && r.attributionLicense.None? && r.attributionContributor.None? && r.attributionUrl.None?
    ensures r.staticInputs.None? && r.realtimeInputs.None? && r.staticErrors.None? && r.realtimeErrors.None?
  {
    ImportSourceResult(uid, name, status, None, None, None, None, None, None, None, None)
  }

  /** The error-count properties: None exactly when the list is None, else its length. */
  function ErrorCount(errors: Option<seq<ImportException>>): (r: Option<nat>)
    ensures r.None? <==> errors.None?
    ensures r.Some? ==> r.value == |errors.value|
  {
    if errors.None? then None else Some(|errors.value|)
  }

  function StaticErrorCount(r: ImportSourceResult): Option<nat> { ErrorCount(r.staticErrors) }

  function RealtimeErrorCount(r: ImportSourceResult): Option<nat> { ErrorCount(r.realtimeErrors) }

  /**
   * `generate_import_source_result`: status ACTIVE, uid, name and public url
   * from the source info, the four lists passed through, no attribution.
   */
  function GenerateImportSourceResult(
    info: SourceInfo,
    staticInputs: Option<seq<StaticParkingSiteInput>>, realtimeInputs: Option<seq<RealtimeParkingSiteInput>>,
    staticErrors: Option<seq<ImportException>>, realtimeErrors: Option<seq<ImportException>>): (r: ImportSourceResult)
    ensures r.status == Active
    ensures r.uid == info.id && r.name == info.name && r.publicUrl == info.publicUrl
    ensures r.staticInputs == staticInputs && r.realtimeInputs == realtimeInputs
    ensures r.staticErrors == staticErrors && r.realtimeErrors == realtimeErrors
    ensures r.attributionLicense.None? && r.attributionContributor.None? && r.attributionUrl.None?
  {
    NewImportSourceResult(info.id, info.name, Active)
      .(publicUrl := info.publicUrl,
        staticInputs := staticInputs, realtimeInputs := realtimeInputs,
        staticErrors := staticErrors, realtimeErrors := realtimeErrors)
  }

  /** The error counts of a generated result follow its error lists alone, whatever the input lists are. */
  lemma GeneratedErrorCounts(
    info: SourceInfo,
    staticInputs: Option<seq<StaticParkingSiteInput>>, realtimeInputs: Option<seq<RealtimeParkingSiteInput>>,
    staticErrors: Option<seq<ImportException>>, realtimeErrors: Option<seq<ImportException>>)
    ensures var r := GenerateImportSourceResult(info, staticInputs, realtimeInputs, staticErrors, realtimeErrors);
      StaticErrorCount(r) == ErrorCount(staticErrors) && RealtimeErrorCount(r) == ErrorCount(realtimeErrors)
      && StaticErrorCount(r) == StaticErrorCount(GenerateImportSourceResult(info, None, None, staticErrors, realtimeErrors))
  {
  }

  // ------------------------------------------------------ escaping failures

  /**
   * How a converter call ends when an exception leaves it: an import
   * exception it raises itself, or any fault it does not catch (a
   * validation error outside a per-record `try`, or a Python runtime error).
   */
  datatype Abort = Raise(fault: Fault) | RaiseImport(exception: ImportException)

  /** The message text of a caught validation error (an abstraction of `e.to_dict()`). */
  function FaultText(f: Fault): string {
    match f
    case Invalid(code, detail) => "{'" + detail + "': '" + code + "'}"
    case Raised(kind, detail) => kind + ": " + detail
  }

  /** The error a converter records for an item its validator refused: `validation error: {e.to_dict()}` under the item's id. */
  function ItemError(uid: Value, f: Fault): (e: ImportException)
    ensures e.cls == ImportParkingSiteException && e.uid == uid
  {
    SiteError(uid, "validation error: " + FaultText(f))
  }
}
