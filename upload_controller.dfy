/**
 * The decision logic of the validator's web upload form: which syntax the submitted
 * content is read in, when the submitted validation type is refused, which input and
 * which user-supplied shape files are handed to the SHACL validator, which file name is
 * displayed with the report, and the first-write-wins minimal-UI request flag.
 *
 * Everything the controller delegates is kept symbolic. The FileManager calls that store
 * content become `FileSource` values recording which call was made with which arguments;
 * Jena's `RDFLanguages.filenameToLang` and `contentTypeToLang` are function parameters
 * (oracles); the validation itself and the report conversion are not modelled.
 */
module UploadController {
  import opened Wrappers
  import opened KeyOrder

  // The ways the form can provide the content to validate.
  const ContentTypeFile: string := "fileType"
  const ContentTypeUri: string := "uriType"
  const ContentTypeEditor: string := "stringType"
  const ContentTypeQuery: string := "queryType"

  /** The placeholder the form submits when no syntax is selected. */
  const NoSyntaxSelected: string := "empty"

  /**
   * `getExtensionContentType`: the content type of the RDF language that
   * `RDFLanguages.filenameToLang` associates with a file name or URI, `None` when it knows none.
   */
  type ExtensionOracle = string -> Option<string>

  /** An RDF language as `RDFLanguages.contentTypeToLang` returns it. */
  datatype RdfLang = RdfLang(langLabel: string, contentType: string)

  /** `RDFLanguages.contentTypeToLang`: `None` when no language has that content type. */
  type LangOracle = string -> Option<RdfLang>

  /** An uploaded file (a `MultipartFile`): its original name and whether it is empty. */
  datatype Upload = Upload(originalFilename: string, isEmpty: bool)

  /** The SPARQL query settings handed to the input helper. `None` credentials are Java nulls. */
  datatype SparqlQueryConfig = SparqlQueryConfig(
    endpoint: string,
    query: string,
    username: Option<string>,
    password: Option<string>,
    syntax: Option<string>)

  /** A file the FileManager stored, identified by the call that stored it. */
  datatype FileSource =
    | FromStream(upload: Upload, syntax: Option<string>)   // getFileFromInputStream
    | FromUrl(uri: string, syntax: Option<string>)         // getFileFromURL, extension from the syntax
    | FromText(text: string, syntax: Option<string>)       // getFileFromString
    | FromSparql(query: SparqlQueryConfig)                 // getContentFromSparqlEndpoint
    | ShapesFromUrl(uri: string)                           // getFileFromURL without an extension

  /** A user-provided shape file and its syntax (`FileInfo`). */
  datatype FileInfo = FileInfo(file: FileSource, syntax: Option<string>)

  /** `ExternalArtifactSupport`: REQUIRED, OPTIONAL or NONE. */
  datatype ArtifactSupport = Required | Optional | NoSupport

  /** The parts of a domain's configuration the upload form consults. */
  datatype DomainConfig = DomainConfig(
    types: seq<string>,                           // getType()
    multipleValidationTypes: bool,                // hasMultipleValidationTypes()
    typeLabel: map<string, string>,               // getTypeLabel()
    shapeSupport: map<string, ArtifactSupport>,   // getShapeInfo(type).getExternalArtifactSupport()
    loadImportsSupport: map<string, ArtifactSupport>, // getUserInputForLoadImportsType()
    queryContentType: Option<string>,             // getQueryContentType()
    queryAuthenticationMandatory: bool,           // isQueryAuthenticationMandatory()
    webContentSyntax: seq<string>)                // getWebContentSyntax()

  /**
   * The four parallel arrays of user-provided shapes; `None` is an array the form did not
   * send. Entry i is provided as a file (`files[i]`) or as a URI (`uris[i]`) as
   * `contentTypes[i]` says, in the syntax `syntaxTypes[i]`.
   */
  datatype ExternalShapeInputs = ExternalShapeInputs(
    contentTypes: Option<seq<string>>,
    files: Option<seq<Upload>>,
    uris: Option<seq<string>>,
    syntaxTypes: Option<seq<string>>)
  {
    /**
     * The arrays `getExternalShapes` dereferences without checking: the syntax array as
     * soon as there is an entry, the file array at every file entry, the URI array at
     * every URI entry.
     */
    predicate Usable()
    {
      contentTypes.Some? ==>
        && (|contentTypes.value| > 0 ==> syntaxTypes.Some?)
        && (forall i :: 0 <= i < |contentTypes.value| && contentTypes.value[i] == ContentTypeFile ==>
              files.Some? && i < |files.value|)
        && (forall i :: 0 <= i < |contentTypes.value| && contentTypes.value[i] == ContentTypeUri ==>
              uris.Some?)
    }
  }

  /** The submitted upload form, with the defaults Spring fills in for missing parameters. */
  datatype UploadForm = UploadForm(
    file: Upload,
    uri: string,
    text: string,
    contentType: string,
    validationType: string,
    contentSyntaxType: string,
    external: ExternalShapeInputs,
    loadImports: bool,
    contentQuery: string,
    contentQueryEndpoint: string,
    contentQueryAuthenticate: bool,
    contentQueryUsername: string,
    contentQueryPassword: string)

  /** The messages the form can show. */
  datatype Message =
    | SyntaxTypeInvalid      // "Provided content syntax type is not valid"
    | ValidationTypeInvalid  // "Provided validation type is not valid"
    | ValidationFailed       // "An error occurred during the validation", with the exception's message

  /** The arguments the SHACL validator is created with. */
  datatype ValidationRequest = ValidationRequest(
    input: FileSource,
    validationType: Option<string>,
    syntax: Option<string>,
    shapes: seq<FileInfo>,
    loadImports: Option<bool>)   // the value handed to InputHelper.validateLoadInputs

  /** What is removed when the request ends. */
  datatype Cleanup =
    | DeleteTemporaryFolder                        // after an exception
    | RemoveShapes(shapes: Option<seq<FileInfo>>)  // otherwise: only the user-provided shapes

  /**
   * The attributes of the resulting page that the decision logic sets. `validation` is
   * present exactly when the validator ran, and with it the report attributes
   * (`reportID`, `report`, `date`) and `fileName`.
   */
  datatype UploadView = UploadView(
    minimalUI: bool,
    validationTypeLabel: Option<string>,
    message: Option<Message>,
    validation: Option<ValidationRequest>,
    fileName: Option<string>,
    cleanup: Cleanup)

  /** The request attribute `IS_MINIMAL`; `None` while unset. */
  class HttpRequest {
    var isMinimal: Option<bool>

    constructor ()
      ensures isMinimal.None?
    {
      isMinimal := None;
    }
  }

  // ---------------------------------------------------------------------------------------
  // Strings

  /** `Character.isWhitespace`, the test behind `String.isBlank` and `StringUtils.isNotBlank`. */
  predicate IsWhitespace(c: char)
  {
    || ('\U{9}' <= c <= '\U{D}')
    || ('\U{1C}' <= c <= '\U{20}')
    || c == '\U{1680}'
    || ('\U{2000}' <= c <= '\U{2006}')
    || ('\U{2008}' <= c <= '\U{200A}')
    || c == '\U{2028}' || c == '\U{2029}' || c == '\U{205F}' || c == '\U{3000}'
  }

  predicate IsBlank(s: string)
  {
    forall i :: 0 <= i < |s| ==> IsWhitespace(s[i])
  }

  /** No syntax was chosen: the submitted value is empty or the placeholder. */
  predicate NoSyntax(s: string)
  {
    s == "" || s == NoSyntaxSelected
  }

  // ---------------------------------------------------------------------------------------
  // The minimal-UI flag

  /** The flag after a series of `setMinimalUIFlag` calls with the given values. */
  function FlagAfter(current: Option<bool>, writes: seq<bool>): Option<bool>
    decreases |writes|
  {
    if |writes| == 0 then current
    else FlagAfter(if current.None? then Some(writes[0]) else current, writes[1..])
  }

  /** The first value written stays: later calls never overwrite it. */
  lemma {:induction false} FirstWriteWins(current: Option<bool>, writes: seq<bool>)
    requires current.Some? || |writes| > 0
    ensures FlagAfter(current, writes) == if current.Some? then current else Some(writes[0])
    decreases |writes|
  {
    if |writes| > 0 {
      var next := if current.None? then Some(writes[0]) else current;
      FirstWriteWins(next, writes[1..]);
    }
  }

  /** `setMinimalUIFlag`: records the flag only while none is recorded. */
  method SetMinimalUIFlag(request: HttpRequest, isMinimal: bool)
    modifies request
    ensures request.isMinimal == FlagAfter(old(request.isMinimal), [isMinimal])
  {
    if request.isMinimal.None? {
      request.isMinimal := Some(isMinimal);
    }
  }

  // ---------------------------------------------------------------------------------------
  // The content syntax

  /** The syntax the content is read in, and whether the "not valid" message was raised. */
  datatype SyntaxChoice = SyntaxChoice(syntax: Option<string>, invalid: bool)

  /** Lines deciding `contentSyntaxType` in `handleUpload`. */
  function ChooseContentSyntax(form: UploadForm, config: DomainConfig, extensionOf: ExtensionOracle): (c: SyntaxChoice)
    // query content always takes the domain's query content type
    ensures form.contentType == ContentTypeQuery ==> c == SyntaxChoice(config.queryContentType, false)
    // a syntax the user chose is kept
    ensures form.contentType != ContentTypeQuery && !NoSyntax(form.contentSyntaxType) ==>
              c == SyntaxChoice(Some(form.contentSyntaxType), false)
    // without one, a file's name or else the URI decides it
    ensures form.contentType != ContentTypeQuery && form.contentType != ContentTypeEditor && NoSyntax(form.contentSyntaxType) ==>
              c == SyntaxChoice(extensionOf(if form.contentType == ContentTypeFile then form.file.originalFilename else form.uri), false)
    // editor content without a syntax is flagged, and keeps the submitted value
    ensures c.invalid <==> form.contentType == ContentTypeEditor && NoSyntax(form.contentSyntaxType)
    ensures c.invalid ==> c.syntax == Some(form.contentSyntaxType)
  {
    if form.contentType == ContentTypeQuery then SyntaxChoice(config.queryContentType, false)
    else if !NoSyntax(form.contentSyntaxType) then SyntaxChoice(Some(form.contentSyntaxType), false)
    else if form.contentType != ContentTypeEditor then
      var name := if form.contentType == ContentTypeFile then form.file.originalFilename else form.uri;
      SyntaxChoice(extensionOf(name), false)
    else SyntaxChoice(Some(form.contentSyntaxType), true)
  }

  // ---------------------------------------------------------------------------------------
  // The input

  /** `getInputFile`: the FileManager call for the content type, `None` (null) for any other. */
  function InputFile(contentType: string, file: Upload, uri: string, text: string, syntax: Option<string>): (r: Option<FileSource>)
    ensures r.None? <==> contentType !in {ContentTypeFile, ContentTypeUri, ContentTypeEditor}
    ensures contentType == ContentTypeFile ==> r == Some(FromStream(file, syntax))
    ensures contentType == ContentTypeUri ==> r == Some(FromUrl(uri, syntax))
    ensures contentType == ContentTypeEditor ==> r == Some(FromText(text, syntax))
  {
    if contentType == ContentTypeFile then Some(FromStream(file, syntax))
    else if contentType == ContentTypeUri then Some(FromUrl(uri, syntax))
    else if contentType == ContentTypeEditor then Some(FromText(text, syntax))
    else None
  }

  /** Any SPARQL field was filled in: the input is loaded by a query. */
  predicate QueryRequested(form: UploadForm)
  {
    form.contentQuery != "" || form.contentQueryEndpoint != ""
    || form.contentQueryUsername != "" || form.contentQueryPassword != ""
  }

  /** The query settings: optional credentials are dropped unless required or asked for. */
  function QueryConfig(form: UploadForm, config: DomainConfig, syntax: Option<string>): (q: SparqlQueryConfig)
    ensures q.endpoint == form.contentQueryEndpoint && q.query == form.contentQuery && q.syntax == syntax
    ensures config.queryAuthenticationMandatory || form.contentQueryAuthenticate ==>
              q.username == Some(form.contentQueryUsername) && q.password == Some(form.contentQueryPassword)
    ensures !config.queryAuthenticationMandatory && !form.contentQueryAuthenticate ==>
              q.username.None? && q.password.None?
  {
    if !config.queryAuthenticationMandatory && !form.contentQueryAuthenticate then
      SparqlQueryConfig(form.contentQueryEndpoint, form.contentQuery, None, None, syntax)
    else
      SparqlQueryConfig(form.contentQueryEndpoint, form.contentQuery,
                        Some(form.contentQueryUsername), Some(form.contentQueryPassword), syntax)
  }

  /** The input to validate: from the SPARQL endpoint when a query was given, else `getInputFile`. */
  function SelectedInput(form: UploadForm, config: DomainConfig, syntax: Option<string>): Option<FileSource>
  {
    if QueryRequested(form) then Some(FromSparql(QueryConfig(form, config, syntax)))
    else InputFile(form.contentType, form.file, form.uri, form.text, syntax)
  }

  /** The file name shown with the report: the upload's name, the URI, or "-". */
  function DisplayFileName(form: UploadForm): (name: string)
    ensures form.contentType == ContentTypeFile ==> name == form.file.originalFilename
    ensures form.contentType == ContentTypeUri ==> name == form.uri
    ensures form.contentType != ContentTypeFile && form.contentType != ContentTypeUri ==> name == "-"
  {
    if form.contentType == ContentTypeFile then form.file.originalFilename
    else if form.contentType == ContentTypeUri then form.uri
    else "-"
  }

  // ---------------------------------------------------------------------------------------
  // The validation type

  /** A blank validation type counts as none (null). */
  function EffectiveValidationType(validationType: string): (t: Option<string>)
    ensures t.None? <==> IsBlank(validationType)
    ensures t.Some? ==> t.value == validationType
  {
    if IsBlank(validationType) then None else Some(validationType)
  }

  /** A domain with several validation types refuses a missing or unknown one. */
  predicate ValidationTypeRejected(config: DomainConfig, validationType: Option<string>)
  {
    config.multipleValidationTypes && (validationType.None? || validationType.value !in config.types)
  }

  /**
   * `hasExternalShapes`: whether the validation type (the first configured one when there
   * is none) accepts user-provided shapes. `None` is the exception thrown when there is no
   * configured type to fall back on, or no shape information for the type.
   */
  function HasExternalShapes(config: DomainConfig, validationType: Option<string>): (r: Option<bool>)
    ensures validationType.Some? ==>
              r == if validationType.value in config.shapeSupport
                   then Some(config.shapeSupport[validationType.value] != NoSupport) else None
    ensures validationType.None? && |config.types| == 0 ==> r.None?
    ensures validationType.None? && |config.types| > 0 ==>
              r == if config.types[0] in config.shapeSupport
                   then Some(config.shapeSupport[config.types[0]] != NoSupport) else None
  {
    var typeToCheck := if validationType.Some? then validationType
                       else if |config.types| > 0 then Some(config.types[0])
                       else None;
    if typeToCheck.Some? && typeToCheck.value in config.shapeSupport
    then Some(config.shapeSupport[typeToCheck.value] != NoSupport)
    else None
  }

  /** The load-imports flag is dropped (null) when the type does not accept that input. */
  function LoadImportsInput(config: DomainConfig, validationType: Option<string>, loadImports: bool): (r: Option<bool>)
    ensures r.None? <==> Lookup(config.loadImportsSupport, validationType) == Some(NoSupport)
    ensures r.Some? ==> r.value == loadImports
  {
    if Lookup(config.loadImportsSupport, validationType) == Some(NoSupport) then None else Some(loadImports)
  }

  // ---------------------------------------------------------------------------------------
  // User-provided shapes

  /** The syntax submitted for shape entry `i`, or "" when the syntax array is shorter. */
  function SubmittedShapeSyntax(syntaxTypes: seq<string>, i: nat): string
  {
    if |syntaxTypes| > i then syntaxTypes[i] else ""
  }

  /** A chosen syntax is kept; without one, the name's extension decides. */
  function ResolveSyntax(syntax: string, name: string, extensionOf: ExtensionOracle): Option<string>
  {
    if NoSyntax(syntax) then extensionOf(name) else Some(syntax)
  }

  /** The shape file entry `i` contributes, if any. */
  function ShapeEntry(ext: ExternalShapeInputs, i: nat, extensionOf: ExtensionOracle): (r: Option<FileInfo>)
    requires ext.Usable() && ext.contentTypes.Some? && i < |ext.contentTypes.value|
  {
    var syntax := SubmittedShapeSyntax(ext.syntaxTypes.value, i);
    var kind := ext.contentTypes.value[i];
    if kind == ContentTypeFile then
      var upload := ext.files.value[i];
      if upload.isEmpty then None
      else
        var resolved := ResolveSyntax(syntax, upload.originalFilename, extensionOf);
        Some(FileInfo(FromStream(upload, resolved), resolved))
    else if kind == ContentTypeUri then
      var uris := ext.uris.value;
      if |uris| > i && uris[i] != "" then
        Some(FileInfo(ShapesFromUrl(uris[i]), ResolveSyntax(syntax, uris[i], extensionOf)))
      else None
    else None
  }

  /** The shape files of the first `n` entries, in entry order. */
  function ShapeEntries(ext: ExternalShapeInputs, n: nat, extensionOf: ExtensionOracle): seq<FileInfo>
    requires ext.Usable() && ext.contentTypes.Some? && n <= |ext.contentTypes.value|
  {
    if n == 0 then []
    else
      var entry := ShapeEntry(ext, n - 1, extensionOf);
      ShapeEntries(ext, n - 1, extensionOf) + (if entry.Some? then [entry.value] else [])
  }

  /** The entries among the first `n` that contribute a shape file, in increasing order. */
  function ContributingEntries(ext: ExternalShapeInputs, n: nat, extensionOf: ExtensionOracle): seq<nat>
    requires ext.Usable() && ext.contentTypes.Some? && n <= |ext.contentTypes.value|
  {
    if n == 0 then []
    else
      ContributingEntries(ext, n - 1, extensionOf)
      + (if ShapeEntry(ext, n - 1, extensionOf).Some? then [n - 1] else [])
  }

  /** What `getExternalShapes` returns: nothing without a content-type array. */
  function ExternalShapes(ext: ExternalShapeInputs, extensionOf: ExtensionOracle): seq<FileInfo>
    requires ext.Usable()
  {
    if ext.contentTypes.None? then [] else ShapeEntries(ext, |ext.contentTypes.value|, extensionOf)
  }

  /**
   * The shape files are index-aligned with the entries: the j-th file is the one entry
   * `idx[j]` contributes, the entries in `idx` increase, and every entry that contributes a
   * file is in `idx`; so there are at most as many files as entries.
   */
  lemma {:induction false} ShapeEntriesAligned(ext: ExternalShapeInputs, n: nat, extensionOf: ExtensionOracle)
    requires ext.Usable() && ext.contentTypes.Some? && n <= |ext.contentTypes.value|
    ensures var idx := ContributingEntries(ext, n, extensionOf);
            var files := ShapeEntries(ext, n, extensionOf);
            && |files| == |idx| <= n
            && (forall j :: 0 <= j < |idx| ==>
                  idx[j] < n && ShapeEntry(ext, idx[j], extensionOf) == Some(files[j]))
            && (forall j, k :: 0 <= j < k < |idx| ==> idx[j] < idx[k])
            && (forall i :: 0 <= i < n && ShapeEntry(ext, i, extensionOf).Some? ==> i in idx)
  {
    if n > 0 {
      ShapeEntriesAligned(ext, n - 1, extensionOf);
    }
  }

  /** `getExternalShapes`: one pass over the entries, appending each shape file stored. */
  method GetExternalShapes(ext: ExternalShapeInputs, extensionOf: ExtensionOracle) returns (shaclFiles: seq<FileInfo>)
    requires ext.Usable()
    ensures shaclFiles == ExternalShapes(ext, extensionOf)
    ensures ext.contentTypes.None? ==> shaclFiles == []
    ensures ext.contentTypes.Some? ==> |shaclFiles| <= |ext.contentTypes.value|
  {
    shaclFiles := [];
    if ext.contentTypes.Some? {
      var contentTypes := ext.contentTypes.value;
      for i := 0 to |contentTypes|
        invariant shaclFiles == ShapeEntries(ext, i, extensionOf)
      {
        var inputFile: Option<FileSource> := None;
        var contentSyntaxType := "";
        var syntaxTypes := ext.syntaxTypes.value;
        if |syntaxTypes| > i {
          contentSyntaxType := syntaxTypes[i];
        }
        var syntax: Option<string> := Some(contentSyntaxType);
        if contentTypes[i] == ContentTypeFile {
          var upload := ext.files.value[i];
          if !upload.isEmpty {
            if NoSyntax(contentSyntaxType) {
              syntax := extensionOf(upload.originalFilename);
            }
            inputFile := Some(FromStream(upload, syntax));
          }
        } else if contentTypes[i] == ContentTypeUri {
          var uris := ext.uris.value;
          if |uris| > i && uris[i] != "" {
            if NoSyntax(contentSyntaxType) {
              syntax := extensionOf(uris[i]);
            }
            inputFile := Some(ShapesFromUrl(uris[i]));
          }
        }
        if inputFile.Some? {
          shaclFiles := shaclFiles + [FileInfo(inputFile.value, syntax)];
        }
      }
      ShapeEntriesAligned(ext, |contentTypes|, extensionOf);
    }
  }

  // ---------------------------------------------------------------------------------------
  // The form submission

  /** The page `handleUpload` produces for a submitted form. */
  function UploadOutcome(form: UploadForm, config: DomainConfig, extensionOf: ExtensionOracle): UploadView
  {
    var typeLabel := if IsBlank(form.validationType) then None else Lookup(config.typeLabel, Some(form.validationType));
    var choice := ChooseContentSyntax(form, config, extensionOf);
    ViewFor(form, config, extensionOf, typeLabel, choice, SelectedInput(form, config, choice.syntax),
            EffectiveValidationType(form.validationType))
  }

  /** The page once the label, the syntax decision, the input and the validation type are known. */
  function ViewFor(form: UploadForm, config: DomainConfig, extensionOf: ExtensionOracle, typeLabel: Option<string>,
                   choice: SyntaxChoice, input: Option<FileSource>, validationType: Option<string>): UploadView
  {
    var syntaxMessage := if choice.invalid then Some(SyntaxTypeInvalid) else None;
    if ValidationTypeRejected(config, validationType) then
      UploadView(false, typeLabel, Some(ValidationTypeInvalid), None, None, RemoveShapes(None))
    else if input.None? then
      UploadView(false, typeLabel, syntaxMessage, None, None, RemoveShapes(None))
    else
      match HasExternalShapes(config, validationType)
      case None =>
        UploadView(false, typeLabel, Some(ValidationFailed), None, None, DeleteTemporaryFolder)
      case Some(external) =>
        if external && !form.external.Usable() then
          // getExternalShapes dereferences a missing array; the exception is caught as above
          UploadView(false, typeLabel, Some(ValidationFailed), None, None, DeleteTemporaryFolder)
        else
          var shapes := if external then ExternalShapes(form.external, extensionOf) else [];
          var request := ValidationRequest(input.value, validationType, choice.syntax, shapes,
                                           LoadImportsInput(config, validationType, form.loadImports));
          UploadView(false, typeLabel, syntaxMessage, Some(request), Some(DisplayFileName(form)), RemoveShapes(Some(shapes)))
  }

  /**
   * The first half of `handleUpload`: the content syntax (the domain's query content type for a
   * query, else the chosen one, else one derived from the file name or URL), the message for an
   * editor input without a syntax, and the input to validate.
   */
  method ReadInput(form: UploadForm, config: DomainConfig, extensionOf: ExtensionOracle)
    returns (contentSyntaxType: Option<string>, message: Option<Message>, inputFile: Option<FileSource>)
    ensures contentSyntaxType == ChooseContentSyntax(form, config, extensionOf).syntax
    ensures message == if ChooseContentSyntax(form, config, extensionOf).invalid then Some(SyntaxTypeInvalid) else None
    ensures inputFile == SelectedInput(form, config, contentSyntaxType)
  {
    contentSyntaxType := Some(form.contentSyntaxType);
    message := None;
    if form.contentType == ContentTypeQuery {
      contentSyntaxType := config.queryContentType;
    } else if NoSyntax(form.contentSyntaxType) {
      if form.contentType != ContentTypeEditor {
        contentSyntaxType := extensionOf(if form.contentType == ContentTypeFile then form.file.originalFilename else form.uri);
      } else {
        message := Some(SyntaxTypeInvalid);
      }
    }
    if QueryRequested(form) {
      var username: Option<string> := Some(form.contentQueryUsername);
      var password: Option<string> := Some(form.contentQueryPassword);
      if !config.queryAuthenticationMandatory && !form.contentQueryAuthenticate {
        username, password := None, None;
      }
      var queryConfig := SparqlQueryConfig(form.contentQueryEndpoint, form.contentQuery, username, password, contentSyntaxType);
      inputFile := Some(FromSparql(queryConfig));
    } else {
      inputFile := InputFile(form.contentType, form.file, form.uri, form.text, contentSyntaxType);
    }
  }

  /** `handleUpload`: the regular form's submission. */
  method HandleUpload(request: HttpRequest, form: UploadForm, config: DomainConfig, extensionOf: ExtensionOracle)
    returns (view: UploadView)
    modifies request
    ensures request.isMinimal == FlagAfter(old(request.isMinimal), [false])
    ensures view == UploadOutcome(form, config, extensionOf)
  {
    SetMinimalUIFlag(request, false);
    var validationTypeLabel: Option<string> := None;
    if !IsBlank(form.validationType) {
      validationTypeLabel := Lookup(config.typeLabel, Some(form.validationType));
    }
    var message: Option<Message> := None;
    var validation: Option<ValidationRequest> := None;
    var fileName: Option<string> := None;
    var userProvidedShapes: Option<seq<FileInfo>> := None;
    var forceCleanup := false;

    var contentSyntaxType, syntaxMessage, inputFile := ReadInput(form, config, extensionOf);
    message := syntaxMessage;
    ghost var choice := ChooseContentSyntax(form, config, extensionOf);
    var validationType: Option<string> := Some(form.validationType);
    if IsBlank(form.validationType) {
      validationType := None;
    }
    assert validationType == EffectiveValidationType(form.validationType);
    ghost var expected := ViewFor(form, config, extensionOf, validationTypeLabel, choice, inputFile, validationType);
    assert expected == UploadOutcome(form, config, extensionOf);
    if config.multipleValidationTypes && (validationType.None? || validationType.value !in config.types) {
      message := Some(ValidationTypeInvalid);
      assert message == expected.message && expected.validation.None? && expected.fileName.None?;
      assert expected.cleanup == RemoveShapes(None);
    } else if inputFile.Some? {
      var external := HasExternalShapes(config, validationType);
      if external.None? {
        // the lookup throws; the exception's message is shown and the folder removed
        message := Some(ValidationFailed);
        forceCleanup := true;
        assert message == expected.message && expected.validation.None? && expected.fileName.None?;
        assert expected.cleanup == DeleteTemporaryFolder;
      } else if external.value && !form.external.Usable() {
        // getExternalShapes dereferences a missing array: the exception is caught, as above
        message := Some(ValidationFailed);
        forceCleanup := true;
        assert message == expected.message && expected.validation.None? && expected.fileName.None?;
        assert expected.cleanup == DeleteTemporaryFolder;
      } else {
        var shapes: seq<FileInfo> := [];
        if external.value {
          shapes := GetExternalShapes(form.external, extensionOf);
        }
        userProvidedShapes := Some(shapes);
        var loadImportsValue: Option<bool> := Some(form.loadImports);
        if Lookup(config.loadImportsSupport, validationType) == Some(NoSupport) {
          loadImportsValue := None;
        }
        validation := Some(ValidationRequest(inputFile.value, validationType, contentSyntaxType, shapes, loadImportsValue));
        fileName := Some(DisplayFileName(form));
        assert message == expected.message && validation == expected.validation && fileName == expected.fileName;
        assert expected.cleanup == RemoveShapes(userProvidedShapes);
      }
    } else {
      assert message == expected.message && expected.validation.None? && expected.fileName.None?;
      assert expected.cleanup == RemoveShapes(None);
    }
    var cleanup := if forceCleanup then DeleteTemporaryFolder else RemoveShapes(userProvidedShapes);
    view := UploadView(false, validationTypeLabel, message, validation, fileName, cleanup);
  }

  /** `handleUploadM`: the minimal form's submission, which marks the request minimal first. */
  method HandleUploadM(request: HttpRequest, form: UploadForm, config: DomainConfig, extensionOf: ExtensionOracle)
    returns (view: UploadView)
    modifies request
    ensures request.isMinimal == FlagAfter(old(request.isMinimal), [true, false])
    ensures view == UploadOutcome(form, config, extensionOf).(minimalUI := true)
  {
    SetMinimalUIFlag(request, true);
    view := HandleUpload(request, form, config, extensionOf);
    view := view.(minimalUI := true);
  }

  /** The minimal form's `true` survives the nested call that writes `false`. */
  lemma MinimalFlagSurvives(current: Option<bool>)
    ensures current.None? ==> FlagAfter(current, [true, false]) == Some(true)
    ensures current.Some? ==> FlagAfter(current, [true, false]) == current
  {
    FirstWriteWins(current, [true, false]);
  }

  /**
   * A refused validation type sets its message, and nothing is validated, displayed or
   * stored for the report.
   */
  lemma RejectedValidationType(form: UploadForm, config: DomainConfig, extensionOf: ExtensionOracle)
    requires config.multipleValidationTypes
    requires IsBlank(form.validationType) || form.validationType !in config.types
    ensures UploadOutcome(form, config, extensionOf).message == Some(ValidationTypeInvalid)
    ensures UploadOutcome(form, config, extensionOf).validation.None?
    ensures UploadOutcome(form, config, extensionOf).fileName.None?
  {
  }

  /**
   * A report is produced only with an input: for content that is not a query, the content
   * type must be a file, a URI or the editor; the file name is then the one displayed.
   */
  lemma ReportNeedsInput(form: UploadForm, config: DomainConfig, extensionOf: ExtensionOracle)
    ensures var view := UploadOutcome(form, config, extensionOf);
            view.validation.Some? ==>
              && !ValidationTypeRejected(config, EffectiveValidationType(form.validationType))
              && (QueryRequested(form) || form.contentType in {ContentTypeFile, ContentTypeUri, ContentTypeEditor})
              && view.fileName == Some(DisplayFileName(form))
    ensures var view := UploadOutcome(form, config, extensionOf);
            view.validation.None? ==> view.fileName.None?
  {
  }

  /**
   * Editor content submitted without a syntax raises the "syntax not valid" message, but
   * the content is still validated, read with the submitted placeholder as its syntax.
   */
  lemma EditorWithoutSyntaxStillValidated(form: UploadForm, config: DomainConfig, extensionOf: ExtensionOracle)
    requires form.contentType == ContentTypeEditor && NoSyntax(form.contentSyntaxType)
    requires !QueryRequested(form)
    requires !ValidationTypeRejected(config, EffectiveValidationType(form.validationType))
    requires HasExternalShapes(config, EffectiveValidationType(form.validationType)).Some?
    requires HasExternalShapes(config, EffectiveValidationType(form.validationType)) == Some(true) ==> form.external.Usable()
    ensures UploadOutcome(form, config, extensionOf).message == Some(SyntaxTypeInvalid)
    ensures UploadOutcome(form, config, extensionOf).validation.Some?
    ensures UploadOutcome(form, config, extensionOf).validation.value.input
              == FromText(form.text, Some(form.contentSyntaxType))
  {
  }

  /** The user-provided shapes reach the validator only when the validation type accepts them. */
  lemma ShapesOnlyWhenSupported(form: UploadForm, config: DomainConfig, extensionOf: ExtensionOracle)
    ensures var view := UploadOutcome(form, config, extensionOf);
            view.validation.Some? && HasExternalShapes(config, EffectiveValidationType(form.validationType)) == Some(true) ==>
              form.external.Usable() && view.validation.value.shapes == ExternalShapes(form.external, extensionOf)
    ensures var view := UploadOutcome(form, config, extensionOf);
            view.validation.Some? && HasExternalShapes(config, EffectiveValidationType(form.validationType)) != Some(true) ==>
              view.validation.value.shapes == []
  {
  }

  /**
   * The temporary folder is deleted exactly when an exception was caught: the shape support
   * of the validation type could not be looked up, or the shape arrays could not be read.
   * The page then shows the error message and no report.
   */
  lemma FolderDeletedOnlyOnFailure(form: UploadForm, config: DomainConfig, extensionOf: ExtensionOracle)
    ensures var view := UploadOutcome(form, config, extensionOf);
            var validationType := EffectiveValidationType(form.validationType);
            var external := HasExternalShapes(config, validationType);
            view.cleanup == DeleteTemporaryFolder <==>
              && !ValidationTypeRejected(config, validationType)
              && SelectedInput(form, config, ChooseContentSyntax(form, config, extensionOf).syntax).Some?
              && (external.None? || (external == Some(true) && !form.external.Usable()))
    ensures var view := UploadOutcome(form, config, extensionOf);
            view.cleanup == DeleteTemporaryFolder ==> view.message == Some(ValidationFailed) && view.validation.None?
  {
  }

  // ---------------------------------------------------------------------------------------
  // Syntax options

  /** The syntaxes offered: the domain's own list, or the application's when that is empty. */
  function OfferedSyntaxes(config: DomainConfig, appContentSyntax: seq<string>): seq<string>
  {
    if |config.webContentSyntax| == 0 then appContentSyntax else config.webContentSyntax
  }

  /** The options for a list of content types, unsorted; `None` when a type has no language. */
  function SyntaxOptions(syntaxes: seq<string>, langOf: LangOracle): Option<seq<KeyWithLabel>>
  {
    if |syntaxes| == 0 then Some([])
    else match langOf(syntaxes[0])
      case None => None
      case Some(lang) =>
        match SyntaxOptions(syntaxes[1..], langOf)
        case None => None
        case Some(rest) => Some([KeyWithLabel(lang.langLabel, lang.contentType)] + rest)
  }

  lemma {:induction false} SyntaxOptionsDefined(syntaxes: seq<string>, langOf: LangOracle)
    ensures SyntaxOptions(syntaxes, langOf).Some? <==> forall i :: 0 <= i < |syntaxes| ==> langOf(syntaxes[i]).Some?
    ensures SyntaxOptions(syntaxes, langOf).Some? ==> |SyntaxOptions(syntaxes, langOf).value| == |syntaxes|
  {
    if |syntaxes| > 0 {
      SyntaxOptionsDefined(syntaxes[1..], langOf);
      assert forall i :: 1 <= i < |syntaxes| ==> syntaxes[i] == syntaxes[1..][i - 1];
    }
  }

  /**
   * `getContentSyntax`: one option per offered syntax, keyed by its language's label and
   * sorted by key. `None` is the exception thrown for a syntax with no RDF language.
   */
  method GetContentSyntax(config: DomainConfig, appContentSyntax: seq<string>, langOf: LangOracle)
    returns (r: Option<seq<KeyWithLabel>>)
    ensures r.Some? <==> forall cs :: cs in OfferedSyntaxes(config, appContentSyntax) ==> langOf(cs).Some?
    ensures r.Some? ==> SortedByKey(r.value)
    ensures r.Some? ==> SyntaxOptions(OfferedSyntaxes(config, appContentSyntax), langOf).Some?
    ensures r.Some? ==> multiset(r.value) == multiset(SyntaxOptions(OfferedSyntaxes(config, appContentSyntax), langOf).value)
    // the sort is stable: options sharing a key keep the order of the offered syntaxes
    ensures r.Some? ==> forall k :: WithKey(r.value, k) == WithKey(SyntaxOptions(OfferedSyntaxes(config, appContentSyntax), langOf).value, k)
  {
    var contentSyntax := config.webContentSyntax;
    if |contentSyntax| == 0 {
      contentSyntax := appContentSyntax;
    }
    var types: seq<KeyWithLabel> := [];
    for i := 0 to |contentSyntax|
      invariant forall k :: 0 <= k < i ==> langOf(contentSyntax[k]).Some?
      invariant |types| == i
      invariant forall k :: 0 <= k < i ==> types[k] == KeyWithLabel(langOf(contentSyntax[k]).value.langLabel, langOf(contentSyntax[k]).value.contentType)
    {
      var lang := langOf(contentSyntax[i]);
      if lang.None? {
        // lang.getLabel() on null throws
        SyntaxOptionsDefined(contentSyntax, langOf);
        return None;
      }
      types := types + [KeyWithLabel(lang.value.langLabel, lang.value.contentType)];
    }
    SyntaxOptionsMatch(contentSyntax, langOf, types);
    SortByKeyCorrect(types);
    forall k {
      SortByKeyStable(types, k);
    }
    r := Some(SortByKey(types));
  }

  lemma {:induction false} SyntaxOptionsMatch(syntaxes: seq<string>, langOf: LangOracle, types: seq<KeyWithLabel>)
    requires |types| == |syntaxes|
    requires forall k :: 0 <= k < |syntaxes| ==> langOf(syntaxes[k]).Some?
    requires forall k :: 0 <= k < |syntaxes| ==>
               types[k] == KeyWithLabel(langOf(syntaxes[k]).value.langLabel, langOf(syntaxes[k]).value.contentType)
    ensures SyntaxOptions(syntaxes, langOf) == Some(types)
  {
    if |syntaxes| > 0 {
      assert forall k :: 0 <= k < |syntaxes| - 1 ==> syntaxes[1..][k] == syntaxes[k + 1] && types[1..][k] == types[k + 1];
      SyntaxOptionsMatch(syntaxes[1..], langOf, types[1..]);
      assert types == [types[0]] + types[1..];
    }
  }
}
