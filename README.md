# SHACL validator: usage statistics and the web upload form

A Dafny model of two parts of the SHACL validator.

**Usage statistics.** `StatisticReportingAspect` wraps every `SHACLValidator.validateAll`
call. After the validation it classifies the SHACL report as a success, a warning or a
failure and hands a usage record to the statistics webhook. Whatever happens while it
reports, the validation's own result is passed through unchanged. The report is modelled
as an RDF graph: a set of triples whose nodes are IRIs, blank nodes or literals. The
classification counts the `sh:resultSeverity` statements of every node that is the object
of an `sh:result` statement:
- any `sh:Violation` makes the report a failure;
- otherwise any `sh:Warning` makes it a warning;
- otherwise it is a success.

Two kinds of report make the classification fail:
- a result node or a severity that is a literal makes Jena's `asResource` throw;
- a severity that is a blank node makes `getURI` return null, and the aspect's own
  emptiness test then throws.

The advice catches the failure, and then no usage record is sent.

**The web upload form.** `UploadController` handles the form submissions. The model
covers these decisions:
- which syntax the content is read in: the domain's query content type, the one the user
  chose, or one derived from the file name or URI;
- when the content is loaded by a SPARQL query, and when the optional credentials are
  dropped;
- which FileManager call stores the input;
- which failures are caught and shown as an error page: a validation type without shape
  information, and user-provided shape arrays that cannot be read;
- when the validation type is refused;
- whether the user-provided shapes are collected, and which shape files come out of the
  four parallel form arrays;
- which file name is shown with the report;
- what is removed at the end;
- the first-write-wins `IS_MINIMAL` request attribute;
- the syntax drop-down: one option per offered content type, labelled by its RDF language
  and sorted by that label.

Delegated work stays symbolic:
- a FileManager call becomes a `FileSource` value naming the call and its arguments;
- Jena's `RDFLanguages.filenameToLang` and `contentTypeToLang` are function parameters;
- the configuration the controller consults is the `DomainConfig` value.

The files:
- `wrappers.dfy`: `Option` (a Java `null`), and `Map.get` as `Lookup`.
- `statistic_reporting.dfy`: the report graph, the classification and the aspect's two
  members.
- `key_order.dfy`: `String.compareTo` on option keys, and the stable sort by key.
- `upload_controller.dfy`: the form's decision logic.

## Model

| member | source | states |
|---|---|---|
| StatisticReporting.ExtractResult | shaclvalidator-war/src/main/java/eu/europa/ec/itb/shacl/webhook/StatisticReportingAspect.java:154-184 | The loop over the distinct `sh:result` objects fails exactly when the report is malformed: a literal result node, or a non-IRI severity about a result node. Otherwise its outcome is the classification of the severity counts. |
| StatisticReporting.TallyStatements | shaclvalidator-war/src/main/java/eu/europa/ec/itb/shacl/webhook/StatisticReportingAspect.java:161-176 | Scanning one result node's statements fails exactly when one of its severities is unreadable. Otherwise it adds that node's number of `sh:Warning` and `sh:Violation` severities to the running counts. |
| StatisticReporting.CountPositiveIffPresent | shaclvalidator-war/src/main/java/eu/europa/ec/itb/shacl/webhook/StatisticReportingAspect.java:158-175 | A severity's count is positive exactly when some report has a result node with that severity. |
| StatisticReporting.ClassificationByPresence | shaclvalidator-war/src/main/java/eu/europa/ec/itb/shacl/webhook/StatisticReportingAspect.java:178-183 | FAILURE iff a violation is present. WARNING iff a warning and no violation are present. SUCCESS iff neither is present, so a report with only infos is a success. |
| StatisticReporting.ClassificationMonotone | shaclvalidator-war/src/main/java/eu/europa/ec/itb/shacl/webhook/StatisticReportingAspect.java:155-183 | Adding statements to a report never improves its outcome (success, then warning, then failure). |
| StatisticReporting.UnrelatedStatementsIgnored | shaclvalidator-war/src/main/java/eu/europa/ec/itb/shacl/webhook/StatisticReportingAspect.java:158-168 | Statements that are not `sh:result` links and are not severities of result nodes change neither the counts nor whether the report is malformed. |
| StatisticReporting.OtherSeverityIgnored | shaclvalidator-war/src/main/java/eu/europa/ec/itb/shacl/webhook/StatisticReportingAspect.java:169-175 | A severity IRI other than `sh:Warning` and `sh:Violation`, such as `sh:Info`, changes neither count nor the outcome. |
| StatisticReporting.ReportValidatorDataUsage | shaclvalidator-war/src/main/java/eu/europa/ec/itb/shacl/webhook/StatisticReportingAspect.java:125-146 | The validation's result is always returned unchanged. A record is sent exactly when the advice context exists, the result is a `ModelPair` and its report is readable. The record carries the classification, the context's `api` and `ip`, and the validator, domain and validation type. |
| KeyOrder.KeyLeTotal | shaclvalidator-web/src/main/java/eu/europa/ec/itb/shacl/upload/UploadController.java:550 | Any two keys are comparable under `compareTo`. |
| KeyOrder.KeyLeTransitive | shaclvalidator-web/src/main/java/eu/europa/ec/itb/shacl/upload/UploadController.java:550 | The key order is transitive. |
| KeyOrder.KeyLeReflexive | shaclvalidator-web/src/main/java/eu/europa/ec/itb/shacl/upload/UploadController.java:550 | Every key is ordered before or with itself. |
| KeyOrder.SortByKeyCorrect | shaclvalidator-web/src/main/java/eu/europa/ec/itb/shacl/upload/UploadController.java:550 | The sort returns a permutation of its input, ordered by key. |
| KeyOrder.SortByKeyStable | shaclvalidator-web/src/main/java/eu/europa/ec/itb/shacl/upload/UploadController.java:550 | The sort is stable: the options sharing a key keep their original order. |
| UploadController.SetMinimalUIFlag | shaclvalidator-web/src/main/java/eu/europa/ec/itb/shacl/upload/UploadController.java:365-369 | Writes the request attribute only while it is unset. |
| UploadController.FirstWriteWins | shaclvalidator-web/src/main/java/eu/europa/ec/itb/shacl/upload/UploadController.java:365-369 | After any series of writes, the flag is the value it already had, or else the first value written. |
| UploadController.MinimalFlagSurvives | shaclvalidator-web/src/main/java/eu/europa/ec/itb/shacl/upload/UploadController.java:350-351 | The minimal form's `true` is not overwritten by the `false` that the nested `handleUpload` writes. |
| UploadController.HandleUploadM | shaclvalidator-web/src/main/java/eu/europa/ec/itb/shacl/upload/UploadController.java:350-356 | The minimal form's submission asks to write `true`, then `false`, to the flag; only the first write can take effect. Its page is the regular form's page with `minimalUI` set. |
| UploadController.ChooseContentSyntax | shaclvalidator-web/src/main/java/eu/europa/ec/itb/shacl/upload/UploadController.java:176-187 | Query content takes the domain's query content type. A syntax the user chose is kept. Without one, the file name (for a file) or the URI decides. Editor content without a syntax raises the message exactly in that case and keeps the submitted value. |
| UploadController.QueryConfig | shaclvalidator-web/src/main/java/eu/europa/ec/itb/shacl/upload/UploadController.java:188-195 | The endpoint, query and syntax are passed on. The credentials are kept exactly when authentication is mandatory or requested, and are nulled otherwise. |
| UploadController.ReadInput | shaclvalidator-web/src/main/java/eu/europa/ec/itb/shacl/upload/UploadController.java:176-200 | Computes the syntax and the message of the syntax rule above. The input comes from the SPARQL endpoint when any query field is filled in, and from `getInputFile` otherwise. |
| UploadController.InputFile | shaclvalidator-web/src/main/java/eu/europa/ec/itb/shacl/upload/UploadController.java:397-413 | A file, URI or editor content type selects the matching FileManager call with the syntax. Any other content type gives null, exactly then. |
| UploadController.EffectiveValidationType | shaclvalidator-web/src/main/java/eu/europa/ec/itb/shacl/upload/UploadController.java:202-204 | The validation type is null exactly when it is blank, and is unchanged otherwise. |
| UploadController.HasExternalShapes | shaclvalidator-web/src/main/java/eu/europa/ec/itb/shacl/upload/UploadController.java:378-383 | The given type, or else the first configured one, accepts user shapes unless its support is NONE. With no configured type, or no shape information for the type, it throws (`None`). |
| UploadController.LoadImportsInput | shaclvalidator-web/src/main/java/eu/europa/ec/itb/shacl/upload/UploadController.java:216-218 | The load-imports choice is nulled exactly when the type's support for it is NONE, and is passed on otherwise. |
| UploadController.DisplayFileName | shaclvalidator-web/src/main/java/eu/europa/ec/itb/shacl/upload/UploadController.java:226-234 | The displayed name is the upload's original name for a file, the URI for a URI, and "-" for a query or editor content. |
| UploadController.ShapeEntriesAligned | shaclvalidator-web/src/main/java/eu/europa/ec/itb/shacl/upload/UploadController.java:443-485 | The shape files correspond, in order, to the strictly increasing indices of the entries that contribute one. Every contributing entry is included, so there are at most as many files as entries. |
| UploadController.GetExternalShapes | shaclvalidator-web/src/main/java/eu/europa/ec/itb/shacl/upload/UploadController.java:443-485 | The loop returns the shape files of the entries in entry order. A non-empty upload or a non-empty URI contributes one file, with its chosen syntax or else one derived from the name. There are none without a content-type array, and never more files than entries. |
| UploadController.HandleUpload | shaclvalidator-web/src/main/java/eu/europa/ec/itb/shacl/upload/UploadController.java:171-271 | Asks to write `false` to the minimal-UI flag, which takes effect only while the flag is unset. The page is the one the decision rules give: its label, message, validator arguments, displayed file name and cleanup. This holds for every form, including one whose shape arrays cannot be read. |
| UploadController.RejectedValidationType | shaclvalidator-web/src/main/java/eu/europa/ec/itb/shacl/upload/UploadController.java:205-207 | With several validation types, a blank or unknown type shows "validation type is not valid". Nothing is then validated and no file name is shown. |
| UploadController.ReportNeedsInput | shaclvalidator-web/src/main/java/eu/europa/ec/itb/shacl/upload/UploadController.java:207-246 | A validation runs only for an accepted type and an input: a query, a file, a URI or editor content. Its page shows the display file name. Without a validation no file name is shown. |
| UploadController.EditorWithoutSyntaxStillValidated | shaclvalidator-web/src/main/java/eu/europa/ec/itb/shacl/upload/UploadController.java:179-184 | Editor content without a syntax raises the syntax message. It is still validated, read with the submitted value as its syntax, whenever the validation type is accepted and nothing throws. |
| UploadController.ShapesOnlyWhenSupported | shaclvalidator-web/src/main/java/eu/europa/ec/itb/shacl/upload/UploadController.java:210-214 | The validator receives the user's shapes when the type accepts them, which requires readable shape arrays. It receives an empty list otherwise. |
| UploadController.FolderDeletedOnlyOnFailure | shaclvalidator-web/src/main/java/eu/europa/ec/itb/shacl/upload/UploadController.java:253-268 | The temporary folder is deleted exactly when the type is accepted, there is an input, and either the shape support lookup throws or the type accepts shapes whose arrays cannot be read. The page then shows the error message and no report. |
| UploadController.SyntaxOptionsDefined | shaclvalidator-web/src/main/java/eu/europa/ec/itb/shacl/upload/UploadController.java:545-549 | The options can be built exactly when every offered content type has an RDF language. There is then one option per content type. |
| UploadController.SyntaxOptionsMatch | shaclvalidator-web/src/main/java/eu/europa/ec/itb/shacl/upload/UploadController.java:545-549 | Appending one (label, content type) option per content type, in order, builds exactly the unsorted option list. |
| UploadController.GetContentSyntax | shaclvalidator-web/src/main/java/eu/europa/ec/itb/shacl/upload/UploadController.java:540-550 | The offered syntaxes are the domain's own list, or else the application's. The result exists exactly when each has an RDF language. It is then a permutation of the options, sorted by label and stable among equal labels. |

## Left out

- I/O is left out: storing files, downloading URIs, querying SPARQL endpoints, writing the report and shape files, and saving the TAR report. Each FileManager call is recorded as a `FileSource` value, and none of them fails in the model.
- The validation itself (`SHACLValidator.validateAll`), the TAR conversion and `sendUsageData` are not part of this model. A validation that throws is not modelled. The `ValidationFailed` message therefore arises only when `hasExternalShapes` throws, or when `getExternalShapes` reads shape arrays that are not usable.
- `validateSparqlConfiguration` and `validateLoadInputs` (InputHelper) are not part of this model. The values recorded are those handed to them.
- The advice-context setters (`getUploadContext`, `getSoapCallContext`, `getRestCallContext`) and the IP extraction are left out: the context is a parameter.
- The GET handlers `upload` and `uploadm` are left out, as are `validateDomain`, `getContentType`, `getDownloadType` and the page attributes that copy configuration. They hold no decisions.
- `getContentSyntax` is called by `handleUpload` to fill a page attribute. A failure there, for a content type without an RDF language, is modelled in `GetContentSyntax` only, not as a failure of `HandleUpload`.
- UploadController.HandleUpload: a thrown exception's text is modelled by the `ValidationFailed` message, without the exception's own text.
- UploadController.HandleUpload: a type label that is present but null and a type label that is missing are both `None`.
- KeyOrder.KeyLe: compares Unicode characters, not Java's UTF-16 code units. The two orders differ only for characters outside the Basic Multilingual Plane.
- `ExternalShapeInputs.Usable` states what `getExternalShapes` reads without checking, as the precondition of `GetExternalShapes`:
  - a syntax array whenever there are entries;
  - a file array covering every file entry;
  - a URI array whenever there is a URI entry.

  `handleUpload` calls it only when the type accepts shapes and there is an input. When the arrays are not usable, the Java code throws there, and the model shows the caught exception's page instead. A null element of an array cannot be expressed in the model's types.
- StatisticReporting.ExtractResult: the Java counters are 32-bit `int`s that would wrap after 2^31-1 increments. The model counts with unbounded naturals, since no in-memory report reaches that size.
- Concurrency and the thread-local advice context are left out.
