/**
 * The usage-statistics advice around SHACL validation: it tallies the severities of the
 * results in a SHACL validation report (section 3.6 of the W3C Shapes Constraint Language
 * recommendation for the report vocabulary, section 2.1.4 for the severity levels),
 * classifies the report as a failure, a warning or a success, and hands the outcome to
 * the statistics webhook without ever changing what the validator returned.
 *
 * A Jena `Model` is a finite set of triples. Nodes are IRIs, blank nodes or literals:
 * result nodes of a report are usually blank nodes, and Jena treats a literal where a
 * resource is expected (and a blank node where an IRI is expected) as an error.
 */
module StatisticReporting {
  import opened Wrappers

  const ShaclResult: string := "http://www.w3.org/ns/shacl#result"
  const ShaclResultSeverity: string := "http://www.w3.org/ns/shacl#resultSeverity"
  const ShaclInfo: string := "http://www.w3.org/ns/shacl#Info"
  const ShaclWarning: string := "http://www.w3.org/ns/shacl#Warning"
  const ShaclViolation: string := "http://www.w3.org/ns/shacl#Violation"

  datatype Node = Iri(iri: string) | Blank(id: string) | Literal(lexical: string)

  /** A statement; properties are always IRIs, so the property (predicate) is kept as its IRI string. */
  datatype Triple = Triple(subject: Node, property: string, obj: Node)

  /** A Jena model: a finite set of statements. */
  type Graph = set<Triple>

  /** The overall result reported to the statistics webhook (`UsageData.Result`: SUCCESS, WARNING, FAILURE). */
  datatype Outcome = Pass | Warn | Fail

  /** Orders the outcomes from best to worst. */
  function Rank(o: Outcome): nat
  {
    match o
    case Pass => 0
    case Warn => 1
    case Fail => 2
  }

  /** The distinct objects of `sh:result` statements: the validation result nodes. */
  function ResultNodes(g: Graph): set<Node>
  {
    set t | t in g && t.property == ShaclResult :: t.obj
  }

  /** The statements whose subject is one of `nodes` (what `listStatements(node, null, null)` lists). */
  function StatementsAbout(g: Graph, nodes: set<Node>): set<Triple>
  {
    set t | t in g && t.subject in nodes
  }

  /** The `sh:resultSeverity` statements among `ts` whose value is the IRI `severity`. */
  function WithSeverity(ts: set<Triple>, severity: string): set<Triple>
  {
    set t | t in ts && t.property == ShaclResultSeverity && t.obj == Iri(severity)
  }

  /** The severity statements about result nodes whose value is the IRI `severity`. */
  function SeverityTriples(g: Graph, severity: string): set<Triple>
  {
    WithSeverity(StatementsAbout(g, ResultNodes(g)), severity)
  }

  /** How many times `severity` is given as the severity of a result. */
  function SeverityCount(g: Graph, severity: string): nat
  {
    |SeverityTriples(g, severity)|
  }

  /** A severity statement whose value Jena cannot read as an IRI. */
  predicate UnreadableSeverity(t: Triple)
  {
    t.property == ShaclResultSeverity && !t.obj.Iri?
  }

  /**
   * A report on which the tally throws: a literal result node cannot be turned into a
   * resource, and a severity that is a literal or a blank node has no IRI to compare.
   */
  predicate Malformed(g: Graph)
  {
    || (exists n :: n in ResultNodes(g) && n.Literal?)
    || (exists t :: t in StatementsAbout(g, ResultNodes(g)) && UnreadableSeverity(t))
  }

  /** Maps the two tallies to the overall result: any error fails, else any warning warns. */
  function Classify(errors: nat, warnings: nat): Outcome
  {
    if errors > 0 then Fail
    else if warnings > 0 then Warn
    else Pass
  }

  /** The overall result of a report, from its violation and warning tallies. */
  function Classification(g: Graph): Outcome
  {
    Classify(SeverityCount(g, ShaclViolation), SeverityCount(g, ShaclWarning))
  }

  /** Reference definition: some result of the report has the given severity. */
  ghost predicate HasSeverity(g: Graph, severity: string)
  {
    exists report: Node, res: Node ::
      Triple(report, ShaclResult, res) in g && Triple(res, ShaclResultSeverity, Iri(severity)) in g
  }

  lemma StatementsAboutGrow(g: Graph, nodes: set<Node>, node: Node)
    ensures StatementsAbout(g, nodes + {node}) == StatementsAbout(g, nodes) + StatementsAbout(g, {node})
  {
  }

  /** Moving one statement from the pending set to the scanned set. */
  lemma ScanOne<T>(about: set<T>, pending: set<T>, t: T)
    requires t in pending && pending <= about
    ensures (about - pending) + {t} == about - (pending - {t})
  {
  }

  /** One more scanned statement raises a tally by one exactly when it carries that severity. */
  lemma TallyStep(scanned: set<Triple>, t: Triple, severity: string)
    requires t !in scanned
    ensures |WithSeverity(scanned + {t}, severity)| == |WithSeverity(scanned, severity)|
              + (if t.property == ShaclResultSeverity && t.obj == Iri(severity) then 1 else 0)
  {
    if t.property == ShaclResultSeverity && t.obj == Iri(severity) {
      assert WithSeverity(scanned + {t}, severity) == WithSeverity(scanned, severity) + {t};
    } else {
      assert WithSeverity(scanned + {t}, severity) == WithSeverity(scanned, severity);
    }
  }

  /** The tallies of two disjoint groups of statements add up. */
  lemma TallyDisjointUnion(a: set<Triple>, b: set<Triple>, severity: string)
    requires a !! b
    ensures |WithSeverity(a + b, severity)| == |WithSeverity(a, severity)| + |WithSeverity(b, severity)|
  {
    assert WithSeverity(a + b, severity) == WithSeverity(a, severity) + WithSeverity(b, severity);
  }

  /**
   * The inner loop of the tally: walks the statements about one result node and adds the
   * Warning and Violation severities among them to the running counters. `failed` reports
   * that a severity could not be read as an IRI (the tally throws there).
   */
  method TallyStatements(report: Graph, node: Node, warnings0: nat, errors0: nat)
    returns (failed: bool, warnings: nat, errors: nat)
    ensures failed <==> exists t :: t in StatementsAbout(report, {node}) && UnreadableSeverity(t)
    ensures !failed ==> warnings == warnings0 + |WithSeverity(StatementsAbout(report, {node}), ShaclWarning)|
    ensures !failed ==> errors == errors0 + |WithSeverity(StatementsAbout(report, {node}), ShaclViolation)|
  {
    warnings, errors := warnings0, errors0;
    var statements := StatementsAbout(report, {node});
    ghost var about := statements;
    while statements != {}
      invariant statements <= about
      invariant warnings == warnings0 + |WithSeverity(about - statements, ShaclWarning)|
      invariant errors == errors0 + |WithSeverity(about - statements, ShaclViolation)|
      invariant forall t :: t in about - statements ==> !UnreadableSeverity(t)
      decreases statements
    {
      var statement :| statement in statements;
      var severity := "";
      if statement.property == ShaclResultSeverity {
        match statement.obj
        case Iri(uri) =>
          severity := uri;
        case Blank(_) =>
          // getURI() of a blank node is null, and isEmpty() on it throws
          return true, warnings, errors;
        case Literal(_) =>
          // asResource() on a literal throws
          return true, warnings, errors;
      }
      TallyStep(about - statements, statement, ShaclWarning);
      TallyStep(about - statements, statement, ShaclViolation);
      if severity != "" {
        if severity == ShaclWarning {
          warnings := warnings + 1;
        } else if severity == ShaclViolation {
          errors := errors + 1;
        }
      }
      ScanOne(about, statements, statement);
      statements := statements - {statement};
    }
    assert about - statements == about;
    failed := false;
  }

  /**
   * The tally of the report. The outer loop walks the result nodes; for each, the inner
   * loop (TallyStatements) walks every statement about it, and only severity statements
   * with the Warning or Violation IRI move a counter.
   */
  method ExtractResult(report: Graph) returns (r: Option<Outcome>)
    ensures r.None? <==> Malformed(report)
    ensures r.Some? ==> r.value == Classification(report)
  {
    var warnings, errors := 0, 0;
    var validationResults := ResultNodes(report);
    ghost var visited: set<Node> := {};
    while validationResults != {}
      invariant validationResults !! visited
      invariant validationResults + visited == ResultNodes(report)
      invariant warnings == |WithSeverity(StatementsAbout(report, visited), ShaclWarning)|
      invariant errors == |WithSeverity(StatementsAbout(report, visited), ShaclViolation)|
      invariant forall n :: n in visited ==> !n.Literal?
      invariant forall t :: t in StatementsAbout(report, visited) ==> !UnreadableSeverity(t)
      decreases validationResults
    {
      var node :| node in validationResults;
      if node.Literal? {
        // asResource() on a literal throws
        return None;
      }
      var failed;
      failed, warnings, errors := TallyStatements(report, node, warnings, errors);
      if failed {
        return None;
      }
      StatementsAboutGrow(report, visited, node);
      TallyDisjointUnion(StatementsAbout(report, visited), StatementsAbout(report, {node}), ShaclWarning);
      TallyDisjointUnion(StatementsAbout(report, visited), StatementsAbout(report, {node}), ShaclViolation);
      validationResults := validationResults - {node};
      visited := visited + {node};
    }
    assert visited == ResultNodes(report);
    if errors > 0 {
      r := Some(Fail);
    } else if warnings > 0 {
      r := Some(Warn);
    } else {
      r := Some(Pass);
    }
  }

  /** A tally is positive exactly when some result carries that severity. */
  lemma CountPositiveIffPresent(g: Graph, severity: string)
    ensures SeverityCount(g, severity) > 0 <==> HasSeverity(g, severity)
  {
    var s := SeverityTriples(g, severity);
    if HasSeverity(g, severity) {
      var report, res :| Triple(report, ShaclResult, res) in g && Triple(res, ShaclResultSeverity, Iri(severity)) in g;
      assert res in ResultNodes(g);
      assert Triple(res, ShaclResultSeverity, Iri(severity)) in s;
    }
    if |s| > 0 {
      var t :| t in s;
      var u :| u in g && u.property == ShaclResult && u.obj == t.subject;
      assert Triple(u.subject, ShaclResult, t.subject) in g;
    }
  }

  /**
   * The classification depends only on whether a Violation or a Warning is present, not on
   * how many there are: any Violation fails; otherwise any Warning warns; otherwise success.
   */
  lemma ClassificationByPresence(g: Graph)
    ensures Classification(g) == Fail <==> HasSeverity(g, ShaclViolation)
    ensures Classification(g) == Warn <==> !HasSeverity(g, ShaclViolation) && HasSeverity(g, ShaclWarning)
    ensures Classification(g) == Pass <==> !HasSeverity(g, ShaclViolation) && !HasSeverity(g, ShaclWarning)
  {
    CountPositiveIffPresent(g, ShaclViolation);
    CountPositiveIffPresent(g, ShaclWarning);
  }

  /** Adding statements to a report never improves its classification. */
  lemma ClassificationMonotone(g: Graph, h: Graph)
    requires g <= h
    ensures Rank(Classification(g)) <= Rank(Classification(h))
  {
    ClassificationByPresence(g);
    ClassificationByPresence(h);
    if HasSeverity(g, ShaclViolation) {
      var report, res :| Triple(report, ShaclResult, res) in g && Triple(res, ShaclResultSeverity, Iri(ShaclViolation)) in g;
      assert Triple(report, ShaclResult, res) in h;
    }
    if HasSeverity(g, ShaclWarning) {
      var report, res :| Triple(report, ShaclResult, res) in g && Triple(res, ShaclResultSeverity, Iri(ShaclWarning)) in g;
      assert Triple(report, ShaclResult, res) in h;
    }
  }

  /**
   * Statements that neither name a result node nor give the severity of one do not change
   * the tallies, nor whether the tally throws.
   */
  lemma UnrelatedStatementsIgnored(g: Graph, extra: Graph, severity: string)
    requires forall t :: t in extra ==> t.property != ShaclResult
    requires forall t :: t in extra && t.property == ShaclResultSeverity ==> t.subject !in ResultNodes(g)
    ensures SeverityCount(g + extra, severity) == SeverityCount(g, severity)
    ensures Malformed(g + extra) <==> Malformed(g)
  {
    assert ResultNodes(g + extra) == ResultNodes(g);
    assert SeverityTriples(g + extra, severity) == SeverityTriples(g, severity);
  }

  /** A severity other than Warning and Violation (sh:Info, or any other IRI) moves neither tally. */
  lemma OtherSeverityIgnored(g: Graph, res: Node, severity: string)
    requires severity != ShaclWarning && severity != ShaclViolation
    ensures SeverityCount(g + {Triple(res, ShaclResultSeverity, Iri(severity))}, ShaclWarning) == SeverityCount(g, ShaclWarning)
    ensures SeverityCount(g + {Triple(res, ShaclResultSeverity, Iri(severity))}, ShaclViolation) == SeverityCount(g, ShaclViolation)
    ensures Classification(g + {Triple(res, ShaclResultSeverity, Iri(severity))}) == Classification(g)
  {
    var h := g + {Triple(res, ShaclResultSeverity, Iri(severity))};
    assert ResultNodes(h) == ResultNodes(g);
    assert SeverityTriples(h, ShaclWarning) == SeverityTriples(g, ShaclWarning);
    assert SeverityTriples(h, ShaclViolation) == SeverityTriples(g, ShaclViolation);
  }

  /** What `joinPoint.proceed()` returned: a `ModelPair` holding the report model, or another object. */
  datatype Proceeded = ModelPair(reportModel: Graph) | OtherObject(id: nat)

  /** The usage record handed to the statistics webhook. */
  datatype UsageData = UsageData(
    validatorId: string,
    domain: string,
    api: Option<string>,
    validationType: string,
    result: Outcome,
    ip: Option<string>)

  /**
   * The advice around `SHACLValidator.validateAll`. The value `proceed()` produced is
   * returned as it is; the statistics step may throw (no advice context, a result that is
   * not a `ModelPair`, a malformed report), and then nothing is sent and the value is still
   * returned. `context` is the thread-local advice context (`None` when unset), and `sent`
   * is the record handed to the webhook, if any.
   */
  method ReportValidatorDataUsage(
    proceeded: Proceeded,
    context: Option<map<string, string>>,
    validatorId: string,
    domain: string,
    validationType: string)
    returns (report: Proceeded, sent: Option<UsageData>)
    ensures report == proceeded
    ensures sent.Some? <==> context.Some? && proceeded.ModelPair? && !Malformed(proceeded.reportModel)
    ensures sent.Some? ==> sent.value.result == Classification(proceeded.reportModel)
    ensures sent.Some? ==> sent.value.api == Lookup(context.value, Some("api")) && sent.value.ip == Lookup(context.value, Some("ip"))
    ensures sent.Some? ==> sent.value.validatorId == validatorId && sent.value.domain == domain
                           && sent.value.validationType == validationType
  {
    report := proceeded;
    sent := None;
    if context.None? {
      // usageParams.get on a null context throws; the exception is logged and swallowed
      return;
    }
    var api := Lookup(context.value, Some("api"));
    var ip := Lookup(context.value, Some("ip"));
    if !proceeded.ModelPair? {
      // the cast to ModelPair throws; swallowed
      return;
    }
    var result := ExtractResult(proceeded.reportModel);
    if result.None? {
      // the tally threw; swallowed
      return;
    }
    sent := Some(UsageData(validatorId, domain, api, validationType, result.value, ip));
  }
}
