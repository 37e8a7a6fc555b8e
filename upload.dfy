/**
 * The upload run (`main`): every discovered file, group by group, is
 * normalized and then either checked (dry run) or submitted with retries,
 * and exactly one result is recorded for it; the run fails when any file
 * failed.
 *
 * Collaborators are parameters: `read` gives what reading and parsing a
 * file yields, `exec(file, n)` what the n-th batch execution of that file's
 * bundle returns or throws, and `encode` stands for `encodeURIComponent`.
 */
module Upload {
  import opened Wrappers
  import opened Fhir
  import opened Normalize
  import opened Retry
  import opened Discovery
  import JsStrings

  // ----- Dry-run validation -----

  const MissingUrlIssue := "Entry sin request.url"

  function ResidualIdIssue(id: string): string {
    "Recurso aún tiene id=\"" + id + "\" (debería haberse eliminado)"
  }

  /** `entry.request?.url` is truthy. */
  predicate HasRequestUrl(e: EntryValue) {
    e.request.Some? && Truthy(e.request.value.url)
  }

  /** `entry.resource?.id` is truthy. */
  predicate HasResidualId(e: EntryValue) {
    e.resource.Some? && Truthy(e.resource.value.id)
  }

  /** The dry-run check accepts the entry. */
  predicate PassesDryRun(e: EntryValue) {
    HasRequestUrl(e) && !HasResidualId(e)
  }

  /** The issues the dry run reports for one entry: none exactly when it passes. */
  function EntryIssues(e: EntryValue): (issues: seq<string>)
    ensures |issues| <= 2
    ensures |issues| == 0 <==> PassesDryRun(e)
    ensures MissingUrlIssue in issues <==> !HasRequestUrl(e)
  {
    (if HasRequestUrl(e) then [] else [MissingUrlIssue])
    + (if HasResidualId(e) then [ResidualIdIssue(e.resource.value.id.value)] else [])
  }

  /** The issues the dry run reports for a bundle, entry by entry: none exactly when every entry passes. */
  function DryRunIssues(es: seq<EntryValue>): (issues: seq<string>)
    ensures |issues| <= 2 * |es|
    ensures |issues| == 0 <==> forall k :: 0 <= k < |es| ==> PassesDryRun(es[k])
  {
    if |es| == 0 then []
    else
      var rest := DryRunIssues(es[1..]);
      assert forall k :: 1 <= k < |es| ==> es[k] == es[1..][k - 1];
      EntryIssues(es[0]) + rest
  }

  /** A prepared entry whose resource has a type always passes the dry run. */
  lemma PreparedPassesDryRun(e: EntryValue, encode: string -> string)
    requires HasResourceType(e)
    ensures PassesDryRun(Prepared(e, encode))
  {
  }

  /**
   * Of a normalized document, the dry run flags only entries whose resource
   * has no type and which lack a request url or carry an id.
   */
  lemma DryRunFlagsOnlyUntyped(doc: JsonDoc, filePath: string, encode: string -> string)
    requires NormalizeDocument(doc, filePath, encode).Ok?
    ensures var entries := NormalizeDocument(doc, filePath, encode).value.entries;
      |DryRunIssues(entries)| == 0 <==>
        (IsTransaction(doc.obj) ==>
           forall k :: 0 <= k < |EntriesOf(doc.obj)| ==>
             HasResourceType(EntriesOf(doc.obj)[k]) || PassesDryRun(EntriesOf(doc.obj)[k]))
  {
    var entries := NormalizeDocument(doc, filePath, encode).value.entries;
    if IsTransaction(doc.obj) {
      forall k | 0 <= k < |entries|
        ensures PassesDryRun(entries[k]) <==> HasResourceType(EntriesOf(doc.obj)[k]) || PassesDryRun(EntriesOf(doc.obj)[k])
      {
        var src := EntriesOf(doc.obj)[k];
        if HasResourceType(src) { PreparedPassesDryRun(src, encode); }
      }
    } else {
      PreparedPassesDryRun(EntryValue(None, Some(doc.obj), None), encode);
    }
  }

  // ----- Live response check -----

  /** `status && !status.startsWith('2')` */
  predicate FailedStatus(status: Option<string>) {
    Truthy(status) && !JsStrings.StartsWith(status.value, "2")
  }

  /** The response entries whose status is present and not 2xx, in order. */
  function FailedEntries(es: seq<ResponseEntry>): (r: seq<ResponseEntry>)
    ensures |r| <= |es|
    ensures forall e :: e in r <==> e in es && FailedStatus(e.status)
    ensures forall e :: multiset(r)[e] == if FailedStatus(e.status) then multiset(es)[e] else 0
  {
    if |es| == 0 then []
    else
      var rest := FailedEntries(es[1..]);
      assert forall e :: e in es <==> e == es[0] || e in es[1..];
      assert es == [es[0]] + es[1..];
      assert multiset(es) == multiset{es[0]} + multiset(es[1..]);
      if FailedStatus(es[0].status) then [es[0]] + rest else rest
  }

  /** `.filter` keeps the order: the failed entries of an earlier part of the response come first. */
  lemma {:induction false} FailedEntriesInOrder(a: seq<ResponseEntry>, b: seq<ResponseEntry>)
    ensures FailedEntries(a + b) == FailedEntries(a) + FailedEntries(b)
  {
    if |a| > 0 {
      assert (a + b)[0] == a[0] && (a + b)[1..] == a[1..] + b;
      FailedEntriesInOrder(a[1..], b);
    } else {
      assert a + b == b;
    }
  }

  /** `status: diagnostics`, with "sin detalle" when the outcome carries no diagnostics. */
  function EntryErrorDetail(e: ResponseEntry): (detail: string)
    requires e.status.Some?
    ensures JsStrings.StartsWith(detail, e.status.value + ": ")
    ensures e.diagnostics.Some? ==> JsStrings.EndsWith(detail, e.diagnostics.value)
    ensures e.diagnostics.None? ==> JsStrings.EndsWith(detail, "sin detalle")
  {
    e.status.value + ": " + (if e.diagnostics.Some? then e.diagnostics.value else "sin detalle")
  }

  /** One detail per failed entry, in order. */
  function ErrorDetails(es: seq<ResponseEntry>): (r: seq<string>)
    requires forall e :: e in es ==> e.status.Some?
    ensures |r| == |es|
    ensures forall k :: 0 <= k < |es| ==> r[k] == EntryErrorDetail(es[k])
  {
    if |es| == 0 then [] else [EntryErrorDetail(es[0])] + ErrorDetails(es[1..])
  }

  /** `response.entry ?? []` */
  function ResponseEntries(r: Response): seq<ResponseEntry> {
    if r.entry.Some? then r.entry.value else []
  }

  // ----- One file -----

  /** What reading and parsing a file yields: a parsed document, or the error thrown. */
  datatype FileContent = Unreadable(message: string) | Parsed(doc: JsonDoc)

  datatype Status = StatusOk | StatusError | StatusSkipped

  /** The result recorded for a file. */
  datatype UploadResult = UploadResult(file: string, status: Status, resourceCount: nat, detail: Option<string>)

  /** The result recorded for one file, what it adds to the resource total, and the client calls it made. */
  datatype FileStep = FileStep(result: UploadResult, counted: nat, calls: nat)

  const MaxRetries: nat := DefaultMaxRetries

  /**
   * Specification of one pass of the per-file loop body of `main`. No file
   * is ever recorded as skipped; an error carries a detail and an ok result
   * none; the recorded count never exceeds what was added to the total; a
   * dry run makes no client call.
   */
  function FileOutcome(file: string, content: FileContent, dryRun: bool, exec: nat -> Attempt, encode: string -> string): (step: FileStep)
    ensures step.result.file == file
    ensures step.result.status != StatusSkipped
    ensures step.result.status == StatusError <==> step.result.detail.Some?
    ensures step.result.resourceCount <= step.counted
    ensures dryRun ==> step.calls == 0
  {
    match content
    case Unreadable(message) => FileStep(UploadResult(file, StatusError, 0, Some(message)), 0, 0)
    case Parsed(doc) =>
      match NormalizeDocument(doc, file, encode)
      case Err(message) => FileStep(UploadResult(file, StatusError, 0, Some(message)), 0, 0)
      case Ok(bundle) =>
        var count := bundle.resourceCount;
        if dryRun then
          var issues := DryRunIssues(bundle.entries);
          if |issues| > 0 then FileStep(UploadResult(file, StatusError, count, Some(JsStrings.Join(issues, "; "))), count, 0)
          else FileStep(UploadResult(file, StatusOk, count, None), count, 0)
        else
          var run := RetrySpec(exec, MaxRetries);
          match run.outcome
          case Threw(err) => FileStep(UploadResult(file, StatusError, 0, Some(ErrorMessage(err))), count, run.calls)
          case Succeeded(response) =>
            var failed := FailedEntries(ResponseEntries(response));
            if |failed| > 0 then
              FileStep(UploadResult(file, StatusError, count, Some(JsStrings.Join(ErrorDetails(failed), "; "))), count, run.calls)
            else FileStep(UploadResult(file, StatusOk, count, None), count, run.calls)
  }

  /**
   * The body of the per-file loop of `main`: normalize, then validate (dry
   * run) or submit with retries and inspect the per-entry statuses; any
   * error thrown is recorded as the file's error with no resources.
   */
  method UploadFile(file: string, content: FileContent, dryRun: bool, exec: nat -> Attempt, encode: string -> string)
    returns (result: UploadResult, counted: nat, calls: nat)
    ensures FileStep(result, counted, calls) == FileOutcome(file, content, dryRun, exec, encode)
  {
    var doc: JsonDoc;
    match content
    case Unreadable(message) => return UploadResult(file, StatusError, 0, Some(message)), 0, 0;
    case Parsed(d) => doc := d;

    var normalized := ToTransactionBundle(doc, file, encode);
    if normalized.Err? {
      return UploadResult(file, StatusError, 0, Some(normalized.error)), 0, 0;
    }
    var bundle := normalized.value;
    var resourceCount := bundle.resourceCount;
    counted := resourceCount;

    if dryRun {
      var issues := DryRunIssues(EntryViews(bundle.entry));
      if |issues| > 0 {
        result := UploadResult(file, StatusError, resourceCount, Some(JsStrings.Join(issues, "; ")));
      } else {
        result := UploadResult(file, StatusOk, resourceCount, None);
      }
      return result, counted, 0;
    }

    var outcome, sleeps, n := UploadWithRetry(exec, MaxRetries);
    calls := n;
    match outcome
    case Threw(err) =>
      result := UploadResult(file, StatusError, 0, Some(ErrorMessage(err)));
    case Succeeded(response) =>
      var errors := FailedEntries(ResponseEntries(response));
      if |errors| > 0 {
        result := UploadResult(file, StatusError, resourceCount, Some(JsStrings.Join(ErrorDetails(errors), "; ")));
      } else {
        result := UploadResult(file, StatusOk, resourceCount, None);
      }
  }

  /** In a dry run a normalized file fails exactly when one of its entries fails the check. */
  lemma DryRunVerdict(file: string, doc: JsonDoc, exec: nat -> Attempt, encode: string -> string)
    requires NormalizeDocument(doc, file, encode).Ok?
    ensures var entries := NormalizeDocument(doc, file, encode).value.entries;
      (FileOutcome(file, Parsed(doc), true, exec, encode).result.status == StatusError <==>
         exists k :: 0 <= k < |entries| && !PassesDryRun(entries[k]))
  {
  }

  /**
   * In a live run a file whose upload returned a response fails exactly when
   * some response entry has a status that does not start with '2'; entries
   * without a status are ignored.
   */
  lemma LiveVerdict(file: string, doc: JsonDoc, exec: nat -> Attempt, encode: string -> string)
    requires NormalizeDocument(doc, file, encode).Ok?
    requires RetrySpec(exec, MaxRetries).outcome.Succeeded?
    ensures var response := RetrySpec(exec, MaxRetries).outcome.response;
      (FileOutcome(file, Parsed(doc), false, exec, encode).result.status == StatusError <==>
         exists e :: e in ResponseEntries(response) && FailedStatus(e.status))
  {
    var failed := FailedEntries(ResponseEntries(RetrySpec(exec, MaxRetries).outcome.response));
    if |failed| > 0 {
      assert failed[0] in failed;
    }
  }

  /** An error that escapes the retries is recorded as the file's error, with no resources. */
  lemma ThrownErrorRecorded(file: string, doc: JsonDoc, exec: nat -> Attempt, encode: string -> string)
    requires NormalizeDocument(doc, file, encode).Ok?
    requires RetrySpec(exec, MaxRetries).outcome.Threw?
    ensures FileOutcome(file, Parsed(doc), false, exec, encode).result
         == UploadResult(file, StatusError, 0, Some(ErrorMessage(RetrySpec(exec, MaxRetries).outcome.error)))
  {
  }

  // ----- The whole run -----

  /** The step the run takes for `file`. */
  function StepFor(file: string, read: string -> FileContent, dryRun: bool, exec: (string, nat) -> Attempt, encode: string -> string): FileStep {
    FileOutcome(file, read(file), dryRun, (n: nat) => exec(file, n), encode)
  }

  function Steps(files: seq<string>, read: string -> FileContent, dryRun: bool, exec: (string, nat) -> Attempt, encode: string -> string): (steps: seq<FileStep>)
    ensures |steps| == |files|
    ensures forall k :: 0 <= k < |files| ==> steps[k] == StepFor(files[k], read, dryRun, exec, encode)
  {
    seq(|files|, k requires 0 <= k < |files| => StepFor(files[k], read, dryRun, exec, encode))
  }

  function ResultsOf(steps: seq<FileStep>): (results: seq<UploadResult>)
    ensures |results| == |steps|
    ensures forall k :: 0 <= k < |steps| ==> results[k] == steps[k].result
  {
    seq(|steps|, k requires 0 <= k < |steps| => steps[k].result)
  }

  /** `totalResources`: what each file added before it was submitted. */
  function SumCounted(steps: seq<FileStep>): nat {
    if |steps| == 0 then 0 else SumCounted(steps[..|steps| - 1]) + steps[|steps| - 1].counted
  }

  function SumCalls(steps: seq<FileStep>): nat {
    if |steps| == 0 then 0 else SumCalls(steps[..|steps| - 1]) + steps[|steps| - 1].calls
  }

  function SumRecorded(results: seq<UploadResult>): nat {
    if |results| == 0 then 0 else SumRecorded(results[..|results| - 1]) + results[|results| - 1].resourceCount
  }

  function CountStatus(results: seq<UploadResult>, s: Status): (n: nat)
    ensures n <= |results|
  {
    if |results| == 0 then 0
    else CountStatus(results[..|results| - 1], s) + (if results[|results| - 1].status == s then 1 else 0)
  }

  /** How a run ends. */
  datatype RunOutcome =
    | MissingCredentials
    | Fatal(message: string)
    | Completed(groups: seq<Group>, results: seq<UploadResult>, totalResources: nat, executorCalls: nat)

  /** The process exit status: 0 exactly when the run completed and no file failed, 1 otherwise. */
  function ExitCode(o: RunOutcome): (code: int)
    ensures code == 0 || code == 1
    ensures code == 0 <==> o.Completed? && CountStatus(o.results, StatusError) == 0
  {
    match o
    case MissingCredentials => 1
    case Fatal(_) => 1
    case Completed(_, results, _, _) => if CountStatus(results, StatusError) > 0 then 1 else 0
  }

  lemma AllFilesSnoc(groups: seq<Group>, i: nat)
    requires i < |groups|
    ensures AllFiles(groups[..i + 1]) == AllFiles(groups[..i]) + groups[i].files
  {
    if i > 0 {
      assert groups[..i + 1][1..] == groups[1..][..i];
      assert groups[..i][1..] == groups[1..][..i - 1];
      AllFilesSnoc(groups[1..], i - 1);
    } else {
      assert groups[..1][1..] == [];
    }
  }

  lemma {:induction false} SumsAppend(s: seq<FileStep>, t: seq<FileStep>)
    ensures SumCounted(s + t) == SumCounted(s) + SumCounted(t)
    ensures SumCalls(s + t) == SumCalls(s) + SumCalls(t)
    decreases |t|
  {
    if |t| > 0 {
      var t' := t[..|t| - 1];
      assert (s + t)[..|s + t| - 1] == s + t';
      SumsAppend(s, t');
    } else {
      assert s + t == s;
    }
  }

  /** Running two lists of files one after the other is running their concatenation. */
  lemma StepsAppend(a: seq<string>, b: seq<string>, read: string -> FileContent, dryRun: bool,
                    exec: (string, nat) -> Attempt, encode: string -> string)
    ensures var sa, sb := Steps(a, read, dryRun, exec, encode), Steps(b, read, dryRun, exec, encode);
      && Steps(a + b, read, dryRun, exec, encode) == sa + sb
      && ResultsOf(sa + sb) == ResultsOf(sa) + ResultsOf(sb)
      && SumCounted(sa + sb) == SumCounted(sa) + SumCounted(sb)
      && SumCalls(sa + sb) == SumCalls(sa) + SumCalls(sb)
  {
    var sa, sb := Steps(a, read, dryRun, exec, encode), Steps(b, read, dryRun, exec, encode);
    assert Steps(a + b, read, dryRun, exec, encode) == sa + sb;
    assert ResultsOf(sa + sb) == ResultsOf(sa) + ResultsOf(sb);
    SumsAppend(sa, sb);
  }

  /** The per-file loop of `main` over the files of one group. */
  method UploadGroup(files: seq<string>, read: string -> FileContent, dryRun: bool,
                     exec: (string, nat) -> Attempt, encode: string -> string)
    returns (results: seq<UploadResult>, added: nat, calls: nat)
    ensures results == ResultsOf(Steps(files, read, dryRun, exec, encode))
    ensures added == SumCounted(Steps(files, read, dryRun, exec, encode))
    ensures calls == SumCalls(Steps(files, read, dryRun, exec, encode))
  {
    results, added, calls := [], 0, 0;
    var i := 0;
    while i < |files|
      invariant 0 <= i <= |files|
      invariant results == ResultsOf(Steps(files[..i], read, dryRun, exec, encode))
      invariant added == SumCounted(Steps(files[..i], read, dryRun, exec, encode))
      invariant calls == SumCalls(Steps(files[..i], read, dryRun, exec, encode))
    {
      var file := files[i];
      var result, counted, n := UploadFile(file, read(file), dryRun, (m: nat) => exec(file, m), encode);
      assert files[..i + 1] == files[..i] + [file];
      StepsAppend(files[..i], [file], read, dryRun, exec, encode);
      results := results + [result];
      added := added + counted;
      calls := calls + n;
      i := i + 1;
    }
    assert files[..|files|] == files;
  }

  /**
   * `main`: the credential guard, discovery, then every file of every group
   * in upload order (empty groups are skipped), recording one result per
   * file and adding each normalized file's resource count to the total
   * before it is submitted.
   */
  method Run(root: seq<Node>, dryRun: bool, hasCredentials: bool, read: string -> FileContent,
             exec: (string, nat) -> Attempt, encode: string -> string)
    returns (outcome: RunOutcome)
    ensures outcome.MissingCredentials? <==> !dryRun && !hasCredentials
    ensures outcome.Fatal? <==> (dryRun || hasCredentials) && BlockedGroup(root)
    ensures outcome.Completed? ==>
      && GroupedFrom(root, outcome.groups)
      && var steps := Steps(AllFiles(outcome.groups), read, dryRun, exec, encode);
      && outcome.results == ResultsOf(steps)
      && outcome.totalResources == SumCounted(steps)
      && outcome.executorCalls == SumCalls(steps)
  {
    if !dryRun && !hasCredentials {
      return MissingCredentials;
    }
    var grouped := GroupFilesByUploadOrder(root);
    if grouped.Err? {
      return Fatal(grouped.error);
    }
    var groups := grouped.value;

    var results, totalResources, calls := UploadGroups(groups, read, dryRun, exec, encode);
    return Completed(groups, results, totalResources, calls);
  }

  /** Running one more group appends that group's steps, results and sums. */
  lemma GroupStep(groups: seq<Group>, g: nat, read: string -> FileContent, dryRun: bool,
                  exec: (string, nat) -> Attempt, encode: string -> string)
    requires g < |groups|
    ensures var done, here := Steps(AllFiles(groups[..g]), read, dryRun, exec, encode), Steps(groups[g].files, read, dryRun, exec, encode);
      && Steps(AllFiles(groups[..g + 1]), read, dryRun, exec, encode) == done + here
      && ResultsOf(done + here) == ResultsOf(done) + ResultsOf(here)
      && SumCounted(done + here) == SumCounted(done) + SumCounted(here)
      && SumCalls(done + here) == SumCalls(done) + SumCalls(here)
  {
    AllFilesSnoc(groups, g);
    StepsAppend(AllFiles(groups[..g]), groups[g].files, read, dryRun, exec, encode);
  }

  /** The group loop of `main`: groups in order, each group's files in order. */
  method UploadGroups(groups: seq<Group>, read: string -> FileContent, dryRun: bool,
                      exec: (string, nat) -> Attempt, encode: string -> string)
    returns (results: seq<UploadResult>, totalResources: nat, calls: nat)
    ensures results == ResultsOf(Steps(AllFiles(groups), read, dryRun, exec, encode))
    ensures totalResources == SumCounted(Steps(AllFiles(groups), read, dryRun, exec, encode))
    ensures calls == SumCalls(Steps(AllFiles(groups), read, dryRun, exec, encode))
  {
    results, totalResources, calls := [], 0, 0;
    ghost var done: seq<FileStep> := [];
    assert groups[..0] == [];
    var g := 0;
    while g < |groups|
      invariant 0 <= g <= |groups|
      invariant done == Steps(AllFiles(groups[..g]), read, dryRun, exec, encode)
      invariant results == ResultsOf(done) && totalResources == SumCounted(done) && calls == SumCalls(done)
    {
      GroupStep(groups, g, read, dryRun, exec, encode);
      var groupResults, added, n := VisitGroup(groups[g].files, read, dryRun, exec, encode);
      results := results + groupResults;
      totalResources := totalResources + added;
      calls := calls + n;
      done := done + Steps(groups[g].files, read, dryRun, exec, encode);
      g := g + 1;
    }
    assert groups[..|groups|] == groups;
  }

  /** One pass of the group loop: an empty group is skipped, any other uploaded file by file. */
  method VisitGroup(files: seq<string>, read: string -> FileContent, dryRun: bool,
                    exec: (string, nat) -> Attempt, encode: string -> string)
    returns (results: seq<UploadResult>, added: nat, calls: nat)
    ensures results == ResultsOf(Steps(files, read, dryRun, exec, encode))
    ensures added == SumCounted(Steps(files, read, dryRun, exec, encode))
    ensures calls == SumCalls(Steps(files, read, dryRun, exec, encode))
  {
    if |files| == 0 {
      assert Steps(files, read, dryRun, exec, encode) == [];
      return [], 0, 0;
    }
    results, added, calls := UploadGroup(files, read, dryRun, exec, encode);
  }

  // ----- The run summary -----

  /** With nothing skipped, every result is either ok or error. */
  lemma {:induction false} OkPlusErrorIsAll(results: seq<UploadResult>)
    requires forall k :: 0 <= k < |results| ==> results[k].status != StatusSkipped
    ensures CountStatus(results, StatusOk) + CountStatus(results, StatusError) == |results|
  {
    if |results| > 0 {
      OkPlusErrorIsAll(results[..|results| - 1]);
    }
  }

  /** The resource total is at least the sum of the recorded resource counts. */
  lemma {:induction false} TotalCoversRecorded(steps: seq<FileStep>)
    requires forall k :: 0 <= k < |steps| ==> steps[k].result.resourceCount <= steps[k].counted
    ensures SumRecorded(ResultsOf(steps)) <= SumCounted(steps)
  {
    if |steps| > 0 {
      var init := steps[..|steps| - 1];
      TotalCoversRecorded(init);
      assert ResultsOf(steps)[..|steps| - 1] == ResultsOf(init);
    }
  }

  lemma {:induction false} NoCallsWhenNoneMade(steps: seq<FileStep>)
    requires forall k :: 0 <= k < |steps| ==> steps[k].calls == 0
    ensures SumCalls(steps) == 0
  {
    if |steps| > 0 {
      NoCallsWhenNoneMade(steps[..|steps| - 1]);
    }
  }

  lemma {:induction false} NoErrorsAllOk(results: seq<UploadResult>)
    requires forall k :: 0 <= k < |results| ==> results[k].status != StatusSkipped
    ensures CountStatus(results, StatusError) == 0 <==> forall k :: 0 <= k < |results| ==> results[k].status == StatusOk
  {
    if |results| > 0 {
      var init := results[..|results| - 1];
      NoErrorsAllOk(init);
      assert forall k :: 0 <= k < |init| ==> init[k] == results[k];
    }
  }

  /**
   * The summary of a completed run: one result per discovered file, none
   * skipped, so ok + error = files; the total is at least the recorded
   * counts; a dry run never calls the client; and the run exits with
   * failure exactly when some file failed.
   */
  lemma RunSummary(root: seq<Node>, dryRun: bool, read: string -> FileContent,
                   exec: (string, nat) -> Attempt, encode: string -> string, outcome: RunOutcome)
    requires outcome.Completed?
    requires outcome.results == ResultsOf(Steps(AllFiles(outcome.groups), read, dryRun, exec, encode))
    requires outcome.totalResources == SumCounted(Steps(AllFiles(outcome.groups), read, dryRun, exec, encode))
    requires outcome.executorCalls == SumCalls(Steps(AllFiles(outcome.groups), read, dryRun, exec, encode))
    ensures |outcome.results| == |AllFiles(outcome.groups)|
    ensures CountStatus(outcome.results, StatusOk) + CountStatus(outcome.results, StatusError) == |outcome.results|
    ensures SumRecorded(outcome.results) <= outcome.totalResources
    ensures dryRun ==> outcome.executorCalls == 0
    ensures ExitCode(outcome) == 1 <==> CountStatus(outcome.results, StatusError) > 0
    ensures ExitCode(outcome) == 0 <==> forall k :: 0 <= k < |outcome.results| ==> outcome.results[k].status == StatusOk
  {
    var files := AllFiles(outcome.groups);
    var steps := Steps(files, read, dryRun, exec, encode);
    OkPlusErrorIsAll(outcome.results);
    TotalCoversRecorded(steps);
    if dryRun { NoCallsWhenNoneMade(steps); }
    NoErrorsAllOk(outcome.results);
  }
}
