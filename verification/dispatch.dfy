/** The two ways the ClickUp callbacks hand the audit scripts of the selected
    tasks to the automation webhook: one post per task, collecting a result
    per accepted post, or one list of numbered script entries sent in a
    single post afterwards. */
module Dispatch {
  import opened Common
  import opened ClickUp

  /** One element of the aggregated `scripts` array: `{varName, script, taskId}`. */
  datatype AuditScript = AuditScript(varName: string, script: FieldValue, taskId: string)

  /** The bodies the handlers post to the webhook. */
  datatype WebhookPayload =
    | TaskPayload(taskId: string, auditScript: FieldValue, clickupAccessToken: string,
                  msAccessToken: string, userProfile: string)
    | AuditBatch(msAccessToken: string, clickupAccessToken: string, tenantId: Option<string>,
                 scripts: seq<AuditScript>)
    | UserTasks(userId: string, tasks: Option<seq<Task>>)

  /** What the per-task loop pushes into `results` after a post succeeds. */
  datatype TaskResult = TaskResult(taskId: string, name: string, script: FieldValue, webhookResult: string)

  /** The tokens and profile every per-task post carries, read from the
      ClickUp token reply and the state. */
  datatype PostContext = PostContext(clickupAccessToken: string, msAccessToken: string, userProfile: string)

  /** The webhook, seen from the handler: the reply its post gets. */
  type Webhook = WebhookPayload -> Reply<string>

  predicate AllHaveFields(tasks: seq<Task>) {
    forall i :: 0 <= i < |tasks| ==> HasFieldArray(tasks[i])
  }

  /** The post made for one task. */
  function PayloadFor(t: Task, s: PostContext): (p: WebhookPayload)
    requires HasFieldArray(t)
  {
    TaskPayload(t.id, AuditValue(t), s.clickupAccessToken, s.msAccessToken, s.userProfile)
  }

  /** The state of the per-task loop: the results pushed, the posts made and,
      once a post has failed, the error it threw. */
  datatype Dispatched = Dispatched(results: seq<TaskResult>, posts: seq<WebhookPayload>, failure: Option<string>)

  /** One iteration of the per-task loop. A task without a truthy "Audit"
      value is skipped; otherwise its script is posted, and the reply either
      adds a result or throws, which ends the loop. */
  function DispatchStep(d: Dispatched, t: Task, s: PostContext, webhook: Webhook): (d': Dispatched)
    requires HasFieldArray(t)
  {
    if d.failure.Some? || !Truthy(AuditValue(t)) then d
    else
      var p := PayloadFor(t, s);
      match webhook(p)
      case Failed(e) => Dispatched(d.results, d.posts + [p], Some(e))
      case Got(body) => Dispatched(d.results + [TaskResult(t.id, t.name, AuditValue(t), body)], d.posts + [p], None)
  }

  /** The per-task loop over `tasks`, one iteration per task in order. */
  function PerTaskDispatch(tasks: seq<Task>, s: PostContext, webhook: Webhook): (d: Dispatched)
    requires AllHaveFields(tasks)
    decreases |tasks|
  {
    if tasks == [] then Dispatched([], [], None)
    else
      var n := |tasks| - 1;
      DispatchStep(PerTaskDispatch(tasks[..n], s, webhook), tasks[n], s, webhook)
  }

  /** Once a post has failed, the remaining tasks change nothing. */
  lemma {:induction false} FailureIsFinal(tasks: seq<Task>, i: nat, s: PostContext, webhook: Webhook)
    requires AllHaveFields(tasks) && i <= |tasks|
    requires PerTaskDispatch(tasks[..i], s, webhook).failure.Some?
    ensures PerTaskDispatch(tasks, s, webhook) == PerTaskDispatch(tasks[..i], s, webhook)
    decreases |tasks|
  {
    if i < |tasks| {
      var n := |tasks| - 1;
      assert tasks[..n][..i] == tasks[..i];
      FailureIsFinal(tasks[..n], i, s, webhook);
    } else {
      assert tasks[..i] == tasks;
    }
  }

  /** The per-task loop: for each task, read the first "Audit" value, skip
      the task when it is falsy, otherwise post it to the webhook and push a
      result; a failed post throws out of the loop. */
  method DispatchEach(tasks: seq<Task>, s: PostContext, webhook: Webhook)
    returns (results: seq<TaskResult>, posts: seq<WebhookPayload>, failure: Option<string>)
    requires AllHaveFields(tasks)
    ensures Dispatched(results, posts, failure) == PerTaskDispatch(tasks, s, webhook)
  {
    results, posts, failure := [], [], None;
    var i := 0;
    while i < |tasks|
      invariant 0 <= i <= |tasks|
      invariant Dispatched(results, posts, failure) == PerTaskDispatch(tasks[..i], s, webhook)
      invariant failure.None?
    {
      var task := tasks[i];
      assert tasks[..i + 1][..i] == tasks[..i];
      assert PerTaskDispatch(tasks[..i + 1], s, webhook) == DispatchStep(Dispatched(results, posts, failure), task, s, webhook);
      var script := AuditValue(task);
      if !Truthy(script) {
        i := i + 1;
        continue;
      }
      var payload := TaskPayload(task.id, script, s.clickupAccessToken, s.msAccessToken, s.userProfile);
      var reply := webhook(payload);
      posts := posts + [payload];
      if reply.Failed? {
        failure := Some(reply.error);
        FailureIsFinal(tasks, i + 1, s, webhook);
        return;
      }
      results := results + [TaskResult(task.id, task.name, script, reply.body)];
      i := i + 1;
    }
    assert tasks[..i] == tasks;
  }

  /** The posts made for a sequence of tasks, one each, in order. */
  function Payloads(f: seq<Task>, s: PostContext): (r: seq<WebhookPayload>)
    requires AllHaveFields(f)
    ensures |r| == |f| && forall k :: 0 <= k < |f| ==> r[k] == PayloadFor(f[k], s)
  {
    seq(|f|, k requires 0 <= k < |f| => PayloadFor(f[k], s))
  }

  /** Every task of `f` gets a successful reply to its post. */
  predicate Accepted(f: seq<Task>, s: PostContext, webhook: Webhook)
    requires AllHaveFields(f)
  {
    forall k :: 0 <= k < |f| ==> webhook(PayloadFor(f[k], s)).Got?
  }

  /** The results pushed for tasks whose posts all succeed. */
  function Results(f: seq<Task>, s: PostContext, webhook: Webhook): (r: seq<TaskResult>)
    requires AllHaveFields(f) && Accepted(f, s, webhook)
    ensures |r| == |f|
    ensures forall k :: 0 <= k < |f| ==>
              && r[k].taskId == f[k].id && r[k].name == f[k].name
              && r[k].script == AuditValue(f[k]) && r[k].webhookResult == webhook(PayloadFor(f[k], s)).body
  {
    seq(|f|, k requires 0 <= k < |f| => TaskResult(f[k].id, f[k].name, AuditValue(f[k]), webhook(PayloadFor(f[k], s)).body))
  }

  /** The position, in `f`, of the first task whose post fails, or `|f|`. */
  function FirstRefusal(f: seq<Task>, s: PostContext, webhook: Webhook): (r: nat)
    requires AllHaveFields(f)
    ensures r <= |f|
    ensures forall k :: 0 <= k < r ==> webhook(PayloadFor(f[k], s)).Got?
    ensures r < |f| ==> webhook(PayloadFor(f[r], s)).Failed?
    decreases |f|
  {
    if f == [] then 0
    else
      var n := |f| - 1;
      var k := FirstRefusal(f[..n], s, webhook);
      if k < n then k
      else if webhook(PayloadFor(f[n], s)).Failed? then n
      else |f|
  }

  /** The tasks whose scripts the per-task loop posts: those, in order, with
      custom fields and a truthy "Audit" value. */
  function Scripted(tasks: seq<Task>): (r: seq<Task>)
    ensures AllHaveFields(r)
    ensures forall i :: 0 <= i < |r| ==> HasScript(r[i])
  {
    FilterSound(tasks, HasScript);
    Filter(tasks, HasScript)
  }

  lemma ScriptedSnoc(tasks: seq<Task>, t: Task)
    ensures Scripted(tasks + [t]) == Scripted(tasks) + (if HasScript(t) then [t] else [])
  {
    FilterAppend(tasks, [t], HasScript);
    FilterSingleton(t, HasScript);
  }

  /** What the per-task loop should leave behind for the scripted tasks
      `f`: with `k` the first of them whose post fails, the scripts of
      `f[..k]` and of `f[k]` (when there is one) posted, one result per
      accepted post in the same order, and the error of the failed post, or
      no error when every post succeeded. */
  function Expected(f: seq<Task>, s: PostContext, webhook: Webhook): (d: Dispatched)
    requires AllHaveFields(f)
  {
    var k := FirstRefusal(f, s, webhook);
    assert forall j :: 0 <= j < k ==> f[..k][j] == f[j];
    Dispatched(Results(f[..k], s, webhook),
               Payloads(f[..if k < |f| then k + 1 else k], s),
               if k < |f| then Some(webhook(PayloadFor(f[k], s)).error) else None)
  }

  /** After a failed post, one more scripted task changes nothing. */
  lemma ExpectedSnocAfterFailure(f: seq<Task>, t: Task, s: PostContext, webhook: Webhook)
    requires AllHaveFields(f) && HasScript(t)
    requires FirstRefusal(f, s, webhook) < |f|
    ensures Expected(f + [t], s, webhook) == Expected(f, s, webhook)
  {
    var g := f + [t];
    assert g[..|f|] == f;
    var k := FirstRefusal(f, s, webhook);
    assert FirstRefusal(g, s, webhook) == k;
    assert g[..k] == f[..k] && g[..k + 1] == f[..k + 1] && g[k] == f[k];
  }

  /** The first failing post ends the loop with its error. */
  lemma ExpectedSnocFails(f: seq<Task>, t: Task, s: PostContext, webhook: Webhook)
    requires AllHaveFields(f) && HasScript(t)
    requires FirstRefusal(f, s, webhook) == |f|
    requires webhook(PayloadFor(t, s)).Failed?
    ensures Expected(f + [t], s, webhook)
            == Dispatched(Expected(f, s, webhook).results, Expected(f, s, webhook).posts + [PayloadFor(t, s)],
                          Some(webhook(PayloadFor(t, s)).error))
  {
    var g := f + [t];
    assert g[..|f|] == f && g[..|f| + 1] == g && g[|f|] == t;
    assert FirstRefusal(g, s, webhook) == |f|;
    assert f[..|f|] == f;
    assert Payloads(g, s) == Payloads(f, s) + [PayloadFor(t, s)];
  }

  /** When no post fails, every post is accepted and the expected state
      holds one result and one post per task, and no error. */
  lemma ExpectedAllAccepted(f: seq<Task>, s: PostContext, webhook: Webhook)
    requires AllHaveFields(f) && FirstRefusal(f, s, webhook) == |f|
    ensures Accepted(f, s, webhook)
    ensures Expected(f, s, webhook) == Dispatched(Results(f, s, webhook), Payloads(f, s), None)
  {
    assert f[..|f|] == f;
  }

  /** An accepted post adds one result. */
  lemma ExpectedSnocAccepted(f: seq<Task>, t: Task, s: PostContext, webhook: Webhook)
    requires AllHaveFields(f) && HasScript(t)
    requires FirstRefusal(f, s, webhook) == |f|
    requires webhook(PayloadFor(t, s)).Got?
    ensures Expected(f + [t], s, webhook)
            == Dispatched(Expected(f, s, webhook).results
                            + [TaskResult(t.id, t.name, AuditValue(t), webhook(PayloadFor(t, s)).body)],
                          Expected(f, s, webhook).posts + [PayloadFor(t, s)], None)
  {
    var g := f + [t];
    assert g[..|f|] == f && g[|f|] == t;
    assert FirstRefusal(g, s, webhook) == |g|;
    ExpectedAllAccepted(f, s, webhook);
    ExpectedAllAccepted(g, s, webhook);
    assert Payloads(g, s) == Payloads(f, s) + [PayloadFor(t, s)];
    ResultsSnoc(f, t, s, webhook);
  }

  lemma ResultsSnoc(f: seq<Task>, t: Task, s: PostContext, webhook: Webhook)
    requires AllHaveFields(f) && HasFieldArray(t)
    requires Accepted(f, s, webhook) && webhook(PayloadFor(t, s)).Got?
    ensures AllHaveFields(f + [t]) && Accepted(f + [t], s, webhook)
    ensures Results(f + [t], s, webhook)
            == Results(f, s, webhook) + [TaskResult(t.id, t.name, AuditValue(t), webhook(PayloadFor(t, s)).body)]
  {
    var g := f + [t];
    assert g[|f|] == t;
  }

  /** One iteration of the loop on a scripted task extends the expected
      state by that task. */
  lemma ExpectedSnoc(f: seq<Task>, t: Task, s: PostContext, webhook: Webhook)
    requires AllHaveFields(f) && HasScript(t)
    ensures DispatchStep(Expected(f, s, webhook), t, s, webhook) == Expected(f + [t], s, webhook)
  {
    if FirstRefusal(f, s, webhook) < |f| {
      ExpectedSnocAfterFailure(f, t, s, webhook);
    } else if webhook(PayloadFor(t, s)).Failed? {
      ExpectedSnocFails(f, t, s, webhook);
    } else {
      ExpectedSnocAccepted(f, t, s, webhook);
    }
  }

  /** A task without a truthy "Audit" value leaves the loop state as it is. */
  lemma StepSkips(d: Dispatched, t: Task, s: PostContext, webhook: Webhook)
    requires HasFieldArray(t) && !HasScript(t)
    ensures DispatchStep(d, t, s, webhook) == d
  {
  }

  /** What the per-task loop does, in full: it leaves the expected state of
      the tasks that have a truthy "Audit" value, taken in order. */
  lemma {:induction false} PerTaskDispatchSpec(tasks: seq<Task>, s: PostContext, webhook: Webhook)
    requires AllHaveFields(tasks)
    ensures PerTaskDispatch(tasks, s, webhook) == Expected(Scripted(tasks), s, webhook)
    decreases |tasks|
  {
    if tasks == [] {
      assert Scripted(tasks) == [];
    } else {
      var n := |tasks| - 1;
      var init, t := tasks[..n], tasks[n];
      assert tasks == init + [t];
      PerTaskDispatchSpec(init, s, webhook);
      var d := PerTaskDispatch(init, s, webhook);
      var f := Scripted(init);
      assert d == Expected(f, s, webhook);
      assert PerTaskDispatch(tasks, s, webhook) == DispatchStep(d, t, s, webhook);
      ScriptedSnoc(init, t);
      if HasScript(t) {
        assert Scripted(tasks) == f + [t];
        ExpectedSnoc(f, t, s, webhook);
      } else {
        assert Scripted(tasks) == f;
        StepSkips(d, t, s, webhook);
      }
    }
  }

  /** The per-task loop posts at most one script per task it is given, and
      pushes at most one result per post. */
  lemma PerTaskCounts(tasks: seq<Task>, s: PostContext, webhook: Webhook)
    requires AllHaveFields(tasks)
    ensures |PerTaskDispatch(tasks, s, webhook).results| <= |PerTaskDispatch(tasks, s, webhook).posts| <= |tasks|
  {
    PerTaskDispatchSpec(tasks, s, webhook);
  }

  /** The decimal digits of `n`, as JavaScript writes a non-negative
      integer: no leading zero except for 0 itself. */
  function Decimal(n: nat): (r: string)
    ensures |r| >= 1
    ensures forall i :: 0 <= i < |r| ==> '0' <= r[i] <= '9'
    ensures n >= 10 <==> |r| >= 2
    ensures n == 0 || r[0] != '0'
  {
    if n < 10 then [Digit(n)] else Decimal(n / 10) + [Digit(n % 10)]
  }

  function Digit(d: nat): (r: char)
    requires d < 10
    ensures '0' <= r <= '9' && r as int - '0' as int == d
  {
    ('0' as int + d) as char
  }

  /** Different numbers are written differently. */
  lemma {:induction false} DecimalInjective(a: nat, b: nat)
    requires Decimal(a) == Decimal(b)
    ensures a == b
    decreases a
  {
    var da, db := Decimal(a), Decimal(b);
    assert Digit(a % 10) == da[|da| - 1] == db[|db| - 1] == Digit(b % 10);
    if a >= 10 {
      assert Decimal(a / 10) == da[..|da| - 1] == db[..|db| - 1] == Decimal(b / 10);
      DecimalInjective(a / 10, b / 10);
    }
  }

  /** The number a string of decimal digits denotes, most significant digit
      first. */
  function DigitsValue(s: string): (v: nat)
    requires forall i :: 0 <= i < |s| ==> '0' <= s[i] <= '9'
    decreases |s|
  {
    if s == [] then 0 else DigitsValue(s[..|s| - 1]) * 10 + (s[|s| - 1] as int - '0' as int)
  }

  /** The digits written for `n` denote `n`. */
  lemma {:induction false} DecimalValue(n: nat)
    ensures DigitsValue(Decimal(n)) == n
    decreases n
  {
    var d := Decimal(n);
    if n >= 10 {
      assert d[..|d| - 1] == Decimal(n / 10);
      DecimalValue(n / 10);
    } else {
      assert d[..|d| - 1] == [];
    }
  }

  /** The `varName` of the script found at filtered position `i`. */
  function VarName(i: nat): (r: string)
    ensures |r| > 11 && r[..11] == "auditscript"
  {
    "auditscript" + Decimal(i + 1)
  }

  /** The `varName` for position `i` is "auditscript" followed by the
      decimal digits of `i + 1`, without a leading zero. */
  lemma VarNameNumber(i: nat)
    ensures VarName(i)[..11] == "auditscript"
    ensures forall k :: 11 <= k < |VarName(i)| ==> '0' <= VarName(i)[k] <= '9'
    ensures DigitsValue(VarName(i)[11..]) == i + 1
    ensures VarName(i)[11] != '0'
  {
    assert VarName(i)[11..] == Decimal(i + 1);
    DecimalValue(i + 1);
  }

  lemma VarNameInjective(i: nat, j: nat)
    requires VarName(i) == VarName(j)
    ensures i == j
  {
    assert Decimal(i + 1) == VarName(i)[11..];
    assert Decimal(j + 1) == VarName(j)[11..];
    DecimalInjective(i + 1, j + 1);
  }

  /** The entry for the task at filtered position `i`. */
  function EntryAt(tasks: seq<Task>, i: nat): (e: AuditScript)
    requires i < |tasks| && HasFieldArray(tasks[i])
  {
    AuditScript(VarName(i), AuditValue(tasks[i]), tasks[i].id)
  }

  /** The aggregated `scripts` array built from the filtered tasks: one entry
      per task with a truthy "Audit" value, numbered by the task's position
      among all filtered tasks (counting from 1). */
  function ScriptEntries(tasks: seq<Task>): (e: seq<AuditScript>)
    requires AllHaveFields(tasks)
    decreases |tasks|
  {
    if tasks == [] then []
    else
      var n := |tasks| - 1;
      ScriptEntries(tasks[..n]) + (if Truthy(AuditValue(tasks[n])) then [EntryAt(tasks, n)] else [])
  }

  /** The `forEach` that builds the aggregated `scripts` array. */
  method CollectScripts(tasks: seq<Task>) returns (results: seq<AuditScript>)
    requires AllHaveFields(tasks)
    ensures results == ScriptEntries(tasks)
  {
    results := [];
    for i := 0 to |tasks|
      invariant results == ScriptEntries(tasks[..i])
    {
      assert tasks[..i + 1][..i] == tasks[..i];
      var task := tasks[i];
      var value := AuditValue(task);
      if !Truthy(value) {
        continue;
      }
      results := results + [AuditScript("auditscript" + Decimal(i + 1), value, task.id)];
    }
    assert tasks[..|tasks|] == tasks;
  }

  /** The positions, among the filtered tasks, of those with a truthy
      "Audit" value. */
  function ScriptPositions(tasks: seq<Task>): (p: seq<nat>)
    requires AllHaveFields(tasks)
    decreases |tasks|
  {
    if tasks == [] then []
    else
      var n := |tasks| - 1;
      ScriptPositions(tasks[..n]) + (if Truthy(AuditValue(tasks[n])) then [n] else [])
  }

  /** Every position is that of a task with a truthy "Audit" value, and the
      positions strictly increase. */
  lemma {:induction false} ScriptPositionsSound(tasks: seq<Task>)
    requires AllHaveFields(tasks)
    ensures forall k :: 0 <= k < |ScriptPositions(tasks)| ==>
              && ScriptPositions(tasks)[k] < |tasks|
              && Truthy(AuditValue(tasks[ScriptPositions(tasks)[k]]))
    ensures forall k, l :: 0 <= k < l < |ScriptPositions(tasks)| ==> ScriptPositions(tasks)[k] < ScriptPositions(tasks)[l]
    decreases |tasks|
  {
    if tasks != [] {
      var n := |tasks| - 1;
      var init := tasks[..n];
      ScriptPositionsSound(init);
      var r0 := ScriptPositions(init);
      var r := ScriptPositions(tasks);
      assert r == r0 + (if Truthy(AuditValue(tasks[n])) then [n] else []);
      forall k | 0 <= k < |r0|
        ensures r[k] == r0[k] && r0[k] < n && Truthy(AuditValue(tasks[r0[k]]))
      {
        assert init[r0[k]] == tasks[r0[k]];
      }
    }
  }

  /** No task with a truthy "Audit" value is missing from the positions. */
  lemma {:induction false} ScriptPositionsComplete(tasks: seq<Task>)
    requires AllHaveFields(tasks)
    ensures forall i :: 0 <= i < |tasks| && Truthy(AuditValue(tasks[i])) ==> i in ScriptPositions(tasks)
    decreases |tasks|
  {
    if tasks != [] {
      var n := |tasks| - 1;
      var init := tasks[..n];
      ScriptPositionsComplete(init);
      var r0 := ScriptPositions(init);
      assert ScriptPositions(tasks) == r0 + (if Truthy(AuditValue(tasks[n])) then [n] else []);
      assert forall i :: 0 <= i < n ==> init[i] == tasks[i];
    }
  }

  /** Entry `k` of the aggregated array is the entry of the `k`-th task with
      a truthy "Audit" value, named after that task's filtered position. */
  lemma {:induction false} ScriptEntriesAt(tasks: seq<Task>)
    requires AllHaveFields(tasks)
    ensures var e, p := ScriptEntries(tasks), ScriptPositions(tasks);
            |e| == |p| && forall k :: 0 <= k < |e| ==> p[k] < |tasks| && e[k] == EntryAt(tasks, p[k])
    decreases |tasks|
  {
    if tasks != [] {
      var n := |tasks| - 1;
      ScriptEntriesAt(tasks[..n]);
      ScriptPositionsSound(tasks[..n]);
      var p0 := ScriptPositions(tasks[..n]);
      assert forall k :: 0 <= k < |p0| ==> EntryAt(tasks[..n], p0[k]) == EntryAt(tasks, p0[k]);
    }
  }

  /** The `varName`s of the aggregated array are pairwise distinct, and their
      numbers increase along the array. */
  lemma VarNamesDistinct(tasks: seq<Task>)
    requires AllHaveFields(tasks)
    ensures var e := ScriptEntries(tasks);
            forall k, l :: 0 <= k < l < |e| ==> e[k].varName != e[l].varName
    ensures var e, p := ScriptEntries(tasks), ScriptPositions(tasks);
            |e| == |p| && forall k, l :: 0 <= k < l < |e| ==> e[k].varName == VarName(p[k]) && p[k] < p[l]
  {
    ScriptEntriesAt(tasks);
    ScriptPositionsSound(tasks);
    var e, p := ScriptEntries(tasks), ScriptPositions(tasks);
    forall k, l | 0 <= k < l < |e| ensures e[k].varName != e[l].varName {
      if e[k].varName == e[l].varName {
        VarNameInjective(p[k], p[l]);
      }
    }
  }

  /** The aggregated array names the same tasks, in the same order, as the
      per-task loop would post for. */
  lemma {:induction false} ScriptEntriesAreScripted(tasks: seq<Task>)
    requires AllHaveFields(tasks)
    ensures var e, f := ScriptEntries(tasks), Scripted(tasks);
            |e| == |f| && forall k :: 0 <= k < |e| ==> e[k].taskId == f[k].id && e[k].script == AuditValue(f[k])
    decreases |tasks|
  {
    if tasks != [] {
      var n := |tasks| - 1;
      assert tasks == tasks[..n] + [tasks[n]];
      ScriptedSnoc(tasks[..n], tasks[n]);
      ScriptEntriesAreScripted(tasks[..n]);
    }
  }

  /** What the per-task loop actually posts, against the aggregated array:
      one post per entry, in the same order and with the same task and
      script, up to and including the first refused post, and one for every
      entry when no post is refused. */
  lemma PerTaskPostsFollowEntries(tasks: seq<Task>, s: PostContext, webhook: Webhook)
    requires AllHaveFields(tasks)
    ensures var d, e := PerTaskDispatch(tasks, s, webhook), ScriptEntries(tasks);
            var k := FirstRefusal(Scripted(tasks), s, webhook);
            && |d.posts| == (if k < |e| then k + 1 else |e|)
            && (d.failure.None? ==> |d.posts| == |e|)
            && forall j :: 0 <= j < |d.posts| ==>
                 d.posts[j].TaskPayload? && d.posts[j].taskId == e[j].taskId && d.posts[j].auditScript == e[j].script
  {
    PerTaskDispatchSpec(tasks, s, webhook);
    ScriptEntriesAreScripted(tasks);
  }
}
