/** The ClickUp data the handlers read (teams, spaces, lists, tasks and their
    custom fields), the name lookups, and the filter that selects the tasks
    still to be audited. */
module ClickUp {
  import opened Common
  import opened Names

  /** The value of a custom field as JSON delivers it. Numbers are integers;
      `Absent` is `undefined` (no such field, or a field without `value`);
      `Other` is an object or an array. */
  datatype FieldValue = Num(n: int) | Str(s: string) | Bool(b: bool) | Null | Absent | Other

  /** JavaScript truthiness: `0`, `""`, `false`, `null` and `undefined` are
      falsy, every other value is truthy. */
  predicate Truthy(v: FieldValue) {
    match v
    case Num(n) => n != 0
    case Str(s) => s != []
    case Bool(b) => b
    case Null => false
    case Absent => false
    case Other => true
  }

  /** Strict equality with the number zero, `v === 0`. */
  predicate IsZero(v: FieldValue) {
    v.Num? && v.n == 0
  }

  datatype CustomField = CustomField(name: string, value: FieldValue)

  /** A task; `customFields` is `None` when `custom_fields` is not an array. */
  datatype Task = Task(id: string, name: string, customFields: Option<seq<CustomField>>)

  /** A team, a space or a list: all three are looked up by id and name. */
  datatype Named = Named(id: string, name: string)

  /** The normalised names the handlers look for. `Names.NormalizedSpaceName`,
      `Names.NormalizedListName`, `Names.NormalizedTraitement` and
      `Names.NormalizedAudit` prove that these are what normalising the
      human-readable names yields. */
  const SpaceKey := "equipestechnique"
  const ListKey := "auditdesecurite"
  const TraitementKey := "traitement"
  const AuditKey := "audit"

  /** The value of the first custom field whose name normalises to `key`,
      `undefined` when there is none (a `find` on the field array, then an
      optional read of `value`). */
  function FieldValueOf(fields: seq<CustomField>, key: string): (v: FieldValue)
  {
    if fields == [] then Absent
    else if Normalize(fields[0].name) == key then fields[0].value
    else FieldValueOf(fields[1..], key)
  }

  /** The value read is that of the first field whose name normalises to
      `key`, and `undefined` when no field's name does. */
  lemma {:induction false} FieldValueOfIsFirst(fields: seq<CustomField>, key: string)
    ensures (forall i :: 0 <= i < |fields| ==> Normalize(fields[i].name) != key) ==> FieldValueOf(fields, key) == Absent
    ensures forall i :: 0 <= i < |fields| && Normalize(fields[i].name) == key
                        && (forall j :: 0 <= j < i ==> Normalize(fields[j].name) != key)
                        ==> FieldValueOf(fields, key) == fields[i].value
  {
    if fields != [] {
      FieldValueOfIsFirst(fields[1..], key);
      forall i | 0 < i < |fields| && Normalize(fields[i].name) == key
                 && (forall j :: 0 <= j < i ==> Normalize(fields[j].name) != key)
        ensures FieldValueOf(fields, key) == fields[i].value
      {
        assert Normalize(fields[0].name) != key;
        assert fields[1..][i - 1] == fields[i];
        assert forall j :: 0 <= j < i - 1 ==> fields[1..][j] == fields[j + 1];
      }
    }
  }

  /** The first space or list whose name normalises to `key`, if any. */
  function FindByName(items: seq<Named>, key: string): (r: Option<Named>)
  {
    if items == [] then None
    else if Normalize(items[0].name) == key then Some(items[0])
    else FindByName(items[1..], key)
  }

  /** The item found is the first whose name normalises to `key`, and
      nothing is found exactly when no item's name does. */
  lemma FindByNameIsFirst(items: seq<Named>, key: string)
    ensures FindByName(items, key).None? <==> forall i :: 0 <= i < |items| ==> Normalize(items[i].name) != key
    ensures FindByName(items, key).Some? ==>
              exists i :: 0 <= i < |items| && items[i] == FindByName(items, key).value && Normalize(items[i].name) == key
                          && (forall j :: 0 <= j < i ==> Normalize(items[j].name) != key)
  {
    FindByNameIsFind(items, key);
  }

  /** The item at the first position whose name normalises to `key` is
      the one found. */
  lemma {:induction false} FindByNameAt(items: seq<Named>, key: string, i: nat)
    requires i < |items| && Normalize(items[i].name) == key
    requires forall j :: 0 <= j < i ==> Normalize(items[j].name) != key
    ensures FindByName(items, key) == Some(items[i])
  {
    if i > 0 {
      assert Normalize(items[0].name) != key;
      forall j | 0 <= j < i - 1 ensures Normalize(items[1..][j].name) != key {
        assert items[1..][j] == items[j + 1];
      }
      FindByNameAt(items[1..], key, i - 1);
    }
  }

  /** The `find` predicate of the name lookups: the name normalises to
      `key`. */
  function NameIs(key: string): (p: Named -> bool)
    ensures forall x :: p(x) <==> Normalize(x.name) == key
  {
    (x: Named) => Normalize(x.name) == key
  }

  /** The `find` predicate of the custom-field reads. */
  function FieldNamed(key: string): (p: CustomField -> bool)
    ensures forall f :: p(f) <==> Normalize(f.name) == key
  {
    (f: CustomField) => Normalize(f.name) == key
  }

  /** The name lookup is `Array.prototype.find` with `NameIs(key)`. */
  lemma {:induction false} FindByNameIsFind(items: seq<Named>, key: string)
    ensures FindByName(items, key) == Find(items, NameIs(key))
  {
    if items != [] {
      FindCons(items, NameIs(key));
      FindByNameIsFind(items[1..], key);
    }
  }

  /** The custom-field read is `Array.prototype.find` with `FieldNamed(key)`,
      followed by `?.value`. */
  lemma {:induction false} FieldValueOfIsFind(fields: seq<CustomField>, key: string)
    ensures FieldValueOf(fields, key) == match Find(fields, FieldNamed(key))
                                         case None => Absent
                                         case Some(f) => f.value
  {
    if fields != [] {
      FindCons(fields, FieldNamed(key));
      FieldValueOfIsFind(fields[1..], key);
    }
  }

  /** `Array.isArray(t.custom_fields)`. */
  predicate HasFieldArray(t: Task) {
    t.customFields.Some?
  }

  /** A task to audit: it has its custom fields, and the first one named
      "Traitement" (after normalisation) holds exactly the number 0. */
  predicate TraitementZero(t: Task) {
    t.customFields.Some? && IsZero(FieldValueOf(t.customFields.value, TraitementKey))
  }

  /** The "Audit" value of a task: the script to run. */
  function AuditValue(t: Task): (v: FieldValue)
    requires HasFieldArray(t)
  {
    FieldValueOf(t.customFields.value, AuditKey)
  }

  /** A task whose "Audit" field holds a truthy value: a script to send. */
  predicate HasScript(t: Task) {
    t.customFields.Some? && Truthy(FieldValueOf(t.customFields.value, AuditKey))
  }

  /** The guarded filter chain: first the tasks whose `custom_fields` is an
      array, then among those the ones whose "Traitement" value is 0. The
      first filter is subsumed by the second: the result is exactly the
      tasks satisfying `TraitementZero`, in their original order. */
  function GuardedFilter(tasks: seq<Task>): (r: seq<Task>)
    ensures r == Filter(tasks, TraitementZero)
    ensures forall i :: 0 <= i < |r| ==> HasFieldArray(r[i]) && IsZero(FieldValueOf(r[i].customFields.value, TraitementKey))
  {
    FilterRedundant(tasks, HasFieldArray, TraitementZero);
    FilterSound(tasks, TraitementZero);
    Filter(Filter(tasks, HasFieldArray), TraitementZero)
  }

  /** The unguarded filter: the callback reads `t.custom_fields.find` on
      every task, so the first task without a `custom_fields` array throws a
      `TypeError` and nothing is returned. Otherwise it keeps what the guarded
      filter keeps. */
  function UnguardedFilter(tasks: seq<Task>): (r: Result<seq<Task>, Failure>)
    ensures r.Err? <==> exists i :: 0 <= i < |tasks| && !HasFieldArray(tasks[i])
    ensures r.Err? ==> r.error == TypeError
    ensures r.Ok? ==> r.value == Filter(tasks, TraitementZero)
  {
    if tasks == [] then Ok([])
    else match tasks[0].customFields
      case None => Err(TypeError)
      case Some(fields) =>
        match UnguardedFilter(tasks[1..])
        case Err(e) => Err(e)
        case Ok(rest) =>
          Ok((if IsZero(FieldValueOf(fields, TraitementKey)) then [tasks[0]] else []) + rest)
  }

  /** Where every task has its custom fields, the two filters agree. */
  lemma UnguardedAgreesWhenAllHaveFields(tasks: seq<Task>)
    requires forall i :: 0 <= i < |tasks| ==> HasFieldArray(tasks[i])
    ensures UnguardedFilter(tasks) == Ok(GuardedFilter(tasks))
  {
  }

  /** One task without custom fields makes the unguarded filter fail, while
      the guarded filter skips it and keeps the rest. */
  lemma OneBadTaskFailsUnguarded(good: seq<Task>, bad: Task)
    requires !HasFieldArray(bad)
    ensures UnguardedFilter(good + [bad]) == Err(TypeError)
    ensures GuardedFilter(good + [bad]) == GuardedFilter(good)
  {
    assert (good + [bad])[|good|] == bad;
    FilterAppend(good, [bad], TraitementZero);
    FilterSingleton(bad, TraitementZero);
  }
}
