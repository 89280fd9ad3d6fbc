/** The parts of `QdrantSettings` (settings.py:111-152) that decide
    something: the filterable-field dictionaries and the check that a local
    storage path excludes a server location and an API key. */
module Settings {
  import opened Wrappers

  /** `FilterableField.field_type`. */
  datatype FieldType = Keyword | Integer | Float | Boolean

  /** `FilterableField.condition`: "==", "!=", ">", ">=", "<", "<=", "any",
      "except". */
  datatype Condition = Eq | Ne | Gt | Ge | Lt | Le | AnyOf | Except

  /** `FilterableField` (settings.py:88-108). */
  datatype FilterableField = FilterableField(
    name: string, description: string, fieldType: FieldType, condition: Option<Condition>, required: bool)

  /** The fields of `QdrantSettings` (settings.py:116-129) that the server
      reads. */
  datatype QdrantSettings = QdrantSettings(
    location: Option<string>,
    apiKey: Option<string>,
    collectionName: Option<string>,
    localPath: Option<string>,
    searchLimit: int,
    readOnly: bool,
    filterableFields: Option<seq<FilterableField>>,
    allowArbitraryFilter: bool)

  /** The names of a list of fields. */
  function Names(fields: seq<FilterableField>): set<string> {
    set i | 0 <= i < |fields| :: fields[i].name
  }

  /** `{field.name: field for field in fields}`: one entry per name, each
      holding a field of that name. Later fields are inserted last. */
  function ByName(fields: seq<FilterableField>): (m: map<string, FilterableField>)
    ensures m.Keys == Names(fields)
    ensures forall k | k in m :: m[k].name == k && m[k] in fields
    decreases |fields|
  {
    if fields == [] then map[]
    else
      var init := fields[..|fields| - 1];
      var f := fields[|fields| - 1];
      assert Names(fields) == Names(init) + {f.name} by {
        assert forall i | 0 <= i < |init| :: init[i] == fields[i];
      }
      assert forall g | g in init :: g in fields;
      ByName(init)[f.name := f]
  }

  /** A later field with the same name overwrites an earlier one: the entry
      for a name is the LAST field carrying it. */
  lemma {:induction false} ByNameLastWins(fields: seq<FilterableField>, i: nat)
    requires i < |fields|
    requires forall j | i < j < |fields| :: fields[j].name != fields[i].name
    ensures fields[i].name in ByName(fields) && ByName(fields)[fields[i].name] == fields[i]
    decreases |fields|
  {
    var init := fields[..|fields| - 1];
    if i < |fields| - 1 {
      ByNameLastWins(init, i);
    }
  }

  /** The fields that have a condition, in order. */
  function WithCondition(fields: seq<FilterableField>): (r: seq<FilterableField>)
    ensures forall f | f in r :: f in fields && f.condition.Some?
    ensures forall f | f in fields && f.condition.Some? :: f in r
    decreases |fields|
  {
    if fields == [] then []
    else
      var rest := WithCondition(fields[1..]);
      if fields[0].condition.Some? then [fields[0]] + rest else rest
  }

  /** Filtering keeps the fields in their order: `WithCondition` of a
      concatenation is the concatenation of the parts. */
  lemma {:induction false} WithConditionAppend(a: seq<FilterableField>, b: seq<FilterableField>)
    ensures WithCondition(a + b) == WithCondition(a) + WithCondition(b)
    decreases |a|
  {
    if a == [] {
      assert a + b == b;
    } else {
      assert (a + b)[0] == a[0] && (a + b)[1..] == a[1..] + b;
      WithConditionAppend(a[1..], b);
    }
  }

  /** Appending a field inserts it last. */
  lemma ByNameSnoc(fields: seq<FilterableField>, f: FilterableField)
    ensures ByName(fields + [f]) == ByName(fields)[f.name := f]
  {
    assert (fields + [f])[..|fields|] == fields;
  }

  /** In the conditional dictionary, the entry for a name is the LAST field
      with a condition that carries it; later fields without a condition do
      not displace it. */
  lemma {:induction false} WithConditionLastWins(fields: seq<FilterableField>, i: nat)
    requires i < |fields| && fields[i].condition.Some?
    requires forall j | i < j < |fields| :: fields[j].condition.Some? ==> fields[j].name != fields[i].name
    ensures fields[i].name in ByName(WithCondition(fields))
    ensures ByName(WithCondition(fields))[fields[i].name] == fields[i]
    decreases |fields|
  {
    var init := fields[..|fields| - 1];
    var f := fields[|fields| - 1];
    assert fields == init + [f];
    WithConditionAppend(init, [f]);
    var ws := WithCondition(init);
    if f.condition.Some? {
      assert WithCondition([f]) == [f];
      ByNameSnoc(ws, f);
    } else {
      assert WithCondition([f]) == [];
      assert ws + [] == ws;
    }
    if i < |fields| - 1 {
      WithConditionLastWins(init, i);
    }
  }

  /** `filterable_fields_dict` (settings.py:131-134). */
  function FilterableFieldsDict(s: QdrantSettings): (m: map<string, FilterableField>)
    ensures s.filterableFields.None? ==> m == map[]
    ensures s.filterableFields.Some? ==> m.Keys == Names(s.filterableFields.value)
    ensures forall k | k in m :: m[k].name == k
  {
    match s.filterableFields
    case None => map[]
    case Some(fields) => ByName(fields)
  }

  /** `filterable_fields_dict_with_conditions` (settings.py:136-143): the
      comprehension over the fields whose condition is not None. */
  function FilterableFieldsDictWithConditions(s: QdrantSettings): (m: map<string, FilterableField>)
    ensures s.filterableFields.None? ==> m == map[]
    ensures forall k | k in m :: m[k].name == k && m[k].condition.Some?
    ensures s.filterableFields.Some? ==> m.Keys == Names(WithCondition(s.filterableFields.value))
    ensures s.filterableFields.Some? ==> forall k | k in m :: m[k] in s.filterableFields.value
  {
    match s.filterableFields
    case None => map[]
    case Some(fields) => ByName(WithCondition(fields))
  }

  /** Every field with a condition is also in the plain dictionary, under
      the same name: the conditional keys are a subset of all keys. */
  lemma WithConditionsSubset(s: QdrantSettings)
    ensures FilterableFieldsDictWithConditions(s).Keys <= FilterableFieldsDict(s).Keys
  {
    if s.filterableFields.Some? {
      var fields := s.filterableFields.value;
      var ws := WithCondition(fields);
      forall k | k in Names(ws) ensures k in Names(fields) {
        var i :| 0 <= i < |ws| && ws[i].name == k;
        assert ws[i] in ws;
        var j :| 0 <= j < |fields| && fields[j] == ws[i];
      }
    }
  }

  /** `check_local_path_conflict` (settings.py:145-152): a non-empty local
      path with a location or an API key set is refused; anything else,
      including an empty local path, passes unchanged. */
  function CheckLocalPathConflict(s: QdrantSettings): (r: Result<QdrantSettings, string>)
    ensures r.Failure? <==> s.localPath.Some? && s.localPath.value != "" && (s.location.Some? || s.apiKey.Some?)
    ensures r.Success? ==> r.value == s
    ensures r.Failure? ==> r.error == "If 'local_path' is set, 'location' and 'api_key' must be None."
  {
    if s.localPath.Some? && s.localPath.value != "" && (s.location.Some? || s.apiKey.Some?) then
      Failure("If 'local_path' is set, 'location' and 'api_key' must be None.")
    else
      Success(s)
  }
}
