/** Model instances and the statements they build: `Model.__init__`,
    attribute access through the descriptors, `_get_name_value_id`,
    `_quotes_if_str`, `_table_creation`, `update` and both versions of
    `save`. The database calls are left out; each builder returns the text
    (and parameters) it would hand to the cursor. Iteration over
    `Meta.fields` (a set or a dict) and over a class `__dict__` happens in an
    order Python chooses; that order is a parameter listing each name once. */
module Models {
  import opened Values
  import opened Text
  import opened Fields
  import opened Schema

  /** `order` lists every element of `names` exactly once. */
  predicate IsEnumeration(order: seq<string>, names: set<string>)
  {
    && (forall i, j :: 0 <= i < j < |order| ==> order[i] != order[j])
    && (forall i :: 0 <= i < |order| ==> order[i] in names)
    && (forall n :: n in names ==> n in order)
  }

  // ---------------------------------------------------------------------
  // Class-level lookups

  /** `cls.Meta.table_name`. */
  function MetaTableName(c: ModelClass): Result<string>
  {
    if c.meta.Some? && c.meta.value.tableName.Some? then Ok(c.meta.value.tableName.value)
    else Err(AttributeError)
  }

  /** `cls.Meta.fields`, as the names `in` accepts and iteration visits. */
  function MetaFieldNames(c: ModelClass): Result<set<string>>
  {
    if c.meta.Some? && c.meta.value.fields.Some? then Ok(c.meta.value.fields.value.Names())
    else Err(AttributeError)
  }

  /** The names of the class's own Field-typed attributes. */
  function FieldAttrNames(c: ModelClass): set<string>
  {
    set n | n in c.attrs && c.attrs[n].AField?
  }

  // ---------------------------------------------------------------------
  // Attribute access on an instance

  /** What `getattr(instance, name)` finds: a field reads through its
      descriptor; a manager yields a query set; otherwise the instance
      dictionary, then a non-field class attribute. */
  datatype Attribute = Data(value: Value) | Manager | ClassLevel | Missing

  function GetAttr(c: ModelClass, d: map<string, Value>, name: string): (r: Attribute)
    ensures r.Missing? <==> name !in c.attrs && name !in d
  {
    if name in c.attrs && c.attrs[name].AField? then Data(Read(d, c.attrs[name].field))
    else if name in c.attrs && c.attrs[name].AManager? then Manager
    else if name in d then Data(d[name])
    else if name in c.attrs then ClassLevel
    else Missing
  }

  /** `setattr(instance, name, value)`: a field's `__set__`; a manager
      defines `__delete__` but no `__set__`, so it refuses; any other name is
      stored in the instance dictionary under itself. */
  function SetAttr(c: ModelClass, d: map<string, Value>, name: string, v: Value): (r: Result<map<string, Value>>)
    ensures r.Ok? ==> r.value == d[StorageKey(c, name) := v]
    ensures r.Err? ==> r.error == ValidationError || r.error == TypeError || r.error == AttributeError
  {
    if name in c.attrs && c.attrs[name].AField? then Assign(d, c.attrs[name].field, v)
    else if name in c.attrs && c.attrs[name].AManager? then Err(AttributeError)
    else Ok(d[name := v])
  }

  /** `delattr(instance, name)`: a field's `__delete__`; a manager's
      `__delete__` calls a `super().__delete__` that does not exist. */
  function DelAttr(c: ModelClass, d: map<string, Value>, name: string): (r: Result<map<string, Value>>)
    ensures r.Ok? <==> StorageKey(c, name) in d && !(name in c.attrs && c.attrs[name].AManager?)
    ensures r.Ok? ==> r.value == d - {StorageKey(c, name)}
  {
    if name in c.attrs && c.attrs[name].AField? then Remove(d, c.attrs[name].field)
    else if name in c.attrs && c.attrs[name].AManager? then Err(AttributeError)
    else if name in d then Ok(d - {name})
    else Err(AttributeError)
  }

  /** Where `setattr(instance, name, _)` stores: a field's private key, or
      the name itself. */
  function StorageKey(c: ModelClass, name: string): string
  {
    if name in c.attrs && c.attrs[name].AField? then c.attrs[name].field.key else name
  }

  /** A successful `setattr` is seen by the next `getattr`. */
  lemma SetThenGet(c: ModelClass, d: map<string, Value>, name: string, v: Value)
    requires SetAttr(c, d, name, v).Ok?
    ensures GetAttr(c, SetAttr(c, d, name, v).value, name) == Data(v)
  {
  }

  /** A successful `setattr` changes the instance dictionary at its storage
      key only, and fails exactly on a manager or a value the field's check
      refuses. */
  lemma SetAttrFrame(c: ModelClass, d: map<string, Value>, name: string, v: Value)
    ensures SetAttr(c, d, name, v).Err? <==>
              (name in c.attrs && c.attrs[name].AManager?) ||
              (name in c.attrs && c.attrs[name].AField? && Assign(d, c.attrs[name].field, v).Err?)
    ensures SetAttr(c, d, name, v).Ok? ==> SetAttr(c, d, name, v).value == d[StorageKey(c, name) := v]
  {
  }

  /** After `delattr` on a field the attribute reads the field's default;
      deleting a plain attribute removes it from the instance. */
  lemma DelThenGet(c: ModelClass, d: map<string, Value>, name: string)
    requires DelAttr(c, d, name).Ok?
    ensures name in c.attrs && c.attrs[name].AField? ==>
              GetAttr(c, DelAttr(c, d, name).value, name) == Data(c.attrs[name].field.default)
    ensures !(name in c.attrs) ==> GetAttr(c, DelAttr(c, d, name).value, name) == Missing
  {
  }

  // ---------------------------------------------------------------------
  // `Model.__init__`

  /** The instance dictionary after `Model.__init__(**kwargs)` and the
      exception that stopped it, if any: each keyword in `Meta.fields` is
      set with `setattr`, every other keyword is skipped. */
  function InitRun(c: ModelClass, d: map<string, Value>, kwargs: seq<(string, Value)>)
    : (r: (map<string, Value>, Option<Error>))
    ensures d.Keys <= r.0.Keys
    decreases |kwargs|
  {
    if |kwargs| == 0 then (d, None)
    else match MetaFieldNames(c)
      case Err(e) => (d, Some(e))
      case Ok(names) =>
        if kwargs[0].0 !in names then InitRun(c, d, kwargs[1..])
        else match SetAttr(c, d, kwargs[0].0, kwargs[0].1)
          case Err(e) => (d, Some(e))
          case Ok(d') => InitRun(c, d', kwargs[1..])
  }

  /** The keywords whose names are in `names`, in their order. */
  function KeepNamed(kwargs: seq<(string, Value)>, names: set<string>): seq<(string, Value)>
  {
    if |kwargs| == 0 then []
    else if kwargs[0].0 in names then [kwargs[0]] + KeepNamed(kwargs[1..], names)
    else KeepNamed(kwargs[1..], names)
  }

  /** Keywords outside `Meta.fields` are silently ignored: initialising with
      them gives what initialising without them gives. */
  lemma {:induction false} InitIgnoresOthers(c: ModelClass, d: map<string, Value>, kwargs: seq<(string, Value)>)
    requires MetaFieldNames(c).Ok?
    ensures InitRun(c, d, kwargs) == InitRun(c, d, KeepNamed(kwargs, MetaFieldNames(c).value))
    decreases |kwargs|
  {
    var names := MetaFieldNames(c).value;
    if |kwargs| > 0 {
      if kwargs[0].0 in names {
        var kept := KeepNamed(kwargs, names);
        assert kept[0] == kwargs[0] && kept[1..] == KeepNamed(kwargs[1..], names);
        match SetAttr(c, d, kwargs[0].0, kwargs[0].1)
        case Err(e) =>
        case Ok(d') => InitIgnoresOthers(c, d', kwargs[1..]);
      } else {
        InitIgnoresOthers(c, d, kwargs[1..]);
      }
    }
  }

  /** Storage keys nobody among the keywords in `Meta.fields` writes are
      left as they were, whether or not the initialisation succeeds. */
  lemma {:induction false} InitFrame(c: ModelClass, d: map<string, Value>, kwargs: seq<(string, Value)>, k: string)
    requires MetaFieldNames(c).Ok?
    requires forall i :: 0 <= i < |kwargs| && kwargs[i].0 in MetaFieldNames(c).value ==>
               StorageKey(c, kwargs[i].0) != k
    ensures k in InitRun(c, d, kwargs).0 <==> k in d
    ensures k in d ==> InitRun(c, d, kwargs).0[k] == d[k]
    decreases |kwargs|
  {
    if |kwargs| > 0 {
      var names := MetaFieldNames(c).value;
      assert forall i :: 0 <= i < |kwargs[1..]| ==> kwargs[1..][i] == kwargs[i + 1];
      if kwargs[0].0 !in names {
        InitFrame(c, d, kwargs[1..], k);
      } else {
        SetAttrFrame(c, d, kwargs[0].0, kwargs[0].1);
        match SetAttr(c, d, kwargs[0].0, kwargs[0].1)
        case Err(e) =>
        case Ok(d') => InitFrame(c, d', kwargs[1..], k);
      }
    }
  }

  /** A completed `__init__` leaves every keyword in `Meta.fields` readable
      as the value passed, provided no other keyword in `Meta.fields` writes
      the same storage key (the others are never written). */
  lemma {:induction false} InitStoresArguments(c: ModelClass, d: map<string, Value>, kwargs: seq<(string, Value)>, i: int)
    requires InitRun(c, d, kwargs).1 == None
    requires MetaFieldNames(c).Ok?
    requires 0 <= i < |kwargs| && kwargs[i].0 in MetaFieldNames(c).value
    requires forall j :: 0 <= j < |kwargs| && j != i && kwargs[j].0 in MetaFieldNames(c).value ==>
               StorageKey(c, kwargs[j].0) != StorageKey(c, kwargs[i].0)
    ensures GetAttr(c, InitRun(c, d, kwargs).0, kwargs[i].0) == Data(kwargs[i].1)
    decreases |kwargs|
  {
    var names := MetaFieldNames(c).value;
    var rest := kwargs[1..];
    assert forall j :: 0 <= j < |rest| ==> rest[j] == kwargs[j + 1];
    if i == 0 {
      var d' := SetAttr(c, d, kwargs[0].0, kwargs[0].1).value;
      SetAttrFrame(c, d, kwargs[0].0, kwargs[0].1);
      SetThenGet(c, d, kwargs[0].0, kwargs[0].1);
      InitFrame(c, d', rest, StorageKey(c, kwargs[0].0));
      var d'' := InitRun(c, d', rest).0;
      // both dictionaries agree at the storage key, and reads look only there
      assert d''[StorageKey(c, kwargs[0].0)] == d'[StorageKey(c, kwargs[0].0)];
    } else if kwargs[0].0 !in names {
      InitStoresArguments(c, d, rest, i - 1);
    } else {
      var d' := SetAttr(c, d, kwargs[0].0, kwargs[0].1).value;
      InitStoresArguments(c, d', rest, i - 1);
    }
  }

  // ---------------------------------------------------------------------
  // Statement text

  /** `_quotes_if_str`: a str is wrapped in single quotes, nothing escaped;
      any other value is returned unchanged. */
  function QuotesIfStr(v: Value): (r: Value)
    ensures v.VStr? <==> r.VStr?
    ensures !v.VStr? ==> r == v
    ensures v.VStr? ==> |r.s| == |v.s| + 2 && r.s[0] == '\'' && r.s[|r.s| - 1] == '\''
                        && r.s[1..|r.s| - 1] == v.s
  {
    if v.VStr? then VStr("'" + v.s + "'") else v
  }

  /** `get_sql_name` of `cls.__dict__[name]`. */
  function ColumnType(c: ModelClass, name: string): Result<string>
  {
    if name !in c.attrs then Err(KeyError)
    else if c.attrs[name].AField? then SqlTypeName(c.attrs[name].field)
    else Err(AttributeError)  // neither a manager nor another object has `get_sql_name`
  }

  /** `types[type(cls.__dict__[name])]`, after the loop's `getattr(self, name)`. */
  function TypedColumnType(c: ModelClass, d: map<string, Value>, name: string): Result<string>
  {
    if GetAttr(c, d, name).Missing? then Err(AttributeError)
    else if name in c.attrs && c.attrs[name].AField? && TypesMap(c.attrs[name].field).Some? then
      Ok(TypesMap(c.attrs[name].field).value)
    else Err(KeyError)
  }

  /** Which version of the statement builders: the later `_table_creation`
      (types from `get_sql_name`) or the earlier `save` (types from the
      `types` map). */
  datatype Version = Later | Earlier

  function TypeOf(v: Version, c: ModelClass, d: map<string, Value>, name: string): Result<string>
  {
    match v
    case Later => ColumnType(c, name)
    case Earlier => TypedColumnType(c, d, name)
  }

  /** The column definitions `name + ' ' + type` for `names` in turn; the
      first name whose type cannot be found stops the loop with its error. */
  function ColumnDefs(v: Version, c: ModelClass, d: map<string, Value>, names: seq<string>)
    : (r: Result<seq<string>>)
    ensures r.Ok? <==> forall i :: 0 <= i < |names| ==> TypeOf(v, c, d, names[i]).Ok?
    ensures r.Ok? ==> |r.value| == |names| &&
                      forall i :: 0 <= i < |names| ==> r.value[i] == names[i] + " " + TypeOf(v, c, d, names[i]).value
    decreases |names|
  {
    if |names| == 0 then Ok([])
    else
      var init := names[..|names| - 1];
      var last := names[|names| - 1];
      match ColumnDefs(v, c, d, init)
      case Err(e) => Err(e)
      case Ok(defs) =>
        match TypeOf(v, c, d, last)
        case Err(e) => Err(e)
        case Ok(t) => Ok(defs + [last + " " + t])
  }

  /** The CREATE statement for `table` and its column definitions; with no
      column the `[:-1]` eats the opening parenthesis. */
  function CreateSql(table: string, defs: seq<string>): string
  {
    if |defs| == 0 then "CREATE TABLE IF NOT EXISTS " + table + " );"
    else "CREATE TABLE IF NOT EXISTS " + table + " (" + Join(",", defs) + ");"
  }

  /** The INSERT statement with one `%s` per column. */
  function InsertSql(table: string, columns: seq<string>): string
  {
    if |columns| == 0 then "INSERT INTO " + table + " ) VALUES );"
    else "INSERT INTO " + table + " (" + Join(",", columns) + ") VALUES ("
         + Join(",", Repeat("%s", |columns|)) + ");"
  }

  /** What `_table_creation` executes. */
  function CreateTableSql(c: ModelClass, d: map<string, Value>, order: seq<string>): Result<string>
  {
    match MetaTableName(c)
    case Err(e) => Err(e)
    case Ok(table) =>
      match MetaFieldNames(c)
      case Err(e) => Err(e)
      case Ok(_) =>
        match ColumnDefs(Later, c, d, order)
        case Err(e) => Err(e)
        case Ok(defs) => Ok(CreateSql(table, defs))
  }

  /** What `save` hands to the cursor: the CREATE statement, the INSERT
      statement and the INSERT's parameters. */
  datatype SaveStatements = SaveStatements(create: string, insert: string, params: seq<Value>)

  /** The value `getattr(self, name)` yields as an INSERT parameter. */
  function ParamValue(c: ModelClass, d: map<string, Value>, name: string): Value
  {
    match GetAttr(c, d, name)
    case Data(v) => v
    case _ => VNone
  }

  /** `list_of_fvalues`: one `getattr` per name, in turn. */
  function Params(c: ModelClass, d: map<string, Value>, order: seq<string>): (r: seq<Value>)
    ensures |r| == |order| && forall i :: 0 <= i < |order| ==> r[i] == ParamValue(c, d, order[i])
    decreases |order|
  {
    if |order| == 0 then [] else Params(c, d, order[..|order| - 1]) + [ParamValue(c, d, order[|order| - 1])]
  }

  /** `save` of the later version: `_table_creation`, then the INSERT. */
  function SaveSpec(c: ModelClass, d: map<string, Value>, order: seq<string>): (r: Result<SaveStatements>)
    ensures r.Ok? ==> |r.value.params| == |order|
  {
    match CreateTableSql(c, d, order)
    case Err(e) => Err(e)
    case Ok(create) => Ok(SaveStatements(create, InsertSql(MetaTableName(c).value, order), Params(c, d, order)))
  }

  /** `save` of the earlier version: one loop, types from the `types` map,
      `Meta` and its attributes read through `__dict__` (KeyError when
      absent). */
  function TypedSaveSpec(c: ModelClass, d: map<string, Value>, order: seq<string>): (r: Result<SaveStatements>)
    ensures r.Ok? ==> |r.value.params| == |order|
  {
    if c.meta.None? || c.meta.value.tableName.None? || c.meta.value.fields.None? then Err(KeyError)
    else
      var table := c.meta.value.tableName.value;
      match ColumnDefs(Earlier, c, d, order)
      case Err(e) => Err(e)
      case Ok(defs) => Ok(SaveStatements(CreateSql(table, defs), InsertSql(table, order), Params(c, d, order)))
  }

  /** `_get_name_value_id`: the attribute literally named `id` when it is a
      field of the class, read on the instance; otherwise nothing, which the
      caller's tuple unpacking turns into TypeError. */
  function IdValue(c: ModelClass, d: map<string, Value>): (r: Option<Value>)
    ensures r.Some? <==> "id" in FieldAttrNames(c)
    ensures r.Some? ==> r.value == Read(d, c.attrs["id"].field)
  {
    if "id" in c.attrs && c.attrs["id"].AField? then Some(Read(d, c.attrs["id"].field)) else None
  }

  /** One item of the SET list: `str(name) + '=' + str(_quotes_if_str(value))`. */
  function SetItem(name: string, v: Value): string
  {
    name + "=" + PyStr(QuotesIfStr(v))
  }

  /** The SET items for the class's fields in `order`. */
  function SetItems(c: ModelClass, d: map<string, Value>, order: seq<string>): seq<string>
  {
    seq(|order|, i requires 0 <= i < |order| => SetItem(order[i], ParamValue(c, d, order[i])))
  }

  /** What `update` executes. `order` is the iteration order of the class
      `__dict__`, restricted to its fields. */
  function UpdateSql(c: ModelClass, d: map<string, Value>, order: seq<string>): (r: Result<string>)
    requires IsEnumeration(order, FieldAttrNames(c))
    ensures r.Err? ==> r.error == AttributeError || r.error == TypeError
  {
    match MetaTableName(c)
    case Err(e) => Err(e)
    case Ok(table) =>
      match IdValue(c, d)
      case None => Err(TypeError)
      case Some(id) =>
        Ok("UPDATE " + table + " SET " + Join(",", SetItems(c, d, order)) + " WHERE id = " + PyStr(id) + ";")
  }

  // ---------------------------------------------------------------------
  // Properties of the statements

  /** `_table_creation` succeeds exactly when `Meta` has both attributes and
      every name of `Meta.fields` is a typed field of the class; the CREATE
      then lists each of them with its SQL type, in iteration order. */
  lemma CreateTableColumns(c: ModelClass, d: map<string, Value>, order: seq<string>)
    ensures CreateTableSql(c, d, order).Ok? <==>
              c.HasSchema() &&
              forall i :: 0 <= i < |order| ==>
                order[i] in c.attrs && c.attrs[order[i]].AField? && !c.attrs[order[i]].field.kind.PlainField?
    ensures CreateTableSql(c, d, order).Ok? && |order| > 0 ==>
              exists defs :: CreateTableSql(c, d, order).value
                             == "CREATE TABLE IF NOT EXISTS " + c.TableName() + " (" + Join(",", defs) + ");"
                          && |defs| == |order|
                          && forall i :: 0 <= i < |order| ==>
                               defs[i] == order[i] + " " + SqlTypeName(c.attrs[order[i]].field).value
  {
    var r := ColumnDefs(Later, c, d, order);
    if CreateTableSql(c, d, order).Ok? && |order| > 0 {
      assert CreateTableSql(c, d, order).value
          == "CREATE TABLE IF NOT EXISTS " + c.TableName() + " (" + Join(",", r.value) + ");";
    }
  }

  /** The INSERT's columns, placeholders and parameters line up: splitting
      the column list and the placeholder list at their commas gives back
      the field names and one `%s` per field, and parameter i is the current
      value of field i. */
  lemma SaveAligned(c: ModelClass, d: map<string, Value>, order: seq<string>)
    requires SaveSpec(c, d, order).Ok? && |order| > 0
    requires forall i :: 0 <= i < |order| ==> ',' !in order[i]
    ensures var s := SaveSpec(c, d, order).value;
            && |s.params| == |order|
            && (forall i :: 0 <= i < |order| ==>
                  order[i] in c.attrs && c.attrs[order[i]].AField? &&
                  s.params[i] == Read(d, c.attrs[order[i]].field))
            && exists columns, marks ::
                 && s.insert == "INSERT INTO " + c.TableName() + " (" + columns + ") VALUES (" + marks + ");"
                 && Split(columns, ',') == order
                 && Split(marks, ',') == Repeat("%s", |order|)
  {
    CreateTableColumns(c, d, order);
    SplitJoin(order, ',');
    var marks := Repeat("%s", |order|);
    SplitJoin(marks, ',');
    var s := SaveSpec(c, d, order).value;
    assert s.insert == "INSERT INTO " + c.TableName() + " (" + Join(",", order) + ") VALUES ("
                       + Join(",", marks) + ");";
  }

  /** When `order` walks the set `Meta.fields`, the INSERT carries exactly
      one parameter per name of `Meta.fields`, and each name's parameter is
      that field's current value. */
  lemma SaveParamsPerField(c: ModelClass, d: map<string, Value>, order: seq<string>, n: string)
    requires MetaFieldNames(c).Ok? && IsEnumeration(order, MetaFieldNames(c).value)
    requires SaveSpec(c, d, order).Ok? && n in MetaFieldNames(c).value
    ensures var s := SaveSpec(c, d, order).value;
            && |s.params| == |MetaFieldNames(c).value|
            && n in c.attrs && c.attrs[n].AField?
            && exists i :: 0 <= i < |order| && order[i] == n && s.params[i] == Read(d, c.attrs[n].field)
  {
    EnumerationSize(order, MetaFieldNames(c).value);
    CreateTableColumns(c, d, order);
    var i :| 0 <= i < |order| && order[i] == n;
    assert SaveSpec(c, d, order).value.params[i] == ParamValue(c, d, order[i]);
  }

  /** The two versions of `save` accept the same classes and, when they
      succeed, build the same statements and parameters. */
  lemma SaveVersionsAgree(c: ModelClass, d: map<string, Value>, order: seq<string>)
    ensures TypedSaveSpec(c, d, order).Ok? <==> SaveSpec(c, d, order).Ok?
    ensures SaveSpec(c, d, order).Ok? ==> TypedSaveSpec(c, d, order) == SaveSpec(c, d, order)
  {
    forall n | true
      ensures TypeOf(Later, c, d, n).Ok? <==> TypeOf(Earlier, c, d, n).Ok?
      ensures TypeOf(Later, c, d, n).Ok? ==> TypeOf(Later, c, d, n).value == TypeOf(Earlier, c, d, n).value
    {
      if n in c.attrs && c.attrs[n].AField? {
        SqlTypeNamesAgree(c.attrs[n].field);
      }
    }
    var a := ColumnDefs(Later, c, d, order);
    var b := ColumnDefs(Earlier, c, d, order);
    if a.Ok? {
      assert a.value == b.value;
    }
  }

  /** `update` needs a field literally named `id`: without one it raises
      TypeError, with one (and a `Meta.table_name`) it succeeds. */
  lemma UpdateNeedsId(c: ModelClass, d: map<string, Value>, order: seq<string>)
    requires IsEnumeration(order, FieldAttrNames(c))
    ensures UpdateSql(c, d, order).Ok? <==>
              MetaTableName(c).Ok? && "id" in c.attrs && c.attrs["id"].AField?
    ensures MetaTableName(c).Ok? && !("id" in c.attrs && c.attrs["id"].AField?) ==>
              UpdateSql(c, d, order) == Err(TypeError)
  {
  }

  /** Every SET item assigns a field its current value: the text before the
      first `=` is the field's name, and the rest is the value as text, an
      integer readable back and a string in single quotes. */
  lemma UpdateSetItems(c: ModelClass, d: map<string, Value>, order: seq<string>, i: int)
    requires IsEnumeration(order, FieldAttrNames(c))
    requires UpdateSql(c, d, order).Ok?
    requires 0 <= i < |order| && '=' !in order[i]
    ensures var item := SetItems(c, d, order)[i];
            var k := IndexOf(item, '=');
            var v := Read(d, c.attrs[order[i]].field);
            && k < |item|
            && item[..k] == order[i]
            && (v.VInt? ==> ParseInt(item[k + 1..]) == Some(v.i))
            && (v.VStr? ==> item[k + 1..] == "'" + v.s + "'")
  {
    var item := SetItems(c, d, order)[i];
    var v := Read(d, c.attrs[order[i]].field);
    assert item == order[i] + "=" + PyStr(QuotesIfStr(v));
    assert item[|order[i]|] == '=';
    assert item[..|order[i]|] == order[i];
    assert item[|order[i]| + 1..] == PyStr(QuotesIfStr(v));
    if v.VInt? {
      IntStrRoundTrip(v.i);
    }
  }

  /** An enumeration of a set is as long as the set. */
  lemma {:induction false} EnumerationSize(order: seq<string>, names: set<string>)
    requires IsEnumeration(order, names)
    ensures |order| == |names|
    decreases |order|
  {
    if |order| > 0 {
      var last := order[|order| - 1];
      var rest := order[..|order| - 1];
      forall n | n in names - {last}
        ensures n in rest
      {
        var k :| 0 <= k < |order| && order[k] == n;
        assert rest[k] == n;
      }
      EnumerationSize(rest, names - {last});
    }
  }

  /** The SET list has one item per field of the class, and every field
      appears in it with its current value. */
  lemma UpdateCoversFields(c: ModelClass, d: map<string, Value>, order: seq<string>, n: string)
    requires IsEnumeration(order, FieldAttrNames(c))
    requires n in c.attrs && c.attrs[n].AField?
    ensures |SetItems(c, d, order)| == |FieldAttrNames(c)|
    ensures exists i :: 0 <= i < |order| && SetItems(c, d, order)[i] == SetItem(n, Read(d, c.attrs[n].field))
  {
    EnumerationSize(order, FieldAttrNames(c));
    assert n in FieldAttrNames(c);
    var i :| 0 <= i < |order| && order[i] == n;
    assert SetItems(c, d, order)[i] == SetItem(n, Read(d, c.attrs[n].field));
  }

  /** The WHERE clause names the row by the instance's `id` as text; an
      integer id can be read back from it. */
  lemma UpdateWhereId(c: ModelClass, d: map<string, Value>, order: seq<string>)
    requires IsEnumeration(order, FieldAttrNames(c))
    requires UpdateSql(c, d, order).Ok?
    requires "id" in c.attrs && c.attrs["id"].AField? && Read(d, c.attrs["id"].field).VInt?
    ensures var id := Read(d, c.attrs["id"].field).i;
            && (exists prefix :: UpdateSql(c, d, order).value == prefix + " WHERE id = " + IntStr(id) + ";")
            && ParseInt(IntStr(id)) == Some(id)
  {
    var id := Read(d, c.attrs["id"].field).i;
    IntStrRoundTrip(id);
    assert IdValue(c, d) == Some(VInt(id));
    var table := MetaTableName(c).value;
    var prefix := "UPDATE " + table + " SET " + Join(",", SetItems(c, d, order));
    assert UpdateSql(c, d, order).value == prefix + " WHERE id = " + IntStr(id) + ";";
  }

  // ---------------------------------------------------------------------
  // An instance

  /** A model instance: the class it was created from and its attribute
      dictionary (`__dict__`). */
  class Instance {
    const cls: ModelClass
    var dict: map<string, Value>

    /** `object.__new__(cls)`: an empty attribute dictionary. */
    constructor(cls: ModelClass)
      ensures this.cls == cls && dict == map[]
    {
      this.cls := cls;
      dict := map[];
    }

    /** `getattr(self, name)`. */
    function Attr(name: string): Attribute
      reads this
    {
      GetAttr(cls, dict, name)
    }

    /** `setattr(self, name, value)`; an exception leaves the instance as it was. */
    method Set(name: string, v: Value) returns (err: Option<Error>)
      modifies this
      ensures SetAttr(cls, old(dict), name, v).Ok? ==> err == None && dict == SetAttr(cls, old(dict), name, v).value
      ensures SetAttr(cls, old(dict), name, v).Err? ==>
                err == Some(SetAttr(cls, old(dict), name, v).error) && dict == old(dict)
      ensures err == None ==> Attr(name) == Data(v)
    {
      var r := SetAttr(cls, dict, name, v);
      if r.Ok? {
        SetThenGet(cls, dict, name, v);
        dict := r.value;
        err := None;
      } else {
        err := Some(r.error);
      }
    }

    /** `delattr(self, name)`. */
    method Delete(name: string) returns (err: Option<Error>)
      modifies this
      ensures DelAttr(cls, old(dict), name).Ok? ==> err == None && dict == DelAttr(cls, old(dict), name).value
      ensures DelAttr(cls, old(dict), name).Err? ==>
                err == Some(DelAttr(cls, old(dict), name).error) && dict == old(dict)
    {
      var r := DelAttr(cls, dict, name);
      if r.Ok? {
        dict := r.value;
        err := None;
      } else {
        err := Some(r.error);
      }
    }

    /** `Model.__init__(**kwargs)`. */
    method Init(kwargs: seq<(string, Value)>) returns (err: Option<Error>)
      modifies this
      ensures (dict, err) == InitRun(cls, old(dict), kwargs)
    {
      var i := 0;
      while i < |kwargs|
        invariant 0 <= i <= |kwargs|
        invariant InitRun(cls, old(dict), kwargs) == InitRun(cls, dict, kwargs[i..])
      {
        assert kwargs[i..][1..] == kwargs[i + 1..];
        var names := MetaFieldNames(cls);
        if names.Err? {
          return Some(names.error);
        }
        var (name, value) := kwargs[i];
        if name in names.value {
          var r := SetAttr(cls, dict, name, value);
          if r.Err? {
            return Some(r.error);
          }
          dict := r.value;
        }
        i := i + 1;
      }
      err := None;
    }

    /** `_table_creation`: the CREATE statement, built by appending
      `name + ' ' + type + ','` per field and dropping the last character. */
    method TableCreation(order: seq<string>) returns (r: Result<string>)
      requires MetaFieldNames(cls).Ok? ==> IsEnumeration(order, MetaFieldNames(cls).value)
      ensures r == CreateTableSql(cls, dict, order)
    {
      var table := MetaTableName(cls);
      if table.Err? {
        return Err(table.error);
      }
      var names := MetaFieldNames(cls);
      if names.Err? {
        return Err(names.error);
      }
      var stmt := "CREATE TABLE IF NOT EXISTS " + table.value + " (";
      ghost var prefix := stmt;
      ghost var defs: seq<string> := [];
      var i := 0;
      while i < |order|
        invariant 0 <= i <= |order|
        invariant ColumnDefs(Later, cls, dict, order[..i]) == Ok(defs)
        invariant stmt == prefix + Terminated(defs, ",")
      {
        ColumnDefsStep(Later, cls, dict, order, i);
        var t := ColumnType(cls, order[i]);
        if t.Err? {
          ColumnDefsPrefixError(Later, cls, dict, order, i + 1);
          return Err(t.error);
        }
        var def := order[i] + " " + t.value;
        Accumulate(stmt, prefix, defs, def);
        stmt := stmt + def + ",";
        defs := defs + [def];
        i := i + 1;
      }
      assert order[..i] == order;
      CreateAssembled(table.value, defs);
      r := Ok(DropLast(stmt) + ");");
    }

    /** `save` of the later version: `_table_creation`, then the INSERT
        columns, placeholders and parameters accumulated in one loop. */
    method Save(order: seq<string>) returns (r: Result<SaveStatements>)
      requires MetaFieldNames(cls).Ok? ==> IsEnumeration(order, MetaFieldNames(cls).value)
      ensures r == SaveSpec(cls, dict, order)
    {
      var create := TableCreation(order);
      if create.Err? {
        return Err(create.error);
      }
      var table := MetaTableName(cls).value;
      var columns := "INSERT INTO " + table + " (";
      var marks := ") VALUES (";
      ghost var columnsPrefix := columns;
      ghost var marksPrefix := marks;
      var values: seq<Value> := [];
      for i := 0 to |order|
        invariant columns == columnsPrefix + Terminated(order[..i], ",")
        invariant marks == marksPrefix + Terminated(Repeat("%s", i), ",")
        invariant values == Params(cls, dict, order[..i])
      {
        ParamsStep(cls, dict, order, i);
        ColumnsStep(columns, columnsPrefix, order, i);
        MarksStep(marks, marksPrefix, i);
        values := values + [ParamValue(cls, dict, order[i])];
        columns := columns + order[i] + ",";
        marks := marks + "%s" + ",";
      }
      assert order[..|order|] == order;
      InsertAssembled(table, order);
      r := Ok(SaveStatements(create.value, DropLast(columns) + DropLast(marks) + ");", values));
    }

    /** `save` of the earlier version: CREATE columns, INSERT columns,
        placeholders and parameters grown in a single loop. */
    method TypedSave(order: seq<string>) returns (r: Result<SaveStatements>)
      requires MetaFieldNames(cls).Ok? ==> IsEnumeration(order, MetaFieldNames(cls).value)
      ensures r == TypedSaveSpec(cls, dict, order)
    {
      if cls.meta.None? || cls.meta.value.tableName.None? || cls.meta.value.fields.None? {
        return Err(KeyError);
      }
      var table := cls.meta.value.tableName.value;
      var create := "CREATE TABLE IF NOT EXISTS " + table + " (";
      var columns := "INSERT INTO " + table + " (";
      var marks := ") VALUES (";
      ghost var createPrefix := create;
      ghost var columnsPrefix := columns;
      ghost var marksPrefix := marks;
      ghost var defs: seq<string> := [];
      var values: seq<Value> := [];
      var i := 0;
      while i < |order|
        invariant 0 <= i <= |order|
        invariant ColumnDefs(Earlier, cls, dict, order[..i]) == Ok(defs)
        invariant create == createPrefix + Terminated(defs, ",")
        invariant columns == columnsPrefix + Terminated(order[..i], ",")
        invariant marks == marksPrefix + Terminated(Repeat("%s", i), ",")
        invariant values == Params(cls, dict, order[..i])
      {
        ColumnDefsStep(Earlier, cls, dict, order, i);
        var t := TypedColumnType(cls, dict, order[i]);
        if t.Err? {
          ColumnDefsPrefixError(Earlier, cls, dict, order, i + 1);
          return Err(t.error);
        }
        var def := order[i] + " " + t.value;
        Accumulate(create, createPrefix, defs, def);
        ParamsStep(cls, dict, order, i);
        ColumnsStep(columns, columnsPrefix, order, i);
        MarksStep(marks, marksPrefix, i);
        values := values + [ParamValue(cls, dict, order[i])];
        create := create + def + ",";
        columns := columns + order[i] + ",";
        marks := marks + "%s" + ",";
        defs := defs + [def];
        i := i + 1;
      }
      assert order[..i] == order;
      CreateAssembled(table, defs);
      InsertAssembled(table, order);
      assert TypedSaveSpec(cls, dict, order)
          == Ok(SaveStatements(CreateSql(table, defs), InsertSql(table, order), Params(cls, dict, order)));
      r := Ok(SaveStatements(DropLast(create) + ");", DropLast(columns) + DropLast(marks) + ");", values));
    }
  }

  /** Once the loop has failed on a prefix, the whole list fails the same way. */
  lemma {:induction false} ColumnDefsPrefixError(v: Version, c: ModelClass, d: map<string, Value>,
                                                 names: seq<string>, k: int)
    requires 0 <= k <= |names| && ColumnDefs(v, c, d, names[..k]).Err?
    ensures ColumnDefs(v, c, d, names) == ColumnDefs(v, c, d, names[..k])
    decreases |names|
  {
    if k < |names| {
      var init := names[..|names| - 1];
      assert init[..k] == names[..k];
      ColumnDefsPrefixError(v, c, d, init, k);
    } else {
      assert names[..k] == names;
    }
  }

  // ---------------------------------------------------------------------
  // One iteration of the statement-building loops

  lemma Accumulate(acc: string, prefix: string, items: seq<string>, x: string)
    requires acc == prefix + Terminated(items, ",")
    ensures acc + x + "," == prefix + Terminated(items + [x], ",")
  {
    TerminatedSnoc(items, x, ",");
  }

  lemma ColumnsStep(acc: string, prefix: string, order: seq<string>, i: int)
    requires 0 <= i < |order| && acc == prefix + Terminated(order[..i], ",")
    ensures acc + order[i] + "," == prefix + Terminated(order[..i + 1], ",")
  {
    assert order[..i + 1] == order[..i] + [order[i]];
    Accumulate(acc, prefix, order[..i], order[i]);
  }

  lemma MarksStep(acc: string, prefix: string, i: nat)
    requires acc == prefix + Terminated(Repeat("%s", i), ",")
    ensures acc + "%s" + "," == prefix + Terminated(Repeat("%s", i + 1), ",")
  {
    assert Repeat("%s", i + 1) == Repeat("%s", i) + ["%s"];
    Accumulate(acc, prefix, Repeat("%s", i), "%s");
  }

  lemma ParamsStep(c: ModelClass, d: map<string, Value>, order: seq<string>, i: int)
    requires 0 <= i < |order|
    ensures Params(c, d, order[..i + 1]) == Params(c, d, order[..i]) + [ParamValue(c, d, order[i])]
  {
    assert order[..i + 1][..i] == order[..i];
  }

  lemma ColumnDefsStep(v: Version, c: ModelClass, d: map<string, Value>, order: seq<string>, i: int)
    requires 0 <= i < |order| && ColumnDefs(v, c, d, order[..i]).Ok?
    ensures TypeOf(v, c, d, order[i]).Err? ==> ColumnDefs(v, c, d, order[..i + 1]) == Err(TypeOf(v, c, d, order[i]).error)
    ensures TypeOf(v, c, d, order[i]).Ok? ==>
              ColumnDefs(v, c, d, order[..i + 1])
              == Ok(ColumnDefs(v, c, d, order[..i]).value + [order[i] + " " + TypeOf(v, c, d, order[i]).value])
  {
    assert order[..i + 1][..i] == order[..i];
  }

  /** The `[:-1] + ');'` ending of the CREATE statement. */
  lemma CreateAssembled(table: string, defs: seq<string>)
    ensures DropLast("CREATE TABLE IF NOT EXISTS " + table + " (" + Terminated(defs, ",")) + ");"
         == CreateSql(table, defs)
  {
    var prefix := "CREATE TABLE IF NOT EXISTS " + table + " (";
    DropTrailingSeparator(prefix, defs, ',');
    if |defs| == 0 {
      assert DropLast(prefix) == "CREATE TABLE IF NOT EXISTS " + table + " ";
      assert " " + ");" == " );";
    }
  }

  /** The `[:-1]` of both halves and the `');'` ending of the INSERT. */
  lemma InsertAssembled(table: string, columns: seq<string>)
    ensures DropLast("INSERT INTO " + table + " (" + Terminated(columns, ","))
            + DropLast(") VALUES (" + Terminated(Repeat("%s", |columns|), ",")) + ");"
         == InsertSql(table, columns)
  {
    ColumnsHalf(table, columns);
    MarksHalf(|columns|);
    InsertFromHalves(table, columns,
                     DropLast("INSERT INTO " + table + " (" + Terminated(columns, ",")),
                     DropLast(") VALUES (" + Terminated(Repeat("%s", |columns|), ",")));
  }

  lemma InsertFromHalves(table: string, columns: seq<string>, left: string, right: string)
    requires left == if |columns| == 0 then "INSERT INTO " + table + " "
                     else "INSERT INTO " + table + " (" + Join(",", columns)
    requires right == if |columns| == 0 then ") VALUES " else ") VALUES (" + Join(",", Repeat("%s", |columns|))
    ensures left + right + ");" == InsertSql(table, columns)
  {
    var head := "INSERT INTO " + table;
    if |columns| == 0 {
      EmptyInsert(head);
    } else {
      var cols := Join(",", columns);
      var marks := Join(",", Repeat("%s", |columns|));
      assert InsertSql(table, columns) == head + " (" + cols + ") VALUES (" + marks + ");";
      Concat3(left, ") VALUES (", marks);
    }
  }

  lemma EmptyInsert(head: string)
    ensures head + " " + ") VALUES " + ");" == head + " ) VALUES );"
  {
    assert " " + ") VALUES " + ");" == " ) VALUES );";
  }

  lemma Concat3(a: string, b: string, c: string)
    ensures a + (b + c) == a + b + c
  {
  }

  lemma ColumnsHalf(table: string, columns: seq<string>)
    ensures DropLast("INSERT INTO " + table + " (" + Terminated(columns, ","))
         == if |columns| == 0 then "INSERT INTO " + table + " " else "INSERT INTO " + table + " (" + Join(",", columns)
  {
    DropTrailingSeparator("INSERT INTO " + table + " (", columns, ',');
  }

  lemma MarksHalf(n: nat)
    ensures DropLast(") VALUES (" + Terminated(Repeat("%s", n), ","))
         == if n == 0 then ") VALUES " else ") VALUES (" + Join(",", Repeat("%s", n))
  {
    DropTrailingSeparator(") VALUES (", Repeat("%s", n), ',');
  }
}
