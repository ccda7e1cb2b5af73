# A small Python ORM, modelled in Dafny

The repository is a toy object-relational mapper written in Python (`orm_1.py`, and an
earlier `orm.py`). Model classes declare typed field descriptors (`IntField`, `StrField`,
`FloatField`). A metaclass `ModelMeta` builds each model class: it gathers the fields over
the MRO, completes an inner `Meta` class (`table_name`, `fields`) and installs a manager
(`objects`). Instances are initialised from keyword arguments. They turn themselves into SQL
text for `CREATE TABLE`, `INSERT` and `UPDATE`. A `QuerySet` handed out by the manager keeps
a list of instances and builds `SELECT` and `DELETE` statements.

The project models this core:

- `values.dfy` (`Values`): the Python values a field can hold, the exception kinds, and `Result`/`Option`.
- `text.dfy` (`Text`): the string operations the statements are built from.
  - `sep.join`, the `s += item + sep` loop idiom and `[:-1]`.
  - `split`, and `str()` of an int, with their round trips.
- `fields.dfy` (`Fields`): the descriptors as operations on an instance's attribute dictionary.
  - `__get__`, `__set__` and `__delete__`.
  - `validate` from the earlier version, and the SQL type names.
- `schema.dfy` (`Schema`): `ModelMeta.__new__` and `_set_manager` as written.
  - `ClassSchema` is the specification; `BuildClass` is the same builder as loops.
- `schema_fixes.dfy` (`SchemaFixes`): the two defects found in the builder, with a repaired builder.
- `models.dfy` (`Models`): attribute access on an instance, `Model.__init__`, `_get_name_value_id`, `_quotes_if_str`, `_table_creation`, `update` and both versions of `save`.
  - `Instance` is a class whose `dict` field the methods update in place.
  - The statement builders are methods with loops, proved equal to specification functions.
- `queries.dfy` (`Queries`): `QuerySet` as a class over a sequence of instances.
  - `__init__`, `__len__`, `__getitem__`, `create`, `all`, `get` and `delete`.
- `scenario.dfy` (`Scenario`): the repository's own `User(Model)` and `Admin(User)` run through the builder.

Inputs the code takes from outside are parameters.

- **Iteration order:** the order in which Python walks a set or a dict is a parameter `order`, listing each name once (`IsEnumeration`).
- **Database rows:** the rows `fetchall()` returns are a parameter of `QuerySet.All`.
- **Type conversion:** `field_type(value)` inside `validate` is a parameter `call`.

The statement builders return the text and the parameters they would hand to the cursor.

Behaviour of the code that a reader may not expect, and that the model follows:

- `__set__` never calls `validate` and ignores `required`. A wrong type raises TypeError rather than ValidationError.
- `IntField` and `StrField` ignore the bounds passed to their constructors. The ranges are always [-2^31, 2^31-1] and lengths [1, 8000].
- A field stores its value under `'_' + <constructor name>`, not under `'_' + <attribute name>`. `Level = IntField(...)` stores under `_`.
- The `DELETE` statement carries no closing `;`.
- `get(key)` indexes with `key - 1` using Python indexing, so `get(0)` returns the last instance.
- The `WHERE` value of `UPDATE` is not quoted.

## Model

| member | source | states |
|---|---|---|
| `Fields.Assign` | orm_1.py:54-57 | `__set__`: for an int field, success iff the int/bool value is within the field's bounds; for a str field, success iff the length is within bounds. None or a wrong-typed value raises TypeError, and a bound violation ValidationError. Success stores exactly `d[key := v]`. |
| `Fields.Read` | orm_1.py:26-28 | `__get__`: the value stored under the field's private key, else the field's default |
| `Fields.Remove` | orm_1.py:31-33 | `__delete__` succeeds iff the private key is present and removes only it; otherwise KeyError |
| `Fields.Validate` | orm.py:35-42 | None with `required` is ValidationError and None without it is returned as None. Any other value goes to `field_type(value)`, and TypeError when the field has no type. |
| `Fields.SqlTypeName` | orm_1.py:49-51 | `get_sql_name` exists exactly for the typed fields; a bare `Field` raises AttributeError |
| `Fields.IntFieldAssign` | orm_1.py:44-47 | whatever `min_value`/`max_value` are given, an int is accepted iff it is within [-2^31, 2^31-1]. It is stored under `'_' + name`; otherwise ValidationError. |
| `Fields.StrFieldAssign` | orm_1.py:63-66 | whatever `min_len`/`max_len` are given, a str is accepted iff its length is in [1, 8000]. It is stored under `'_' + name`. |
| `Fields.PlainFieldAssign` | orm_1.py:19-30 | a bare `Field` stores any value under `'_' + field_name`, with no check |
| `Fields.FloatFieldAssign` | orm_1.py:80-95 | a `FloatField` stores an int or bool under `'_' + field_name`; None and str raise TypeError |
| `Fields.AssignNoneIgnoresRequired` | orm_1.py:29-30 | assigning None to an int or str field raises TypeError whether or not the field is required |
| `Fields.ReadAfterAssign` | orm_1.py:26-30 | `__get__` after a successful `__set__` returns the assigned value |
| `Fields.ReadAfterRemove` | orm_1.py:26-33 | after `__delete__` the field reads its default; fields under other keys read as before |
| `Fields.SharedKeyAliases` | orm_1.py:19-20 | two fields built with the same constructor name share one storage slot |
| `Fields.ValidateNone` | orm.py:38-41 | `validate(None)` fails iff the field is required |
| `Fields.SqlTypeNamesAgree` | orm.py:224 | the earlier `types` map and the later `get_sql_name` give the same SQL type for every field |
| `Schema.SetManager` | orm_1.py:157-166 | no manager gives `{'objects': Manage()}`; one is returned unchanged; more than one raises AttributeError |
| `Schema.UpdateFields` | orm_1.py:146 | `meta.fields.update(names)`: a set gains the names. A dict accepts only two-character names and raises ValueError otherwise. |
| `Schema.UpdateFromClass` | orm_1.py:135-140 | the inner loop merges exactly the Field-typed items of one class `__dict__` into `fields`, later ones replacing earlier ones |
| `Schema.MergeOverMro` | orm_1.py:134-140 | the MRO loop yields the class's own fields overridden by the merge of every MRO class in order |
| `Schema.Finish` | orm_1.py:146-150 | on success the class keeps its name and every body and merged name, and its `Meta.table_name` is the declared one or the class name |
| `Schema.ClassSchema` | orm_1.py:103-152 | a built class keeps its name and every attribute of its body |
| `Schema.BuildClass` | orm_1.py:102-152 | the step-by-step metaclass builds exactly the class `ClassSchema` describes |
| `Schema.MergeFieldsKeys` | orm_1.py:134-140 | a name is merged iff some class of the MRO declares it as a field |
| `Schema.MergeFieldsLastWins` | orm_1.py:134-140 | on a name clash, the field of the class latest in the MRO is kept |
| `Schema.SchemaTableName` | orm_1.py:124-131 | a built class has a `Meta` whose `table_name` is the declared one, else the class name; the root `Model` is kept as declared |
| `Schema.SchemaFieldNames` | orm_1.py:122-146 | without a declared `Meta`, `Meta.fields` is exactly the set of names declared as fields somewhere in the MRO |
| `Schema.SchemaAttachesLastField` | orm_1.py:146-150 | every merged field is set on the class, and it is the field from the class latest in the MRO that declares it |
| `Schema.FinishAttaches` | orm_1.py:146-150 | every merged field not taken by the manager is set on the class as merged; the pairs from two-character names never replace one |
| `Schema.FinishFieldNames` | orm_1.py:146-150 | with a set-valued `Meta.fields`, the Field-typed attributes of the built class are exactly the merged names the manager does not take |
| `Schema.AttachedFieldNames` | orm_1.py:147-150 | setting the merged fields and then the manager on a body whose fields are all merged leaves exactly the merged names the manager does not take as fields |
| `Schema.ManagerRule` | orm_1.py:147 | with a set-valued `Meta.fields`, building fails iff the body holds more than one manager, with AttributeError. Without one, `objects` is added, and a built class always has a manager. |
| `Schema.ManagerNotInMetaFields` | orm_1.py:146-147 | the manager is added after `Meta.fields` is completed, so its name is not listed there |
| `SchemaFixes.MergeFirstKeys` | orm_1.py:134-140 | the repaired merge keeps the same names as the one as written |
| `SchemaFixes.MergeFirstWins` | orm_1.py:134-140 | in the repaired merge the most derived class that declares a name wins |
| `SchemaFixes.FixedSubclassFieldWins` | orm_1.py:134-150 | the repaired builder attaches a subclass's redeclared field, not the ancestor's |
| `SchemaFixes.FixedMetaFieldNames` | orm_1.py:128-129 | with the repair, a `Meta` without `fields` gets the set of MRO field names and the manager stays out of it |
| `SchemaFixes.FixedFailsOnlyOnManagers` | orm_1.py:146-147 | with the repair and a set-valued `Meta.fields`, building fails exactly on more than one manager |
| `SchemaFixes.AsWrittenAgreesWithFixed` | orm_1.py:102-152 | when no field is redeclared along the MRO and `Meta.fields` is not missing, both builders build the same class |
| `SchemaFixes.AncestorOverridesSubclass` | orm_1.py:134-140 | when a subclass redeclares an ancestor's field, the builder as written attaches the ancestor's field, the repaired one the subclass's, and the two differ |
| `SchemaFixes.MetaWithoutFieldsRaises` | orm_1.py:128-129 | as written, a `Meta` without `fields` makes the build raise ValueError as soon as a merged field name is not two characters long |
| `SchemaFixes.MetaWithoutFieldsListsManager` | orm_1.py:146-147 | as written, if every merged name is two characters long, the build succeeds but the manager's name ends up among `Meta.fields` |
| `SchemaFixes.MetaWithoutFieldsAttachesPairs` | orm_1.py:146-150 | as written, when every merged name is two characters long, the first character of each becomes a non-field attribute of the class and a `Meta.fields` name |
| `Models.SetThenGet` | orm_1.py:26-30 | a successful `setattr` is seen by the next `getattr` |
| `Models.GetAttr` | orm_1.py:26-28 | `getattr` on an instance finds nothing (AttributeError) iff the name is neither a class attribute nor in the instance dictionary |
| `Models.SetAttr` | orm_1.py:29-30 | a successful `setattr` writes the value at the storage key only; failures are ValidationError, TypeError or the manager's AttributeError |
| `Models.DelAttr` | orm_1.py:31-33 | `delattr` succeeds iff the storage key is present and the name is not a manager, and removes exactly that key |
| `Models.SetAttrFrame` | orm_1.py:29-30 | `setattr` fails iff the name is a manager or the field's check refuses; otherwise only the storage key changes |
| `Models.DelThenGet` | orm_1.py:31-33 | after `delattr` a field reads its default and a plain attribute is gone |
| `Models.InitIgnoresOthers` | orm_1.py:262-265 | keywords outside `Meta.fields` are silently skipped by `__init__` |
| `Models.InitRun` | orm_1.py:262-265 | `__init__` never removes an entry of the instance dictionary |
| `Models.InitFrame` | orm_1.py:262-265 | storage keys no accepted keyword writes are unchanged by `__init__`, whether it succeeds or not |
| `Models.InitStoresArguments` | orm_1.py:262-265 | after a completed `__init__` every accepted keyword reads back as its argument |
| `Models.Instance.constructor` | orm_1.py:262 | a new instance has an empty attribute dictionary |
| `Models.Instance.Set` | orm_1.py:29-30 | `setattr` on the instance: the new dictionary is the `SetAttr` result and the name then reads back as the value; on an exception the instance is unchanged |
| `Models.Instance.Delete` | orm_1.py:31-33 | `delattr` on the instance: the new dictionary is the `DelAttr` result; on an exception the instance is unchanged |
| `Models.Instance.Init` | orm_1.py:262-265 | the keyword loop leaves the dictionary and the exception `InitRun` gives, stopping at the first failing `setattr` |
| `Models.QuotesIfStr` | orm_1.py:272-275 | a str comes back wrapped in single quotes, anything else unchanged |
| `Models.ColumnDefs` | orm_1.py:285-286 | the column definitions exist iff every name has a type, with `name + ' ' + type` at each position |
| `Models.Params` | orm_1.py:346-348 | the INSERT parameters are `getattr(self, name)` for each name, in order |
| `Models.CreateTableColumns` | orm_1.py:278-288 | `_table_creation` succeeds iff `Meta` has both attributes and every `Meta.fields` name is a typed field. The CREATE then lists each with its SQL type in iteration order. |
| `Models.Instance.TableCreation` | orm_1.py:278-288 | the string-appending loop builds exactly `CreateTableSql` |
| `Models.CreateTableSql` | orm_1.py:278-288 | the CREATE statement `_table_creation` executes, or the exception it stops with; `CreateTableColumns` states when it succeeds and what it lists |
| `Models.SaveSpec` | orm_1.py:332-359 | `save` of the later version: on success there is one INSERT parameter per name in the iteration order |
| `Models.TypedSaveSpec` | orm.py:214-239 | `save` of the earlier version: on success there is one INSERT parameter per name in the iteration order |
| `Models.Instance.Save` | orm_1.py:332-359 | the loop builds exactly the CREATE, INSERT and parameter list `SaveSpec` gives |
| `Models.Instance.TypedSave` | orm.py:214-239 | the single loop of the earlier `save` builds exactly `TypedSaveSpec` |
| `Models.SaveAligned` | orm_1.py:343-352 | splitting the INSERT's column list at commas gives the field names back. There is one `%s` per column, and parameter i is the value of field i. |
| `Models.SaveParamsPerField` | orm_1.py:343-352 | when the order walks the set `Meta.fields`, the INSERT has exactly one parameter per `Meta.fields` name, and each name's parameter is its field's current value |
| `Models.SaveVersionsAgree` | orm.py:214-239 | the earlier and later `save` accept the same instances and build the same statements and parameters |
| `Models.IdValue` | orm_1.py:267-270 | `_get_name_value_id` finds a value iff the class has a field named `id`, and the value is `getattr(self, 'id')`: what that field reads on the instance |
| `Models.UpdateSql` | orm_1.py:300-322 | `update` over the class's fields in `__dict__` order; it fails only with AttributeError (no `table_name`) or TypeError (no `id` field) |
| `Models.UpdateNeedsId` | orm_1.py:267-270 | `update` succeeds iff there is a `table_name` and a field named `id`; without the field it raises TypeError |
| `Models.UpdateSetItems` | orm_1.py:311-316 | each SET item is `name=value` with the field's current value; an int reads back and a str is in single quotes |
| `Models.UpdateCoversFields` | orm_1.py:311-315 | the SET list has one item per Field attribute of the class, and each field appears as `name=<its current value>` |
| `Models.UpdateWhereId` | orm_1.py:267-322 | when the instance's `id` field reads as an int, the statement ends with `WHERE id = <str(id)>;` for that value, and the value reads back from the text |
| `Text.DropLast` | orm_1.py:288 | `s[:-1]` drops exactly the last character, and the empty string stays empty |
| `Text.TerminatedSnoc` | orm_1.py:286 | one more `s += item + sep` appends that item and one separator |
| `Text.TerminatedIsJoin` | orm_1.py:349-352 | the appended items with a trailing separator are the join plus one separator |
| `Text.DropTrailingSeparator` | orm_1.py:352 | the `[:-1]` after the loop is `prefix + sep.join(items)`, or drops the last character of the prefix when there are no items |
| `Text.SplitJoin` | orm_1.py:316 | splitting `','.join(items)` gives the items back when none contains a comma |
| `Text.NatStr` | orm_1.py:312 | the decimal text of a natural number is non-empty digits without leading zeros |
| `Text.ParseNatStr` | orm_1.py:312 | parsing the decimal text of n gives n |
| `Text.IntStrRoundTrip` | orm_1.py:312 | `str(i)` of an int parses back to `i` |
| `Queries.PyIndex` | orm_1.py:196-197 | Python list indexing: valid iff `-n <= index < n`, with negative indices counted from the end |
| `Queries.SelectSql` | orm_1.py:209-210 | the SELECT `all` executes exists iff `Meta.table_name` does; otherwise AttributeError |
| `Queries.DeleteSql` | orm_1.py:232-234 | the DELETE `delete` executes exists iff `Meta.table_name` does; otherwise AttributeError |
| `Queries.FirstInitError` | orm_1.py:215 | the comprehension raises iff some row's `__init__` raises |
| `Queries.FirstInitErrorPrefix` | orm_1.py:215 | the comprehension stops at the first failing row; later rows do not matter |
| `Queries.SelectDeleteSameTable` | orm_1.py:209-234 | the table name reads back from the SELECT text; DELETE names the same table with a single placeholder |
| `Queries.StatementsNeedTable` | orm_1.py:209-232 | SELECT and DELETE fail exactly when `Meta.table_name` is missing, with AttributeError |
| `Queries.GetIndexing` | orm_1.py:222-224 | `get(k)` gives instance k-1 for 1 <= k <= n, and `get(0)` the last one. Keys out of range have no instance. |
| `Queries.QuerySet.Make` | orm_1.py:188-192 | the query set keeps the owner and the given list |
| `Queries.QuerySet.New` | orm_1.py:185-192 | AttributeError iff there is no owner; otherwise the list is the given one, or empty |
| `Queries.QuerySet.GetItem` | orm_1.py:196-197 | `__getitem__` returns the element Python indexing selects, or IndexError |
| `Queries.QuerySet.Len` | orm_1.py:194-195 | `__len__`: the length of the kept list |
| `Queries.QuerySet.Create` | orm_1.py:199-200 | `create` returns a fresh initialised instance (or the `__init__` exception) and leaves the list unchanged |
| `Queries.QuerySet.All` | orm_1.py:203-219 | `all` appends one fresh instance per row, each initialised from its row, keeping the earlier ones. On a missing table or a failing row it raises and the list is unchanged. |
| `Queries.QuerySet.Get` | orm_1.py:222-224 | `get` runs `all`, then indexes the grown list at `key - 1`; a missing key raises TypeError |
| `Queries.QuerySet.Delete` | orm_1.py:227-238 | `delete` yields the DELETE statement with the key as its parameter, or the missing-table error |
| `Scenario.UserBuilds` | orm_1.py:370-381 | `User`, whatever its ancestors hold, builds with table `User` and the manager `objects` added |
| `Scenario.AdminBuilds` | orm_1.py:383-384 | `Admin(User)`, whatever its ancestors hold, builds with table `Admin` and the manager `objects` |
| `Scenario.BodiesFields` | orm_1.py:254-384 | `Model` and `object` declare no fields; `User` declares `id`, `Telephone`, `Name`, `Sex` and no manager; `Admin` declares `Level` |
| `Scenario.FieldNamesOverBases` | orm_1.py:122-146 | without a `Meta`, when only the first ancestor declares fields, `Meta.fields` is the class's own fields and that ancestor's |
| `Scenario.SubclassOverBases` | orm_1.py:122-150 | such a class builds, and a field only it declares is attached as declared |
| `Scenario.UserClassFields` | orm_1.py:370-375 | `User` over `Model` and `object`: its `Meta.fields` and its field attributes are exactly `id`, `Telephone`, `Name`, `Sex` |
| `Scenario.AdminOverUser` | orm_1.py:383-384 | `Admin` over an ancestor with `User`'s four fields, then `Model` and `object`: `Meta.fields` adds `Level`, attached as declared |
| `Scenario.AdminClassFields` | orm_1.py:383-384 | `Admin(User)` over the class `User` as built: `Meta.fields` is `{Level, id, Telephone, Name, Sex}` and `Level` stores under `_` |

## Left out

- Database access:
  - `connect()`, cursors, `execute`, `commit`, `close` and `gc.collect()` are left out.
  - The statements and parameters are returned instead. Rows read by `all()` are a parameter.
- The `methods` dictionary the metaclass fills: nothing reads it.
- `namespace.pop('__module__')`: the `__module__` entry plays no part in the schema.
- `print` in `ValidationError.__init__`.
- `FloatField` bounds: floating point is not modelled. Its `__set__` accepts any int or bool and refuses None and str; an int beyond ±1.79e38, which Python would refuse with ValidationError, is accepted.
- The stub `all`/`get` and the class-level `_query_set` of the earlier `QuerySet` (orm.py:180-196) do nothing.
- The earlier `QuerySet.__init__` (orm.py:184-187) behaves as the later one without a list, and `QuerySet.New` covers it.
- `Manage.__get__`: reading a manager is modelled as the `Manager` attribute. The `QuerySet` it would create is built with `QuerySet.New`.
- `getattr`'s fall-back from an instance to attributes inherited from base classes:
  - Only the class's own attribute map is consulted.
  - A built class carries every merged field itself, so this matters only for non-field attributes.
- Python's `__dict__` insertion order and set order: the model takes them as a parameter rather than deriving them.
- `Queries.QuerySet.New`: Python keeps the caller's list object, and the `+=` in `all()` (orm_1.py:215) extends that same list in place, so the caller sees the new rows. The model copies the list as a sequence, so that aliasing is not captured.
- `Schema.UpdateFields`: a `Meta.fields` declared as a list or tuple has no `update`, so orm_1.py:146 raises AttributeError. `FieldsAttr` holds only a set or a dict, so that case is not represented.
- The repository's demonstration instances (orm_1.py:387-392) and their `save` calls. Only the class builds of `User` and `Admin` are modelled.

## Findings

| source | as written | input that shows it | evidently intended | confidence | as-written member | corrected member |
|---|---|---|---|---|---|---|
| orm_1.py:134-140 | the MRO loop updates `fields` with every class of the MRO in order, so the last class that declares a name (the most remote ancestor) wins | a subclass that redeclares `Telephone = IntField('Phone')` over `User.Telephone`: the built class carries `User`'s field | the field declared in the subclass overrides the inherited one | not executed | `SchemaFixes.AncestorOverridesSubclass` | `SchemaFixes.FixedSubclassFieldWins` |
| orm_1.py:128-129 | a declared `Meta` without `fields` gets the `fields` dict itself, and `meta.fields.update(set(...))` on a dict raises ValueError for any name not two characters long | `class Meta: table_name = 'users'` in a model with a field `Name` (any field name not two characters long): ValueError at class definition | `Meta.fields` defaults to the set of field names, as it does without a `Meta` | not executed | `SchemaFixes.MetaWithoutFieldsRaises` | `SchemaFixes.FixedMetaFieldNames` |
