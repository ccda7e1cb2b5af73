/** The class-construction hook `ModelMeta.__new__` and `_set_manager`:
    merging Field attributes over the method-resolution order, choosing the
    table name, completing `Meta.fields` and attaching exactly one manager.
    Python's reflection (`type()`, `mro()`, `__dict__`, `setattr`) is
    replaced by explicit values: a class body is a map from attribute names
    to attributes, and the MRO is given as the list of those maps. */
module Schema {
  import opened Values
  import opened Fields

  /** A class attribute as the metaclass tells them apart: a `Field`
      instance, a `Manage` instance, or anything else. */
  datatype Attr = AField(field: Field) | AManager | AOther

  /** The value of `Meta.fields`: a set of names, or a dict. Only the keys of
      a dict matter to `in` and to iteration, so only they are kept. */
  datatype FieldsAttr = NameSet(names: set<string>) | NameDict(keys: set<string>)
  {
    function Names(): set<string>
    {
      if NameSet? then names else keys
    }
  }

  /** A `Meta` inner class: whether it has `table_name` and `fields`. */
  datatype MetaDecl = MetaDecl(tableName: Option<string>, fields: Option<FieldsAttr>)

  /** The arguments of `ModelMeta.__new__`: the class name, whether some base
      is itself built by `ModelMeta`, the class body without `__module__`
      and `Meta`, and the `Meta` declared in the body, if any. */
  datatype ClassDecl = ClassDecl(name: string, hasModelBase: bool, namespace: map<string, Attr>,
                                 meta: Option<MetaDecl>)

  /** A class object: its own `__dict__` (apart from `Meta`) and its `Meta`. */
  datatype ModelClass = ModelClass(name: string, attrs: map<string, Attr>, meta: Option<MetaDecl>)
  {
    /** `Meta.table_name` and `Meta.fields` both exist. */
    predicate HasSchema()
    {
      meta.Some? && meta.value.tableName.Some? && meta.value.fields.Some?
    }

    function TableName(): string
      requires HasSchema()
    {
      meta.value.tableName.value
    }

    /** The names `in Meta.fields` accepts and `for ... in Meta.fields` visits. */
    function FieldNames(): set<string>
      requires HasSchema()
    {
      meta.value.fields.value.Names()
    }
  }

  /** The Field-typed attributes of one class body. */
  function FieldsOf(d: map<string, Attr>): map<string, Field>
  {
    map n | n in d && d[n].AField? :: d[n].field
  }

  /** The Field-typed attributes whose names are in `ks`. */
  function FieldsOfKeys(d: map<string, Attr>, ks: set<string>): map<string, Field>
  {
    map n | n in ks && n in d && d[n].AField? :: d[n].field
  }

  function ManagerNames(d: map<string, Attr>): set<string>
  {
    set n | n in d && d[n].AManager?
  }

  /** The new class followed by its ancestors: `new_class.mro()`. */
  function Mro(decl: ClassDecl, ancestors: seq<map<string, Attr>>): seq<map<string, Attr>>
  {
    [decl.namespace] + ancestors
  }

  /** `fields.update(...)` for every class of the MRO in turn: on a clash
      the class later in the MRO wins. */
  function MergeFields(mro: seq<map<string, Attr>>): map<string, Field>
  {
    if |mro| == 0 then map[] else MergeFields(mro[..|mro| - 1]) + FieldsOf(mro[|mro| - 1])
  }

  /** The field dictionary after the MRO loop: the body's own fields, then
      every class of the MRO merged over them. */
  function MergedFields(decl: ClassDecl, ancestors: seq<map<string, Attr>>): map<string, Field>
  {
    FieldsOf(decl.namespace) + MergeFields(Mro(decl, ancestors))
  }

  /** `table_name` of the declared `Meta`, else the class name. */
  function TableNameOf(decl: ClassDecl): string
  {
    if decl.meta.Some? && decl.meta.value.tableName.Some? then decl.meta.value.tableName.value
    else decl.name
  }

  /** `meta.fields` just before `meta.fields.update(...)`. `None` stands for
      the case where the declared `Meta` had no `fields`: the code then makes
      `meta.fields` the `fields` dictionary itself. */
  function DeclaredMetaFields(decl: ClassDecl): Option<FieldsAttr>
  {
    match decl.meta
    case None => Some(NameSet(FieldsOf(decl.namespace).Keys))
    case Some(m) => m.fields
  }

  /** `_set_manager(namespace)`: no manager yields `{'objects': Manage()}`,
      one is returned as is, more than one raises AttributeError. */
  function SetManager(ns: map<string, Attr>): (r: Result<map<string, Attr>>)
    ensures r.Err? <==> |ManagerNames(ns)| > 1
    ensures r.Err? ==> r.error == AttributeError
    ensures r.Ok? && |ManagerNames(ns)| == 0 ==> r.value == map["objects" := AManager]
    ensures r.Ok? && |ManagerNames(ns)| == 1 ==>
              r.value.Keys == ManagerNames(ns) && forall n :: n in r.value ==> r.value[n] == ns[n]
  {
    if |ManagerNames(ns)| == 0 then Ok(map["objects" := AManager])
    else if |ManagerNames(ns)| > 1 then Err(AttributeError)
    else Ok(map n | n in ns && ns[n].AManager? :: ns[n])
  }

  /** `meta.fields.update(names)`. A set gains the names. A dict treats each
      name as a key/value pair, so every name must have exactly two
      characters (the first becomes a key); any other raises ValueError. */
  function UpdateFields(fa: FieldsAttr, names: set<string>): (r: Result<FieldsAttr>)
    ensures fa.NameSet? ==> r == Ok(NameSet(fa.names + names))
    ensures fa.NameDict? ==> (r.Ok? <==> forall n :: n in names ==> |n| == 2)
    ensures r.Err? ==> r.error == ValueError
    ensures r.Ok? ==> r.value.NameSet? == fa.NameSet? && fa.Names() <= r.value.Names()
  {
    match fa
    case NameSet(s) => Ok(NameSet(s + names))
    case NameDict(k) =>
      if exists n :: n in names && |n| != 2 then Err(ValueError)
      else Ok(NameDict(k + set n | n in names && |n| == 2 :: n[..1]))
  }

  /** Lines 146-152 of the builder: complete `Meta.fields`, add the manager,
      attach `Meta` and every merged field (and the manager) to the class. */
  function Finish(decl: ClassDecl, merged: map<string, Field>, metaFields: Option<FieldsAttr>)
    : (r: Result<ModelClass>)
    ensures r.Ok? ==> r.value.name == decl.name && decl.namespace.Keys + merged.Keys <= r.value.attrs.Keys
    ensures r.Ok? ==> r.value.meta.Some? && r.value.meta.value.tableName == Some(TableNameOf(decl))
  {
    var before := if metaFields.Some? then metaFields.value else NameDict(merged.Keys);
    match UpdateFields(before, merged.Keys)
    case Err(e) => Err(e)
    case Ok(after) =>
      match SetManager(decl.namespace)
      case Err(e) => Err(e)
      case Ok(managers) =>
        // when `meta.fields` is the `fields` dict, adding the manager to
        // `fields` adds it to `meta.fields` as well
        var final := if metaFields.None? then NameDict(after.Names() + managers.Keys) else after;
        var body := decl.namespace + map n | n in merged :: AField(merged[n]);
        // the pairs `dict.update` took from the two-character names are
        // entries of `fields` too, so they are set on the class as well
        var withPairs := if metaFields.None? then body + map k | k in after.Names() - before.Names() :: AOther
                         else body;
        Ok(ModelClass(decl.name, withPairs + managers, Some(MetaDecl(Some(TableNameOf(decl)), Some(final)))))
  }

  /** `ModelMeta.__new__` as written. `ancestors` are the bodies of
      `new_class.mro()[1:]`. A class none of whose bases is built by
      `ModelMeta` (the root `Model`) is created as declared. */
  function ClassSchema(decl: ClassDecl, ancestors: seq<map<string, Attr>>): (r: Result<ModelClass>)
    ensures r.Ok? ==> r.value.name == decl.name && decl.namespace.Keys <= r.value.attrs.Keys
  {
    if !decl.hasModelBase then Ok(ModelClass(decl.name, decl.namespace, decl.meta))
    else Finish(decl, MergedFields(decl, ancestors), DeclaredMetaFields(decl))
  }

  /** The inner loop of the metaclass: every Field-typed item of one
      class's `__dict__` is written into `fields` with `fields.update`. */
  method UpdateFromClass(fields: map<string, Field>, d: map<string, Attr>) returns (r: map<string, Field>)
    ensures r == fields + FieldsOf(d)
  {
    r := fields;
    var todo := d.Keys;
    while todo != {}
      invariant todo <= d.Keys
      invariant r == fields + FieldsOfKeys(d, d.Keys - todo)
      decreases todo
    {
      var n :| n in todo;
      FieldsOfKeysStep(d, d.Keys - todo, n);
      if d[n].AField? {
        r := r[n := d[n].field];
      }
      todo := todo - {n};
      assert d.Keys - todo == (d.Keys - (todo + {n})) + {n};
    }
    assert FieldsOfKeys(d, d.Keys) == FieldsOf(d);
  }

  lemma FieldsOfKeysStep(d: map<string, Attr>, done: set<string>, n: string)
    requires n in d && n !in done
    ensures FieldsOfKeys(d, done + {n})
         == if d[n].AField? then FieldsOfKeys(d, done)[n := d[n].field] else FieldsOfKeys(d, done)
  {
  }

  /** The loop over `new_class.mro()`: each class's fields are merged into
      `fields` in MRO order. */
  method MergeOverMro(own: map<string, Field>, mro: seq<map<string, Attr>>) returns (fields: map<string, Field>)
    ensures fields == own + MergeFields(mro)
  {
    fields := own;
    for i := 0 to |mro|
      invariant fields == own + MergeFields(mro[..i])
    {
      ghost var prev := MergeFields(mro[..i]);
      fields := UpdateFromClass(fields, mro[i]);
      assert mro[..i + 1][..i] == mro[..i];
      assert MergeFields(mro[..i + 1]) == prev + FieldsOf(mro[i]);
      MapUnionAssoc(own, prev, FieldsOf(mro[i]));
    }
    assert mro[..|mro|] == mro;
  }

  lemma MapUnionAssoc<K, V>(a: map<K, V>, b: map<K, V>, c: map<K, V>)
    ensures (a + b) + c == a + (b + c)
  {
  }

  /** `ModelMeta.__new__` run step by step. */
  method BuildClass(decl: ClassDecl, ancestors: seq<map<string, Attr>>) returns (r: Result<ModelClass>)
    ensures r == ClassSchema(decl, ancestors)
  {
    if !decl.hasModelBase {
      return Ok(ModelClass(decl.name, decl.namespace, decl.meta));
    }
    var fields := FieldsOf(decl.namespace);
    var metaFields := DeclaredMetaFields(decl);
    fields := MergeOverMro(fields, Mro(decl, ancestors));
    r := Finish(decl, fields, metaFields);
  }

  // ---------------------------------------------------------------------
  // The merge over the MRO

  /** A name is merged exactly when some class of the MRO declares it as a
      field. */
  lemma {:induction false} MergeFieldsKeys(mro: seq<map<string, Attr>>, n: string)
    ensures n in MergeFields(mro) <==> exists j :: 0 <= j < |mro| && n in FieldsOf(mro[j])
  {
    if |mro| > 0 {
      var last := |mro| - 1;
      var p := mro[..last];
      MergeFieldsKeys(p, n);
      if n in MergeFields(mro) && n !in FieldsOf(mro[last]) {
        var j :| 0 <= j < |p| && n in FieldsOf(p[j]);
        assert mro[j] == p[j];
      }
      if exists j :: 0 <= j < |mro| && n in FieldsOf(mro[j]) {
        var j :| 0 <= j < |mro| && n in FieldsOf(mro[j]);
        if j < last {
          assert p[j] == mro[j];
        }
      }
    }
  }

  /** On a name clash the entry of the class latest in the MRO is kept. */
  lemma {:induction false} MergeFieldsLastWins(mro: seq<map<string, Attr>>, n: string, j: int)
    requires 0 <= j < |mro| && n in FieldsOf(mro[j])
    requires forall k :: j < k < |mro| ==> n !in FieldsOf(mro[k])
    ensures n in MergeFields(mro) && MergeFields(mro)[n] == FieldsOf(mro[j])[n]
  {
    var last := |mro| - 1;
    if j < last {
      var p := mro[..last];
      assert n !in FieldsOf(mro[last]);
      forall k | j < k < |p|
        ensures n !in FieldsOf(p[k])
      {
        assert p[k] == mro[k];
      }
      assert p[j] == mro[j];
      MergeFieldsLastWins(p, n, j);
    }
  }

  // ---------------------------------------------------------------------
  // What the builder produces

  /** A class built from a Model base has a table name: the declared
      `Meta.table_name`, else the class name; the root class is kept as
      declared. */
  lemma SchemaTableName(decl: ClassDecl, ancestors: seq<map<string, Attr>>)
    requires ClassSchema(decl, ancestors).Ok?
    ensures var c := ClassSchema(decl, ancestors).value;
            && (decl.hasModelBase ==> c.HasSchema() && c.TableName() == TableNameOf(decl))
            && (!decl.hasModelBase ==> c == ModelClass(decl.name, decl.namespace, decl.meta))
            && c.name == decl.name
  {
  }

  /** Without a declared `Meta`, `Meta.fields` is exactly the set of names
      that some class of the MRO declares as a field; the manager is not
      among them unless a class declares a field of that name. */
  lemma {:induction false} SchemaFieldNames(decl: ClassDecl, ancestors: seq<map<string, Attr>>, n: string)
    requires decl.hasModelBase && decl.meta.None?
    requires ClassSchema(decl, ancestors).Ok?
    ensures ClassSchema(decl, ancestors).value.HasSchema()
    ensures n in ClassSchema(decl, ancestors).value.FieldNames()
        <==> exists j :: 0 <= j < |Mro(decl, ancestors)| && n in FieldsOf(Mro(decl, ancestors)[j])
  {
    var mro := Mro(decl, ancestors);
    MergeFieldsKeys(mro, n);
    assert mro[0] == decl.namespace;
  }

  /** Every merged field is attached to the new class, and it is the one
      from the class latest in the MRO that declares the name (unless the
      manager took the name). */
  lemma {:induction false} SchemaAttachesLastField(decl: ClassDecl, ancestors: seq<map<string, Attr>>,
                                                   n: string, j: int)
    requires decl.hasModelBase && ClassSchema(decl, ancestors).Ok?
    requires 0 <= j < |Mro(decl, ancestors)| && n in FieldsOf(Mro(decl, ancestors)[j])
    requires forall k :: j < k < |Mro(decl, ancestors)| ==> n !in FieldsOf(Mro(decl, ancestors)[k])
    requires n !in ManagerNames(decl.namespace) && (ManagerNames(decl.namespace) == {} ==> n != "objects")
    ensures n in ClassSchema(decl, ancestors).value.attrs
    ensures ClassSchema(decl, ancestors).value.attrs[n] == AField(FieldsOf(Mro(decl, ancestors)[j])[n])
  {
    var mro := Mro(decl, ancestors);
    MergeFieldsLastWins(mro, n, j);
    var merged := MergedFields(decl, ancestors);
    assert merged[n] == FieldsOf(mro[j])[n];
    FinishAttaches(decl, merged, DeclaredMetaFields(decl), n);
  }

  /** `Finish` sets every merged field on the class unless the manager
      takes its name: a merged name is among the names `fields` started
      with, so no pair taken from a two-character name replaces it. */
  lemma FinishAttaches(decl: ClassDecl, merged: map<string, Field>, metaFields: Option<FieldsAttr>, n: string)
    requires Finish(decl, merged, metaFields).Ok? && n in merged
    requires n !in ManagerNames(decl.namespace) && (ManagerNames(decl.namespace) == {} ==> n != "objects")
    ensures n in Finish(decl, merged, metaFields).value.attrs
    ensures Finish(decl, merged, metaFields).value.attrs[n] == AField(merged[n])
  {
    var before := if metaFields.Some? then metaFields.value else NameDict(merged.Keys);
    var after := UpdateFields(before, merged.Keys).value;
    var managers := SetManager(decl.namespace).value;
    assert n !in managers;
    var body := decl.namespace + map m | m in merged :: AField(merged[m]);
    if metaFields.None? {
      var pairs := map k | k in after.Names() - before.Names() :: AOther;
      assert n in before.Names();
      assert Finish(decl, merged, metaFields).value.attrs == body + pairs + managers;
    } else {
      assert Finish(decl, merged, metaFields).value.attrs == body + managers;
    }
  }

  /** When `Meta.fields` is a set of its own, the Field-typed attributes of
      the new class are exactly the merged fields, less a name the manager
      takes. */
  lemma FinishFieldNames(decl: ClassDecl, merged: map<string, Field>, metaFields: Option<FieldsAttr>)
    requires Finish(decl, merged, metaFields).Ok? && metaFields.Some?
    requires FieldsOf(decl.namespace).Keys <= merged.Keys
    ensures FieldsOf(Finish(decl, merged, metaFields).value.attrs).Keys
            == merged.Keys - SetManager(decl.namespace).value.Keys
  {
    var managers := SetManager(decl.namespace).value;
    var attached := map m | m in merged :: AField(merged[m]);
    assert Finish(decl, merged, metaFields).value.attrs == decl.namespace + attached + managers;
    forall n | n in managers
      ensures managers[n].AManager?
    {
      if |ManagerNames(decl.namespace)| == 1 {
        assert n in ManagerNames(decl.namespace);
      }
    }
    AttachedFieldNames(decl.namespace, merged, managers);
  }

  /** Over a body whose fields are all among `merged`, attaching `merged`
      and then managers leaves exactly the merged names not taken by a
      manager as fields. */
  lemma AttachedFieldNames(ns: map<string, Attr>, merged: map<string, Field>, managers: map<string, Attr>)
    requires FieldsOf(ns).Keys <= merged.Keys
    requires forall n :: n in managers ==> managers[n].AManager?
    ensures FieldsOf(ns + (map m | m in merged :: AField(merged[m])) + managers).Keys
            == merged.Keys - managers.Keys
  {
    var attached := map m | m in merged :: AField(merged[m]);
    var attrs := ns + attached + managers;
    forall n | n in attrs && attrs[n].AField?
      ensures n in merged && n !in managers
    {
      if n !in managers && n in ns {
        assert ns[n].AField? ==> n in FieldsOf(ns);
      }
    }
    forall n | n in merged && n !in managers
      ensures n in attrs && attrs[n].AField?
    {
      assert attrs[n] == attached[n];
    }
  }

  /** The manager rule: more than one manager in the class body is an
      AttributeError at class-definition time; with none, `objects` is added;
      a successful build has a manager attribute. */
  lemma ManagerRule(decl: ClassDecl, ancestors: seq<map<string, Attr>>)
    requires decl.hasModelBase && DeclaredMetaFields(decl).Some? && DeclaredMetaFields(decl).value.NameSet?
    ensures ClassSchema(decl, ancestors).Err? <==> |ManagerNames(decl.namespace)| > 1
    ensures ClassSchema(decl, ancestors).Err? ==> ClassSchema(decl, ancestors).error == AttributeError
    ensures ClassSchema(decl, ancestors).Ok? && ManagerNames(decl.namespace) == {} ==>
              ClassSchema(decl, ancestors).value.attrs["objects"] == AManager
    ensures ClassSchema(decl, ancestors).Ok? ==>
              exists m :: m in ClassSchema(decl, ancestors).value.attrs
                       && ClassSchema(decl, ancestors).value.attrs[m] == AManager
  {
    if ClassSchema(decl, ancestors).Ok? && ManagerNames(decl.namespace) != {} {
      var m :| m in ManagerNames(decl.namespace);
      var managers := SetManager(decl.namespace).value;
      assert m in managers;
    }
  }

  /** With a `Meta` of its own whose `fields` is a set, or with no
      `Meta`, the manager is added after `Meta.fields` is completed and so is
      not among its names, unless a class declares a field of that name. */
  lemma ManagerNotInMetaFields(decl: ClassDecl, ancestors: seq<map<string, Attr>>, m: string)
    requires decl.hasModelBase && ClassSchema(decl, ancestors).Ok?
    requires DeclaredMetaFields(decl).Some? && DeclaredMetaFields(decl).value.NameSet?
    requires m !in DeclaredMetaFields(decl).value.Names()
    requires m !in MergedFields(decl, ancestors)
    ensures m !in ClassSchema(decl, ancestors).value.FieldNames()
  {
    var merged := MergedFields(decl, ancestors);
    var before := DeclaredMetaFields(decl).value;
    assert UpdateFields(before, merged.Keys) == Ok(NameSet(before.names + merged.Keys));
  }
}
