/** Two places where `ModelMeta.__new__` does not do what it evidently
    means to, each shown on the builder as written (`Schema.ClassSchema`) and
    repaired in `ClassSchemaFixed`:
    - in Python an attribute a subclass declares hides the inherited one, but
      the MRO loop (orm_1.py:134-140) writes the ancestor's field back over
      the subclass's;
    - a declared `Meta` without `fields` gets the `fields` dictionary itself
      as `Meta.fields`, and `dict.update` with a set of names then raises
      ValueError; the evident intent is `fields_names`, which the branch
      without a `Meta` uses (orm_1.py:131). */
module SchemaFixes {
  import opened Values
  import opened Fields
  import opened Schema

  /** The merge with the first class of the MRO winning a clash. */
  function MergeFirst(mro: seq<map<string, Attr>>): map<string, Field>
  {
    if |mro| == 0 then map[] else MergeFirst(mro[1..]) + FieldsOf(mro[0])
  }

  /** `Meta.fields` set to `fields_names` whenever the class does not
      declare it. */
  function FixedMetaFields(decl: ClassDecl): Option<FieldsAttr>
  {
    if decl.meta.Some? && decl.meta.value.fields.Some? then decl.meta.value.fields
    else Some(NameSet(FieldsOf(decl.namespace).Keys))
  }

  /** The builder with both repairs; everything else as written. */
  function ClassSchemaFixed(decl: ClassDecl, ancestors: seq<map<string, Attr>>): Result<ModelClass>
  {
    if !decl.hasModelBase then Ok(ModelClass(decl.name, decl.namespace, decl.meta))
    else Finish(decl, MergeFirst(Mro(decl, ancestors)), FixedMetaFields(decl))
  }

  // ---------------------------------------------------------------------
  // The repaired merge

  lemma {:induction false} MergeFirstKeys(mro: seq<map<string, Attr>>, n: string)
    ensures n in MergeFirst(mro) <==> exists j :: 0 <= j < |mro| && n in FieldsOf(mro[j])
  {
    if |mro| > 0 {
      var p := mro[1..];
      MergeFirstKeys(p, n);
      if n in MergeFirst(mro) && n !in FieldsOf(mro[0]) {
        var j :| 0 <= j < |p| && n in FieldsOf(p[j]);
        assert mro[j + 1] == p[j];
      }
      if exists j :: 0 <= j < |mro| && n in FieldsOf(mro[j]) {
        var j :| 0 <= j < |mro| && n in FieldsOf(mro[j]);
        if j > 0 {
          assert p[j - 1] == mro[j];
        }
      }
    }
  }

  /** On a clash the class earliest in the MRO (the most derived) wins. */
  lemma {:induction false} MergeFirstWins(mro: seq<map<string, Attr>>, n: string, j: int)
    requires 0 <= j < |mro| && n in FieldsOf(mro[j])
    requires forall k :: 0 <= k < j ==> n !in FieldsOf(mro[k])
    ensures n in MergeFirst(mro) && MergeFirst(mro)[n] == FieldsOf(mro[j])[n]
  {
    if j > 0 {
      var p := mro[1..];
      assert n !in FieldsOf(mro[0]);
      forall k | 0 <= k < j - 1
        ensures n !in FieldsOf(p[k])
      {
        assert p[k] == mro[k + 1];
      }
      assert p[j - 1] == mro[j];
      MergeFirstWins(p, n, j - 1);
    }
  }

  /** The repaired builder attaches, for every merged name, the field of the
      most derived class that declares it: a subclass's redeclaration
      overrides its ancestors'. */
  lemma {:induction false} FixedSubclassFieldWins(decl: ClassDecl, ancestors: seq<map<string, Attr>>,
                                                  n: string, j: int)
    requires decl.hasModelBase && ClassSchemaFixed(decl, ancestors).Ok?
    requires 0 <= j < |Mro(decl, ancestors)| && n in FieldsOf(Mro(decl, ancestors)[j])
    requires forall k :: 0 <= k < j ==> n !in FieldsOf(Mro(decl, ancestors)[k])
    requires n !in ManagerNames(decl.namespace) && (ManagerNames(decl.namespace) == {} ==> n != "objects")
    ensures n in ClassSchemaFixed(decl, ancestors).value.attrs
    ensures ClassSchemaFixed(decl, ancestors).value.attrs[n] == AField(FieldsOf(Mro(decl, ancestors)[j])[n])
  {
    var mro := Mro(decl, ancestors);
    MergeFirstWins(mro, n, j);
    var managers := SetManager(decl.namespace).value;
    assert n !in managers;
  }

  /** With the repair, a class that does not declare `Meta.fields` gets as
      `Meta.fields` the set of names declared as fields anywhere in its MRO,
      and the manager is not added to it. */
  lemma {:induction false} FixedMetaFieldNames(decl: ClassDecl, ancestors: seq<map<string, Attr>>, n: string)
    requires decl.hasModelBase && (decl.meta.None? || decl.meta.value.fields.None?)
    requires ClassSchemaFixed(decl, ancestors).Ok?
    ensures ClassSchemaFixed(decl, ancestors).value.HasSchema()
    ensures ClassSchemaFixed(decl, ancestors).value.meta.value.fields.value.NameSet?
    ensures n in ClassSchemaFixed(decl, ancestors).value.FieldNames()
        <==> exists j :: 0 <= j < |Mro(decl, ancestors)| && n in FieldsOf(Mro(decl, ancestors)[j])
  {
    var mro := Mro(decl, ancestors);
    MergeFirstKeys(mro, n);
    assert mro[0] == decl.namespace;
  }

  /** With the repair, building fails only for more than one manager, unless
      the class declares `Meta.fields` as a dict. */
  lemma FixedFailsOnlyOnManagers(decl: ClassDecl, ancestors: seq<map<string, Attr>>)
    requires decl.hasModelBase
    requires FixedMetaFields(decl).value.NameSet?
    ensures ClassSchemaFixed(decl, ancestors).Err? <==> |ManagerNames(decl.namespace)| > 1
  {
  }

  // ---------------------------------------------------------------------
  // The builder as written against the repaired one

  /** No name is declared as two different fields along the MRO. */
  ghost predicate NoRedeclaration(mro: seq<map<string, Attr>>)
  {
    forall j, k, n :: 0 <= j < k < |mro| && n in FieldsOf(mro[j]) && n in FieldsOf(mro[k]) ==>
      FieldsOf(mro[j])[n] == FieldsOf(mro[k])[n]
  }

  lemma {:induction false} MergeFieldsAnyIndex(mro: seq<map<string, Attr>>, n: string, j: int)
    requires NoRedeclaration(mro)
    requires 0 <= j < |mro| && n in FieldsOf(mro[j])
    ensures n in MergeFields(mro) && MergeFields(mro)[n] == FieldsOf(mro[j])[n]
  {
    var last := |mro| - 1;
    if n !in FieldsOf(mro[last]) {
      var p := mro[..last];
      assert p[j] == mro[j];
      assert NoRedeclaration(p) by {
        forall j', k', n' | 0 <= j' < k' < |p| && n' in FieldsOf(p[j']) && n' in FieldsOf(p[k'])
          ensures FieldsOf(p[j'])[n'] == FieldsOf(p[k'])[n']
        {
          assert p[j'] == mro[j'] && p[k'] == mro[k'];
        }
      }
      MergeFieldsAnyIndex(p, n, j);
    }
  }

  lemma {:induction false} MergeFirstAnyIndex(mro: seq<map<string, Attr>>, n: string, j: int)
    requires NoRedeclaration(mro)
    requires 0 <= j < |mro| && n in FieldsOf(mro[j])
    ensures n in MergeFirst(mro) && MergeFirst(mro)[n] == FieldsOf(mro[j])[n]
  {
    if n !in FieldsOf(mro[0]) {
      var p := mro[1..];
      assert p[j - 1] == mro[j];
      assert NoRedeclaration(p) by {
        forall j', k', n' | 0 <= j' < k' < |p| && n' in FieldsOf(p[j']) && n' in FieldsOf(p[k'])
          ensures FieldsOf(p[j'])[n'] == FieldsOf(p[k'])[n']
        {
          assert p[j'] == mro[j' + 1] && p[k'] == mro[k' + 1];
        }
      }
      MergeFirstAnyIndex(p, n, j - 1);
    }
  }

  /** When no field is redeclared along the MRO and `Meta.fields` is not
      left to the aliasing path, the builder as written and the repaired one
      build the same class. */
  lemma AsWrittenAgreesWithFixed(decl: ClassDecl, ancestors: seq<map<string, Attr>>)
    requires NoRedeclaration(Mro(decl, ancestors))
    requires decl.meta.None? || decl.meta.value.fields.Some?
    ensures ClassSchema(decl, ancestors) == ClassSchemaFixed(decl, ancestors)
  {
    if decl.hasModelBase {
      var mro := Mro(decl, ancestors);
      var asWritten := MergedFields(decl, ancestors);
      var fixed := MergeFirst(mro);
      forall n | n in asWritten
        ensures n in fixed && fixed[n] == asWritten[n]
      {
        MergeFieldsKeys(mro, n);
        var j :| 0 <= j < |mro| && n in FieldsOf(mro[j]);
        MergeFieldsAnyIndex(mro, n, j);
        MergeFirstAnyIndex(mro, n, j);
        if n in FieldsOf(decl.namespace) {
          assert mro[0] == decl.namespace;
          MergeFieldsAnyIndex(mro, n, 0);
        }
      }
      forall n | n in fixed
        ensures n in asWritten
      {
        MergeFirstKeys(mro, n);
        MergeFieldsKeys(mro, n);
      }
      assert asWritten == fixed;
    }
  }

  // ---------------------------------------------------------------------
  // The discrepancies, exhibited on the builder as written

  /** A subclass that redeclares a field of an ancestor, as in
      `class B(Model): x = IntField('x', default=1)` and
      `class S(B): x = IntField('x', default=2)`: as written the class gets
      the ancestor's field (default 1), repaired it keeps its own (default 2).
      `ancestors[j]` is the last ancestor body that declares the name. */
  lemma {:induction false} AncestorOverridesSubclass(decl: ClassDecl, ancestors: seq<map<string, Attr>>,
                                                     n: string, j: int)
    requires decl.hasModelBase && DeclaredMetaFields(decl).Some? && DeclaredMetaFields(decl).value.NameSet?
    requires |ManagerNames(decl.namespace)| <= 1 && n !in ManagerNames(decl.namespace) && n != "objects"
    requires n in FieldsOf(decl.namespace)
    requires 0 <= j < |ancestors| && n in FieldsOf(ancestors[j])
    requires FieldsOf(ancestors[j])[n] != FieldsOf(decl.namespace)[n]
    requires forall k :: j < k < |ancestors| ==> n !in FieldsOf(ancestors[k])
    ensures ClassSchema(decl, ancestors).Ok? && ClassSchemaFixed(decl, ancestors).Ok?
    ensures ClassSchema(decl, ancestors).value.attrs[n] == AField(FieldsOf(ancestors[j])[n])
    ensures ClassSchemaFixed(decl, ancestors).value.attrs[n] == AField(FieldsOf(decl.namespace)[n])
    ensures ClassSchema(decl, ancestors).value.attrs[n] != ClassSchemaFixed(decl, ancestors).value.attrs[n]
  {
    var mro := Mro(decl, ancestors);
    assert mro[0] == decl.namespace;
    assert mro[j + 1] == ancestors[j];
    forall k | j + 1 < k < |mro|
      ensures n !in FieldsOf(mro[k])
    {
      assert mro[k] == ancestors[k - 1];
    }
    SchemaAttachesLastField(decl, ancestors, n, j + 1);
    FixedSubclassFieldWins(decl, ancestors, n, 0);
  }

  /** As written, a class whose `Meta` omits `fields` fails to build with
      ValueError as soon as some merged field name is not exactly two
      characters long. */
  lemma MetaWithoutFieldsRaises(decl: ClassDecl, ancestors: seq<map<string, Attr>>, n: string)
    requires decl.hasModelBase && decl.meta.Some? && decl.meta.value.fields.None?
    requires n in MergedFields(decl, ancestors) && |n| != 2
    ensures ClassSchema(decl, ancestors) == Err(ValueError)
  {
  }

  /** As written, when every merged field name has two characters the build
      succeeds but `Meta.fields` is the field dictionary, so the manager's
      name ends up among the names `Meta.fields` lists. */
  lemma MetaWithoutFieldsListsManager(decl: ClassDecl, ancestors: seq<map<string, Attr>>)
    requires decl.hasModelBase && decl.meta.Some? && decl.meta.value.fields.None?
    requires forall n :: n in MergedFields(decl, ancestors) ==> |n| == 2
    requires ManagerNames(decl.namespace) == {}
    ensures ClassSchema(decl, ancestors).Ok?
    ensures "objects" in ClassSchema(decl, ancestors).value.FieldNames()
  {
  }

  /** As written, when every merged field name has two characters, each name
      `ab` becomes a pair `'a' -> 'b'` of the field dictionary; the loop that
      sets the dictionary's entries on the class then sets `a` on it as an
      ordinary attribute, listed in `Meta.fields` like a field. */
  lemma MetaWithoutFieldsAttachesPairs(decl: ClassDecl, ancestors: seq<map<string, Attr>>, n: string)
    requires decl.hasModelBase && decl.meta.Some? && decl.meta.value.fields.None?
    requires forall m :: m in MergedFields(decl, ancestors) ==> |m| == 2
    requires ManagerNames(decl.namespace) == {}
    requires n in MergedFields(decl, ancestors)
    ensures ClassSchema(decl, ancestors).Ok?
    ensures n[..1] in ClassSchema(decl, ancestors).value.attrs
    ensures ClassSchema(decl, ancestors).value.attrs[n[..1]] == AOther
    ensures n[..1] in ClassSchema(decl, ancestors).value.FieldNames()
  {
    var merged := MergedFields(decl, ancestors);
    var after := UpdateFields(NameDict(merged.Keys), merged.Keys).value;
    assert n[..1] in after.Names();
    assert n[..1] !in merged;
  }
}
