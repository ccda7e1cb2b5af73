/** The demonstration models of the repository, `User(Model)` and
    `Admin(User)`, run through the schema builder as written. */
module Scenario {
  import opened Values
  import opened Fields
  import opened Schema

  /** The root `Model` is created without schema building: its body keeps
      the `objects` manager and its methods. */
  function ModelBody(): map<string, Attr>
  {
    map["objects" := AManager, "__init__" := AOther, "save" := AOther, "update" := AOther]
  }

  /** `object` contributes no attributes that matter here. */
  function ObjectBody(): map<string, Attr>
  {
    map[]
  }

  /** The fields `User` declares. */
  function UserFieldNames(): set<string>
  {
    {"id", "Telephone", "Name", "Sex"}
  }

  function UserDecl(): ClassDecl
  {
    ClassDecl("User", true,
              map["id" := AField(NewIntField("id", None, None, true, VInt(0))),
                  "Telephone" := AField(NewIntField("Telephone", None, None, true, VInt(100))),
                  "Name" := AField(NewStrField("Name", None, None, true, VStr("some_name"))),
                  "Sex" := AField(NewStrField("Sex", None, None, true, VBool(true))),
                  "__init__" := AOther,
                  "update_telephone" := AOther],
              None)
  }

  /** `Level = IntField(required=True, default=-1)`: no name is given, so
      it stores under the bare key `_`. */
  function LevelField(): Field
  {
    NewIntField("", None, None, true, VInt(-1))
  }

  function AdminDecl(): ClassDecl
  {
    ClassDecl("Admin", true, map["Level" := AField(LevelField())], None)
  }

  /** `User` builds, whatever its ancestors hold: table `User`, the manager
      `objects` added. */
  lemma UserBuilds(user: ClassDecl, ancestors: seq<map<string, Attr>>)
    requires user == UserDecl()
    ensures ClassSchema(user, ancestors).Ok?
    ensures ClassSchema(user, ancestors).value.TableName() == "User"
    ensures ClassSchema(user, ancestors).value.attrs["objects"] == AManager
  {
    assert ManagerNames(user.namespace) == {};
    ManagerRule(user, ancestors);
    SchemaTableName(user, ancestors);
  }

  /** `Admin(User)` builds, whatever its ancestors hold, with the table name
      `Admin` and the manager `objects`. */
  lemma AdminBuilds(admin: ClassDecl, ancestors: seq<map<string, Attr>>)
    requires admin == AdminDecl()
    ensures ClassSchema(admin, ancestors).Ok?
    ensures ClassSchema(admin, ancestors).value.TableName() == "Admin"
    ensures ClassSchema(admin, ancestors).value.attrs["objects"] == AManager
  {
    assert ManagerNames(admin.namespace) == {};
    ManagerRule(admin, ancestors);
    SchemaTableName(admin, ancestors);
  }

  /** `ModelBody` and `ObjectBody` declare no fields; `User` declares its
      four and no manager. */
  lemma BodiesFields()
    ensures FieldsOf(ModelBody()) == map[] && FieldsOf(ObjectBody()) == map[]
    ensures FieldsOf(UserDecl().namespace).Keys == UserFieldNames()
    ensures ManagerNames(UserDecl().namespace) == {}
    ensures FieldsOf(AdminDecl().namespace).Keys == {"Level"}
  {
    assert "objects" in ModelBody();
    assert "id" in FieldsOf(UserDecl().namespace);
    assert "Level" in FieldsOf(AdminDecl().namespace);
  }

  /** A class without a `Meta` whose ancestors past the first declare no
      fields: the merged fields, and `Meta.fields`, are its own fields and
      those of its first ancestor. */
  lemma FieldNamesOverBases(decl: ClassDecl, ancestors: seq<map<string, Attr>>)
    requires decl.hasModelBase && decl.meta.None? && ClassSchema(decl, ancestors).Ok?
    requires |ancestors| > 0 && forall j :: 1 <= j < |ancestors| ==> FieldsOf(ancestors[j]) == map[]
    ensures MergedFields(decl, ancestors).Keys == FieldsOf(decl.namespace).Keys + FieldsOf(ancestors[0]).Keys
    ensures ClassSchema(decl, ancestors).value.FieldNames()
            == FieldsOf(decl.namespace).Keys + FieldsOf(ancestors[0]).Keys
  {
    var mro := Mro(decl, ancestors);
    forall n
      ensures n in MergedFields(decl, ancestors) <==> n in FieldsOf(mro[0]) || n in FieldsOf(mro[1])
      ensures n in ClassSchema(decl, ancestors).value.FieldNames() <==> n in FieldsOf(mro[0]) || n in FieldsOf(mro[1])
    {
      MergeFieldsKeys(mro, n);
      SchemaFieldNames(decl, ancestors, n);
      assert forall j :: 2 <= j < |mro| ==> FieldsOf(mro[j]) == FieldsOf(ancestors[j - 1]);
    }
  }

  /** `User` built over its real ancestors `Model` and `object`: its
      `Meta.fields` and its Field-typed attributes are exactly the four
      fields it declares, and `objects` is not among them. */
  lemma UserClassFields(user: ClassDecl, ancestors: seq<map<string, Attr>>)
    requires user == UserDecl() && ancestors == [ModelBody(), ObjectBody()]
    ensures ClassSchema(user, ancestors).Ok?
    ensures ClassSchema(user, ancestors).value.FieldNames() == UserFieldNames()
    ensures FieldsOf(ClassSchema(user, ancestors).value.attrs).Keys == UserFieldNames()
  {
    BodiesFields();
    UserBuilds(user, ancestors);
    FieldNamesOverBases(user, ancestors);
    assert SetManager(user.namespace).value.Keys == {"objects"};
    FinishFieldNames(user, MergedFields(user, ancestors), DeclaredMetaFields(user));
  }

  /** A subclass without a `Meta` or a manager, over ancestors of which
      only the first declares fields: it builds, `Meta.fields` is its own
      fields and the inherited ones, and a field only it declares is
      attached as declared. */
  lemma SubclassOverBases(decl: ClassDecl, ancestors: seq<map<string, Attr>>, n: string)
    requires decl.hasModelBase && decl.meta.None? && ManagerNames(decl.namespace) == {}
    requires |ancestors| > 0 && forall j :: 1 <= j < |ancestors| ==> FieldsOf(ancestors[j]) == map[]
    requires n in FieldsOf(decl.namespace) && n !in FieldsOf(ancestors[0]) && n != "objects"
    ensures ClassSchema(decl, ancestors).Ok?
    ensures ClassSchema(decl, ancestors).value.FieldNames()
            == FieldsOf(decl.namespace).Keys + FieldsOf(ancestors[0]).Keys
    ensures n in ClassSchema(decl, ancestors).value.attrs
    ensures ClassSchema(decl, ancestors).value.attrs[n] == AField(FieldsOf(decl.namespace)[n])
  {
    ManagerRule(decl, ancestors);
    FieldNamesOverBases(decl, ancestors);
    var mro := Mro(decl, ancestors);
    assert forall k :: 1 <= k < |mro| ==> mro[k] == ancestors[k - 1];
    SchemaAttachesLastField(decl, ancestors, n, 0);
  }

  /** `Admin` over a first ancestor that declares `User`'s four fields,
      then `Model` and `object`. */
  lemma AdminOverUser(admin: ClassDecl, ancestors: seq<map<string, Attr>>)
    requires admin == AdminDecl()
    requires |ancestors| == 3 && FieldsOf(ancestors[0]).Keys == UserFieldNames()
    requires ancestors[1] == ModelBody() && ancestors[2] == ObjectBody()
    ensures ClassSchema(admin, ancestors).Ok?
    ensures ClassSchema(admin, ancestors).value.FieldNames() == {"Level", "id", "Telephone", "Name", "Sex"}
    ensures ClassSchema(admin, ancestors).value.attrs["Level"] == AField(LevelField())
  {
    BodiesFields();
    SubclassOverBases(admin, ancestors, "Level");
  }

  /** `Admin(User)` built over its real ancestors (the class `User` as built,
      `Model`, `object`): `Meta.fields` holds `Level` and the four inherited
      fields, and `Level` is attached with its bare storage key `_`. */
  lemma AdminClassFields(admin: ClassDecl, userDecl: ClassDecl, user: ModelClass,
                         ancestors: seq<map<string, Attr>>)
    requires admin == AdminDecl() && userDecl == UserDecl()
    requires ClassSchema(userDecl, [ModelBody(), ObjectBody()]) == Ok(user)
    requires ancestors == [user.attrs, ModelBody(), ObjectBody()]
    ensures ClassSchema(admin, ancestors).Ok?
    ensures ClassSchema(admin, ancestors).value.FieldNames() == {"Level", "id", "Telephone", "Name", "Sex"}
    ensures ClassSchema(admin, ancestors).value.attrs["Level"] == AField(LevelField())
    ensures LevelField().key == "_"
  {
    UserClassFields(userDecl, [ModelBody(), ObjectBody()]);
    AdminOverUser(admin, ancestors);
  }
}
