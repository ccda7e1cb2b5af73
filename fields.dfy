/** Typed field descriptors: `Field`, `IntField`, `StrField`, `FloatField`.
    A descriptor keeps no instance data; it reads and writes the instance's
    attribute dictionary under the private key `'_' + field_name`. The
    dictionary operations are given here as functions on that dictionary;
    `Models.Instance` applies them to an instance's state. */
module Fields {
  import opened Values

  /** The bounds `IntField` and `StrField` set in their constructors. */
  const INT_MIN: int := -0x8000_0000
  const INT_MAX: int := 0x7fff_ffff
  const STR_MIN_LEN: int := 1
  const STR_MAX_LEN: int := 8000

  /** The callable a field keeps as `field_type` (`None` for a bare `Field`
      built without one). */
  datatype PyType = IntType | StrType | FloatType | NoType

  /** Which descriptor class the field is an instance of, with the bounds
      that class stores on the field. */
  datatype FieldKind =
    | PlainField
    | IntKind(minValue: int, maxValue: int)
    | StrKind(minLen: int, maxLen: int)
    | FloatKind

  /** A field object: `key` is its `field_name` attribute, i.e. the private
      key `'_' + <the name given to the constructor>`. */
  datatype Field = Field(kind: FieldKind, key: string, fieldType: PyType, required: bool, default: Value)

  /** `Field(field_name, field_type, required, default)`. */
  function NewField(fieldName: string, fieldType: PyType, required: bool, default: Value): Field
  {
    Field(PlainField, "_" + fieldName, fieldType, required, default)
  }

  /** `IntField(field_name, min_value, max_value, required, default)`: the
      bounds arguments are accepted and then not used. */
  function NewIntField(fieldName: string, minValue: Option<int>, maxValue: Option<int>,
                       required: bool, default: Value): Field
  {
    Field(IntKind(INT_MIN, INT_MAX), "_" + fieldName, IntType, required, default)
  }

  /** `StrField(field_name, min_len, max_len, required, default)`: the length
      arguments are accepted and then not used. */
  function NewStrField(fieldName: string, minLen: Option<int>, maxLen: Option<int>,
                       required: bool, default: Value): Field
  {
    Field(StrKind(STR_MIN_LEN, STR_MAX_LEN), "_" + fieldName, StrType, required, default)
  }

  /** `FloatField(field_name, min_value, max_value, required, default)`. */
  function NewFloatField(fieldName: string, required: bool, default: Value): Field
  {
    Field(FloatKind, "_" + fieldName, FloatType, required, default)
  }

  /** `__get__`: `getattr(instance, field_name, default)`. */
  function Read(d: map<string, Value>, f: Field): Value
  {
    if f.key in d then d[f.key] else f.default
  }

  /** `__set__`: the class's check, then `instance.__dict__[field_name] = value`.
      The value is stored as given; `required` plays no part. */
  function Assign(d: map<string, Value>, f: Field, v: Value): (r: Result<map<string, Value>>)
    ensures r.Ok? ==> r.value == d[f.key := v]
    ensures r.Err? ==> r.error == ValidationError || r.error == TypeError
    ensures f.kind.PlainField? ==> r.Ok?
    ensures f.kind.IntKind? && (v.VInt? || v.VBool?) ==>
              (r.Ok? <==> f.kind.minValue <= NumericValue(v) <= f.kind.maxValue)
    ensures f.kind.StrKind? && v.VStr? ==> (r.Ok? <==> f.kind.minLen <= |v.s| <= f.kind.maxLen)
    ensures (f.kind.IntKind? || f.kind.FloatKind?) && (v.VNone? || v.VStr?) ==> r == Err(TypeError)
    ensures f.kind.StrKind? && !v.VStr? ==> r == Err(TypeError)
  {
    match f.kind
    case PlainField => Ok(d[f.key := v])
    case IntKind(lo, hi) =>
      // `lo <= value <= hi` raises TypeError for None and str
      if v.VNone? || v.VStr? then Err(TypeError)
      else if lo <= NumericValue(v) <= hi then Ok(d[f.key := v])
      else Err(ValidationError)
    case StrKind(lo, hi) =>
      // `len(value)` raises TypeError for None, bool and int
      if !v.VStr? then Err(TypeError)
      else if lo <= |v.s| <= hi then Ok(d[f.key := v])
      else Err(ValidationError)
    case FloatKind =>
      if v.VNone? || v.VStr? then Err(TypeError) else Ok(d[f.key := v])
  }

  /** `__delete__`: `del instance.__dict__[field_name]`. */
  function Remove(d: map<string, Value>, f: Field): (r: Result<map<string, Value>>)
    ensures r.Ok? <==> f.key in d
    ensures r.Ok? ==> r.value == d - {f.key}
    ensures r.Err? ==> r.error == KeyError
  {
    if f.key in d then Ok(d - {f.key}) else Err(KeyError)
  }

  /** `Field.validate`: the required/None policy, then `field_type(value)`;
      `call` stands for applying a Python type to a value. */
  function Validate(f: Field, v: Value, call: (PyType, Value) -> Result<Value>): (r: Result<Value>)
    ensures v.VNone? && !f.required ==> r == Ok(VNone)
    ensures v.VNone? && f.required ==> r == Err(ValidationError)
    ensures !v.VNone? && f.fieldType != NoType ==> r == call(f.fieldType, v)
    ensures !v.VNone? && f.fieldType == NoType ==> r == Err(TypeError)
  {
    if v.VNone? && !f.required then Ok(VNone)
    else if v.VNone? && f.required then Err(ValidationError)
    else if f.fieldType == NoType then Err(TypeError)  // `None(value)` is not callable
    else call(f.fieldType, v)
  }

  /** The `get_sql_name` property; a bare `Field` has none. */
  function SqlTypeName(f: Field): (r: Result<string>)
    ensures r.Err? <==> f.kind.PlainField?
    ensures r.Err? ==> r.error == AttributeError
  {
    match f.kind
    case PlainField => Err(AttributeError)
    case IntKind(_, _) => Ok("INT(10)")
    case StrKind(_, _) => Ok("CHAR(255)")
    case FloatKind => Ok("FLOAT(53,8)")
  }

  /** The `types` dictionary of the earlier `save`, keyed by field class. */
  function TypesMap(f: Field): Option<string>
  {
    match f.kind
    case PlainField => None
    case IntKind(_, _) => Some("INT(10)")
    case FloatKind => Some("FLOAT(53,8)")
    case StrKind(_, _) => Some("CHAR(255)")
  }

  // ---------------------------------------------------------------------
  // Properties of the descriptors

  /** Assigning an int to any `IntField` succeeds exactly inside the 32-bit
      range, whatever `min_value`/`max_value` the constructor was given;
      otherwise ValidationError is raised and the dictionary is untouched. */
  lemma IntFieldAssign(d: map<string, Value>, name: string, minValue: Option<int>, maxValue: Option<int>,
                       required: bool, default: Value, i: int)
    ensures var r := Assign(d, NewIntField(name, minValue, maxValue, required, default), VInt(i));
            && (r.Ok? <==> -0x8000_0000 <= i <= 0x7fff_ffff)
            && (r.Ok? ==> r.value == d["_" + name := VInt(i)])
            && (r.Err? ==> r.error == ValidationError)
  {
  }

  /** Assigning a str to any `StrField` succeeds exactly when its length is
      in [1, 8000], whatever `min_len`/`max_len` the constructor was given. */
  lemma StrFieldAssign(d: map<string, Value>, name: string, minLen: Option<int>, maxLen: Option<int>,
                       required: bool, default: Value, s: string)
    ensures var r := Assign(d, NewStrField(name, minLen, maxLen, required, default), VStr(s));
            && (r.Ok? <==> 1 <= |s| <= 8000)
            && (r.Ok? ==> r.value == d["_" + name := VStr(s)])
            && (r.Err? ==> r.error == ValidationError)
  {
  }

  /** A bare `Field` stores any value under `'_' + field_name`, with no
      check at all. */
  lemma PlainFieldAssign(d: map<string, Value>, name: string, fieldType: PyType, required: bool,
                         default: Value, v: Value)
    ensures Assign(d, NewField(name, fieldType, required, default), v) == Ok(d["_" + name := v])
  {
  }

  /** A `FloatField` stores an int or a bool under `'_' + field_name`; None
      and str fail the bounds comparison with TypeError. */
  lemma FloatFieldAssign(d: map<string, Value>, name: string, required: bool, default: Value, v: Value)
    ensures var r := Assign(d, NewFloatField(name, required, default), v);
            && (r.Ok? <==> !(v.VNone? || v.VStr?))
            && (r.Ok? ==> r.value == d["_" + name := v])
            && (r.Err? ==> r.error == TypeError)
  {
  }

  /** Assigning None to an `IntField` or `StrField` raises TypeError whether
      or not the field is required: `__set__` never consults `required`. */
  lemma AssignNoneIgnoresRequired(d: map<string, Value>, f: Field)
    requires f.kind.IntKind? || f.kind.StrKind?
    ensures Assign(d, f, VNone) == Err(TypeError)
  {
  }

  /** A read after a successful assignment returns the assigned value. */
  lemma ReadAfterAssign(d: map<string, Value>, f: Field, v: Value)
    requires Assign(d, f, v).Ok?
    ensures Read(Assign(d, f, v).value, f) == v
  {
  }

  /** After a deletion the field reads its default; fields stored under
      other keys read as before. */
  lemma ReadAfterRemove(d: map<string, Value>, f: Field, g: Field)
    requires Remove(d, f).Ok?
    ensures Read(Remove(d, f).value, f) == f.default
    ensures g.key != f.key ==> Read(Remove(d, f).value, g) == Read(d, g)
  {
  }

  /** Two fields built with the same constructor name share one storage
      slot: assigning one changes what the other reads. */
  lemma SharedKeyAliases(d: map<string, Value>, f: Field, g: Field, v: Value)
    requires f.key == g.key && Assign(d, f, v).Ok?
    ensures Read(Assign(d, f, v).value, g) == v
  {
  }

  /** `validate` rejects None exactly for required fields, and otherwise
      hands the value to the field type without looking at the bounds. */
  lemma ValidateNone(f: Field, call: (PyType, Value) -> Result<Value>)
    ensures Validate(f, VNone, call).Err? <==> f.required
  {
  }

  /** The int-to-SQL type name is the same in both versions of `save`. */
  lemma SqlTypeNamesAgree(f: Field)
    ensures TypesMap(f).Some? <==> SqlTypeName(f).Ok?
    ensures TypesMap(f).Some? ==> TypesMap(f).value == SqlTypeName(f).value
  {
  }
}
