/** `QuerySet`: the in-memory list of instances a manager hands out, with
    `create`, `all`, `get`, `__len__`, `__getitem__` and the text of the
    SELECT and DELETE statements. The rows `all()` fetches from the
    database are a parameter: the dictionaries the cursor returns for the
    SELECT statement, one keyword list per row. */
module Queries {
  import opened Values
  import opened Text
  import opened Schema
  import opened Models

  /** Python's `items[index]` on a list of length `n`: a negative index
      counts from the end; anything else out of range is an IndexError. */
  function PyIndex(n: nat, index: int): (r: Option<nat>)
    ensures r.Some? <==> -(n as int) <= index < n
    ensures r.Some? ==> r.value < n
    ensures r.Some? && index >= 0 ==> r.value == index
    ensures r.Some? && index < 0 ==> r.value == n + index
  {
    if 0 <= index < n then Some(index)
    else if -(n as int) <= index < 0 then Some(n + index)
    else None
  }

  /** The statement `all()` executes. */
  function SelectSql(c: ModelClass): (r: Result<string>)
    ensures r.Ok? <==> MetaTableName(c).Ok?
    ensures r.Err? ==> r.error == AttributeError
  {
    match MetaTableName(c)
    case Err(e) => Err(e)
    case Ok(table) => Ok("SELECT * FROM " + table + " ORDER BY id;")
  }

  /** The statement `delete(key)` executes with `key` as its one parameter;
      the text carries no closing `;`. */
  function DeleteSql(c: ModelClass): (r: Result<string>)
    ensures r.Ok? <==> MetaTableName(c).Ok?
    ensures r.Err? ==> r.error == AttributeError
  {
    match MetaTableName(c)
    case Err(e) => Err(e)
    case Ok(table) => Ok("DELETE FROM " + table + " WHERE id = %s")
  }

  /** The exception the comprehension `[cls(**line) for line in rows]`
      stops with, if any: the first row whose `__init__` raises. */
  function FirstInitError(c: ModelClass, rows: seq<seq<(string, Value)>>): (r: Option<Error>)
    ensures r.None? <==> forall j :: 0 <= j < |rows| ==> InitRun(c, map[], rows[j]).1.None?
    decreases |rows|
  {
    if |rows| == 0 then None
    else match FirstInitError(c, rows[..|rows| - 1])
      case Some(e) => Some(e)
      case None => InitRun(c, map[], rows[|rows| - 1]).1
  }

  lemma {:induction false} FirstInitErrorPrefix(c: ModelClass, rows: seq<seq<(string, Value)>>, k: int)
    requires 0 <= k <= |rows| && FirstInitError(c, rows[..k]).Some?
    ensures FirstInitError(c, rows) == FirstInitError(c, rows[..k])
    decreases |rows|
  {
    if k < |rows| {
      var init := rows[..|rows| - 1];
      assert init[..k] == rows[..k];
      FirstInitErrorPrefix(c, init, k);
    } else {
      assert rows[..k] == rows;
    }
  }

  /** The text between `FROM ` and the rest of a SELECT statement. */
  function SelectTable(s: string): string
  {
    var head := |"SELECT * FROM "|;
    var tail := |" ORDER BY id;"|;
    if |s| >= head + tail then s[head..|s| - tail] else ""
  }

  /** The table a SELECT statement reads can be read back from its text, and
      DELETE names the same table and ends with the one placeholder. */
  lemma SelectDeleteSameTable(c: ModelClass)
    requires SelectSql(c).Ok?
    ensures SelectTable(SelectSql(c).value) == c.meta.value.tableName.value
    ensures DeleteSql(c).Ok? && DeleteSql(c).value == "DELETE FROM " + SelectTable(SelectSql(c).value) + " WHERE id = %s"
  {
    var t := c.meta.value.tableName.value;
    var s := SelectSql(c).value;
    assert s == "SELECT * FROM " + t + " ORDER BY id;";
    assert s[|"SELECT * FROM "|..|s| - |" ORDER BY id;"|] == t;
  }

  /** Both statements fail exactly when `Meta.table_name` is missing. */
  lemma StatementsNeedTable(c: ModelClass)
    ensures SelectSql(c).Ok? <==> c.meta.Some? && c.meta.value.tableName.Some?
    ensures DeleteSql(c).Ok? <==> SelectSql(c).Ok?
    ensures SelectSql(c).Err? ==> SelectSql(c).error == AttributeError
  {
  }

  /** `get(key)` indexes with `key - 1`, so key 0 gives the last instance
      of a non-empty list, and keys 1..n give the instances in order. */
  lemma GetIndexing(n: nat, key: int)
    ensures 1 <= key <= n ==> PyIndex(n, key - 1) == Some(key - 1)
    ensures n > 0 && key == 0 ==> PyIndex(n, key - 1) == Some(n - 1)
    ensures key > n || key < 1 - n ==> PyIndex(n, key - 1).None?
  {
  }

  class QuerySet {
    /** `self.cls`: the model class the manager was read from. */
    const owner: ModelClass
    /** `self.query_set`. */
    var querySet: seq<Instance>

    constructor Make(owner: ModelClass, items: seq<Instance>)
      ensures this.owner == owner && querySet == items
    {
      this.owner := owner;
      querySet := items;
    }

    /** `QuerySet(owner, query_set)`: AttributeError without an owner; the
        list starts empty unless one is given. */
    static method New(owner: Option<ModelClass>, initial: Option<seq<Instance>>) returns (r: Result<QuerySet>)
      ensures r.Err? <==> owner.None?
      ensures r.Err? ==> r.error == AttributeError
      ensures r.Ok? ==> fresh(r.value) && r.value.owner == owner.value
      ensures r.Ok? ==> r.value.querySet == if initial.None? then [] else initial.value
    {
      if owner.None? {
        return Err(AttributeError);
      }
      var items := if initial.None? then [] else initial.value;
      var q := new QuerySet.Make(owner.value, items);
      r := Ok(q);
    }

    /** `__len__`. */
    function Len(): nat
      reads this
    {
      |querySet|
    }

    /** `__getitem__` with an integer index. */
    method GetItem(index: int) returns (r: Result<Instance>)
      ensures r.Ok? <==> -|querySet| <= index < |querySet|
      ensures r.Ok? && index >= 0 ==> r.value == querySet[index]
      ensures r.Ok? && index < 0 ==> r.value == querySet[|querySet| + index]
      ensures r.Err? ==> r.error == IndexError
    {
      var k := PyIndex(|querySet|, index);
      if k.None? {
        return Err(IndexError);
      }
      r := Ok(querySet[k.value]);
    }

    /** `create(**kwargs)`: `self.cls(**kwargs)`, a new instance that is not
        added to the list. */
    method Create(kwargs: seq<(string, Value)>) returns (r: Result<Instance>)
      ensures unchanged(this)
      ensures r.Err? <==> InitRun(owner, map[], kwargs).1.Some?
      ensures r.Err? ==> r.error == InitRun(owner, map[], kwargs).1.value
      ensures r.Ok? ==> fresh(r.value) && r.value.cls == owner && r.value.dict == InitRun(owner, map[], kwargs).0
    {
      var inst := new Instance(owner);
      var err := inst.Init(kwargs);
      if err.Some? {
        return Err(err.value);
      }
      r := Ok(inst);
    }

    /** `all()`: build one instance per fetched row, append them all to the
        list (the earlier instances stay) and return the query set itself.
        The list is built before it is appended, so an exception while
        building leaves the query set unchanged. */
    method All(rows: seq<seq<(string, Value)>>) returns (r: Result<QuerySet>)
      modifies this
      ensures SelectSql(owner).Err? ==> r == Err(SelectSql(owner).error) && querySet == old(querySet)
      ensures SelectSql(owner).Ok? && FirstInitError(owner, rows).Some? ==>
                r == Err(FirstInitError(owner, rows).value) && querySet == old(querySet)
      ensures r.Ok? <==> SelectSql(owner).Ok? && FirstInitError(owner, rows).None?
      ensures r.Ok? ==> r.value == this
      ensures r.Ok? ==> |querySet| == |old(querySet)| + |rows| && querySet[..|old(querySet)|] == old(querySet)
      ensures r.Ok? ==> forall j :: 0 <= j < |rows| ==>
                          && fresh(querySet[|old(querySet)| + j])
                          && querySet[|old(querySet)| + j].cls == owner
                          && querySet[|old(querySet)| + j].dict == InitRun(owner, map[], rows[j]).0
    {
      var sql := SelectSql(owner);
      if sql.Err? {
        return Err(sql.error);
      }
      var built: seq<Instance> := [];
      var i := 0;
      while i < |rows|
        invariant 0 <= i <= |rows| && |built| == i
        invariant FirstInitError(owner, rows[..i]).None?
        invariant forall j :: 0 <= j < i ==>
                    fresh(built[j]) && built[j].cls == owner && built[j].dict == InitRun(owner, map[], rows[j]).0
        invariant querySet == old(querySet)
      {
        assert rows[..i + 1][..i] == rows[..i];
        var inst := new Instance(owner);
        var err := inst.Init(rows[i]);
        if err.Some? {
          assert FirstInitError(owner, rows[..i + 1]) == err;
          FirstInitErrorPrefix(owner, rows, i + 1);
          return Err(err.value);
        }
        built := built + [inst];
        i := i + 1;
      }
      assert rows[..i] == rows;
      querySet := querySet + built;
      r := Ok(this);
    }

    /** `get(key)`: `all()`, then the instance at `key - 1` of the grown list;
        a missing key fails with TypeError after the rows were appended. */
    method Get(key: Option<int>, rows: seq<seq<(string, Value)>>) returns (r: Result<Instance>)
      modifies this
      ensures SelectSql(owner).Ok? && FirstInitError(owner, rows).None? ==>
                |querySet| == |old(querySet)| + |rows| && querySet[..|old(querySet)|] == old(querySet)
      ensures !(SelectSql(owner).Ok? && FirstInitError(owner, rows).None?) ==> r.Err? && querySet == old(querySet)
      ensures SelectSql(owner).Ok? && FirstInitError(owner, rows).None? && key.None? ==> r == Err(TypeError)
      ensures SelectSql(owner).Ok? && FirstInitError(owner, rows).None? && key.Some? ==>
                match PyIndex(|querySet|, key.value - 1)
                case None => r == Err(IndexError)
                case Some(k) => r == Ok(querySet[k])
    {
      var toGetFrom := All(rows);
      if toGetFrom.Err? {
        return Err(toGetFrom.error);
      }
      if key.None? {
        return Err(TypeError);  // `None - 1`
      }
      r := GetItem(key.value - 1);
    }

    /** `delete(key)`: the statement and its parameter. */
    method Delete(key: Value) returns (r: Result<(string, Value)>)
      ensures DeleteSql(owner).Err? ==> r == Err(DeleteSql(owner).error)
      ensures DeleteSql(owner).Ok? ==> r == Ok((DeleteSql(owner).value, key))
    {
      var sql := DeleteSql(owner);
      if sql.Err? {
        return Err(sql.error);
      }
      r := Ok((sql.value, key));
    }
  }
}
