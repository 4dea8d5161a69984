/** `SQLInsertQuery`: the four fields of an INSERT statement and their rendering
    to SQL text. */
module InsertQuery {
  import opened Base

  /** The fields of an `SQLInsertQuery`; `None` is Java's `null`. `values` holds the
      already rendered value source: a `VALUES (...)` clause or a nested SELECT. */
  datatype QueryState = QueryState(
    onConflict: Option<OnConflict>,
    table: Option<string>,
    columns: Option<seq<string>>,
    values: Option<string>)

  /** The fields of a freshly constructed query: all null. */
  const Unset := QueryState(None, None, None, None)

  /** `StringBuilder.append(String)`: a null string is appended as the text "null". */
  function AppendText(s: Option<string>): (r: string) {
    if s.Some? then s.value else "null"
  }

  /** The text `setValues` stores: the joined value list inside `VALUES (` and `)`. */
  function ValuesClause(vs: Option<seq<string>>): (r: string) {
    "VALUES (" + Join(vs) + ")"
  }

  /** The statement `getSQL` produces, written as one concatenation per case. */
  function Render(q: QueryState): (r: Result<string>)
    ensures r.Err? <==> q.table.None?
    ensures r.Err? ==> r.error == NullPointer
    ensures r.Ok? ==> "INSERT " <= r.value
    ensures r.Ok? ==> EndsWith(r.value, ") " + AppendText(q.values))
  {
    if q.table.None? then Err(NullPointer)
    else
      var prefix := if q.onConflict.None? then "INSERT INTO "
                    else "INSERT OR " + Action(q.onConflict.value) + " INTO ";
      var head := prefix + q.table.value + " (" + Join(q.columns);
      assert "INSERT " <= head by {
        assert head == prefix + (q.table.value + " (" + Join(q.columns));
      }
      var s := head + ") " + AppendText(q.values);
      assert s == head + (") " + AppendText(q.values));
      Ok(s)
  }

  /** Rendering depends on the value source only through its text: two queries that
      agree on every other field render to the same statement exactly when their
      value texts are equal. */
  lemma RenderTailDecides(q1: QueryState, q2: QueryState)
    requires q1.table.Some? && q1.onConflict == q2.onConflict
    requires q1.table == q2.table && q1.columns == q2.columns
    ensures Render(q1) == Render(q2) <==> AppendText(q1.values) == AppendText(q2.values)
  {
    if Render(q1) == Render(q2) {
      var s1, s2 := Render(q1).value, Render(q2).value;
      var t1, t2 := AppendText(q1.values), AppendText(q2.values);
      assert |s1| - |t1| == |s2| - |t2| by {
        var prefix := if q1.onConflict.None? then "INSERT INTO "
                      else "INSERT OR " + Action(q1.onConflict.value) + " INTO ";
        var head := prefix + q1.table.value + " (" + Join(q1.columns) + ") ";
        assert s1 == head + t1;
        assert s2 == head + t2;
      }
      assert t1 == s1[|s1| - |t1|..];
      assert t2 == s2[|s2| - |t2|..];
    }
  }

  /** The mutable query object. Setters overwrite one field each; `GetSQL` reads them. */
  class SQLInsertQuery {
    var onConflict: Option<OnConflict>
    var table: Option<string>
    var columns: Option<seq<string>>
    var values: Option<string>

    function State(): QueryState
      reads this
    {
      QueryState(onConflict, table, columns, values)
    }

    constructor ()
      ensures State() == Unset
    {
      onConflict, table, columns, values := None, None, None, None;
    }

    /** `getSQL`: throws NullPointerException when the table is null, otherwise builds
        the statement fragment by fragment. It changes no field, so two calls on the
        same state return equal text. */
    method GetSQL() returns (r: Result<string>)
      ensures r == Render(State())
    {
      if table.None? {
        return Err(NullPointer);
      }
      var sb: string := [];
      sb := sb + "INSERT ";
      if onConflict.Some? {
        sb := sb + "OR ";
        sb := sb + Action(onConflict.value);
        sb := sb + " ";
      }
      ghost var prefix := sb + "INTO ";
      assert onConflict.None? ==> prefix == "INSERT INTO ";
      assert onConflict.Some? ==> prefix == "INSERT OR " + Action(onConflict.value) + " INTO ";
      sb := sb + "INTO ";
      sb := sb + table.value;
      sb := sb + " (";
      sb := sb + Join(columns);
      sb := sb + ") ";
      sb := sb + AppendText(values);
      assert sb == prefix + table.value + " (" + Join(columns) + ") " + AppendText(values);
      r := Ok(sb);
    }

    method SetColumns(cols: Option<seq<string>>)
      modifies this
      ensures State() == old(State()).(columns := cols)
    {
      columns := cols;
    }

    method SetOnConflict(policy: Option<OnConflict>)
      modifies this
      ensures State() == old(State()).(onConflict := policy)
    {
      onConflict := policy;
    }

    /** `setSelect`: `select` is the nested query object, given here by its rendered
        text; a null object makes `select.getSQL()` throw before any field changes. */
    method SetSelect(select: Option<string>) returns (o: Outcome)
      modifies this
      ensures select.None? ==> o == Fail(NullPointer) && State() == old(State())
      ensures select.Some? ==> o == Pass && State() == old(State()).(values := select)
    {
      if select.None? {
        return Fail(NullPointer);
      }
      values := Some(select.value);
      o := Pass;
    }

    method SetValues(vs: Option<seq<string>>)
      modifies this
      ensures State() == old(State()).(values := Some(ValuesClause(vs)))
    {
      values := Some("VALUES (" + Join(vs) + ")");
    }

    method SetTable(t: Option<string>)
      modifies this
      ensures State() == old(State()).(table := t)
    {
      table := t;
    }
  }
}
