/** `SQLInsertQuery.Builder`: a single-use builder around one query object. Every
    mutator first checks that `build()` has not been called. */
module InsertBuilder {
  import opened Base
  import opened InsertQuery

  /** The wrapped query's fields and the `buildCalled` flag. */
  datatype BuilderState = BuilderState(query: QueryState, built: bool)

  const Initial := BuilderState(Unset, false)

  /** One call on the builder. `Values` is `values(String[])`, `Value` is
      `values(String)`, `InsertIntoWithConflict` is `insertInto(OnConflict, String)`,
      `InsertInto` is `insertInto(String)`; `Select` carries the nested query's
      rendered text, `None` for a null query object. */
  datatype Call =
    | Columns(columns: Option<seq<string>>)
    | Values(values: Option<seq<string>>)
    | Value(value: string)
    | InsertIntoWithConflict(onConflict: Option<OnConflict>, table: Option<string>)
    | InsertInto(table: Option<string>)
    | Select(select: Option<string>)
    | Build

  /** The builder's state after a call, and whether the call completed or threw. */
  datatype Transition = Transition(state: BuilderState, outcome: Outcome)

  /** What a mutator does to the query once `checkNotBuilt` has passed. */
  function Apply(q: QueryState, c: Call): (t: Transition)
    requires !c.Build?
  {
    match c
    case Columns(cols) => Transition(BuilderState(q.(columns := cols), false), Pass)
    case Values(vs) => Transition(BuilderState(q.(values := Some(ValuesClause(vs))), false), Pass)
    case Value(v) => Transition(BuilderState(q.(values := Some(ValuesClause(Some([v])))), false), Pass)
    case InsertIntoWithConflict(p, t) => Transition(BuilderState(q.(onConflict := p, table := t), false), Pass)
    case InsertInto(t) => Transition(BuilderState(q.(onConflict := None, table := t), false), Pass)
    case Select(s) =>
      if s.None? then Transition(BuilderState(q, false), Fail(NullPointer))
      else Transition(BuilderState(q.(values := s), false), Pass)
  }

  /** One call on the builder, as the Java code performs it. */
  function Step(b: BuilderState, c: Call): (t: Transition)
    ensures c.Build? ==> t == Transition(b.(built := true), Pass)
    ensures !c.Build? && b.built ==> t == Transition(b, Fail(IllegalState))
    ensures t.outcome.Fail? ==> t.state == b
    ensures t.state.built <==> b.built || c.Build?
    ensures c.InsertInto? && !b.built ==> t.state.query == b.query.(onConflict := None, table := c.table)
  {
    if c.Build? then Transition(b.(built := true), Pass)
    else if b.built then Transition(b, Fail(IllegalState))
    else Apply(b.query, c)
  }

  /** A sequence of calls, performed left to right, each as a statement of its own whose
      exception the caller catches: a call that throws changes nothing and the next call
      still runs. A fluent chain, which stops at its first exception, is `Chain` below. */
  function Run(b: BuilderState, calls: seq<Call>): (r: BuilderState)
    decreases |calls|
  {
    if calls == [] then b else Run(Step(b, calls[0]).state, calls[1..])
  }

  // ---------------------------------------------------------------------------
  // An independent description of the final state: each field holds what the
  // last call writing it wrote, among the calls made before the first build.

  /** The calls that take effect: none once built, else those before the first `Build`. */
  function Live(built: bool, calls: seq<Call>): (live: seq<Call>)
    ensures forall i :: 0 <= i < |live| ==> !live[i].Build?
    ensures |live| <= |calls|
    decreases |calls|
  {
    if built || calls == [] || calls[0].Build? then []
    else [calls[0]] + Live(false, calls[1..])
  }

  /** The value of a field after `calls`: the last write to it, or `d` if none writes it. */
  function LastWrite<T>(calls: seq<Call>, write: Call -> Option<T>, d: T): (v: T)
    decreases |calls|
  {
    if calls == [] then d
    else
      var w := write(calls[|calls| - 1]);
      if w.Some? then w.value else LastWrite(calls[..|calls| - 1], write, d)
  }

  function ColumnsWrite(c: Call): (w: Option<Option<seq<string>>>) {
    if c.Columns? then Some(c.columns) else None
  }

  function TargetWrite(c: Call): (w: Option<(Option<OnConflict>, Option<string>)>) {
    match c
    case InsertIntoWithConflict(p, t) => Some((p, t))
    case InsertInto(t) => Some((None, t))
    case _ => None
  }

  /** `values(...)` and a non-null `select(...)` write the same field. */
  function ValuesWrite(c: Call): (w: Option<Option<string>>) {
    match c
    case Values(vs) => Some(Some(ValuesClause(vs)))
    case Value(v) => Some(Some(ValuesClause(Some([v]))))
    case Select(s) => if s.Some? then Some(s) else None
    case _ => None
  }

  /** The query fields a chain of calls leaves, by last write per field. */
  function Effective(b: BuilderState, calls: seq<Call>): (q: QueryState) {
    var live := Live(b.built, calls);
    var target := LastWrite(live, TargetWrite, (b.query.onConflict, b.query.table));
    QueryState(
      target.0,
      target.1,
      LastWrite(live, ColumnsWrite, b.query.columns),
      LastWrite(live, ValuesWrite, b.query.values))
  }

  /** A write made before the remaining calls decides the field unless one of them writes it. */
  lemma {:induction false} LastWriteCons<T>(c: Call, rest: seq<Call>, write: Call -> Option<T>, d: T)
    ensures LastWrite([c] + rest, write, d)
         == LastWrite(rest, write, if write(c).Some? then write(c).value else d)
    decreases |rest|
  {
    var s := [c] + rest;
    if rest == [] {
      assert s[..|s| - 1] == [];
    } else {
      assert s[|s| - 1] == rest[|rest| - 1];
      assert s[..|s| - 1] == [c] + rest[..|rest| - 1];
      LastWriteCons(c, rest[..|rest| - 1], write, d);
    }
  }

  /** Once built, the builder never changes again, whatever is called. */
  lemma {:induction false} BuiltIsFrozen(b: BuilderState, calls: seq<Call>)
    requires b.built
    ensures Run(b, calls) == b
    decreases |calls|
  {
    if calls != [] {
      BuiltIsFrozen(Step(b, calls[0]).state, calls[1..]);
    }
  }

  /** The one step of the main theorem: a mutator that passes commutes with the rest. */
  lemma {:induction false} EffectiveStep(b: BuilderState, c: Call, rest: seq<Call>)
    requires !b.built && !c.Build?
    ensures Effective(Step(b, c).state, rest) == Effective(b, [c] + rest)
  {
    var s := [c] + rest;
    assert s[0] == c && s[1..] == rest;
    assert Live(false, s) == [c] + Live(false, rest);
    LastWriteCons(c, Live(false, rest), TargetWrite, (b.query.onConflict, b.query.table));
    LastWriteCons(c, Live(false, rest), ColumnsWrite, b.query.columns);
    LastWriteCons(c, Live(false, rest), ValuesWrite, b.query.values);
  }

  /** Running a chain of calls yields the last-write-wins fields, and the builder is
      built exactly when it already was or `build()` was among the calls. */
  lemma {:induction false} RunIsLastWriteWins(b: BuilderState, calls: seq<Call>)
    ensures Run(b, calls).query == Effective(b, calls)
    ensures Run(b, calls).built <==> b.built || Build in calls
    decreases |calls|
  {
    if calls == [] {
    } else if b.built {
      BuiltIsFrozen(b, calls);
    } else {
      var c, rest := calls[0], calls[1..];
      assert calls == [c] + rest;
      RunIsLastWriteWins(Step(b, c).state, rest);
      if c.Build? {
        BuiltIsFrozen(Step(b, c).state, rest);
      } else {
        EffectiveStep(b, c, rest);
      }
    }
  }

  /** A Java fluent chain `b.m1(...).m2(...)...`: it stops at the first call that throws,
      and its outcome is that call's. */
  function Chain(b: BuilderState, calls: seq<Call>): (t: Transition)
    decreases |calls|
  {
    if calls == [] then Transition(b, Pass)
    else
      var t0 := Step(b, calls[0]);
      if t0.outcome.Fail? then t0 else Chain(t0.state, calls[1..])
  }

  /** How many calls of a fluent chain complete before one throws. */
  function Completed(b: BuilderState, calls: seq<Call>): (k: nat)
    ensures k <= |calls|
    decreases |calls|
  {
    if calls == [] then 0
    else
      var t0 := Step(b, calls[0]);
      if t0.outcome.Fail? then 0 else 1 + Completed(t0.state, calls[1..])
  }

  /** A fluent chain leaves the state that its completed calls leave; it throws exactly
      when some call does not complete, and then the next call is the one that threw. */
  lemma {:induction false} ChainIsRunOfCompleted(b: BuilderState, calls: seq<Call>)
    ensures Chain(b, calls).state == Run(b, calls[..Completed(b, calls)])
    ensures Chain(b, calls).outcome.Fail? <==> Completed(b, calls) < |calls|
    ensures Completed(b, calls) < |calls| ==>
              Chain(b, calls) == Step(Run(b, calls[..Completed(b, calls)]), calls[Completed(b, calls)])
    decreases |calls|
  {
    if calls != [] {
      var t0 := Step(b, calls[0]);
      if t0.outcome.Fail? {
        assert calls[..0] == [];
      } else {
        var rest := calls[1..];
        var k := Completed(t0.state, rest);
        ChainIsRunOfCompleted(t0.state, rest);
        var pre := calls[..1 + k];
        assert pre[0] == calls[0] && pre[1..] == rest[..k];
        assert pre != [];
        assert Run(b, pre) == Run(t0.state, rest[..k]);
        if k < |rest| {
          assert calls[1 + k] == rest[k];
        }
      }
    }
  }

  /** In the fluent chain `values(x).select(null).values(y)` the null select throws, so
      `values(y)` never runs and the value source stays that of `values(x)`. */
  lemma FluentChainStopsAtNullSelect(b: BuilderState, x: Option<seq<string>>, y: Option<seq<string>>)
    requires !b.built
    ensures Chain(b, [Values(x), Select(None), Values(y)]).outcome == Fail(NullPointer)
    ensures Chain(b, [Values(x), Select(None), Values(y)]).state.query.values == Some(ValuesClause(x))
  {
  }

  /** The value source of the statement is whichever of `values(...)` or a non-null
      `select(...)` was called last before `build()`; if none was, the tail is "null". */
  lemma LastValueSourceIsRendered(calls: seq<Call>)
    requires Render(Run(Initial, calls).query).Ok?
    ensures EndsWith(Render(Run(Initial, calls).query).value,
                     ") " + AppendText(LastWrite(Live(false, calls), ValuesWrite, None)))
  {
    RunIsLastWriteWins(Initial, calls);
  }

  /** A call made while the builder is still open is one of the calls that take effect. */
  lemma {:induction false} LiveAppend(pre: seq<Call>, c: Call)
    requires Build !in pre && !c.Build?
    ensures Live(false, pre + [c]) == Live(false, pre) + [c]
  {
    if pre == [] {
      assert [c][1..] == [];
    } else {
      assert (pre + [c])[0] == pre[0];
      assert (pre + [c])[1..] == pre[1..] + [c];
      LiveAppend(pre[1..], c);
    }
  }

  /** The last call of a chain that writes a field decides it. */
  lemma LastWriteOfLast<T>(s: seq<Call>, c: Call, write: Call -> Option<T>, d: T)
    requires write(c).Some?
    ensures LastWrite(s + [c], write, d) == write(c).value
  {
  }

  /** Last write wins between `values(...)` and `select(...)`: whichever of them is called
      last on the open builder determines the value source, whatever came before. */
  lemma LastValueSourceWins(b: BuilderState, pre: seq<Call>, c: Call)
    requires !b.built && Build !in pre && ValuesWrite(c).Some?
    ensures Run(b, pre + [c]).query.values == ValuesWrite(c).value
  {
    RunIsLastWriteWins(b, pre + [c]);
    LiveAppend(pre, c);
    LastWriteOfLast(Live(false, pre), c, ValuesWrite, b.query.values);
  }

  /** `insertInto(table)` sets the table and clears any conflict policy set before it. */
  lemma InsertIntoClearsPolicy(b: BuilderState, pre: seq<Call>, t: Option<string>)
    requires !b.built && Build !in pre
    ensures Run(b, pre + [InsertInto(t)]).query.onConflict == None
    ensures Run(b, pre + [InsertInto(t)]).query.table == t
  {
    RunIsLastWriteWins(b, pre + [InsertInto(t)]);
    LiveAppend(pre, InsertInto(t));
    LastWriteOfLast(Live(false, pre), InsertInto(t), TargetWrite, (b.query.onConflict, b.query.table));
  }

  /** The builder object: the wrapped query and the `buildCalled` flag. */
  class Builder {
    const query: SQLInsertQuery
    var buildCalled: bool

    ghost function Model(): BuilderState
      reads this, query
    {
      BuilderState(query.State(), buildCalled)
    }

    constructor ()
      ensures Model() == Initial && fresh(query)
    {
      query := new SQLInsertQuery();
      buildCalled := false;
    }

    /** `build()`: never throws, may be repeated, always returns the same query. */
    method Build() returns (q: SQLInsertQuery)
      modifies this
      ensures q == query
      ensures Model() == Step(old(Model()), Call.Build).state
    {
      buildCalled := true;
      q := query;
    }

    /** `buildSQL()`: builds, then renders the wrapped query. */
    method BuildSQL() returns (r: Result<string>)
      modifies this
      ensures Model() == Step(old(Model()), Call.Build).state
      ensures r == Render(query.State())
    {
      var q := Build();
      r := q.GetSQL();
    }

    /** `checkNotBuilt()`: throws IllegalStateException once `build()` was called. */
    method CheckNotBuilt() returns (o: Outcome)
      ensures o.Fail? <==> buildCalled
      ensures o.Fail? ==> o.error == IllegalState
    {
      o := if buildCalled then Fail(IllegalState) else Pass;
    }

    method Columns(cols: Option<seq<string>>) returns (r: Result<Builder>)
      modifies query
      ensures r.Ok? ==> r.value == this
      ensures Step(old(Model()), Call.Columns(cols)) == Transition(Model(), OutcomeOf(r))
    {
      var o := CheckNotBuilt();
      if o.Fail? {
        return Err(o.error);
      }
      query.SetColumns(cols);
      r := Ok(this);
    }

    method Values(vs: Option<seq<string>>) returns (r: Result<Builder>)
      modifies query
      ensures r.Ok? ==> r.value == this
      ensures Step(old(Model()), Call.Values(vs)) == Transition(Model(), OutcomeOf(r))
    {
      var o := CheckNotBuilt();
      if o.Fail? {
        return Err(o.error);
      }
      query.SetValues(vs);
      r := Ok(this);
    }

    /** `values(String)`: Java's varargs pass the single string as a one-element array. */
    method Value(v: string) returns (r: Result<Builder>)
      modifies query
      ensures r.Ok? ==> r.value == this
      ensures Step(old(Model()), Call.Value(v)) == Transition(Model(), OutcomeOf(r))
    {
      var o := CheckNotBuilt();
      if o.Fail? {
        return Err(o.error);
      }
      query.SetValues(Some([v]));
      r := Ok(this);
    }

    method InsertIntoWithConflict(policy: Option<OnConflict>, table: Option<string>) returns (r: Result<Builder>)
      modifies query
      ensures r.Ok? ==> r.value == this
      ensures Step(old(Model()), Call.InsertIntoWithConflict(policy, table)) == Transition(Model(), OutcomeOf(r))
    {
      var o := CheckNotBuilt();
      if o.Fail? {
        return Err(o.error);
      }
      query.SetOnConflict(policy);
      query.SetTable(table);
      r := Ok(this);
    }

    method InsertInto(table: Option<string>) returns (r: Result<Builder>)
      modifies query
      ensures r.Ok? ==> r.value == this
      ensures Step(old(Model()), Call.InsertInto(table)) == Transition(Model(), OutcomeOf(r))
    {
      r := InsertIntoWithConflict(None, table);
    }

    method Select(select: Option<string>) returns (r: Result<Builder>)
      modifies query
      ensures r.Ok? ==> r.value == this
      ensures Step(old(Model()), Call.Select(select)) == Transition(Model(), OutcomeOf(r))
    {
      var o := CheckNotBuilt();
      if o.Fail? {
        return Err(o.error);
      }
      var selected := query.SetSelect(select);
      if selected.Fail? {
        return Err(selected.error);
      }
      r := Ok(this);
    }
  }
}
