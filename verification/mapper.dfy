/**
 * The attribute mapper as the host record class runs it: its state lives
 * in fields that `with_opts`, `with_class` and `column` update in place.
 */
module Mapper {
  import opened Wrappers
  import opened MapperTypes
  import opened Accessor
  import opened MapperSpec

  /** The mapping state of one host record class. */
  class RecordMapping {
    var defaultOpts: Option<Opts>
    var sqlSelectColumns: seq<string>
    var accessors: map<string, Field>

    /** A host class before any declaration. */
    constructor ()
      ensures Snapshot() == Initial
    {
      defaultOpts := None;
      sqlSelectColumns := [];
      accessors := map[];
    }

    function Snapshot(): State
      reads this
    {
      State(defaultOpts, sqlSelectColumns, accessors)
    }

    /**
     * The `sql_select_columns` reader: `nil` until a declaration has
     * succeeded, then the entries in declaration order.
     */
    function SqlSelectColumns(): (r: Option<seq<string>>)
      reads this
      ensures r.None? <==> sqlSelectColumns == []
      ensures r.Some? ==> r.value == sqlSelectColumns
    {
      if sqlSelectColumns == [] then None else Some(sqlSelectColumns)
    }

    /** `column attribute_name, opts`. */
    method Column(attributeName: string, opts: Opts) returns (outcome: Outcome<MapperError>)
      modifies this
      ensures (Snapshot(), outcome) == ColumnStep(old(Snapshot()), attributeName, opts)
    {
      var klass: SourceClass;
      if opts.klass.Some? {
        klass := opts.klass.value;
      } else if defaultOpts.None? {
        return Fail(NoDefaultOpts);
      } else if defaultOpts.value.klass.Some? {
        klass := defaultOpts.value.klass.value;
      } else {
        return Fail(MissingClass);
      }
      var sourceAttribute := if opts.from.Some? then opts.from.value else attributeName;
      accessors := accessors[attributeName := Field(attributeName, sourceAttribute, klass)];
      var selectColumn := klass.tableName + "." + sourceAttribute;
      if opts.from.Some? {
        selectColumn := selectColumn + " as " + attributeName;
      }
      sqlSelectColumns := sqlSelectColumns + [selectColumn];
      outcome := Pass;
    }

    /** `with_opts opts do ... end`. */
    method WithOpts(opts: Opts, body: seq<Decl>) returns (outcome: Outcome<MapperError>)
      modifies this
      ensures (Snapshot(), outcome) == Scope(old(Snapshot()), opts, body)
      decreases BlockSize(body), 2
    {
      defaultOpts := Some(opts);
      outcome := RunBlock(body);
      if outcome.Fail? {
        return;
      }
      defaultOpts := None;
    }

    /**
     * `with_class klass, opts do ... end`: stores `klass` under `:class`
     * in the caller's options hash, then runs `with_opts` with it.
     */
    method WithClass(klass: SourceClass, opts: Opts, body: seq<Decl>) returns (outcome: Outcome<MapperError>, updatedOpts: Opts)
      modifies this
      ensures updatedOpts == opts.(klass := Some(klass))
      ensures (Snapshot(), outcome) == Scope(old(Snapshot()), updatedOpts, body)
      decreases BlockSize(body), 3
    {
      updatedOpts := opts.(klass := Some(klass));
      outcome := WithOpts(updatedOpts, body);
    }

    /** One declaration. */
    method Declare(d: Decl) returns (outcome: Outcome<MapperError>)
      modifies this
      ensures (Snapshot(), outcome) == Exec(old(Snapshot()), d)
      decreases DeclSize(d), 0
    {
      match d
      case Column(attributeName, opts) =>
        outcome := Column(attributeName, opts);
      case WithOpts(opts, body) =>
        outcome := WithOpts(opts, body);
      case WithClass(klass, opts, body) =>
        var updatedOpts;
        outcome, updatedOpts := WithClass(klass, opts, body);
    }

    /** The declarations of a block, one after another, until one raises. */
    method RunBlock(body: seq<Decl>) returns (outcome: Outcome<MapperError>)
      modifies this
      ensures (Snapshot(), outcome) == Run(old(Snapshot()), body)
      decreases BlockSize(body), 1
    {
      var i := 0;
      while i < |body|
        invariant 0 <= i <= |body|
        invariant (Snapshot(), Pass) == Run(old(Snapshot()), body[..i])
      {
        DeclWithinBlock(body, i);
        outcome := Declare(body[i]);
        RunConcat(old(Snapshot()), body[..i], [body[i]]);
        assert body[..i + 1] == body[..i] + [body[i]];
        if outcome.Fail? {
          RunConcat(old(Snapshot()), body[..i + 1], body[i + 1..]);
          assert body[..i + 1] + body[i + 1..] == body;
          return;
        }
        i := i + 1;
      }
      assert body[..i] == body;
      outcome := Pass;
    }

    /**
     * Reading attribute `name` of an instance whose raw attributes are
     * `raw`: the accessor declared under that name, if any.
     */
    function ReadAttribute<R, V>(name: string, raw: map<string, R>, env: Collaborators<R, V>): (r: Result<V, ReadError>)
      reads this
      ensures name !in accessors ==> r == Failure(UndefinedAttribute(name))
      ensures name in accessors ==> r == Read(accessors[name], raw, env)
    {
      if name in accessors then Read(accessors[name], raw, env) else Failure(UndefinedAttribute(name))
    }
  }
}
