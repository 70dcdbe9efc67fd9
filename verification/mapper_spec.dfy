/**
 * The declaration phase of the attribute mapper as a state machine on
 * values: the state a host record class accumulates, one `column` step,
 * a `with_opts` scope, and a block of declarations run in order.
 */
module MapperSpec {
  import opened Wrappers
  import opened MapperTypes
  import opened SelectColumns

  /**
   * The mapper's state on a host record class: the active default
   * options (`@default_opts`), the select entries (`@sql_select_columns`)
   * and the accessors declared so far, by attribute name.
   */
  datatype State = State(defaultOpts: Option<Opts>, selectColumns: seq<string>, accessors: map<string, Field>)

  /** The state of a host class before any declaration. */
  const Initial := State(None, [], map[])

  /** A declaration inside a host class body or a `with_opts` block. */
  datatype Decl =
    | Column(attributeName: string, opts: Opts)
    | WithOpts(opts: Opts, body: seq<Decl>)
    | WithClass(klass: SourceClass, opts: Opts, body: seq<Decl>)

  function DeclSize(d: Decl): (n: nat)
    ensures n >= 1
  {
    match d
    case Column(_, _) => 1
    case WithOpts(_, body) => 1 + BlockSize(body)
    case WithClass(_, _, body) => 1 + BlockSize(body)
  }

  function BlockSize(body: seq<Decl>): nat {
    if body == [] then 0 else DeclSize(body[0]) + BlockSize(body[1..])
  }

  /** The source class of a declaration: explicit `:class`, else the scope's. */
  function ResolveClass(opts: Opts, defaultOpts: Option<Opts>): Result<SourceClass, MapperError> {
    if opts.klass.Some? then Success(opts.klass.value)
    else if defaultOpts.None? then Failure(NoDefaultOpts)
    else if defaultOpts.value.klass.Some? then Success(defaultOpts.value.klass.value)
    else Failure(MissingClass)
  }

  /** The source column of a declaration: `:from`, else the attribute name. */
  function SourceAttribute(attributeName: string, opts: Opts): string {
    opts.from.GetOr(attributeName)
  }

  /**
   * One `column` declaration. It fails, changing nothing, exactly when
   * neither the options nor the active scope give a class; otherwise it
   * registers the accessor and appends one select entry at the end.
   */
  function ColumnStep(s: State, attributeName: string, opts: Opts): (r: (State, Outcome<MapperError>))
    ensures r.0.defaultOpts == s.defaultOpts
    ensures r.1.Fail? <==> opts.klass.None? && (s.defaultOpts.None? || s.defaultOpts.value.klass.None?)
    ensures r.1 == Fail(NoDefaultOpts) <==> opts.klass.None? && s.defaultOpts.None?
    ensures r.1.Fail? ==> r.0 == s
    ensures r.1.Pass? ==>
      var klass := if opts.klass.Some? then opts.klass.value else s.defaultOpts.value.klass.value;
      var source := if opts.from.Some? then opts.from.value else attributeName;
      && r.0.accessors == s.accessors[attributeName := Field(attributeName, source, klass)]
      && |r.0.selectColumns| == |s.selectColumns| + 1
      && r.0.selectColumns[..|s.selectColumns|] == s.selectColumns
      && r.0.selectColumns[|s.selectColumns|] == SelectFragment(klass.tableName, source, attributeName, opts.from)
  {
    match ResolveClass(opts, s.defaultOpts)
    case Failure(e) => (s, Fail(e))
    case Success(klass) =>
      var source := SourceAttribute(attributeName, opts);
      var entry := SelectFragment(klass.tableName, source, attributeName, opts.from);
      var s' := s.(accessors := s.accessors[attributeName := Field(attributeName, source, klass)],
                   selectColumns := s.selectColumns + [entry]);
      assert s'.selectColumns[..|s.selectColumns|] == s.selectColumns;
      (s', Pass)
  }

  /** One declaration of a block. */
  function Exec(s: State, d: Decl): (State, Outcome<MapperError>)
    decreases DeclSize(d), 0
  {
    match d
    case Column(attributeName, opts) => ColumnStep(s, attributeName, opts)
    case WithOpts(opts, body) => Scope(s, opts, body)
    case WithClass(klass, opts, body) => Scope(s, opts.(klass := Some(klass)), body)
  }

  /** The declarations of a block, in order, up to the first that fails. */
  function Run(s: State, body: seq<Decl>): (State, Outcome<MapperError>)
    decreases BlockSize(body), 1
  {
    if body == [] then (s, Pass)
    else
      var (s', outcome) := Exec(s, body[0]);
      if outcome.Fail? then (s', outcome) else Run(s', body[1..])
  }

  /** Each declaration of a block is no larger than the block. */
  lemma {:induction false} DeclWithinBlock(body: seq<Decl>, i: nat)
    requires i < |body|
    ensures DeclSize(body[i]) <= BlockSize(body)
  {
    if i > 0 {
      DeclWithinBlock(body[1..], i - 1);
    }
  }

  /** Running `a + b` runs `a`, then, unless `a` failed, `b`. */
  lemma {:induction false} RunConcat(s: State, a: seq<Decl>, b: seq<Decl>)
    ensures Run(s, a + b) == (var (s', outcome) := Run(s, a); if outcome.Fail? then (s', outcome) else Run(s', b))
    decreases |a|
  {
    if a != [] {
      assert (a + b)[0] == a[0];
      assert (a + b)[1..] == a[1..] + b;
      var (s', outcome) := Exec(s, a[0]);
      if outcome.Pass? {
        RunConcat(s', a[1..], b);
      }
    } else {
      assert a + b == b;
    }
  }

  /**
   * A `with_opts` block: install the options, run the block, clear the
   * options. A failure propagates out of the block before the clearing.
   */
  function Scope(s: State, opts: Opts, body: seq<Decl>): (State, Outcome<MapperError>)
    decreases BlockSize(body), 2
  {
    var (s', outcome) := Run(s.(defaultOpts := Some(opts)), body);
    if outcome.Fail? then (s', outcome) else (s'.(defaultOpts := None), outcome)
  }
}
