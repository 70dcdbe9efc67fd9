/**
 * What a host class body of declarations does to the mapper's state, over
 * any number of declarations: entries are only ever appended, one per
 * successful `column`; a scope's class reaches every bare `column` in it;
 * a scope is cleared after its block completes and left in place when the
 * block raises.
 */
module MapperProperties {
  import opened Wrappers
  import opened MapperTypes
  import opened SelectColumns
  import opened MapperSpec

  /** The number of `column` declarations in a declaration, scopes included. */
  function ColumnCount(d: Decl): nat
    decreases DeclSize(d), 0
  {
    match d
    case Column(_, _) => 1
    case WithOpts(_, body) => BlockColumnCount(body)
    case WithClass(_, _, body) => BlockColumnCount(body)
  }

  function BlockColumnCount(body: seq<Decl>): nat
    decreases BlockSize(body), 1
  {
    if body == [] then 0 else ColumnCount(body[0]) + BlockColumnCount(body[1..])
  }

  /** Declarations that name no class of their own. */
  predicate BareColumns(body: seq<Decl>) {
    forall i :: 0 <= i < |body| ==> body[i].Column? && body[i].opts.klass.None?
  }

  /** No declaration removes an accessor name or an earlier select entry. */
  predicate Grows(s: State, s': State) {
    && s.selectColumns <= s'.selectColumns
    && s.accessors.Keys <= s'.accessors.Keys
  }

  /**
   * A declaration only appends select entries and adds accessors, whether
   * it completes or raises; when it completes it has appended one entry
   * per `column` it holds.
   */
  lemma {:induction false} ExecGrows(s: State, d: Decl)
    ensures Grows(s, Exec(s, d).0)
    ensures Exec(s, d).1.Pass? ==> |Exec(s, d).0.selectColumns| == |s.selectColumns| + ColumnCount(d)
    decreases DeclSize(d), 0
  {
    match d
    case Column(_, _) =>
    case WithOpts(opts, body) =>
      ScopeGrows(s, opts, body);
    case WithClass(klass, opts, body) =>
      ScopeGrows(s, opts.(klass := Some(klass)), body);
  }

  lemma {:induction false} RunGrows(s: State, body: seq<Decl>)
    ensures Grows(s, Run(s, body).0)
    ensures Run(s, body).1.Pass? ==> |Run(s, body).0.selectColumns| == |s.selectColumns| + BlockColumnCount(body)
    decreases BlockSize(body), 1
  {
    if body != [] {
      ExecGrows(s, body[0]);
      var (s', outcome) := Exec(s, body[0]);
      if outcome.Pass? {
        RunGrows(s', body[1..]);
      }
    }
  }

  lemma {:induction false} ScopeGrows(s: State, opts: Opts, body: seq<Decl>)
    ensures Grows(s, Scope(s, opts, body).0)
    ensures Scope(s, opts, body).1.Pass? ==> |Scope(s, opts, body).0.selectColumns| == |s.selectColumns| + BlockColumnCount(body)
    decreases BlockSize(body), 2
  {
    RunGrows(s.(defaultOpts := Some(opts)), body);
  }

  /**
   * A host class body that completes leaves as many select entries as it
   * holds `column` declarations.
   */
  lemma ClassBodyEntryCount(body: seq<Decl>)
    requires Run(Initial, body).1.Pass?
    ensures |Run(Initial, body).0.selectColumns| == BlockColumnCount(body)
  {
    RunGrows(Initial, body);
  }

  /**
   * Inside a scope whose options give a class, every bare `column`
   * succeeds and is read from that class; the scope stays installed.
   */
  lemma {:induction false} BareColumnsUseScopeClass(s: State, body: seq<Decl>, klass: SourceClass)
    requires s.defaultOpts.Some? && s.defaultOpts.value.klass == Some(klass)
    requires BareColumns(body)
    ensures var (s', outcome) := Run(s, body);
      && outcome == Pass
      && s'.defaultOpts == s.defaultOpts
      && |s'.selectColumns| == |s.selectColumns| + |body|
      && (forall n :: n in s.accessors ==> n in s'.accessors)
      && (forall n :: n in s'.accessors ==> (n in s.accessors && s'.accessors[n] == s.accessors[n]) || s'.accessors[n].sourceClass == klass)
      && (forall i :: 0 <= i < |body| ==> body[i].attributeName in s'.accessors && s'.accessors[body[i].attributeName].sourceClass == klass)
    decreases |body|
  {
    if body != [] {
      var (s1, outcome1) := Exec(s, body[0]);
      assert outcome1 == Pass;
      assert BareColumns(body[1..]) by {
        forall i | 0 <= i < |body[1..]| ensures body[1..][i].Column? && body[1..][i].opts.klass.None? {
          assert body[1..][i] == body[i + 1];
        }
      }
      BareColumnsUseScopeClass(s1, body[1..], klass);
      var s' := Run(s1, body[1..]).0;
      forall i | 0 <= i < |body|
        ensures body[i].attributeName in s'.accessors && s'.accessors[body[i].attributeName].sourceClass == klass
      {
        if i > 0 {
          assert body[1..][i - 1] == body[i];
        }
      }
    }
  }

  /**
   * `with_class klass, opts` overrides any `:class` already in `opts`:
   * every bare `column` in its block is read from `klass`, and the scope
   * is cleared after the block.
   */
  lemma WithClassOverridesOptsClass(s: State, klass: SourceClass, opts: Opts, body: seq<Decl>)
    requires BareColumns(body)
    ensures var (s', outcome) := Exec(s, WithClass(klass, opts, body));
      && outcome == Pass
      && s'.defaultOpts == None
      && (forall i :: 0 <= i < |body| ==> body[i].attributeName in s'.accessors && s'.accessors[body[i].attributeName].sourceClass == klass)
  {
    BareColumnsUseScopeClass(s.(defaultOpts := Some(opts.(klass := Some(klass)))), body, klass);
  }

  /**
   * When a block of `column` declarations raises, the error propagates
   * past the reset: the scope's options stay installed.
   */
  lemma {:induction false} FailedColumnsKeepScope(s: State, body: seq<Decl>)
    requires forall i :: 0 <= i < |body| ==> body[i].Column?
    requires Run(s, body).1.Fail?
    ensures Run(s, body).0.defaultOpts == s.defaultOpts
    decreases |body|
  {
    if body != [] {
      var (s1, outcome1) := Exec(s, body[0]);
      if outcome1.Pass? {
        assert forall i :: 0 <= i < |body[1..]| ==> body[1..][i] == body[i + 1];
        FailedColumnsKeepScope(s1, body[1..]);
      }
    }
  }

  lemma ScopeNotResetOnFailure(s: State, opts: Opts, body: seq<Decl>)
    requires forall i :: 0 <= i < |body| ==> body[i].Column?
    requires Scope(s, opts, body).1.Fail?
    ensures Scope(s, opts, body).0.defaultOpts == Some(opts)
  {
    FailedColumnsKeepScope(s.(defaultOpts := Some(opts)), body);
  }

  /**
   * After a scope completes, a `column` without `:class` finds no scope:
   * it fails and changes nothing.
   */
  lemma ScopeClearedAfterBlock(s: State, opts: Opts, body: seq<Decl>, attributeName: string, columnOpts: Opts)
    requires Scope(s, opts, body).1.Pass?
    requires columnOpts.klass.None?
    ensures var s' := Scope(s, opts, body).0;
      ColumnStep(s', attributeName, columnOpts) == (s', Fail(NoDefaultOpts))
  {
  }

  /**
   * Scopes do not nest: an inner `with_opts` whose block completes clears
   * the scope on exit instead of restoring the outer one, so a later bare
   * `column` in the outer block fails, appending nothing after what the
   * inner block appended, and the outer block raises with no scope set.
   */
  lemma NestedScopeClearsOuter(s: State, outer: Opts, inner: Opts, innerBody: seq<Decl>, attributeName: string, columnOpts: Opts)
    requires Scope(s.(defaultOpts := Some(outer)), inner, innerBody).1.Pass?
    requires columnOpts.klass.None?
    ensures var (s', outcome) := Scope(s, outer, [WithOpts(inner, innerBody), Column(attributeName, columnOpts)]);
      && outcome == Fail(NoDefaultOpts)
      && s'.defaultOpts == None
      && s'.selectColumns == Scope(s.(defaultOpts := Some(outer)), inner, innerBody).0.selectColumns
  {
    var body := [WithOpts(inner, innerBody), Column(attributeName, columnOpts)];
    var s1 := s.(defaultOpts := Some(outer));
    var s2 := Scope(s1, inner, innerBody).0;
    assert Exec(s1, body[0]) == (s2, Pass);
    assert s2.defaultOpts == None;
    assert body[1..] == [Column(attributeName, columnOpts)];
    assert Exec(s2, body[1]) == (s2, Fail(NoDefaultOpts));
    assert Run(s2, body[1..]) == (s2, Fail(NoDefaultOpts));
    assert Run(s1, body) == (s2, Fail(NoDefaultOpts));
  }

  /**
   * The select entry a successful `column` appends is labelled, in the
   * query result, with the attribute name: the key its accessor reads.
   */
  lemma EntryLabelIsAttributeName(s: State, attributeName: string, opts: Opts)
    requires ColumnStep(s, attributeName, opts).1.Pass?
    requires PlainIdentifier(attributeName) && (opts.from.Some? ==> PlainIdentifier(opts.from.value))
    requires var klass := if opts.klass.Some? then opts.klass.value else s.defaultOpts.value.klass.value;
      PlainIdentifier(klass.tableName)
    ensures var s' := ColumnStep(s, attributeName, opts).0;
      var c := ParseSelect(s'.selectColumns[|s.selectColumns|]);
      && c.Some?
      && ResultLabel(c.value) == attributeName
      && s'.accessors[attributeName].attributeName == attributeName
  {
    var klass := if opts.klass.Some? then opts.klass.value else s.defaultOpts.value.klass.value;
    SelectFragmentReadsBack(klass.tableName, SourceAttribute(attributeName, opts), attributeName, opts.from);
  }

  const Account := SourceClass("accounts", map["name" := Plain("varchar")])

  /**
   * `column :name, :class => Account` then
   * `column :account_name, :class => Account, :from => :name`.
   */
  lemma AccountExample()
    ensures var s' := Run(Initial, [
        Column("name", Opts(Some(Account), None)),
        Column("account_name", Opts(Some(Account), Some("name")))]).0;
      && s'.selectColumns == ["accounts.name", "accounts.name as account_name"]
      && "name" in s'.accessors && s'.accessors["name"] == Field("name", "name", Account)
      && "account_name" in s'.accessors && s'.accessors["account_name"] == Field("account_name", "name", Account)
  {
    var first := Column("name", Opts(Some(Account), None));
    var second := Column("account_name", Opts(Some(Account), Some("name")));
    var nameEntry := "accounts.name";
    var aliasEntry := "accounts.name as account_name";
    assert SelectFragment("accounts", "name", "name", None) == nameEntry;
    assert SelectFragment("accounts", "name", "account_name", Some("name")) == aliasEntry;
    var s1 := Initial.(accessors := map["name" := Field("name", "name", Account)], selectColumns := [nameEntry]);
    var s2 := s1.(accessors := s1.accessors["account_name" := Field("account_name", "name", Account)],
                  selectColumns := [nameEntry, aliasEntry]);
    assert ColumnStep(Initial, "name", first.opts) == (s1, Pass);
    assert SourceAttribute("account_name", second.opts) == "name";
    assert s1.selectColumns + [aliasEntry] == s2.selectColumns;
    assert ColumnStep(s1, "account_name", second.opts) == (s2, Pass);
    assert [first, second][1..] == [second];
    assert Run(s1, [second]) == (s2, Pass);
    assert Run(Initial, [first, second]) == (s2, Pass);
  }
}
