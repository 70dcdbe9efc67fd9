/**
 * The SQL select-list entries the mapper accumulates, `table.column` or
 * `table.column as attribute`, and how such an entry is read back.
 */
module SelectColumns {
  import opened Wrappers

  /** An identifier that can stand in a select entry without quoting. */
  predicate PlainIdentifier(s: string) {
    ' ' !in s && '.' !in s
  }

  /** A select entry read back into its parts. */
  datatype SelectColumn = SelectColumn(table: string, column: string, alias: Option<string>)

  /**
   * The label the query result carries for a select entry: its alias when
   * it has one, otherwise the name of the column it selects.
   */
  function ResultLabel(c: SelectColumn): string {
    c.alias.GetOr(c.column)
  }

  /** Splits `s` at the first occurrence of `sep`. */
  function SplitFirst(s: string, sep: char): (r: Option<(string, string)>)
    ensures r.None? <==> sep !in s
    ensures r.Some? ==> s == r.value.0 + [sep] + r.value.1 && sep !in r.value.0
  {
    if |s| == 0 then None
    else if s[0] == sep then Some(([], s[1..]))
    else
      match SplitFirst(s[1..], sep)
      case None => None
      case Some((front, back)) => Some(([s[0]] + front, back))
  }

  lemma {:induction false} SplitFirstAt(front: string, sep: char, back: string)
    requires sep !in front
    ensures SplitFirst(front + [sep] + back, sep) == Some((front, back))
  {
    if |front| > 0 {
      assert (front + [sep] + back)[1..] == front[1..] + [sep] + back;
      SplitFirstAt(front[1..], sep, back);
      assert front[0] != sep;
      assert [front[0]] + front[1..] == front;
    } else {
      assert front + [sep] + back == [sep] + back;
    }
  }

  /**
   * Reads a select entry back: `table.column` with no alias, or
   * `table.column as alias`; anything else is not an entry.
   */
  function ParseSelect(entry: string): Option<SelectColumn> {
    var (reference, alias) :=
      match SplitFirst(entry, ' ')
      case None => (entry, Some(None))
      case Some((head, rest)) =>
        if |rest| >= 3 && rest[..3] == "as " then (head, Some(Some(rest[3..]))) else (head, None);
    match (alias, SplitFirst(reference, '.'))
    case (Some(a), Some((table, column))) => Some(SelectColumn(table, column, a))
    case _ => None
  }

  /**
   * The select entry for one mapped attribute: `table.source_attribute`,
   * aliased `as attribute_name` whenever a `:from` option was given.
   */
  function SelectFragment(tableName: string, sourceAttribute: string, attributeName: string, from: Option<string>): string {
    var plain := tableName + "." + sourceAttribute;
    if from.Some? then plain + " as " + attributeName else plain
  }

  /**
   * For a table and a source column without spaces or dots, a select
   * entry reads back to exactly its parts; it carries an alias exactly
   * when `:from` was given.
   */
  lemma SelectFragmentReadsBack(tableName: string, sourceAttribute: string, attributeName: string, from: Option<string>)
    requires PlainIdentifier(tableName) && PlainIdentifier(sourceAttribute)
    ensures ParseSelect(SelectFragment(tableName, sourceAttribute, attributeName, from))
      == Some(SelectColumn(tableName, sourceAttribute, if from.Some? then Some(attributeName) else None))
  {
    var plain := tableName + "." + sourceAttribute;
    ParsePlain(tableName, sourceAttribute);
    if from.Some? {
      SplitFirstAt(plain, ' ', "as " + attributeName);
      assert plain + " as " + attributeName == plain + [' '] + ("as " + attributeName);
      assert ("as " + attributeName)[..3] == "as ";
    }
  }

  lemma ParsePlain(tableName: string, sourceAttribute: string)
    requires PlainIdentifier(tableName) && PlainIdentifier(sourceAttribute)
    ensures ' ' !in tableName + "." + sourceAttribute
    ensures SplitFirst(tableName + "." + sourceAttribute, '.') == Some((tableName, sourceAttribute))
  {
    SplitFirstAt(tableName, '.', sourceAttribute);
    assert tableName + "." + sourceAttribute == tableName + ['.'] + sourceAttribute;
  }
}
