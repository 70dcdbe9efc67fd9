/**
 * The entities the attribute mapper works with: the external model class a
 * column is read from, the options hash given to `column`/`with_opts`, and
 * the field descriptor each `column` call registers.
 */
module MapperTypes {
  import opened Wrappers

  /** How the external model casts one of its columns. */
  datatype CastType =
    | Serialized              // an opaque, structured-text encoded column
    | Plain(sqlType: string)  // any other column type

  /**
   * An external model class, reduced to what the mapper asks of it: its
   * table name and its columns by name (its `columns_hash`).
   */
  datatype SourceClass = SourceClass(tableName: string, columns: map<string, CastType>)

  /** The options hash: `:class` and `:from`; a missing key reads as `nil`. */
  datatype Opts = Opts(klass: Option<SourceClass>, from: Option<string>)

  /** The empty options hash `{}`. */
  const NoOpts := Opts(None, None)

  /** What one `column` declaration registers as the attribute's read accessor. */
  datatype Field = Field(attributeName: string, sourceAttribute: string, sourceClass: SourceClass)

  /** The two ways a `column` declaration fails. */
  datatype MapperError =
    | NoDefaultOpts  // no `:class` and no active scope: the lookup `nil[:class]` fails
    | MissingClass   // no `:class` in the options nor in the active scope's options
}
