# SQLRecord attribute mapper, modelled in Dafny

`SQLRecord::Attributes::Mapper` is a small declaration DSL. A record class
uses it while its body runs to bind each of its attributes to a column of an
ActiveRecord model. Each `column :attr, :class => Model, :from => :col` call
does two things. It defines a read accessor for `attr` that decodes or
type-casts the raw value stored under `attr`. It also appends a SQL select
entry `table.col`, or `table.col as attr`, to the class's ordered list
`sql_select_columns`. `with_opts` and `with_class` install default options,
in practice a default `:class`, for the `column` calls in their block.

The model has two layers:

- A pure state machine (`MapperSpec`). Its state holds the active default
  options, the select entries and the declared accessors. Its steps are one
  `column` call (`ColumnStep`), one declaration (`Exec`), a block of
  declarations run in order (`Run`) and a `with_opts` scope (`Scope`). A
  block is data: a sequence of `column`, `with_opts` and `with_class`
  declarations, which may nest.
- A class `Mapper.RecordMapping`, which holds the same state in fields that
  its methods update in place, as the Ruby instance variables
  `@default_opts` and `@sql_select_columns` are. Each method is proved to
  leave exactly the state that the corresponding pure step gives.

The accessor is the function `Accessor.Read`. It takes a field descriptor
(attribute name, source column, source class), the instance's raw
attributes, and the collaborators it calls but does not implement: the
column cast, structured-text decoding, and moving a time value into the
configured time zone.

The model follows the code on four points where it behaves differently from
what its comments might suggest:

- A select entry is aliased whenever `:from` is given, even when it names
  the attribute itself. It is not aliased only "when the names differ".
- The scope is cleared only when its block completes, because there is no
  `ensure`. When a block of `column` calls raises, `@default_opts` is left
  set to the scope's options. When an inner `with_opts` completed before the
  raise, it has already cleared `@default_opts`, and the raise leaves it
  `nil`.
- A `column` without `:class` fails in two different ways. Outside any scope
  `@default_opts` is `nil`, so `nil[:class]` fails with a NoMethodError
  (`NoDefaultOpts`). Inside a scope whose options have no `:class`, the
  explicit ArgumentError is raised (`MissingClass`).
- `sql_select_columns` reads `nil`, not `[]`, until a declaration has
  succeeded, because the list is created by `||= []` only on success.

Two more properties are proved. Scopes do not nest: an inner `with_opts`
clears the outer scope instead of restoring it. For identifiers without
spaces or dots, the query result labels every select entry with the
attribute name, which is the key the accessor reads.

## Model

| member | source | states |
|---|---|---|
| `MapperSpec.ColumnStep` | lib/sql_record/attributes/mapper.rb:52-78 | a `column` call fails exactly when neither `:class` nor the active scope gives a class. It fails with NoDefaultOpts exactly when there is no scope at all. On failure the state is unchanged. On success the accessor is registered with the explicit class, else the scope's class, and with `:from`, else the attribute name, as its source column. Exactly one entry is appended at the end, the earlier entries are kept, and the scope is never changed |
| `Mapper.RecordMapping.Column` | lib/sql_record/attributes/mapper.rb:52-78 | the in-place `column` leaves exactly the state and outcome `ColumnStep` gives |
| `Mapper.RecordMapping.WithOpts` | lib/sql_record/attributes/mapper.rb:26-30 | installs the options, runs the block, and clears the options only if the block completed. The result equals `Scope` |
| `Mapper.RecordMapping.WithClass` | lib/sql_record/attributes/mapper.rb:33-36 | the caller's options get `:class` set to `klass`, overriding any earlier value, and the call then behaves exactly like `with_opts` on those options |
| `Mapper.RecordMapping.RunBlock` | lib/sql_record/attributes/mapper.rb:28 | runs the block's declarations in order and stops at the first that raises. The result equals `Run` |
| `Mapper.RecordMapping.Declare` | lib/sql_record/attributes/mapper.rb:28 | one declaration of a block has the effect `Exec` gives |
| `Mapper.RecordMapping.constructor` | lib/sql_record/attributes/mapper.rb:6 | a host class starts with no scope, no select entries and no accessors |
| `Mapper.RecordMapping.SqlSelectColumns` | lib/sql_record/attributes/mapper.rb:77 | the reader is `nil` exactly while no entry has been appended, and is the entries themselves afterwards |
| `Mapper.RecordMapping.ReadAttribute` | lib/sql_record/attributes/mapper.rb:58 | reading an undeclared attribute fails. A declared one reads through its registered descriptor |
| `Accessor.Read` | lib/sql_record/attributes/mapper.rb:58-72 | a serialized source column yields the decode of the raw value stored under the attribute name. Any other known column yields the localized cast of that same raw value. A column unknown to the source class fails; that is the only failure the accessor itself raises |
| `Accessor.Localize` | lib/sql_record/attributes/mapper.rb:66-69 | a non-time value, or any value when no zone is configured, is returned unchanged. A time is moved to the zone's UTC offset |
| `Accessor.ReadKeyedByAttributeName` | lib/sql_record/attributes/mapper.rb:61-64 | the result depends on the raw store only through the value under the attribute name, never the one under the source column |
| `Accessor.SerializedReadNeverCasts` | lib/sql_record/attributes/mapper.rb:59-62 | for a serialized column the cast and time-zone collaborators have no influence on the result |
| `Accessor.PlainReadNeverDecodes` | lib/sql_record/attributes/mapper.rb:59-64 | for any other column the decoder has no influence on the result |
| `SelectColumns.SelectFragmentReadsBack` | lib/sql_record/attributes/mapper.rb:75-76 | a select entry reads back as table, source column and an alias. The alias is present exactly when `:from` was given, and it is the attribute name |
| `MapperProperties.EntryLabelIsAttributeName` | lib/sql_record/attributes/mapper.rb:75-76 | the entry a successful `column` appends is labelled in the query result with the attribute name, the key its accessor reads |
| `MapperProperties.ExecGrows` | lib/sql_record/attributes/mapper.rb:77 | any declaration, whether it completes or raises, only appends select entries and adds accessor names. When it completes it has appended one entry per `column` it holds |
| `MapperProperties.RunGrows` | lib/sql_record/attributes/mapper.rb:77 | the same for a block of declarations |
| `MapperProperties.ScopeGrows` | lib/sql_record/attributes/mapper.rb:26-30 | the same for a `with_opts` scope |
| `MapperProperties.ClassBodyEntryCount` | lib/sql_record/attributes/mapper.rb:77 | starting from an empty list, a class body that completes leaves one select entry per `column` declaration |
| `MapperProperties.BareColumnsUseScopeClass` | lib/sql_record/attributes/mapper.rb:53 | inside a scope whose options give a class, every `column` without `:class` succeeds and is read from that class, and the scope stays installed |
| `MapperProperties.WithClassOverridesOptsClass` | lib/sql_record/attributes/mapper.rb:33-35 | in a `with_class klass, opts` block, bare columns use `klass` even when `opts` named another class, and the scope is cleared afterwards |
| `MapperProperties.FailedColumnsKeepScope` | lib/sql_record/attributes/mapper.rb:53-54 | a block of `column` calls that raises leaves the scope in force at the time of the raise |
| `MapperProperties.ScopeNotResetOnFailure` | lib/sql_record/attributes/mapper.rb:26-30 | when the block of `with_opts opts` is a block of `column` calls and raises, `@default_opts` is still `opts` afterwards |
| `MapperProperties.ScopeClearedAfterBlock` | lib/sql_record/attributes/mapper.rb:26-30 | after a scope completes, a `column` without `:class` fails with NoDefaultOpts and changes nothing |
| `MapperProperties.NestedScopeClearsOuter` | lib/sql_record/attributes/mapper.rb:26-30 | an inner `with_opts` with any block that completes clears the outer scope on exit, so a later bare `column` in the outer block fails with NoDefaultOpts, appends nothing beyond what the inner block appended, and leaves no scope set |
| `MapperProperties.AccountExample` | lib/sql_record/attributes/mapper.rb:44-50 | `column :name, :class => Account` then `column :account_name, :class => Account, :from => :name` yields `["accounts.name", "accounts.name as account_name"]`, with both accessors reading the `name` column |

## Left out

- YAML decoding is the abstract `decode` collaborator. Its behaviour and its failures on malformed payloads are not modelled.
- The `cast` and `localtime` collaborators are total functions: whatever `type_cast_from_database` or `localtime` raises is not modelled, so `Accessor.Read` fails only for a column unknown to the source class.
- ActiveRecord introspection is reduced to a source class with a table name and columns by name, each serialized or not. The cast is the abstract `cast` collaborator. The ordered `columns` list and any duplicate names in it are not modelled.
- Time-zone localisation is the abstract `localtime` collaborator together with an optional zone offset. The checks `Time.respond_to?(:zone)` and `Time.zone.respond_to?(:utc_offset)` collapse into "an offset is configured".
- `define_method` is modelled as inserting a descriptor into a map. A later declaration of the same name replaces the accessor, as a redefinition does. The `instance_eval` and `yield(self)` block styles are the same declaration sequence. A block holds only `column`, `with_opts` and `with_class` calls, not arbitrary Ruby.
- Hash aliasing is not modelled: options are values. `with_opts` keeps a reference to the caller's hash, and later mutation of that hash is not modelled. The write `with_class` makes into the caller's hash is returned as `updatedOpts`.
- Symbols are modelled as their strings, `to_s` applied.
- Exceptions are outcome values carrying one of two error kinds. Their messages are not modelled.
- Concurrent declarations on the same class are not modelled. `@default_opts` is unsynchronised shared state.
