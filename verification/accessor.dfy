/**
 * The read accessor `column` defines for each mapped attribute: decode a
 * serialized column, otherwise cast the raw value through the source
 * column's type and move a time value into the configured time zone.
 */
module Accessor {
  import opened Wrappers
  import opened MapperTypes

  /** How reading a mapped attribute fails. */
  datatype ReadError =
    | UnknownColumn(sourceAttribute: string)  // the source class has no such column
    | UndefinedAttribute(attributeName: string)  // no accessor was declared under this name

  /**
   * The collaborators the accessor calls and does not implement: the
   * column's cast from its database form, structured-text decoding, the
   * test for a time value, moving a time to a UTC offset, and the offset of
   * the configured time zone, if any.
   */
  datatype Collaborators<!R, !V> = Collaborators(
    cast: (CastType, Option<R>) -> V,
    decode: Option<R> -> V,
    isTime: V -> bool,
    localtime: (V, int) -> V,
    zoneOffset: Option<int>)

  /** The names of the columns of `k` whose cast type is serialized. */
  function SerializedNames(k: SourceClass): set<string> {
    set name | name in k.columns && k.columns[name].Serialized?
  }

  /** The raw stored value under `key`, `nil` when there is none. */
  function RawValue<R>(raw: map<string, R>, key: string): Option<R> {
    if key in raw then Some(raw[key]) else None
  }

  /**
   * A cast value moved into the configured time zone when it is a time;
   * any other value, or any value when no zone is configured, is returned
   * as it is.
   */
  function Localize<R, V>(env: Collaborators<R, V>, value: V): (r: V)
    ensures !env.isTime(value) || env.zoneOffset.None? ==> r == value
    ensures env.isTime(value) && env.zoneOffset.Some? ==> r == env.localtime(value, env.zoneOffset.value)
  {
    if env.isTime(value) && env.zoneOffset.Some? then env.localtime(value, env.zoneOffset.value) else value
  }

  /**
   * The value of the attribute described by `f` for an instance whose raw
   * attributes are `raw`. The raw value is always the one stored under the
   * attribute name, never under the source column's name.
   */
  function Read<R, V>(f: Field, raw: map<string, R>, env: Collaborators<R, V>): (r: Result<V, ReadError>)
    ensures r.Failure? <==> f.sourceAttribute !in f.sourceClass.columns
    ensures r.Failure? ==> r.error == UnknownColumn(f.sourceAttribute)
    ensures f.sourceAttribute in f.sourceClass.columns && f.sourceClass.columns[f.sourceAttribute].Serialized? ==>
      r == Success(env.decode(RawValue(raw, f.attributeName)))
    ensures f.sourceAttribute in f.sourceClass.columns && f.sourceClass.columns[f.sourceAttribute].Plain? ==>
      r == Success(Localize(env, env.cast(f.sourceClass.columns[f.sourceAttribute], RawValue(raw, f.attributeName))))
  {
    var value := RawValue(raw, f.attributeName);
    if f.sourceAttribute in SerializedNames(f.sourceClass) then
      Success(env.decode(value))
    else if f.sourceAttribute !in f.sourceClass.columns then
      Failure(UnknownColumn(f.sourceAttribute))
    else
      Success(Localize(env, env.cast(f.sourceClass.columns[f.sourceAttribute], value)))
  }

  /** Two raw stores that agree on the attribute name's key read the same. */
  lemma ReadKeyedByAttributeName<R, V>(f: Field, raw1: map<string, R>, raw2: map<string, R>, env: Collaborators<R, V>)
    requires RawValue(raw1, f.attributeName) == RawValue(raw2, f.attributeName)
    ensures Read(f, raw1, env) == Read(f, raw2, env)
  {
  }

  /**
   * A serialized column is read through `decode` alone: collaborators that
   * differ in everything but `decode` give the same result.
   */
  lemma SerializedReadNeverCasts<R, V>(f: Field, raw: map<string, R>, env1: Collaborators<R, V>, env2: Collaborators<R, V>)
    requires f.sourceAttribute in SerializedNames(f.sourceClass)
    requires env1.decode == env2.decode
    ensures Read(f, raw, env1) == Read(f, raw, env2)
  {
  }

  /**
   * Any other column never decodes: collaborators that differ only in
   * `decode` give the same result.
   */
  lemma PlainReadNeverDecodes<R, V>(f: Field, raw: map<string, R>, env1: Collaborators<R, V>, env2: Collaborators<R, V>)
    requires f.sourceAttribute !in SerializedNames(f.sourceClass)
    requires env1 == env2.(decode := env1.decode)
    ensures Read(f, raw, env1) == Read(f, raw, env2)
  {
  }
}
