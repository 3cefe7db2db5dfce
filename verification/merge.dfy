/** The merge of the shared defaults with the environment's values
    (`merge_vars_file`): `custom_values.update(common_values)`, so the shared
    defaults win wherever both define a key. */
module Merge {

  import opened Wrappers

  /** A value as YAML loading produces it. */
  datatype Yaml =
    | Null
    | Bool(b: bool)
    | Int(i: int)
    | Str(s: string)
    | List(items: seq<Yaml>)
    | Mapping(entries: map<string, Yaml>)

  /** A top-level YAML mapping: variable name to value. Keys are strings and
      the order of the entries is not kept. */
  type ValueSet = map<string, Yaml>

  /** The shared defaults file. */
  const CommonFilePath: string := "cf_vars/common.yml"

  /** The result of `custom.update(common)`: every key of either map, with the
      value from `common` where it has one and from `custom` otherwise. */
  function Merged(custom: ValueSet, common: ValueSet): (m: ValueSet)
    ensures m.Keys == custom.Keys + common.Keys
    ensures forall k :: k in common ==> m[k] == common[k]
    ensures forall k :: k in custom && k !in common ==> m[k] == custom[k]
  {
    custom + common
  }

  /** A Python dictionary that is updated in place. */
  class Dict {
    var entries: ValueSet

    constructor (initial: ValueSet)
      ensures entries == initial
    {
      entries := initial;
    }

    /** `self.update(other)`: the keys of `other` are inserted or
        overwritten, every other entry stays. */
    method Update(other: ValueSet)
      modifies this
      ensures entries == Merged(old(entries), other)
    {
      entries := entries + other;
    }
  }

  /** `merge_vars_file`, given the outcome of loading the shared defaults and
      the environment's values (None when a file cannot be opened or does not
      hold a mapping): either load failing ends the run; otherwise the
      environment's dictionary is updated with the shared defaults. */
  method MergeVarsFile(common: Option<ValueSet>, custom: Option<ValueSet>) returns (r: Option<ValueSet>)
    ensures r.Some? <==> common.Some? && custom.Some?
    ensures r.Some? ==> r.value == Merged(custom.value, common.value)
    ensures r.Some? ==> r.value.Keys == custom.value.Keys + common.value.Keys
    ensures r.Some? ==> forall k :: k in common.value ==> r.value[k] == common.value[k]
    ensures r.Some? ==> forall k :: k in custom.value && k !in common.value ==> r.value[k] == custom.value[k]
  {
    if common.None? || custom.None? {
      return None;
    }
    var values := new Dict(custom.value);
    values.Update(common.value);
    return Some(values.entries);
  }

  /** A key the environment's file defines is overridden whenever the shared
      defaults define it too: the merge differs from the environment's own
      value exactly on the keys where the shared value differs. */
  lemma SharedDefaultsWin(custom: ValueSet, common: ValueSet, k: string)
    requires k in custom
    ensures k in Merged(custom, common)
    ensures Merged(custom, common)[k] != custom[k] <==> k in common && common[k] != custom[k]
  {
  }

  /** Merging is idempotent in the shared defaults: updating a second time
      with the same defaults changes nothing. */
  lemma MergeIdempotent(custom: ValueSet, common: ValueSet)
    ensures Merged(Merged(custom, common), common) == Merged(custom, common)
  {
  }

  /** The merge is the union of two maps that agree wherever both are defined
      exactly when the two files do not conflict; only then does the order of
      the update not matter. */
  lemma MergeCommutesWithoutConflict(custom: ValueSet, common: ValueSet)
    ensures Merged(custom, common) == Merged(common, custom)
            <==> forall k :: k in custom && k in common ==> custom[k] == common[k]
  {
    if Merged(custom, common) == Merged(common, custom) {
      forall k | k in custom && k in common ensures custom[k] == common[k] {
        assert Merged(common, custom)[k] == custom[k];
      }
    }
  }

}
