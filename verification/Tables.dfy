/** Table names derived from an atom's metadata and value, as both read paths derive them. */
module Tables {
  import opened Values

  function NormalizeTableName(name: string): string {
    var text := Strip(name);
    if text != "" then text else "Uncategorized"
  }

  /** The first of the given keys that holds a non-blank text. */
  function FirstText(metadata: Metadata, keys: seq<string>): Option<string> {
    if keys == [] then None
    else if keys[0] in metadata && metadata[keys[0]].JText? && Strip(metadata[keys[0]].s) != "" then
      Some(metadata[keys[0]].s)
    else FirstText(metadata, keys[1..])
  }

  /** `prefix` stands for the leading "Name:" of a text value, which a regular expression finds. */
  function TableName(prefix: string -> Option<string>, keys: seq<string>, value: Json, metadata: Metadata): string {
    match FirstText(metadata, keys)
    case Some(name) => NormalizeTableName(name)
    case None =>
      if value.JText? && prefix(value.s).Some? then NormalizeTableName(prefix(value.s).value)
      else "Uncategorized"
  }

  /** Metadata that agrees on the given keys names the same table. */
  lemma {:induction false} FirstTextDependsOnKeys(a: Metadata, b: Metadata, keys: seq<string>)
    requires forall k :: k in keys ==> (k in a <==> k in b) && (k in a ==> a[k] == b[k])
    ensures FirstText(a, keys) == FirstText(b, keys)
  {
    if keys != [] {
      assert keys[0] in keys;
      FirstTextDependsOnKeys(a, b, keys[1..]);
    }
  }

  predicate NamesTable(metadata: Metadata, key: string) {
    key in metadata && metadata[key].JText? && Strip(metadata[key].s) != ""
  }

  /** The first of the keys that holds a non-blank text names the table, trimmed. */
  lemma {:induction false} FirstKeyNames(prefix: string -> Option<string>, keys: seq<string>, value: Json, metadata: Metadata, i: nat)
    requires i < |keys| && NamesTable(metadata, keys[i]) && forall j :: 0 <= j < i ==> !NamesTable(metadata, keys[j])
    ensures TableName(prefix, keys, value, metadata) == Strip(metadata[keys[i]].s)
    decreases |keys|
  {
    hide Strip;
    if i > 0 {
      assert !NamesTable(metadata, keys[0]);
      forall j | 0 <= j < i - 1 ensures !NamesTable(metadata, keys[1..][j]) { assert keys[1..][j] == keys[j + 1]; }
      FirstKeyNames(prefix, keys[1..], value, metadata, i - 1);
    }
  }

  /** When no key names one, a text value's prefix does; a blank name, or none, stands for the uncategorized table. */
  lemma {:induction false} NoKeyNames(prefix: string -> Option<string>, keys: seq<string>, value: Json, metadata: Metadata)
    requires forall j :: 0 <= j < |keys| ==> !NamesTable(metadata, keys[j])
    ensures var name := if value.JText? && prefix(value.s).Some? then Strip(prefix(value.s).value) else "";
            TableName(prefix, keys, value, metadata) == if name != "" then name else "Uncategorized"
    decreases |keys|
  {
    hide Strip;
    if keys != [] {
      assert !NamesTable(metadata, keys[0]);
      forall j | 0 <= j < |keys| - 1 ensures !NamesTable(metadata, keys[1..][j]) { assert keys[1..][j] == keys[j + 1]; }
      NoKeyNames(prefix, keys[1..], value, metadata);
    }
  }
}
