/** Reading the fields of a list entry. */
module Fields {
  import opened Json
  import opened Strings

  /** The trimmed string a field holds, if it holds a string that is not blank. */
  function Trimmed(entry: map<string, Value>, key: string): Option<string> {
    if key in entry && entry[key].Str? && Trim(entry[key].text) != "" then Some(Trim(entry[key].text)) else None
  }

  /** The entries of a list field; none when it is absent or no list. */
  function Entries(list: Option<Value>): seq<Value> {
    if list.Some? && list.value.Arr? then list.value.items else []
  }

  function Optional(text: Option<string>): Value {
    if text.Some? then Str(text.value) else Null
  }

  /** What Trimmed may yield. */
  predicate Usable(text: string) {
    text != "" && IsTrimmed(text)
  }

  lemma TrimmedIsUsable(entry: map<string, Value>, key: string)
    ensures Trimmed(entry, key).Some? ==> Usable(Trimmed(entry, key).value)
  {
    if Trimmed(entry, key).Some? {
      TrimHolds(entry[key].text);
    }
  }

  /** A usable text written back is read as it is. */
  lemma UsableIsRead(entry: map<string, Value>, key: string, text: string)
    requires Usable(text) && key in entry && entry[key] == Str(text)
    ensures Trimmed(entry, key) == Some(text)
  {
    TrimmedStays(text);
  }

  lemma OptionalIsRead(entry: map<string, Value>, key: string, text: Option<string>)
    requires text.Some? ==> Usable(text.value)
    requires key in entry && entry[key] == Optional(text)
    ensures Trimmed(entry, key) == text
  {
    if text.Some? {
      TrimmedStays(text.value);
    }
  }
}
