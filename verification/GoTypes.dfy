/** Go values whose nil is not their empty value, as the controllers compare them with
    reflect.DeepEqual and store them as JSON. */
module GoTypes {
  datatype GoList<T> = Nil | List(items: seq<T>)

  datatype GoMap<K, V> = NilMap | Map(entries: map<K, V>)

  /** A `json:",omitempty"` list after Marshal and Unmarshal: an empty list is left out of
      the text, so it comes back as nil. */
  function JsonList<T>(l: GoList<T>): GoList<T> {
    if l == List([]) then Nil else l
  }

  function JsonMap<K, V>(m: GoMap<K, V>): GoMap<K, V> {
    if m == Map(map[]) then NilMap else m
  }
}
