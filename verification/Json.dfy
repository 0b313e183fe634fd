/** Decoded JSON values and the field paths that routers and reducers read. Comparing two
    canonical encodings byte for byte is comparing the decoded values. */
module Json {

  datatype Option<T> = None | Some(value: T)

  datatype Value =
    | Null
    | Bool(b: bool)
    | Number(n: real)
    | String(s: string)
    | Array(items: seq<Value>)
    | Object(members: map<string, Value>)

  /** A node's recorded output: none, bytes that do not parse, or a value. */
  datatype Raw = Empty | Invalid | Valid(json: Value)

  /** The dot-separated parts of a path. */
  function Split(path: string): (parts: seq<string>)
    ensures parts != []
  {
    if path == "" then [""]
    else
      var rest := Split(path[1..]);
      if path[0] == '.' then [""] + rest else [[path[0]] + rest[0]] + rest[1..]
  }

  function Join(parts: seq<string>): string
    requires parts != []
  {
    if |parts| == 1 then parts[0] else parts[0] + "." + Join(parts[1..])
  }

  /** Splitting loses nothing: joining the parts gives the path back. */
  lemma {:induction false} SplitJoin(path: string)
    ensures Join(Split(path)) == path
    ensures forall i :: 0 <= i < |Split(path)| ==> '.' !in Split(path)[i]
  {
    if path != "" {
      var rest := Split(path[1..]);
      SplitJoin(path[1..]);
      if path[0] == '.' {
        assert ([""] + rest)[1..] == rest;
      } else {
        var parts := [[path[0]] + rest[0]] + rest[1..];
        assert parts[1..] == rest[1..];
      }
    }
  }

  /** The value at the end of the path, when every part names a member. */
  function Walk(v: Value, parts: seq<string>): Option<Value> {
    if parts == [] then Some(v)
    else if v.Object? && parts[0] in v.members then Walk(v.members[parts[0]], parts[1..])
    else None
  }

  function Field(raw: Raw, path: string): Option<Value> {
    if raw.Valid? then Walk(raw.json, Split(path)) else None
  }

  method ExtractField(raw: Raw, path: string) returns (r: Option<Value>)
    ensures r == Field(raw, path)
  {
    if !raw.Valid? {
      return None;
    }
    var cur := raw.json;
    var parts := Split(path);
    for i := 0 to |parts|
      invariant Walk(raw.json, parts) == Walk(cur, parts[i..])
    {
      if !cur.Object? {
        return None;
      }
      if parts[i] !in cur.members {
        return None;
      }
      cur := cur.members[parts[i]];
    }
    return Some(cur);
  }
}
