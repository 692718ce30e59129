/** getNested (build/1.7/mdm-xv.go:139-154): follow a `.`-separated path through a
    decoded JSON object and render the first non-object value it reaches. */
module Nested {
  import opened Wrappers

  /** A value decoded by encoding/json into interface{}: an object
      (map[string]interface{}), or any other value (string, number, boolean, null,
      array), kept as the text fmt's `%v` verb prints for it. */
  datatype Json = Object(fields: map<string, Json>) | Scalar(shown: string)

  /** strings.Split with a one-character separator: the pieces between separators,
      at least one, none containing the separator. */
  function Split(s: string, sep: char): (parts: seq<string>)
    ensures |parts| >= 1
    ensures forall i :: 0 <= i < |parts| ==> sep !in parts[i]
    decreases |s|
  {
    if s == [] then [""]
    else
      var rest := Split(s[1..], sep);
      if s[0] == sep then [""] + rest
      else [[s[0]] + rest[0]] + rest[1..]
  }

  /** strings.Join: the pieces with the separator between each two. */
  function Join(parts: seq<string>, sep: char): string {
    if parts == [] then ""
    else if |parts| == 1 then parts[0]
    else parts[0] + [sep] + Join(parts[1..], sep)
  }

  /** The lookup getNested performs, segment by segment. A path whose every segment
      leads to an object gives the empty string, and so does a first segment that
      is missing. */
  function Lookup(current: map<string, Json>, keys: seq<string>): (r: string)
    ensures Descend(current, keys).Some? ==> r == ""
    ensures r != "" ==> keys != [] && keys[0] in current
    decreases |keys|
  {
    if keys == [] then ""
    else if keys[0] !in current then ""
    else match current[keys[0]]
      case Object(m) => Lookup(m, keys[1..])
      case Scalar(shown) => shown
  }

  /** The object reached by following every key through objects, if there is one. */
  function Descend(current: map<string, Json>, keys: seq<string>): Option<map<string, Json>>
    decreases |keys|
  {
    if keys == [] then Some(current)
    else if keys[0] in current && current[keys[0]].Object? then Descend(current[keys[0]].fields, keys[1..])
    else None
  }

  /** getNested: splits the path and walks it, replacing the current object at each
      segment that leads to one. */
  method GetNested(data: map<string, Json>, path: string) returns (r: string)
    ensures r == Lookup(data, Split(path, '.'))
  {
    var keys := Split(path, '.');
    var current := data;
    for i := 0 to |keys|
      invariant Lookup(current, keys[i..]) == Lookup(data, keys)
    {
      var key := keys[i];
      assert keys[i..][1..] == keys[i + 1..];
      if key in current {
        match current[key]
        case Object(m) =>
          current := m;
        case Scalar(shown) =>
          return shown;
      } else {
        return "";
      }
    }
    return "";
  }

  // ---------------------------------------------------------------------------
  // Splitting and joining are inverse

  /** Splitting a separator-free prefix onto a string extends its first piece. */
  lemma {:induction false} SplitPrefix(a: string, t: string, sep: char)
    requires sep !in a
    ensures Split(a + t, sep) == [a + Split(t, sep)[0]] + Split(t, sep)[1..]
    decreases |a|
  {
    if a != [] {
      assert (a + t)[1..] == a[1..] + t;
      SplitPrefix(a[1..], t, sep);
      assert [a[0]] + (a[1..] + Split(t, sep)[0]) == a + Split(t, sep)[0];
    } else {
      var parts := Split(t, sep);
      assert a + t == t && a + parts[0] == parts[0];
      assert [parts[0]] + parts[1..] == parts;
    }
  }

  /** Joining the pieces of a split gives back the original string. */
  lemma {:induction false} JoinSplit(s: string, sep: char)
    ensures Join(Split(s, sep), sep) == s
    decreases |s|
  {
    if s != [] {
      var rest := Split(s[1..], sep);
      JoinSplit(s[1..], sep);
      if s[0] == sep {
        assert Split(s, sep)[1..] == rest;
      } else {
        var parts := Split(s, sep);
        assert parts[1..] == rest[1..];
        if |rest| == 1 {
          assert s == [s[0]] + rest[0];
        } else {
          assert Join(rest, sep) == rest[0] + [sep] + Join(rest[1..], sep);
          assert s == [s[0]] + rest[0] + [sep] + Join(rest[1..], sep);
        }
      }
    }
  }

  /** Splitting the join of separator-free pieces gives back the pieces. */
  lemma {:induction false} SplitJoin(parts: seq<string>, sep: char)
    requires |parts| >= 1
    requires forall i :: 0 <= i < |parts| ==> sep !in parts[i]
    ensures Split(Join(parts, sep), sep) == parts
    decreases |parts|
  {
    if |parts| == 1 {
      SplitPrefix(parts[0], [], sep);
      assert parts[0] + [] == parts[0];
    } else {
      var tail := Join(parts[1..], sep);
      SplitJoin(parts[1..], sep);
      assert Split([sep] + tail, sep) == [""] + parts[1..];
      assert parts[0] + [sep] + tail == parts[0] + ([sep] + tail);
      SplitPrefix(parts[0], [sep] + tail, sep);
      assert parts[0] + "" == parts[0];
      assert [parts[0]] + parts[1..] == parts;
    }
  }

  // ---------------------------------------------------------------------------
  // The outcomes of a lookup

  /** Reaching a non-object value returns its rendering, whatever segments remain. */
  lemma {:induction false} LookupStopsAtScalar(m: map<string, Json>, prefix: seq<string>, key: string,
                                               rest: seq<string>, c: map<string, Json>)
    requires Descend(m, prefix) == Some(c)
    requires key in c && c[key].Scalar?
    ensures Lookup(m, prefix + [key] + rest) == c[key].shown
    decreases |prefix|
  {
    if prefix != [] {
      assert (prefix + [key] + rest)[1..] == prefix[1..] + [key] + rest;
      LookupStopsAtScalar(m[prefix[0]].fields, prefix[1..], key, rest, c);
    } else {
      assert prefix + [key] + rest == [key] + rest;
    }
  }

  /** A missing segment ends the lookup with the empty string. */
  lemma {:induction false} LookupMissingKey(m: map<string, Json>, prefix: seq<string>, key: string,
                                            rest: seq<string>, c: map<string, Json>)
    requires Descend(m, prefix) == Some(c)
    requires key !in c
    ensures Lookup(m, prefix + [key] + rest) == ""
    decreases |prefix|
  {
    if prefix != [] {
      assert (prefix + [key] + rest)[1..] == prefix[1..] + [key] + rest;
      LookupMissingKey(m[prefix[0]].fields, prefix[1..], key, rest, c);
    } else {
      assert prefix + [key] + rest == [key] + rest;
    }
  }

  /** A non-empty result is the rendering of a value found along the path. */
  lemma {:induction false} LookupFindsScalar(m: map<string, Json>, keys: seq<string>)
    requires Lookup(m, keys) != ""
    ensures exists i :: 0 <= i < |keys| && Descend(m, keys[..i]).Some? &&
              keys[i] in Descend(m, keys[..i]).value &&
              Descend(m, keys[..i]).value[keys[i]] == Scalar(Lookup(m, keys))
    decreases |keys|
  {
    assert keys[..0] == [];
    if m[keys[0]].Object? {
      var sub := m[keys[0]].fields;
      LookupFindsScalar(sub, keys[1..]);
      var i :| 0 <= i < |keys| - 1 && Descend(sub, keys[1..][..i]).Some? &&
               keys[1..][i] in Descend(sub, keys[1..][..i]).value &&
               Descend(sub, keys[1..][..i]).value[keys[1..][i]] == Scalar(Lookup(sub, keys[1..]));
      assert keys[..i + 1][1..] == keys[1..][..i];
      assert Descend(m, keys[..i + 1]) == Descend(sub, keys[1..][..i]);
    }
  }
}
