/** Converting names and object keys between camelCase and snake_case. */
module CaseConversion {

  predicate Upper(c: char) { 'A' <= c <= 'Z' }

  predicate Lower(c: char) { 'a' <= c <= 'z' }

  function LowerOf(c: char): (r: char)
    requires Upper(c)
    ensures Lower(r) && UpperOf(r) == c
  {
    c - 'A' + 'a'
  }

  function UpperOf(c: char): char
    requires Lower(c)
  {
    c - 'a' + 'A'
  }

  /** Every capital becomes an underscore and its small letter. */
  function ToSnake(s: string): string {
    if s == [] then []
    else if Upper(s[0]) then ['_', LowerOf(s[0])] + ToSnake(s[1..])
    else [s[0]] + ToSnake(s[1..])
  }

  /** Every underscore before a small letter goes, and the letter becomes a capital, from left to right. */
  function ToCamel(s: string): string {
    if s == [] then []
    else if s[0] == '_' && |s| > 1 && Lower(s[1]) then [UpperOf(s[1])] + ToCamel(s[2..])
    else [s[0]] + ToCamel(s[1..])
  }

  /** No underscore stands before a small letter. */
  predicate CamelName(s: string) {
    forall i | 0 <= i < |s| - 1 :: !(s[i] == '_' && Lower(s[i + 1]))
  }

  predicate SnakeName(s: string) {
    forall i | 0 <= i < |s| :: !Upper(s[i])
  }

  /** What the text of `ToSnake` starts with is never a small letter that was not there before. */
  lemma SnakeStart(s: string)
    requires s != []
    ensures ToSnake(s) != [] && ToSnake(s)[0] == if Upper(s[0]) then '_' else s[0]
  {
  }

  lemma {:induction false} CamelOfSnake(s: string)
    requires CamelName(s)
    ensures ToCamel(ToSnake(s)) == s
  {
    if s != [] {
      var rest := s[1..];
      forall i | 0 <= i < |rest| - 1 ensures !(rest[i] == '_' && Lower(rest[i + 1])) {
        assert !(s[i + 1] == '_' && Lower(s[i + 1 + 1]));
      }
      CamelOfSnake(rest);
      if Upper(s[0]) {
        assert ToSnake(s)[2..] == ToSnake(rest);
      } else {
        assert ToSnake(s)[1..] == ToSnake(rest);
        if rest != [] { SnakeStart(rest); }
      }
      assert s == [s[0]] + rest;
    }
  }

  /** Going to snake_case and back loses the first underscore that stood before a small letter. */
  lemma {:induction false} CamelOfSnakeFails(s: string)
    requires !CamelName(s)
    ensures ToCamel(ToSnake(s)) != s
  {
    var rest := s[1..];
    if s[0] == '_' && Lower(s[1]) {
      assert ToSnake(s)[1..] == ToSnake(rest);
      SnakeStart(rest);
      assert ToCamel(ToSnake(s))[0] == UpperOf(s[1]);
    } else {
      assert !CamelName(rest) by {
        var i :| 0 <= i < |s| - 1 && s[i] == '_' && Lower(s[i + 1]);
        assert rest[i - 1] == '_' && Lower(rest[i]);
      }
      CamelOfSnakeFails(rest);
      if Upper(s[0]) {
        assert ToSnake(s)[2..] == ToSnake(rest);
      } else {
        assert ToSnake(s)[1..] == ToSnake(rest);
        SnakeStart(rest);
      }
      assert ToCamel(ToSnake(s)) == [s[0]] + ToCamel(ToSnake(rest));
      assert s == [s[0]] + rest;
    }
  }

  /** A name survives snake_case and back exactly if no underscore stands before a small letter. */
  lemma CamelRoundTrip(s: string)
    ensures ToCamel(ToSnake(s)) == s <==> CamelName(s)
  {
    if CamelName(s) { CamelOfSnake(s); } else { CamelOfSnakeFails(s); }
  }

  lemma {:induction false} SnakeOfCamel(t: string)
    requires SnakeName(t)
    ensures ToSnake(ToCamel(t)) == t
    decreases |t|
  {
    if t != [] {
      if t[0] == '_' && |t| > 1 && Lower(t[1]) {
        SnakeOfCamel(t[2..]);
        assert ToCamel(t)[1..] == ToCamel(t[2..]);
        assert t == ['_', t[1]] + t[2..];
      } else {
        SnakeOfCamel(t[1..]);
        assert ToCamel(t)[1..] == ToCamel(t[1..]);
        assert t == [t[0]] + t[1..];
      }
    }
  }

  lemma {:induction false} SnakeHasNoUpper(s: string)
    ensures SnakeName(ToSnake(s))
  {
    if s != [] {
      SnakeHasNoUpper(s[1..]);
    }
  }

  /** A name survives camelCase and back exactly if it has no capital. */
  lemma SnakeRoundTrip(t: string)
    ensures ToSnake(ToCamel(t)) == t <==> SnakeName(t)
  {
    if SnakeName(t) { SnakeOfCamel(t); } else { SnakeHasNoUpper(ToCamel(t)); }
  }

  // ---------------------------------------------------------------------------
  // Objects: entries in order, one per key
  // ---------------------------------------------------------------------------

  datatype Entry<V> = Entry(key: string, value: V)

  predicate IsObject<V>(o: seq<Entry<V>>) {
    forall i, j | 0 <= i < j < |o| :: o[i].key != o[j].key
  }

  /** `result[key] = value`: an existing key keeps its place. */
  function Assign<V>(o: seq<Entry<V>>, key: string, value: V): seq<Entry<V>> {
    if o == [] then [Entry(key, value)]
    else if o[0].key == key then [Entry(key, value)] + o[1..]
    else [o[0]] + Assign(o[1..], key, value)
  }

  lemma {:induction false} AssignNew<V>(o: seq<Entry<V>>, key: string, value: V)
    requires forall i | 0 <= i < |o| :: o[i].key != key
    ensures Assign(o, key, value) == o + [Entry(key, value)]
  {
    if o != [] {
      AssignNew(o[1..], key, value);
    }
  }

  function Renamed<V>(o: seq<Entry<V>>, name: string -> string): seq<Entry<V>> {
    if o == [] then []
    else
      var last := o[|o| - 1];
      Assign(Renamed(o[..|o| - 1], name), name(last.key), last.value)
  }

  method KeysToSnakeCase<V>(obj: seq<Entry<V>>) returns (result: seq<Entry<V>>)
    ensures result == Renamed(obj, ToSnake)
  {
    result := [];
    for i := 0 to |obj|
      invariant result == Renamed(obj[..i], ToSnake)
    {
      assert obj[..i + 1][..i] == obj[..i];
      result := Assign(result, ToSnake(obj[i].key), obj[i].value);
    }
    assert obj[..|obj|] == obj;
  }

  method KeysToCamelCase<V>(obj: seq<Entry<V>>) returns (result: seq<Entry<V>>)
    ensures result == Renamed(obj, ToCamel)
  {
    result := [];
    for i := 0 to |obj|
      invariant result == Renamed(obj[..i], ToCamel)
    {
      assert obj[..i + 1][..i] == obj[..i];
      result := Assign(result, ToCamel(obj[i].key), obj[i].value);
    }
    assert obj[..|obj|] == obj;
  }

  /** Where the new names differ, renaming keeps every entry, in place and with its value. */
  lemma {:induction false} RenamedInPlace<V>(o: seq<Entry<V>>, name: string -> string)
    requires forall i, j | 0 <= i < j < |o| :: name(o[i].key) != name(o[j].key)
    ensures |Renamed(o, name)| == |o|
    ensures forall i | 0 <= i < |o| :: Renamed(o, name)[i] == Entry(name(o[i].key), o[i].value)
  {
    if o != [] {
      var init, last := o[..|o| - 1], o[|o| - 1];
      RenamedInPlace(init, name);
      AssignNew(Renamed(init, name), name(last.key), last.value);
    }
  }

  /** An object with camelCase names goes to snake_case without a collision and comes back unchanged. */
  lemma ObjectsRoundTripFromCamel<V>(o: seq<Entry<V>>)
    requires IsObject(o) && forall i | 0 <= i < |o| :: CamelName(o[i].key)
    ensures IsObject(Renamed(o, ToSnake)) && |Renamed(o, ToSnake)| == |o|
    ensures Renamed(Renamed(o, ToSnake), ToCamel) == o
  {
    var n := Renamed(o, ToSnake);
    forall i | 0 <= i < |o| ensures ToCamel(ToSnake(o[i].key)) == o[i].key {
      CamelRoundTrip(o[i].key);
    }
    RenamedInPlace(o, ToSnake);
    RenamedInPlace(n, ToCamel);
  }

  lemma ObjectsRoundTripFromSnake<V>(o: seq<Entry<V>>)
    requires IsObject(o) && forall i | 0 <= i < |o| :: SnakeName(o[i].key)
    ensures IsObject(Renamed(o, ToCamel)) && |Renamed(o, ToCamel)| == |o|
    ensures Renamed(Renamed(o, ToCamel), ToSnake) == o
  {
    var n := Renamed(o, ToCamel);
    forall i | 0 <= i < |o| ensures ToSnake(ToCamel(o[i].key)) == o[i].key {
      SnakeRoundTrip(o[i].key);
    }
    RenamedInPlace(o, ToCamel);
    RenamedInPlace(n, ToSnake);
  }
}
