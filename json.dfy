/** JSON values as Json.NET's `JToken` tree holds them, with the behaviour of the
    two indexers the response parser uses. */
module Json {
  import opened Wrappers

  /** A JSON value. A number keeps the text Json.NET prints for it. */
  datatype JValue =
    | JNull
    | JBool(b: bool)
    | JNum(text: string)
    | JStr(s: string)
    | JArr(items: seq<JValue>)
    | JObj(fields: seq<(string, JValue)>)

  /** The value bound to `key`; when a key repeats the last binding wins, as `JObject.Parse` keeps it. */
  function Lookup(fields: seq<(string, JValue)>, key: string): Option<JValue> {
    if |fields| == 0 then None
    else if fields[|fields| - 1].0 == key then Some(fields[|fields| - 1].1)
    else Lookup(fields[..|fields| - 1], key)
  }

  /** A key is found exactly when some field carries it, and what is found is its last binding. */
  lemma {:induction false} LookupFindsLastBinding(fields: seq<(string, JValue)>, key: string)
    ensures Lookup(fields, key).None? <==> forall i | 0 <= i < |fields| :: fields[i].0 != key
    ensures Lookup(fields, key).Some? ==> exists i | 0 <= i < |fields| ::
              fields[i] == (key, Lookup(fields, key).value) && forall j | i < j < |fields| :: fields[j].0 != key
  {
    if |fields| > 0 && fields[|fields| - 1].0 != key {
      var init := fields[..|fields| - 1];
      LookupFindsLastBinding(init, key);
      assert forall i | 0 <= i < |init| :: init[i] == fields[i];
      if Lookup(fields, key).Some? {
        var i :| 0 <= i < |init| && init[i] == (key, Lookup(fields, key).value) &&
                 forall j | i < j < |init| :: init[j].0 != key;
        assert fields[i] == (key, Lookup(fields, key).value);
      }
    } else if |fields| > 0 {
      assert fields[|fields| - 1] == (key, Lookup(fields, key).value);
    }
  }

  lemma LookupOne(a: (string, JValue), key: string)
    ensures Lookup([a], key) == if a.0 == key then Some(a.1) else None
  {
    assert [a][..0] == [];
  }

  lemma LookupTwo(a: (string, JValue), b: (string, JValue), key: string)
    ensures Lookup([a, b], key) ==
            if b.0 == key then Some(b.1) else if a.0 == key then Some(a.1) else None
  {
    assert [a, b][..1] == [a];
    LookupOne(a, key);
  }

  lemma LookupThree(a: (string, JValue), b: (string, JValue), c: (string, JValue), key: string)
    ensures Lookup([a, b, c], key) ==
            if c.0 == key then Some(c.1) else if b.0 == key then Some(b.1)
            else if a.0 == key then Some(a.1) else None
  {
    assert [a, b, c][..2] == [a, b];
    LookupTwo(a, b, key);
  }

  /** Outcome of `token[key]` with a string key. */
  datatype Member = Absent | Present(value: JValue) | Throws

  /** `token[key]`: an object yields the property's value, or C# null when it has no such
      property; on an array or a scalar Json.NET throws. */
  function Get(v: JValue, key: string): (r: Member)
    ensures r.Throws? <==> !v.JObj?
    ensures v.JObj? ==> (r.Present? <==> Lookup(v.fields, key).Some?)
    ensures r.Present? ==> Lookup(v.fields, key) == Some(r.value)
  {
    match v
    case JObj(fields) => (match Lookup(fields, key) case Some(x) => Present(x) case None => Absent)
    case _ => Throws
  }

  /** `token.HasValues`: a container with at least one child. A scalar, a JSON null included,
      never has values. */
  predicate HasValues(v: JValue)
    ensures HasValues(v) ==> v.JArr? || v.JObj?
    ensures v.JArr? ==> (HasValues(v) <==> v.items != [])
    ensures v.JObj? ==> (HasValues(v) <==> v.fields != [])
  {
    (v.JArr? && |v.items| > 0) || (v.JObj? && |v.fields| > 0)
  }

  /** The value of `key` in an object, when there is one. */
  function At(v: JValue, key: string): Option<JValue> {
    if v.JObj? then Lookup(v.fields, key) else None
  }

  /** The `i`-th element of an array, when there is one. */
  function Nth(v: JValue, i: nat): Option<JValue> {
    if v.JArr? && i < |v.items| then Some(v.items[i]) else None
  }

  function AsString(v: JValue): Option<string> {
    if v.JStr? then Some(v.s) else None
  }
}
