/** The JSON value tree that the response parser walks, with the lookups it uses. */
module Json {
  import opened Options
  import CStrings

  datatype Value =
    | JNull
    | JBool(b: bool)
    | JNumber(n: real)
    | JString(s: CStrings.CStr)
    | JArray(items: seq<Value>)
    | JObject(members: seq<Member>)

  datatype Member = Member(key: CStrings.CStr, value: Value)

  predicate IsObject(v: Option<Value>) { v.Some? && v.value.JObject? }
  predicate IsArray(v: Option<Value>) { v.Some? && v.value.JArray? }
  predicate IsNumber(v: Option<Value>) { v.Some? && v.value.JNumber? }
  predicate IsString(v: Option<Value>) { v.Some? && v.value.JString? }

  function Find(members: seq<Member>, key: string): Option<Value> {
    if members == [] then None
    else if members[0].key == key then Some(members[0].value)
    else Find(members[1..], key)
  }

  /** Case-sensitive member lookup; nothing is found in a missing value or a non-object. */
  function Get(v: Option<Value>, key: string): Option<Value> {
    if IsObject(v) then Find(v.value.members, key) else None
  }

  /** The value reached by following member names one after the other. */
  function At(v: Option<Value>, path: seq<string>): Option<Value>
    decreases |path|
  {
    if path == [] then v else At(Get(v, path[0]), path[1..])
  }

  /** The text found at a path, if the path leads to a string. */
  function TextAt(v: Option<Value>, path: seq<string>): Option<CStrings.CStr> {
    var found := At(v, path);
    if IsString(found) then Some(found.value.s) else None
  }

  /** Of several members with one name the first is found. */
  lemma {:induction false} FindIsFirstMatch(members: seq<Member>, key: string)
    ensures match Find(members, key)
            case None => forall i | 0 <= i < |members| :: members[i].key != key
            case Some(v) => exists i :: 0 <= i < |members| && members[i].key == key && members[i].value == v
                                     && forall j | 0 <= j < i :: members[j].key != key
  {
    if members != [] && members[0].key != key {
      var rest := members[1..];
      FindIsFirstMatch(rest, key);
      if Find(rest, key).Some? {
        var i :| 0 <= i < |rest| && rest[i].key == key && rest[i].value == Find(rest, key).value
              && forall j | 0 <= j < i :: rest[j].key != key;
        assert members[i + 1] == rest[i];
        forall j | 0 <= j < i + 1 ensures members[j].key != key {
          if j > 0 { assert members[j] == rest[j - 1]; }
        }
      } else {
        forall i | 0 <= i < |members| ensures members[i].key != key {
          if i > 0 { assert members[i] == rest[i - 1]; }
        }
      }
    }
  }

  lemma AtSteps(v: Option<Value>, a: string, b: string, c: string)
    ensures At(v, [a]) == Get(v, a)
    ensures At(v, [a, b]) == Get(Get(v, a), b)
    ensures At(v, [a, b, c]) == Get(Get(Get(v, a), b), c)
  {
    AtOne(v, a);
    AtTwo(v, a, b);
    AtTwo(Get(v, a), b, c);
    assert [a, b, c][1..] == [b, c];
  }

  lemma AtOne(v: Option<Value>, a: string)
    ensures At(v, [a]) == Get(v, a)
  {
  }

  lemma AtTwo(v: Option<Value>, a: string, b: string)
    ensures At(v, [a, b]) == Get(Get(v, a), b)
  {
    assert [a, b][1..] == [b];
    AtOne(Get(v, a), b);
  }
}
