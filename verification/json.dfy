/**
 * The parsed JSON document the validator walks: the value kinds of the JSON library the
 * tool uses, with its lookup, range-for and size rules.
 */
module Json {
  import opened Wrappers

  /** A JSON value. Non-negative integers parse as unsigned numbers, negative ones as
      signed; an object keeps its members in order. */
  datatype Json =
    | JNull
    | JBool(b: bool)
    | JUnsigned(u: nat)
    | JInteger(i: int)
    | JFloat(f: real)
    | JString(s: string)
    | JArray(items: seq<Json>)
    | JObject(members: seq<Member>)

  datatype Member = Member(key: string, value: Json)

  /** The value stored under `key` in a member list: the first member with that key. */
  function FindMember(members: seq<Member>, key: string): (r: Option<Json>)
    ensures r.None? <==> forall k :: 0 <= k < |members| ==> members[k].key != key
    ensures r.Some? ==> exists k :: 0 <= k < |members| && members[k] == Member(key, r.value)
  {
    if |members| == 0 then None
    else if members[0].key == key then Some(members[0].value)
    else
      var r := FindMember(members[1..], key);
      assert forall k :: 1 <= k < |members| ==> members[k] == members[1..][k - 1];
      r
  }

  /** `find(key)`: only an object has members; on any other value the lookup ends at the
      end iterator, which the model writes as None. */
  function Find(j: Json, key: string): (r: Option<Json>)
    ensures !j.JObject? ==> r.None?
    ensures j.JObject? ==> r == FindMember(j.members, key)
  {
    if j.JObject? then FindMember(j.members, key) else None
  }

  /** What a range-for visits: an array's items, an object's values, nothing for null,
      and the value itself for any primitive. */
  function Elements(j: Json): (r: seq<Json>)
    ensures j.JArray? ==> r == j.items
    ensures j.JObject? ==> |r| == |j.members| && forall k :: 0 <= k < |r| ==> r[k] == j.members[k].value
    ensures j.JNull? ==> r == []
    ensures !j.JArray? && !j.JObject? && !j.JNull? ==> r == [j]
  {
    match j
    case JArray(items) => items
    case JObject(members) => seq(|members|, k requires 0 <= k < |members| => members[k].value)
    case JNull => []
    case _ => [j]
  }

  /** `size()`: the number of values a range-for visits. */
  function Size(j: Json): (r: nat)
    ensures r == |Elements(j)|
    ensures j.JNull? ==> r == 0
    ensures !j.JArray? && !j.JObject? && !j.JNull? ==> r == 1
  {
    match j
    case JArray(items) => |items|
    case JObject(members) => |members|
    case JNull => 0
    case _ => 1
  }
}
