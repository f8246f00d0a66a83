/**
 * JSON values as the gateway builds them before serialisation. Object members keep their insertion
 * order, which is the order `JSON.stringify` writes them in.
 */
module Json {
  import opened Wrappers

  datatype Json =
    | JNull
    | JBool(b: bool)
    | JNum(n: int)
    | JStr(s: string)
    | JArr(items: seq<Json>)
    | JObj(members: seq<(string, Json)>)

  /** `JSON.stringify`, injected: the model never looks inside the text it produces. */
  type Serializer = Json -> string

  /** The value of the first member named `key`, when `j` is an object that has one. */
  function Member(members: seq<(string, Json)>, key: string): (r: Option<Json>)
    ensures r.Some? <==> exists i :: 0 <= i < |members| && members[i].0 == key
  {
    if |members| == 0 then None
    else if members[0].0 == key then Some(members[0].1)
    else Member(members[1..], key)
  }

  /** The member found is the first one with that name. */
  lemma {:induction false} MemberAt(members: seq<(string, Json)>, key: string, i: nat)
    requires i < |members| && members[i].0 == key
    requires forall j :: 0 <= j < i ==> members[j].0 != key
    ensures Member(members, key) == Some(members[i].1)
  {
    if i > 0 {
      MemberAt(members[1..], key, i - 1);
    }
  }

  function Get(j: Json, key: string): Option<Json>
  {
    if j.JObj? then Member(j.members, key) else None
  }

  /** The value found by following a path of member names (`j.a.b.c`). */
  function At(j: Json, path: seq<string>): Option<Json>
    decreases |path|
  {
    if |path| == 0 then Some(j)
    else match Get(j, path[0])
      case None => None
      case Some(v) => At(v, path[1..])
  }

  /** A one-step path is a member lookup. */
  lemma AtOne(j: Json, k: string)
    ensures At(j, [k]) == Get(j, k)
  {
    assert [k][1..] == [];
  }

  /** A two-step path looks the second name up in the first one's value. */
  lemma AtTwo(j: Json, k1: string, k2: string)
    ensures At(j, [k1, k2]) == if Get(j, k1).Some? then Get(Get(j, k1).value, k2) else None
  {
    assert [k1, k2][1..] == [k2];
    if Get(j, k1).Some? {
      AtOne(Get(j, k1).value, k2);
    }
  }

  /** A three-step path continues with a two-step path from the first name's value. */
  lemma AtThree(j: Json, k1: string, k2: string, k3: string)
    ensures At(j, [k1, k2, k3]) == if Get(j, k1).Some? then At(Get(j, k1).value, [k2, k3]) else None
  {
    assert [k1, k2, k3][1..] == [k2, k3];
  }

  function OptStr(s: Option<string>): Json
  {
    match s
    case None => JNull
    case Some(v) => JStr(v)
  }

  /** A text that an event-stream parser reads as one line: no CR and no LF in it. */
  predicate SingleLine(s: string)
  {
    '\n' !in s && '\r' !in s
  }
}
