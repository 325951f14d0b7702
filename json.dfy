/**
 * The values of the dictionaries the prediction endpoint answers with
 * (app.py:45-52, 56): numbers, strings and objects. An object lists its
 * members in the order the dictionary literal gives them; all reading goes
 * through `Lookup`, which searches by key, so nothing depends on that order.
 */
module Json {
  import opened Wrappers

  datatype Json =
    | JNumber(num: real)
    | JString(str: string)
    | JObject(members: seq<(string, Json)>)

  /**
   * The value stored under `key`, taking the first member with that key;
   * absent exactly when no member has that key.
   */
  function Lookup(members: seq<(string, Json)>, key: string): (r: Option<Json>)
    ensures r.None? <==> forall i :: 0 <= i < |members| ==> members[i].0 != key
    ensures r.Some? ==> exists i :: 0 <= i < |members| && members[i] == (key, r.value)
                                      && forall j :: 0 <= j < i ==> members[j].0 != key
  {
    if members == [] then None
    else if members[0].0 == key then Some(members[0].1)
    else
      var r := Lookup(members[1..], key);
      assert r.Some? ==> exists i :: 0 < i < |members| && members[i] == (key, r.value)
                                     && forall j :: 0 <= j < i ==> members[j].0 != key by {
        if r.Some? {
          var i :| 0 <= i < |members[1..]| && members[1..][i] == (key, r.value)
                   && forall j :: 0 <= j < i ==> members[1..][j].0 != key;
          assert members[i + 1] == (key, r.value);
          assert forall j :: 0 <= j < i + 1 ==> members[j].0 != key by {
            forall j | 0 <= j < i + 1 ensures members[j].0 != key {
              if j > 0 { assert members[j] == members[1..][j - 1]; }
            }
          }
        }
      }
      r
  }

  /** In an object whose keys are all distinct, a key finds its own member. */
  lemma LookupDistinct(members: seq<(string, Json)>, i: nat)
    requires i < |members|
    requires forall j :: 0 <= j < |members| && j != i ==> members[j].0 != members[i].0
    ensures Lookup(members, members[i].0) == Some(members[i].1)
  {
  }

  /** The keys of an object's members, in order. */
  function Keys(members: seq<(string, Json)>): (ks: seq<string>)
    ensures |ks| == |members|
    ensures forall i :: 0 <= i < |members| ==> ks[i] == members[i].0
  {
    if members == [] then [] else [members[0].0] + Keys(members[1..])
  }
}
