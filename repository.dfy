/** The mission store: a remote cache from mission key to the mission's
    JSON text. An entry written by this service always decodes; an entry
    written by anyone else may not. */
module Repository {
  import opened Wrappers
  import opened Missions

  datatype Entry = Stored(mission: Mission) | Undecodable

  type Store = map<string, Entry>

  datatype QueryError = NullPointer

  /** `keys` is an enumeration of the store's key set: every key once. */
  ghost predicate Enumerates(cache: Store, keys: seq<string>) {
    (forall i, j :: 0 <= i < j < |keys| ==> keys[i] != keys[j])
    && (forall k :: k in keys <==> k in cache)
  }

  predicate InStore(cache: Store, keys: seq<string>) {
    forall k :: k in keys ==> k in cache
  }

  /** The decodable missions under `keys`, in that order. */
  function Decoded(cache: Store, keys: seq<string>): seq<Mission>
    requires InStore(cache, keys)
  {
    if keys == [] then []
    else
      var e := cache[keys[0]];
      (if e.Stored? then [e.mission] else []) + Decoded(cache, keys[1..])
  }

  /** `m.getResponderId().equals(responderId)` over the decodable missions:
      the first mission without a responder id throws. */
  function ByResponder(cache: Store, keys: seq<string>, responderId: string): Result<seq<Mission>, QueryError>
    requires InStore(cache, keys)
  {
    if keys == [] then Ok([])
    else
      var e := cache[keys[0]];
      var rest := ByResponder(cache, keys[1..], responderId);
      if e.Undecodable? then rest
      else if e.mission.responderId.None? then Err(NullPointer)
      else if rest.Err? then rest
      else Ok((if e.mission.responderId.value == responderId then [e.mission] else []) + rest.value)
  }

  function ForResponder(ms: seq<Mission>, responderId: string): seq<Mission> {
    if ms == [] then []
    else (if ms[0].responderId == Some(responderId) then [ms[0]] else []) + ForResponder(ms[1..], responderId)
  }

  predicate HasNullResponder(ms: seq<Mission>) {
    exists i :: 0 <= i < |ms| && ms[i].responderId.None?
  }

  lemma {:induction false} DecodedMembership(cache: Store, keys: seq<string>, m: Mission)
    requires InStore(cache, keys)
    ensures m in Decoded(cache, keys) <==> exists k :: k in keys && cache[k] == Stored(m)
  {
    if keys != [] {
      DecodedMembership(cache, keys[1..], m);
      if cache[keys[0]] == Stored(m) {
        assert keys[0] in keys;
      }
      assert forall k :: k in keys <==> k == keys[0] || k in keys[1..];
    }
  }

  lemma {:induction false} DecodedCount(cache: Store, keys: seq<string>)
    requires InStore(cache, keys)
    requires forall i, j :: 0 <= i < j < |keys| ==> keys[i] != keys[j]
    ensures |Decoded(cache, keys)| == |set k | k in keys && cache[k].Stored?|
  {
    if keys != [] {
      var tail := keys[1..];
      DecodedCount(cache, tail);
      var s := set k | k in keys && cache[k].Stored?;
      var t := set k | k in tail && cache[k].Stored?;
      assert forall j :: 0 <= j < |tail| ==> tail[j] == keys[j + 1] && keys[j + 1] != keys[0];
      assert keys[0] !in tail;
      if cache[keys[0]].Stored? {
        assert s == t + {keys[0]};
      } else {
        assert s == t;
      }
    }
  }

  lemma {:induction false} ForResponderMembership(ms: seq<Mission>, responderId: string, m: Mission)
    ensures m in ForResponder(ms, responderId) <==> m in ms && m.responderId == Some(responderId)
  {
    if ms != [] {
      ForResponderMembership(ms[1..], responderId, m);
      assert m in ms <==> m == ms[0] || m in ms[1..];
    }
  }

  /** The responder query throws exactly when a decodable mission lacks a
      responder id, and otherwise filters the decodable missions in order. */
  lemma {:induction false} ByResponderIsFilter(cache: Store, keys: seq<string>, responderId: string)
    requires InStore(cache, keys)
    ensures ByResponder(cache, keys, responderId)
            == if HasNullResponder(Decoded(cache, keys)) then Err(NullPointer)
               else Ok(ForResponder(Decoded(cache, keys), responderId))
  {
    if keys != [] {
      ByResponderIsFilter(cache, keys[1..], responderId);
      var e := cache[keys[0]];
      var rest := Decoded(cache, keys[1..]);
      var all := Decoded(cache, keys);
      if e.Stored? {
        assert all == [e.mission] + rest;
        assert all[1..] == rest;
        if e.mission.responderId.None? {
          assert all[0].responderId.None?;
          assert HasNullResponder(all);
        } else {
          assert HasNullResponder(all) <==> HasNullResponder(rest) by {
            if HasNullResponder(all) {
              var i :| 0 <= i < |all| && all[i].responderId.None?;
              assert rest[i - 1].responderId.None?;
            }
            if HasNullResponder(rest) {
              var i :| 0 <= i < |rest| && rest[i].responderId.None?;
              assert all[i + 1].responderId.None?;
            }
          }
          assert ForResponder(all, responderId)
                 == (if e.mission.responderId == Some(responderId) then [e.mission] else []) + ForResponder(rest, responderId);
        }
      } else {
        assert all == rest;
      }
    }
  }

  /** `MissionRepository`: the cache's contents. */
  class MissionRepository {
    var cache: Store

    /** Entries already in the remote cache may be anything. */
    constructor(initial: Store)
      ensures cache == initial
    {
      cache := initial;
    }

    /** Store the mission's JSON under its key, replacing any entry. */
    method Add(m: Mission)
      modifies this
      ensures cache == old(cache)[GetKey(m) := Stored(m)]
      ensures Get(GetKey(m)) == Some(m)
      ensures forall k :: k != GetKey(m) ==> Get(k) == old(Get(k))
    {
      cache := cache[GetKey(m) := Stored(m)];
    }

    /** An absent key, or an entry that fails to decode, is empty. */
    function Get(key: string): (r: Option<Mission>)
      reads this
      ensures r.Some? <==> key in cache && cache[key].Stored?
      ensures r.Some? ==> cache[key] == Stored(r.value)
    {
      if key in cache && cache[key].Stored? then Some(cache[key].mission) else None
    }

    /** Every decodable entry, once, in the order of `keys`. */
    function GetAll(keys: seq<string>): (r: seq<Mission>)
      reads this
      requires Enumerates(cache, keys)
      ensures forall m :: m in r <==> exists k :: k in cache && cache[k] == Stored(m)
      ensures |r| == |set k | k in cache && cache[k].Stored?|
    {
      var r := Decoded(cache, keys);
      assert forall m :: m in r <==> exists k :: k in cache && cache[k] == Stored(m) by {
        forall m ensures m in r <==> exists k :: k in cache && cache[k] == Stored(m) {
          DecodedMembership(cache, keys, m);
        }
      }
      DecodedCount(cache, keys);
      assert (set k | k in keys && cache[k].Stored?) == (set k | k in cache && cache[k].Stored?);
      r
    }

    method Clear()
      modifies this
      ensures cache == map[]
    {
      cache := map[];
    }

    /** The decodable missions of one responder; a decodable mission without
        a responder id makes the query throw. */
    function GetByResponderId(keys: seq<string>, responderId: string): (r: Result<seq<Mission>, QueryError>)
      reads this
      requires Enumerates(cache, keys)
      ensures r.Err? <==> exists k :: k in cache && cache[k].Stored? && cache[k].mission.responderId.None?
      ensures r.Ok? ==> forall m :: m in r.value <==>
                (m.responderId == Some(responderId) && exists k :: k in cache && cache[k] == Stored(m))
    {
      var r := ByResponder(cache, keys, responderId);
      ByResponderIsFilter(cache, keys, responderId);
      var ms := Decoded(cache, keys);
      assert HasNullResponder(ms) <==> exists k :: k in cache && cache[k].Stored? && cache[k].mission.responderId.None? by {
        if HasNullResponder(ms) {
          var i :| 0 <= i < |ms| && ms[i].responderId.None?;
          DecodedMembership(cache, keys, ms[i]);
        }
        if exists k :: k in cache && cache[k].Stored? && cache[k].mission.responderId.None? {
          var k :| k in cache && cache[k].Stored? && cache[k].mission.responderId.None?;
          DecodedMembership(cache, keys, cache[k].mission);
          var i :| 0 <= i < |ms| && ms[i] == cache[k].mission;
        }
      }
      forall m ensures m in ForResponder(ms, responderId) <==>
                (m.responderId == Some(responderId) && exists k :: k in cache && cache[k] == Stored(m)) {
        ForResponderMembership(ms, responderId, m);
        DecodedMembership(cache, keys, m);
      }
      r
    }
  }
}
