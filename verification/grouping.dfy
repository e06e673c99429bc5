/** The `profilesWithPositions` reduce of the map page: profiles grouped by
    their exact stored coordinates, groups in order of first appearance. */
module Grouping {

  import opened Optional
  import opened Sequences
  import opened Profiles

  /** The grouping key. The source keys an object by the string
      `${latitude},${longitude}`; distinct coordinate values give distinct
      strings, so the pair itself stands for the string. */
  type Key = (Option<real>, Option<real>)

  function KeyOf(p: Profile): Key {
    (p.latitude, p.longitude)
  }

  /** One entry of the grouping object: a key and the profiles pushed under it. */
  datatype Group = Group(key: Key, members: seq<Profile>)

  /** The position of the group stored under `k`, or |groups| when there is
      none (the `!acc[key]` test). */
  function FindGroup(groups: seq<Group>, k: Key): (i: nat)
    ensures i <= |groups|
    ensures i < |groups| ==> groups[i].key == k
    ensures forall j :: 0 <= j < i ==> groups[j].key != k
  {
    if |groups| == 0 then 0
    else if groups[0].key == k then 0
    else 1 + FindGroup(groups[1..], k)
  }

  /** One step of the reduce: push `p` onto the group of its key, opening a
      new group at the end when the key is new. */
  function AddToGroup(groups: seq<Group>, p: Profile): seq<Group> {
    var i := FindGroup(groups, KeyOf(p));
    if i < |groups| then groups[i := Group(groups[i].key, groups[i].members + [p])]
    else groups + [Group(KeyOf(p), [p])]
  }

  /** The reduce over the filtered profiles, left to right from no groups. */
  function GroupByLocation(profiles: seq<Profile>): seq<Group> {
    if |profiles| == 0 then []
    else AddToGroup(GroupByLocation(profiles[..|profiles| - 1]), profiles[|profiles| - 1])
  }

  /** The members of all groups, group after group. */
  function Flatten(groups: seq<Group>): seq<Profile> {
    if |groups| == 0 then [] else groups[0].members + Flatten(groups[1..])
  }

  // ---------------------------------------------------------------------------
  // Reference definitions

  /** The distinct keys of `profiles`, each listed where it first occurs. */
  function DistinctKeys(profiles: seq<Profile>): (keys: seq<Key>)
    ensures forall i, j :: 0 <= i < j < |keys| ==> keys[i] != keys[j]
    ensures forall p :: p in profiles ==> KeyOf(p) in keys
    ensures forall k :: k in keys ==> exists p :: p in profiles && KeyOf(p) == k
  {
    if |profiles| == 0 then []
    else
      var init, last := profiles[..|profiles| - 1], profiles[|profiles| - 1];
      assert profiles == init + [last];
      var keys := DistinctKeys(init);
      if KeyOf(last) in keys then keys else keys + [KeyOf(last)]
  }

  /** Where key `k` first occurs in `profiles`, or |profiles| when it does not. */
  function FirstIndex(profiles: seq<Profile>, k: Key): (i: nat)
    ensures i <= |profiles|
    ensures i < |profiles| ==> KeyOf(profiles[i]) == k
    ensures forall j :: 0 <= j < i ==> KeyOf(profiles[j]) != k
  {
    if |profiles| == 0 then 0
    else if KeyOf(profiles[0]) == k then 0
    else 1 + FirstIndex(profiles[1..], k)
  }

  /** The contract of FirstIndex pins the index down. */
  lemma FirstIndexUnique(profiles: seq<Profile>, k: Key, i: nat)
    requires i <= |profiles|
    requires i < |profiles| ==> KeyOf(profiles[i]) == k
    requires forall j :: 0 <= j < i ==> KeyOf(profiles[j]) != k
    ensures i == FirstIndex(profiles, k)
  {
  }

  /** DistinctKeys lists keys in the order their first occurrences appear. */
  lemma {:induction false} DistinctKeysFirstOccurrenceOrder(profiles: seq<Profile>)
    ensures var keys := DistinctKeys(profiles);
            && (forall i :: 0 <= i < |keys| ==> FirstIndex(profiles, keys[i]) < |profiles|)
            && (forall i, j :: 0 <= i < j < |keys| ==>
                  FirstIndex(profiles, keys[i]) < FirstIndex(profiles, keys[j]))
  {
    if |profiles| > 0 {
      var init, last := profiles[..|profiles| - 1], profiles[|profiles| - 1];
      assert profiles == init + [last];
      DistinctKeysFirstOccurrenceOrder(init);
      forall i | 0 <= i < |DistinctKeys(init)|
        ensures FirstIndex(profiles, DistinctKeys(init)[i]) == FirstIndex(init, DistinctKeys(init)[i])
      {
        assert FirstIndex(init, DistinctKeys(init)[i]) < |init|;
        FirstIndexUnique(profiles, DistinctKeys(init)[i], FirstIndex(init, DistinctKeys(init)[i]));
      }
      if KeyOf(last) !in DistinctKeys(init) {
        FirstIndexUnique(profiles, KeyOf(last), |init|);
      }
    }
  }

  /** The profiles whose key is `k`, in input order. */
  function Select(profiles: seq<Profile>, k: Key): seq<Profile> {
    Filter(profiles, (p: Profile) => KeyOf(p) == k)
  }

  // ---------------------------------------------------------------------------
  // Properties

  /** `groups` lists the keys `keys`, in that order, each with every profile
      of `profiles` that has it. */
  ghost predicate Describes(groups: seq<Group>, keys: seq<Key>, profiles: seq<Profile>) {
    && |groups| == |keys|
    && forall i :: 0 <= i < |groups| ==> groups[i] == Group(keys[i], Select(profiles, keys[i]))
  }

  /** The groups are exactly one per distinct key, in order of first
      occurrence, each holding every profile with that key in input order. */
  lemma {:induction false} GroupByLocationSpec(profiles: seq<Profile>)
    ensures Describes(GroupByLocation(profiles), DistinctKeys(profiles), profiles)
  {
    if |profiles| > 0 {
      var init, last := profiles[..|profiles| - 1], profiles[|profiles| - 1];
      assert profiles == init + [last];
      GroupByLocationSpec(init);
      if KeyOf(last) in DistinctKeys(init) {
        AddToExistingGroup(GroupByLocation(init), DistinctKeys(init), init, last);
      } else {
        AddNewGroup(GroupByLocation(init), DistinctKeys(init), init, last);
      }
    }
  }

  /** Appending a profile adds it to the selection of its own key only. */
  lemma SelectSnoc(init: seq<Profile>, last: Profile, key: Key)
    ensures Select(init + [last], key) == Select(init, key) + (if KeyOf(last) == key then [last] else [])
  {
    FilterAppend(init, [last], (p: Profile) => KeyOf(p) == key);
  }

  /** The reduce step for a profile whose key already has a group. */
  lemma AddToExistingGroup(groups: seq<Group>, keys: seq<Key>, init: seq<Profile>, last: Profile)
    requires Describes(groups, keys, init)
    requires forall i, j :: 0 <= i < j < |keys| ==> keys[i] != keys[j]
    requires KeyOf(last) in keys
    ensures Describes(AddToGroup(groups, last), keys, init + [last])
  {
    var k := KeyOf(last);
    var i := FindGroup(groups, k);
    var j :| 0 <= j < |keys| && keys[j] == k;
    assert groups[j].key == k;
    assert i <= j;
    var result := AddToGroup(groups, last);
    forall m | 0 <= m < |result|
      ensures result[m] == Group(keys[m], Select(init + [last], keys[m]))
    {
      SelectSnoc(init, last, keys[m]);
    }
  }

  /** The reduce step for a profile whose key is new: a group is opened at the end. */
  lemma AddNewGroup(groups: seq<Group>, keys: seq<Key>, init: seq<Profile>, last: Profile)
    requires Describes(groups, keys, init)
    requires forall p :: p in init ==> KeyOf(p) in keys
    requires KeyOf(last) !in keys
    ensures Describes(AddToGroup(groups, last), keys + [KeyOf(last)], init + [last])
  {
    var k := KeyOf(last);
    var i := FindGroup(groups, k);
    assert i == |groups|;
    FilterNone(init, (p: Profile) => KeyOf(p) == k);
    var result, keys' := AddToGroup(groups, last), keys + [k];
    forall m | 0 <= m < |result|
      ensures result[m] == Group(keys'[m], Select(init + [last], keys'[m]))
    {
      SelectSnoc(init, last, keys'[m]);
      if m < |groups| {
        assert result[m] == groups[m] && keys'[m] == keys[m];
      } else {
        assert result[m] == Group(k, [last]) && keys'[m] == k;
      }
    }
  }

  /** Concatenating group lists concatenates their members. */
  lemma {:induction false} FlattenAppend(a: seq<Group>, b: seq<Group>)
    ensures Flatten(a + b) == Flatten(a) + Flatten(b)
  {
    if |a| == 0 {
      assert a + b == b;
    } else {
      assert (a + b)[1..] == a[1..] + b;
      FlattenAppend(a[1..], b);
    }
  }

  /** One reduce step adds exactly the pushed profile to the members. */
  lemma AddToGroupFlatten(groups: seq<Group>, p: Profile)
    ensures multiset(Flatten(AddToGroup(groups, p))) == multiset(Flatten(groups)) + multiset{p}
  {
    var i := FindGroup(groups, KeyOf(p));
    if i < |groups| {
      var g := Group(groups[i].key, groups[i].members + [p]);
      assert groups == groups[..i] + [groups[i]] + groups[i + 1..];
      assert groups[i := g] == groups[..i] + [g] + groups[i + 1..];
      FlattenAppend(groups[..i] + [groups[i]], groups[i + 1..]);
      FlattenAppend(groups[..i], [groups[i]]);
      FlattenAppend(groups[..i] + [g], groups[i + 1..]);
      FlattenAppend(groups[..i], [g]);
      assert Flatten([groups[i]]) == groups[i].members;
      assert Flatten([g]) == g.members;
    } else {
      FlattenAppend(groups, [Group(KeyOf(p), [p])]);
      assert Flatten([Group(KeyOf(p), [p])]) == [p];
    }
  }

  /** The groups hold every profile exactly as often as the input does: the
      members, read group after group, are a permutation of the input. */
  lemma {:induction false} GroupByLocationPermutes(profiles: seq<Profile>)
    ensures multiset(Flatten(GroupByLocation(profiles))) == multiset(profiles)
    ensures |Flatten(GroupByLocation(profiles))| == |profiles|
  {
    if |profiles| > 0 {
      var init, last := profiles[..|profiles| - 1], profiles[|profiles| - 1];
      assert profiles == init + [last];
      GroupByLocationPermutes(init);
      AddToGroupFlatten(GroupByLocation(init), last);
    }
    assert |multiset(Flatten(GroupByLocation(profiles)))| == |multiset(profiles)|;
  }

  /** Each profile sits in exactly one group, the one of its own key, and no
      two groups share a key. */
  lemma GroupByLocationPartition(profiles: seq<Profile>, p: Profile)
    ensures var groups := GroupByLocation(profiles);
            && (forall i, j :: 0 <= i < j < |groups| ==> groups[i].key != groups[j].key)
            && (forall i :: 0 <= i < |groups| ==>
                  (p in groups[i].members <==> p in profiles && groups[i].key == KeyOf(p)))
            && (p in profiles ==> exists i :: 0 <= i < |groups| && groups[i].key == KeyOf(p))
  {
    GroupByLocationSpec(profiles);
    var groups, keys := GroupByLocation(profiles), DistinctKeys(profiles);
    forall i | 0 <= i < |groups|
      ensures p in groups[i].members <==> p in profiles && groups[i].key == KeyOf(p)
    {
      assert groups[i].members == Select(profiles, keys[i]);
    }
    if p in profiles {
      var i :| 0 <= i < |keys| && keys[i] == KeyOf(p);
      assert groups[i].key == KeyOf(p);
    }
  }
}
