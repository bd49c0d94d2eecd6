/**
 * The field layout of app classes: which field hashes an object of a class
 * has, whether each is primitive, and their ascending order, which is the
 * order of the object's slots in the local heap.
 */
module Layout {
  import opened Wrappers
  import opened JavaInt
  import opened Classes

  /** The names the DalvikClass branch counts as primitive: the one-letter
      primitive type descriptors, compared against the field's name. */
  predicate IsPrimitiveName(name: string) {
    name == "Z" || name == "B" || name == "S" || name == "C"
    || name == "I" || name == "J" || name == "F" || name == "D"
  }

  /** The fields inserted one by one in declaration order: a later field whose
      name has the same hash overwrites the earlier entry. */
  function FieldsMap(fields: seq<DalvikField>): map<int, bool> {
    if |fields| == 0 then map[]
    else
      var last := fields[|fields| - 1];
      FieldsMap(fields[..|fields| - 1])[StringHash(last.name) := IsPrimitiveName(last.name)]
  }

  /** The keys are exactly the hashes of the field names. */
  lemma {:induction false} FieldsMapKeys(fields: seq<DalvikField>, k: int)
    ensures k in FieldsMap(fields) <==> exists i :: 0 <= i < |fields| && StringHash(fields[i].name) == k
  {
    if |fields| > 0 {
      var init := fields[..|fields| - 1];
      FieldsMapKeys(init, k);
      assert forall i :: 0 <= i < |init| ==> init[i] == fields[i];
      if k in FieldsMap(init) {
        var i :| 0 <= i < |init| && StringHash(init[i].name) == k;
        assert StringHash(fields[i].name) == k;
      }
    }
  }

  /** The entry of a name hash tells whether the last field with that hash
      has a primitive name. */
  lemma {:induction false} FieldsMapLastWins(fields: seq<DalvikField>, i: int)
    requires 0 <= i < |fields|
    requires forall j :: i < j < |fields| ==> StringHash(fields[j].name) != StringHash(fields[i].name)
    ensures StringHash(fields[i].name) in FieldsMap(fields)
    ensures FieldsMap(fields)[StringHash(fields[i].name)] == IsPrimitiveName(fields[i].name)
  {
    if i < |fields| - 1 {
      var init := fields[..|fields| - 1];
      assert init[i] == fields[i];
      assert forall j :: i < j < |init| ==> init[j] == fields[j];
      FieldsMapLastWins(init, i);
    }
  }

  /** The non-reflective branch of `getClassFields`: the field map of the app
      class hashed by `className`; none when the class is unknown, is not an
      app class, or has no fields. The reflective fallback is taken to know
      no fields, so it also yields none. */
  function ClassFields(classes: map<int, GeneralClass>, className: string): (r: Option<map<int, bool>>)
    ensures r.Some? <==> StringHash(className) in classes && classes[StringHash(className)].DalvikClass?
                         && |classes[StringHash(className)].fields| > 0
    ensures r.Some? ==> r.value == FieldsMap(classes[StringHash(className)].fields)
  {
    var ci := StringHash(className);
    if ci in classes && classes[ci].DalvikClass? then
      var m := FieldsMap(classes[ci].fields);
      FieldsMapEmpty(classes[ci].fields);
      if m == map[] then None else Some(m)
    else None
  }

  lemma FieldsMapEmpty(fields: seq<DalvikField>)
    ensures FieldsMap(fields) == map[] <==> |fields| == 0
  {
    if |fields| > 0 {
      assert StringHash(fields[|fields| - 1].name) in FieldsMap(fields);
    }
  }

  /** The number of fields an allocated object of the class gets in the local
      heap: the size of its field map, 0 without one. */
  function FieldCount(classes: map<int, GeneralClass>, className: string): nat {
    var fm := ClassFields(classes, className);
    if fm.Some? then |fm.value| else 0
  }

  /** The smallest element of a non-empty set. */
  function Min(s: set<int>): (m: int)
    requires s != {}
    ensures m in s && forall x :: x in s ==> m <= x
  {
    MinExists(s);
    var m :| m in s && forall x :: x in s ==> m <= x;
    m
  }

  lemma {:induction false} MinExists(s: set<int>)
    requires s != {}
    ensures exists m :: m in s && forall x :: x in s ==> m <= x
  {
    var y := Pick(s);
    if s != {y} {
      MinExists(s - {y});
      var m :| m in s - {y} && forall x :: x in s - {y} ==> m <= x;
      assert forall x :: x in s ==> x == y || x in s - {y};
      if y < m {
        assert forall x :: x in s ==> y <= x;
      } else {
        assert forall x :: x in s ==> m <= x;
      }
    } else {
      assert forall x :: x in s ==> y <= x;
    }
  }

  /** Some element of a non-empty set. */
  lemma Pick<T>(s: set<T>) returns (y: T)
    requires s != {}
    ensures y in s
  {
    y :| y in s;
  }

  predicate StrictlyIncreasing(q: seq<int>) {
    forall i, j :: 0 <= i < j < |q| ==> q[i] < q[j]
  }

  /** The elements of a finite set in ascending order (what a sorted copy of a
      key set, or a `TreeSet`, iterates through). */
  function SortedKeys(s: set<int>): (r: seq<int>)
    ensures |r| == |s|
    ensures forall x :: x in r <==> x in s
    ensures StrictlyIncreasing(r)
    decreases |s|
  {
    if s == {} then []
    else
      var m := Min(s);
      var rest := SortedKeys(s - {m});
      var r := [m] + rest;
      assert forall i :: 0 < i < |r| ==> r[i] == rest[i - 1];
      assert forall j :: 0 <= j < |rest| ==> m < rest[j] by {
        forall j | 0 <= j < |rest| ensures m < rest[j] {
          assert rest[j] in s - {m};
        }
      }
      assert StrictlyIncreasing(r) by {
        forall i, j | 0 <= i < j < |r| ensures r[i] < r[j] {
          if i > 0 { assert r[i] == rest[i - 1] && r[j] == rest[j - 1]; }
          else { assert r[j] == rest[j - 1]; }
        }
      }
      r
  }

  /** A strictly increasing sequence has as many distinct elements as entries. */
  lemma {:induction false} IncreasingCard(q: seq<int>)
    requires StrictlyIncreasing(q)
    ensures |set x | x in q| == |q|
  {
    if |q| > 0 {
      var init := q[..|q| - 1];
      IncreasingCard(init);
      assert (set x | x in q) == (set x | x in init) + {q[|q| - 1]};
      assert q[|q| - 1] !in (set x | x in init);
    }
  }

  /** The position of an element in the ascending order is the number of
      smaller elements of the set. */
  lemma RankIsCountOfSmaller(s: set<int>, k: int)
    requires 0 <= k < |s|
    ensures var r := SortedKeys(s);
      |set x | x in s && x < r[k]| == k
  {
    var r := SortedKeys(s);
    var prefix := r[..k];
    assert StrictlyIncreasing(prefix);
    IncreasingCard(prefix);
    forall x | x in s && x < r[k]
      ensures x in prefix
    {
      var i :| 0 <= i < |r| && r[i] == x;
      assert i < k;
      assert prefix[i] == x;
    }
    assert (set x | x in s && x < r[k]) == (set x | x in prefix);
  }
}
