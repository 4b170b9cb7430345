/** Assigning the items of a sequence into an object, in order, one property
    per item. This is what `Object.fromEntries` does with form entries and what
    the form04 reshape does with validation issues: a later assignment to the
    same property overwrites an earlier one, and an item that names no
    property is skipped. */
module LastWins {
  import opened Wrappers

  /** Item `i` of `items` assigns property `k`. */
  ghost predicate Names<T, K>(items: seq<T>, key: T -> Option<K>, i: int, k: K)
  {
    0 <= i < |items| && key(items[i]) == Some(k)
  }

  /** Item `i` is the last item of `items` that assigns property `k`. */
  ghost predicate LastNaming<T, K>(items: seq<T>, key: T -> Option<K>, i: int, k: K)
  {
    Names(items, key, i, k) && forall j :: i < j < |items| ==> key(items[j]) != Some(k)
  }

  /** Every property some item of `items` assigns. */
  ghost function NamedKeys<T, K>(items: seq<T>, key: T -> Option<K>): set<K>
  {
    set i | 0 <= i < |items| && key(items[i]).Some? :: key(items[i]).value
  }

  /** The object obtained by starting from `{}` and, for each item in order
      that names a property, setting that property to the item's value. Its
      properties are exactly those some item assigns. */
  function Assign<T, K(==), V>(items: seq<T>, key: T -> Option<K>, val: T -> V): (m: map<K, V>)
    ensures m.Keys == NamedKeys(items, key)
    decreases |items|
  {
    if |items| == 0 then map[]
    else
      var m := Assign(items[..|items| - 1], key, val);
      var last := items[|items| - 1];
      NamedKeysSnoc(items, key);
      match key(last)
      case None => m
      case Some(k) => m[k := val(last)]
  }

  lemma NamedKeysSnoc<T, K>(items: seq<T>, key: T -> Option<K>)
    requires |items| > 0
    ensures var last := items[|items| - 1];
            NamedKeys(items, key)
            == NamedKeys(items[..|items| - 1], key) + (if key(last).Some? then {key(last).value} else {})
  {
  }

  /** One step of `Assign`: the last item is applied to the result of the others. */
  lemma AssignUnfold<T, K, V>(items: seq<T>, key: T -> Option<K>, val: T -> V)
    requires |items| > 0
    ensures var m := Assign(items[..|items| - 1], key, val);
            var last := items[|items| - 1];
            Assign(items, key, val) == if key(last).Some? then m[key(last).value := val(last)] else m
  {
  }

  /** The value of a property is the value of the last item assigning it. */
  lemma {:induction false} AssignLastWins<T, K, V>(items: seq<T>, key: T -> Option<K>, val: T -> V, i: int, k: K)
    requires LastNaming(items, key, i, k)
    ensures k in Assign(items, key, val)
    ensures Assign(items, key, val)[k] == val(items[i])
    decreases |items|
  {
    var n := |items|;
    var prefix := items[..n - 1];
    if i < n - 1 {
      assert LastNaming(prefix, key, i, k) by {
        assert prefix[i] == items[i];
        forall j | i < j < |prefix| ensures key(prefix[j]) != Some(k) {
          assert prefix[j] == items[j];
        }
      }
      AssignLastWins(prefix, key, val, i, k);
      assert key(items[n - 1]) != Some(k);
    }
  }

  /** An item that names no property leaves the result as if it were absent. */
  lemma {:induction false} AssignSkipsUnnamed<T, K, V>(front: seq<T>, item: T, back: seq<T>, key: T -> Option<K>, val: T -> V)
    requires key(item) == None
    ensures Assign(front + [item] + back, key, val) == Assign(front + back, key, val)
    decreases |back|
  {
    var whole := front + [item] + back;
    var joined := front + back;
    if |back| == 0 {
      assert whole[..|whole| - 1] == front;
      assert joined == front;
    } else {
      var shorter := back[..|back| - 1];
      AssignSkipsUnnamed(front, item, shorter, key, val);
      assert whole[..|whole| - 1] == front + [item] + shorter;
      assert joined[..|joined| - 1] == front + shorter;
      assert whole[|whole| - 1] == joined[|joined| - 1];
      AssignUnfold(whole, key, val);
      AssignUnfold(joined, key, val);
    }
  }
}
