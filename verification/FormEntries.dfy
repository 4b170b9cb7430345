/** The submitted `FormData` and the two things the action does with it:
    `Object.fromEntries` turns it into a flat object, and on a schema failure
    every property of that object is copied into `fields` so that the form can
    be re-populated with what the user typed. Every entry value is a string. */
module FormEntries {
  import opened Wrappers
  import LastWins

  /** One `name=value` pair of the submitted form, in submission order. */
  datatype Entry = Entry(name: string, value: string)

  function EntryKey(entry: Entry): Option<string>
  {
    Some(entry.name)
  }

  function EntryValue(entry: Entry): string
  {
    entry.value
  }

  /** Some entry of `data` carries name `k`. */
  ghost predicate Submitted(data: seq<Entry>, k: string)
  {
    exists i :: 0 <= i < |data| && data[i].name == k
  }

  /** `Object.fromEntries(data)`: one property per distinct name; when a name
      repeats, the later entry overwrites the earlier one. */
  function FromEntries(data: seq<Entry>): (obj: map<string, string>)
    ensures forall k :: k in obj <==> Submitted(data, k)
  {
    var obj := LastWins.Assign(data, EntryKey, EntryValue);
    assert forall k :: k in obj <==> Submitted(data, k) by {
      forall k ensures k in obj <==> Submitted(data, k) {
        if Submitted(data, k) {
          var i :| 0 <= i < |data| && data[i].name == k;
          assert EntryKey(data[i]).value == k;
        }
      }
    }
    obj
  }

  /** A repeated name takes the value of its last entry. */
  lemma FromEntriesLastWins(data: seq<Entry>, i: int)
    requires 0 <= i < |data|
    requires forall j :: i < j < |data| ==> data[j].name != data[i].name
    ensures data[i].name in FromEntries(data)
    ensures FromEntries(data)[data[i].name] == data[i].value
  {
    assert LastWins.LastNaming(data, EntryKey, i, data[i].name);
    LastWins.AssignLastWins(data, EntryKey, EntryValue, i, data[i].name);
  }

  /** `Object.keys(Object.fromEntries(data))`: each submitted name once, in
      the order of its first entry. */
  function ObjectKeys(data: seq<Entry>): (keys: seq<string>)
    ensures forall i, j :: 0 <= i < j < |keys| ==> keys[i] != keys[j]
    ensures forall k :: k in keys <==> Submitted(data, k)
    decreases |data|
  {
    if |data| == 0 then []
    else
      var prefix := data[..|data| - 1];
      var keys := ObjectKeys(prefix);
      var name := data[|data| - 1].name;
      assert forall k :: Submitted(prefix, k) ==> Submitted(data, k) by {
        forall k | Submitted(prefix, k) ensures Submitted(data, k) {
          var i :| 0 <= i < |prefix| && prefix[i].name == k;
          assert data[i] == prefix[i];
        }
      }
      assert forall k :: Submitted(data, k) ==> Submitted(prefix, k) || k == name by {
        forall k | Submitted(data, k) ensures Submitted(prefix, k) || k == name {
          var i :| 0 <= i < |data| && data[i].name == k;
          if i < |data| - 1 {
            assert prefix[i] == data[i];
          }
        }
      }
      if name in keys then keys else keys + [name]
  }

  /** The loop `for (const key of keys) fields[key] = obj[key].toString()`
      starting from `{}`: `fields` gets exactly the listed properties, each
      with the object's value. */
  function CopyFields(obj: map<string, string>, keys: seq<string>): (fields: map<string, string>)
    requires forall i :: 0 <= i < |keys| ==> keys[i] in obj
    ensures forall k :: k in fields <==> k in keys
    ensures forall k :: k in fields ==> fields[k] == obj[k]
    decreases |keys|
  {
    if |keys| == 0 then map[]
    else
      var key := keys[|keys| - 1];
      var fields := CopyFields(obj, keys[..|keys| - 1]);
      assert forall k :: k in keys <==> k in keys[..|keys| - 1] || k == key by {
        assert keys == keys[..|keys| - 1] + [key];
      }
      fields[key := obj[key]]
  }

  /** On a schema failure the re-population object is a total copy of the
      decoded form object: every submitted property, with its value. */
  lemma CopyOfFormDataIsTotal(data: seq<Entry>)
    ensures var obj := FromEntries(data);
            forall i :: 0 <= i < |ObjectKeys(data)| ==> ObjectKeys(data)[i] in obj
    ensures CopyFields(FromEntries(data), ObjectKeys(data)) == FromEntries(data)
  {
  }

  /** The effect of the JavaScript assignment `obj[key] = value` with a string
      `value` on an object created as `{}`: the key `__proto__` reaches the
      accessor inherited from `Object.prototype`, which ignores a value that is
      not an object, so no property is created. */
  function JsSetProperty(obj: map<string, string>, key: string, value: string): map<string, string>
  {
    if key == "__proto__" then obj else obj[key := value]
  }

  /** The copy loop with JavaScript's own property assignment. */
  function CopyFieldsAsWritten(obj: map<string, string>, keys: seq<string>): (fields: map<string, string>)
    requires forall i :: 0 <= i < |keys| ==> keys[i] in obj
    ensures forall k :: k in fields <==> k in keys && k != "__proto__"
    ensures forall k :: k in fields ==> fields[k] == obj[k]
    decreases |keys|
  {
    if |keys| == 0 then map[]
    else
      var key := keys[|keys| - 1];
      assert forall k :: k in keys <==> k in keys[..|keys| - 1] || k == key by {
        assert keys == keys[..|keys| - 1] + [key];
      }
      JsSetProperty(CopyFieldsAsWritten(obj, keys[..|keys| - 1]), key, obj[key])
  }

  /** The copy as written is the intended copy with `__proto__` missing. */
  lemma {:induction false} CopyFieldsAsWrittenDropsProto(obj: map<string, string>, keys: seq<string>)
    requires forall i :: 0 <= i < |keys| ==> keys[i] in obj
    ensures CopyFieldsAsWritten(obj, keys) == CopyFields(obj, keys) - {"__proto__"}
    decreases |keys|
  {
    if |keys| > 0 {
      CopyFieldsAsWrittenDropsProto(obj, keys[..|keys| - 1]);
    }
  }

  /** A form posting a single field named `__proto__` gets an empty
      re-population object back although the decoded object has that field. */
  lemma ProtoFieldNotRepopulated()
    ensures var data := [Entry("__proto__", "x")];
            && FromEntries(data) == map["__proto__" := "x"]
            && CopyFieldsAsWritten(FromEntries(data), ObjectKeys(data)) == map[]
  {
  }
}
