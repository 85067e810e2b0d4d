/** Resource tags as the provider returns them: `{"Key": ..., "Value": ...}`. */
module Tags {

  datatype Tag = Tag(key: string, value: string)

  /** The values of the tags keyed `Name`, in tag order. */
  function NameValues(tags: seq<Tag>): (vs: seq<string>)
    ensures |vs| <= |tags|
    ensures vs == [] <==> forall i :: 0 <= i < |tags| ==> tags[i].key != "Name"
    ensures forall v :: v in vs ==> exists i :: 0 <= i < |tags| && tags[i] == Tag("Name", v)
  {
    if |tags| == 0 then []
    else
      var init := tags[..|tags| - 1];
      var last := tags[|tags| - 1];
      assert forall i :: 0 <= i < |init| ==> init[i] == tags[i];
      NameValues(init) + if last.key == "Name" then [last.value] else []
  }

  /** One tag contributes its value exactly when it is keyed `Name`. */
  lemma NameValuesOne(t: Tag)
    ensures NameValues([t]) == if t.key == "Name" then [t.value] else []
  {
    assert [t][..0] == [];
  }

  /** The `Name` values of two runs of tags are those of the first run,
      then those of the second: with `NameValuesOne`, every `Name` tag
      contributes its value, in tag order. */
  lemma {:induction false} NameValuesAppend(a: seq<Tag>, b: seq<Tag>)
    ensures NameValues(a + b) == NameValues(a) + NameValues(b)
    decreases |b|
  {
    if b == [] {
      assert a + b == a;
    } else {
      var init := b[..|b| - 1];
      var last := b[|b| - 1];
      NameValuesAppend(a, init);
      var tail := if last.key == "Name" then [last.value] else [];
      assert (a + b)[..|a + b| - 1] == a + init;
      assert (a + b)[|a + b| - 1] == last;
      assert NameValues(a + b) == NameValues(a + init) + tail;
      assert NameValues(b) == NameValues(init) + tail;
      assert (NameValues(a) + NameValues(init)) + tail == NameValues(a) + (NameValues(init) + tail);
    }
  }
}
