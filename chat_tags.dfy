/** The tag drop-down: toggling a tag in the selection, the button label and the check marks. */
module ChatTags {
  import opened Records
  import opened Text
  import Seqs

  /** `toggleTag`: a selected tag is removed (every copy), an unselected one appended. */
  function ToggleTag(prev: seq<Tag>, tag: Tag): (r: seq<Tag>)
    ensures tag in r <==> tag !in prev
    ensures Seqs.Filter(r, Seqs.NotEqual(tag)) == Seqs.Filter(prev, Seqs.NotEqual(tag))
    ensures tag !in prev ==> |r| == |prev| + 1 && r[..|prev|] == prev
  {
    if tag in prev then
      Seqs.FilterIdempotent(prev, Seqs.NotEqual(tag));
      Seqs.Filter(prev, Seqs.NotEqual(tag))
    else
      Seqs.AppendThenRemove(prev, tag);
      Seqs.FilterKeepsAll(prev, Seqs.NotEqual(tag));
      prev + [tag]
  }

  /** Toggling an unselected tag twice restores the selection. */
  lemma ToggleTwiceRestores(prev: seq<Tag>, tag: Tag)
    requires tag !in prev
    ensures ToggleTag(ToggleTag(prev, tag), tag) == prev
  {
    Seqs.AppendThenRemove(prev, tag);
  }

  /** A check box is ticked exactly when its tag is selected; a toggle flips only that box. */
  predicate Checked(selected: seq<Tag>, tag: Tag) {
    tag in selected
  }

  lemma ToggleFlipsOnlyItsBox(prev: seq<Tag>, tag: Tag, other: Tag)
    ensures Checked(ToggleTag(prev, tag), tag) == !Checked(prev, tag)
    ensures other != tag ==> Checked(ToggleTag(prev, tag), other) == Checked(prev, other)
  {
    var p := Seqs.NotEqual(tag);
    if other != tag {
      var r := ToggleTag(prev, tag);
      assert p(other);
      Seqs.FilterCount(r, p);
      Seqs.FilterCount(prev, p);
      assert multiset(Seqs.Filter(r, p))[other] == multiset(r)[other];
      assert multiset(Seqs.Filter(prev, p))[other] == multiset(prev)[other];
    }
  }

  function Names(tags: seq<Tag>): (r: seq<string>)
    ensures |r| == |tags|
    ensures forall i :: 0 <= i < |tags| ==> r[i] == tags[i].name
  {
    if tags == [] then [] else [tags[0].name] + Names(tags[1..])
  }

  /** The button text: the selected names joined with ", ", or "Select Tags". */
  function Label(selected: seq<Tag>): (r: string)
    ensures selected == [] ==> r == "Select Tags"
    ensures |selected| == 1 ==> r == selected[0].name
    ensures selected != [] ==> StartsWith(r, selected[0].name)
  {
    if |selected| > 0 then Join(Names(selected), ", ") else "Select Tags"
  }

  /** Selecting one more tag adds ", " and its name to the end of a non-empty label. */
  lemma LabelAfterSelect(prev: seq<Tag>, tag: Tag)
    requires tag !in prev && prev != []
    ensures Label(ToggleTag(prev, tag)) == Label(prev) + ", " + tag.name
  {
    assert Names(prev + [tag]) == Names(prev) + [tag.name];
    JoinSnoc(Names(prev), tag.name, ", ");
  }
}
