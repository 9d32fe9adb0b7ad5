/** The participant picker of the Schedule form: a text box and the list of chosen
    names or emails. */
module MultiSelect {
  import opened Text
  import opened Seqs

  /** The chosen values and the text currently in the box. */
  datatype Picker = Picker(values: seq<string>, text: string)

  /** Pressing Enter or "Add": the trimmed text is appended when it is non-empty and not
      chosen yet, and then the box is cleared; otherwise nothing changes at all. */
  function Add(p: Picker): (r: Picker)
    ensures |p.values| <= |r.values| <= |p.values| + 1
    ensures r.values[..|p.values|] == p.values
    ensures |r.values| == |p.values| + 1 <==> Trim(p.text) != "" && Trim(p.text) !in p.values
    ensures |r.values| == |p.values| + 1 ==> r.values[|p.values|] == Trim(p.text) && r.text == ""
    ensures |r.values| == |p.values| ==> r == p
    ensures NoDuplicates(p.values) ==> NoDuplicates(r.values)
  {
    var v := Trim(p.text);
    if v == "" || v in p.values then p
    else Picker(p.values + [v], "")
  }

  /** Adding is idempotent: a second press changes nothing, because the box was either
      cleared by the first or held text that was refused. */
  lemma AddIdempotent(p: Picker)
    ensures Add(Add(p)) == Add(p)
  {
  }

  /** Adding the same text twice to the list is the same as adding it once, even when the
      text is typed again. */
  lemma AddSameTextTwice(values: seq<string>, text: string)
    ensures Add(Picker(Add(Picker(values, text)).values, text)).values
         == Add(Picker(values, text)).values
  {
    var v := Trim(text);
    if v != "" && v !in values {
      assert v in values + [v];
    }
  }

  /** The cross of a chosen value: every occurrence of `v` is dropped, and the remaining
      values keep their order and their number. */
  function Remove(values: seq<string>, v: string): (r: seq<string>)
    ensures v !in r
    ensures IsSubsequence(r, values)
    ensures forall x :: x != v ==> multiset(r)[x] == multiset(values)[x]
    ensures NoDuplicates(values) ==> NoDuplicates(r)
  {
    FilterIsSubsequence(x => x != v, values);
    FilterNoDuplicates(x => x != v, values);
    Filter(x => x != v, values)
  }

  /** Removing a value that was just added restores the list as it was. */
  lemma RemoveUndoesAdd(p: Picker)
    requires Trim(p.text) != "" && Trim(p.text) !in p.values
    ensures Remove(Add(p).values, Trim(p.text)) == p.values
  {
    var v := Trim(p.text);
    var keep := (x: string) => x != v;
    assert Add(p).values == p.values + [v];
    FilterAppend(keep, p.values, [v]);
    forall i | 0 <= i < |p.values| ensures keep(p.values[i]) {
      assert p.values[i] in p.values;
    }
    FilterKeepsAll(keep, p.values);
    assert Filter(keep, [v]) == [];
  }

  /** Removing the same value twice is removing it once. */
  lemma RemoveIdempotent(values: seq<string>, v: string)
    ensures Remove(Remove(values, v), v) == Remove(values, v)
  {
    FilterIdempotent(x => x != v, values);
  }
}
