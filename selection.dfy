/** The "Parts to Include" checkboxes of the title screen. Each checkbox calls
    `toggle_part` with its part number, which keeps `parts_to_include` as a
    list of the selected parts. */
module Selection {
  import opened Lists

  /** `toggle_part(p)`: remove `p` when it is listed, append it otherwise. */
  function Toggled(parts: seq<int>, p: int): (r: seq<int>)
  {
    if p in parts then RemoveFirst(parts, p) else parts + [p]
  }

  /** Toggling flips whether `p` is selected. */
  lemma ToggleFlips(parts: seq<int>, p: int)
    requires Distinct(parts)
    ensures p in Toggled(parts, p) <==> p !in parts
  {
    if p in parts {
      RemoveFirstMembers(parts, p, p);
    }
  }

  /** Toggling `p` leaves the selection of every other part as it was. */
  lemma ToggleKeepsOthers(parts: seq<int>, p: int, q: int)
    requires q != p
    ensures q in Toggled(parts, p) <==> q in parts
  {
    if p in parts {
      RemoveFirstMembers(parts, p, q);
    }
  }

  /** The list never holds a part twice: `append` only happens when the part
      is absent. */
  lemma ToggleKeepsDistinct(parts: seq<int>, p: int)
    requires Distinct(parts)
    ensures Distinct(Toggled(parts, p))
  {
    if p in parts {
      RemoveFirstDistinct(parts, p);
    }
  }

  /** Ticking an unticked box and then unticking it restores the list exactly. */
  lemma ToggleTwiceRestores(parts: seq<int>, p: int)
    requires p !in parts
    ensures Toggled(Toggled(parts, p), p) == parts
  {
    assert p in parts + [p];
    RemoveFirstAppended(parts, p);
  }

  /** Unticking a ticked box and ticking it again keeps the same selection but
      moves the part to the end of the list. */
  lemma {:induction false} ToggleTwiceMovesToEnd(parts: seq<int>, p: int)
    requires p in parts && Distinct(parts)
    ensures Toggled(Toggled(parts, p), p) == RemoveFirst(parts, p) + [p]
  {
    RemoveFirstMembers(parts, p, p);
  }
}
