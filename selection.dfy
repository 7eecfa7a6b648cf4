/** The checkbox handlers both dashboards use for the area and category selections. */
module Selection {

  predicate NoDuplicates(s: seq<string>) {
    forall i, j :: 0 <= i < j < |s| ==> s[i] != s[j]
  }

  /** The ids of s other than id, in order (selectedX.filter((x) => x !== id)). */
  function Without(s: seq<string>, id: string): (r: seq<string>)
    ensures id !in r
    ensures forall x :: x in r <==> x in s && x != id
    ensures NoDuplicates(s) ==> NoDuplicates(r)
    ensures id !in s ==> r == s
  {
    if |s| == 0 then []
    else
      var rest := Without(s[1..], id);
      if s[0] == id then rest
      else
        assert s == [s[0]] + s[1..];
        assert NoDuplicates(s) ==> s[0] !in s[1..] && NoDuplicates(s[1..]) by {
          if NoDuplicates(s) {
            forall k | 0 <= k < |s| - 1 ensures s[1..][k] != s[0] { assert s[1..][k] == s[k + 1]; }
          }
        }
        [s[0]] + rest
  }

  /** Clicking the checkbox of id: removed when present, appended when absent. */
  function Toggle(s: seq<string>, id: string): (r: seq<string>)
    ensures id in r <==> id !in s
    ensures forall x :: x != id ==> (x in r <==> x in s)
    ensures NoDuplicates(s) ==> NoDuplicates(r)
  {
    if id in s then Without(s, id) else s + [id]
  }

  /** Toggling an unselected id twice gives the original selection back. */
  lemma ToggleTwiceAbsent(s: seq<string>, id: string)
    requires id !in s
    ensures Toggle(Toggle(s, id), id) == s
  {
    assert Toggle(s, id) == s + [id];
    WithoutAppended(s, id);
  }

  lemma {:induction false} WithoutAppended(s: seq<string>, id: string)
    requires id !in s
    ensures Without(s + [id], id) == s
  {
    if |s| > 0 {
      assert (s + [id])[1..] == s[1..] + [id];
      WithoutAppended(s[1..], id);
      assert s == [s[0]] + s[1..];
    } else {
      assert s + [id] == [id];
    }
  }

  /**
   * Toggling a selected id twice keeps the same ids, and in a duplicate-free
   * selection that was its last one, gives the original list back; otherwise
   * the id moves to the end.
   */
  lemma ToggleTwicePresent(s: seq<string>, id: string)
    requires id in s
    ensures forall x :: x in Toggle(Toggle(s, id), id) <==> x in s
    ensures Toggle(Toggle(s, id), id) == Without(s, id) + [id]
    ensures NoDuplicates(s) && s[|s| - 1] == id ==> Toggle(Toggle(s, id), id) == s
  {
    if NoDuplicates(s) && s[|s| - 1] == id {
      var init := s[..|s| - 1];
      assert s == init + [id];
      assert id !in init;
      WithoutAppended(init, id);
    }
  }
}
