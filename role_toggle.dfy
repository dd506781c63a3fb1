/** The role picker shared by the sign-in forms. */
module RoleToggle {
  import opened Wrappers
  import opened Seqs
  import opened AuthStore

  /** `value ?? requestedRoles` */
  function Selected(value: Option<seq<UserRole>>, requestedRoles: seq<UserRole>): (r: seq<UserRole>)
    ensures value.Some? ==> r == value.value
    ensures value.None? ==> r == requestedRoles
  {
    value.GetOr(requestedRoles)
  }

  /** `[...new Set(selected)]`: each role once, at its first position; nothing is sorted. */
  function Dedup(s: seq<UserRole>): (r: seq<UserRole>)
    ensures forall x :: x in r <==> x in s
    ensures NoDuplicates(r)
    ensures |r| <= |s|
    ensures s != [] ==> r != [] && r[0] == s[0]
  {
    if s == [] then []
    else
      var init := Dedup(s[..|s| - 1]);
      var last := s[|s| - 1];
      assert s == s[..|s| - 1] + [last];
      if last in init then init
      else
        AppendFreshNoDuplicates(init, last);
        init + [last]
  }

  /** A list without repeats is kept as it is, order included. */
  lemma {:induction false} DedupKeepsDistinct(s: seq<UserRole>)
    requires NoDuplicates(s)
    ensures Dedup(s) == s
  {
    if s != [] {
      var init := s[..|s| - 1];
      assert NoDuplicates(init);
      DedupKeepsDistinct(init);
      assert s[|s| - 1] !in init;
      assert s == init + [s[|s| - 1]];
    }
  }

  lemma DedupIdempotent(s: seq<UserRole>)
    ensures Dedup(Dedup(s)) == Dedup(s)
  {
    DedupKeepsDistinct(Dedup(s));
  }

  /** An example of first-occurrence order: `editor` stays ahead of `distributor`, although
      the options list `distributor` first. */
  lemma DedupKeepsFirstOccurrenceOrder()
    ensures Dedup([Editor, Distributor, Editor]) == [Editor, Distributor]
  {
    assert [Editor, Distributor, Editor][..2] == [Editor, Distributor];
    assert [Editor, Distributor][..1] == [Editor];
    assert [Editor][..0] == [];
  }

  /** The change handler: an empty selection is dropped, any other is handed on. */
  function OnValueChange(value: seq<UserRole>): (r: Option<seq<UserRole>>)
    ensures r.None? <==> value == []
    ensures r.Some? ==> r.value == value
  {
    if |value| == 0 then None else Some(value)
  }
}
