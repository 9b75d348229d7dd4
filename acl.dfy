// The in-memory set of administrator Telegram ids that every admin-only
// handler consults, reloaded wholesale from the admins table. The set is
// kept as the sequence of its members in iteration order, without repeats.
module Acl {
  predicate Distinct(s: seq<int>)
  {
    forall i, j :: 0 <= i < j < |s| ==> s[i] != s[j]
  }

  class AdminRegistry {
    var members: seq<int>

    predicate Valid()
      reads this
    {
      Distinct(members)
    }

    /** The module-level set starts empty: nobody is an admin before the first load. */
    constructor()
      ensures Valid() && members == []
      ensures forall x :: !IsAdmin(x)
    {
      members := [];
    }

    predicate IsAdmin(x: int)
      reads this
    {
      x in members
    }

    /** set_admin_ids: the set is cleared and refilled from `ids` (set.update
      * skips ids already present), so earlier contents are discarded and
      * duplicates collapse. */
    method SetAdminIds(ids: seq<int>)
      modifies this
      ensures Valid()
      ensures forall x :: IsAdmin(x) <==> x in ids
      ensures |members| <= |ids|
    {
      members := [];
      var i := 0;
      while i < |ids|
        invariant 0 <= i <= |ids|
        invariant Distinct(members)
        invariant forall x :: x in members <==> x in ids[..i]
        invariant |members| <= i
      {
        if ids[i] !in members {
          members := members + [ids[i]];
        }
        assert ids[..i + 1] == ids[..i] + [ids[i]];
        i := i + 1;
      }
      assert ids[..i] == ids;
    }

    /** get_admin_ids: list(_admin_ids), every current admin exactly once. */
    method GetAdminIds() returns (r: seq<int>)
      requires Valid()
      ensures forall x :: x in r <==> IsAdmin(x)
      ensures Distinct(r)
      ensures r == members
    {
      r := members;
    }
  }

  /** AdminFilter: an event passes iff its sender is an admin. */
  predicate AdminFilter(registry: AdminRegistry, senderId: int)
    reads registry
  {
    registry.IsAdmin(senderId)
  }
}
