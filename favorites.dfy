/**
 * The optimistic favourite toggle shared by the search and vendor pages: the
 * id list is changed before the store call (removed when present, appended
 * when absent), and the change is undone per item when the call fails (a
 * removed id is appended back at the end, an added id is filtered out).
 */
module Favorites {
  import opened Backend
  import Seqs

  /** `favs.filter(x => x !== id)`. */
  function Drop(favs: seq<Id>, id: Id): (r: seq<Id>)
    ensures forall x :: x in r <==> x in favs && x != id
  {
    Seqs.Without(favs, (x: Id) => x, id)
  }

  /** The list shown while the store call is pending. */
  function Optimistic(favs: seq<Id>, id: Id): seq<Id> {
    if id in favs then Drop(favs, id) else favs + [id]
  }

  /** The list once the store call has answered (`ok` when it succeeded). */
  function Settled(favs: seq<Id>, id: Id, ok: bool): seq<Id> {
    var shown := Optimistic(favs, id);
    if ok then shown
    else if id in favs then shown + [id]
    else Drop(shown, id)
  }

  /** Net effect of a toggle: membership of `id` is flipped on success and kept on
      failure, and no other id enters or leaves the list. */
  lemma {:induction false} SettledMembership(favs: seq<Id>, id: Id, ok: bool)
    ensures id in Settled(favs, id, ok) <==> (id in favs) != ok
    ensures forall x :: x != id ==> (x in Settled(favs, id, ok) <==> x in favs)
  {
    var shown := Optimistic(favs, id);
    assert id in shown <==> id !in favs;
    assert forall x :: x != id ==> (x in shown <==> x in favs);
  }

  /** A failed add gives back exactly the list it started from. */
  lemma {:induction false} FailedAddRestores(favs: seq<Id>, id: Id)
    requires id !in favs
    ensures Settled(favs, id, false) == favs
  {
    Seqs.WithoutAppend(favs, [id], (x: Id) => x, id);
    Seqs.WithoutAbsent(favs, (x: Id) => x, id);
    assert Drop([id], id) == [];
  }

  /** A failed removal brings the id back at the end of the list, after every other id. */
  lemma {:induction false} FailedRemoveAppends(favs: seq<Id>, id: Id)
    requires id in favs
    ensures Settled(favs, id, false) == Drop(favs, id) + [id]
    ensures forall x :: x in Settled(favs, id, false) <==> x in favs
  {
    assert Optimistic(favs, id) == Drop(favs, id);
  }

  /** So the restored list can differ from the one it started from, though its members
      are the same. */
  lemma FailedRemoveMayReorder()
    ensures Settled(["a", "b"], "a", false) == ["b", "a"]
  {
    FailedRemoveAppends(["a", "b"], "a");
    assert ["a", "b"][1..] == ["b"];
    assert Drop(["b"], "a") == ["b"] + Drop([], "a");
  }

  /** A list without duplicates stays without duplicates through a toggle. */
  lemma {:induction false} SettledDistinct(favs: seq<Id>, id: Id, ok: bool)
    requires Seqs.Distinct(favs)
    ensures Seqs.Distinct(Settled(favs, id, ok))
  {
    var shown := Optimistic(favs, id);
    if id in favs {
      Seqs.WithoutDistinct(favs, (x: Id) => x, id);
      assert id !in shown;
    } else {
      assert Seqs.Distinct(shown);
      Seqs.WithoutDistinct(shown, (x: Id) => x, id);
    }
  }
}
