/** The eNodeB's cell list: the check that radio ports and cell identifiers are unique, and the
    derivation step that drops, while iterating, the secondary cells that do not exist. */
module CellConfig {

  datatype Cell = Cell(cellId: nat, rfPort: nat, scells: seq<nat>)

  ghost predicate Unique(cells: seq<Cell>) {
    forall i, j | 0 <= i < j < |cells| :: cells[i].rfPort != cells[j].rfPort && cells[i].cellId != cells[j].cellId
  }

  /** Compares every pair of cells. */
  method CheckUnique(cells: seq<Cell>) returns (ok: bool)
    ensures ok <==> Unique(cells)
  {
    for i := 0 to |cells|
      invariant forall a, b | 0 <= a < i && a < b < |cells| ::
          cells[a].rfPort != cells[b].rfPort && cells[a].cellId != cells[b].cellId
    {
      for j := i + 1 to |cells|
        invariant forall b | i < b < j :: cells[i].rfPort != cells[b].rfPort && cells[i].cellId != cells[b].cellId
      {
        if cells[i].rfPort == cells[j].rfPort {
          return false;
        }
        if cells[i].cellId == cells[j].cellId {
          return false;
        }
      }
    }
    ok := true;
  }

  predicate Exists(cells: seq<Cell>, id: nat) {
    exists i | 0 <= i < |cells| :: cells[i].cellId == id
  }

  /** The list without the ids of cells that do not exist, in the same order. */
  function Kept(cells: seq<Cell>, ids: seq<nat>): (r: seq<nat>) {
    if ids == [] then []
    else Kept(cells, ids[..|ids| - 1]) + if Exists(cells, ids[|ids| - 1]) then [ids[|ids| - 1]] else []
  }

  lemma {:induction false} KeptExist(cells: seq<Cell>, ids: seq<nat>)
    ensures forall id :: id in Kept(cells, ids) <==> id in ids && Exists(cells, id)
    ensures |Kept(cells, ids)| <= |ids|
  {
    if ids != [] {
      var first, last := ids[..|ids| - 1], ids[|ids| - 1];
      KeptExist(cells, first);
      assert ids == first + [last];
    }
  }

  /** Whether a list is what is left of another after leaving out some of its entries. */
  ghost predicate Subsequence(r: seq<nat>, s: seq<nat>) {
    if r == [] then true
    else if s == [] then false
    else if r[|r| - 1] == s[|s| - 1] then Subsequence(r[..|r| - 1], s[..|s| - 1])
    else Subsequence(r, s[..|s| - 1])
  }

  lemma {:induction false} KeptInOrder(cells: seq<Cell>, ids: seq<nat>)
    ensures Subsequence(Kept(cells, ids), ids)
    ensures forall id :: multiset(Kept(cells, ids))[id] == if Exists(cells, id) then multiset(ids)[id] else 0
  {
    if ids != [] {
      var first, last := ids[..|ids| - 1], ids[|ids| - 1];
      KeptInOrder(cells, first);
      assert ids == first + [last];
      if Exists(cells, last) {
        assert Kept(cells, ids)[..|Kept(cells, ids)| - 1] == Kept(cells, first);
      } else {
        KeptExist(cells, first);
        assert Kept(cells, ids) == Kept(cells, first);
        if Kept(cells, first) != [] {
          assert Kept(cells, first)[|Kept(cells, first)| - 1] in Kept(cells, first);
        }
      }
    }
  }

  /** Filtering once more changes nothing: every survivor exists. */
  lemma {:induction false} KeptTwice(cells: seq<Cell>, ids: seq<nat>)
    ensures Kept(cells, Kept(cells, ids)) == Kept(cells, ids)
  {
    if ids != [] {
      var first, last := ids[..|ids| - 1], ids[|ids| - 1];
      KeptTwice(cells, first);
      if Exists(cells, last) {
        assert Kept(cells, ids)[..|Kept(cells, ids)| - 1] == Kept(cells, first);
      } else {
        assert Kept(cells, ids) == Kept(cells, first);
      }
    }
  }

  /** The search for the cell an id names. */
  method FindCell(cells: seq<Cell>, id: nat) returns (it: nat)
    ensures it <= |cells| && (it < |cells| <==> Exists(cells, id))
    ensures it < |cells| ==> cells[it].cellId == id
  {
    it := 0;
    while it < |cells| && cells[it].cellId != id
      invariant it <= |cells| && forall i | 0 <= i < it :: cells[i].cellId != id
    {
      it := it + 1;
    }
  }

  lemma KeptOneMore(cells: seq<Cell>, ids: seq<nat>, i: nat)
    requires i < |ids|
    ensures Kept(cells, ids[..i + 1]) == Kept(cells, ids[..i]) + if Exists(cells, ids[i]) then [ids[i]] else []
  {
    assert ids[..i + 1][..i] == ids[..i];
  }

  /** Erases while iterating: what is before the iterator has been kept, what is from it on is
      still as configured.  Stops at a reference of the cell to itself. */
  method FilterScells(cells: seq<Cell>, own: nat, ids: seq<nat>) returns (ok: bool, list: seq<nat>)
    requires Exists(cells, own)
    ensures ok <==> own !in ids
    ensures ok ==> list == Kept(cells, ids)
    ensures !ok ==> exists p :: 0 <= p < |ids| && ids[p] == own && own !in ids[..p]
                                && list == Kept(cells, ids[..p]) + ids[p..]
  {
    list := ids;
    var it := 0;
    ghost var done := 0;
    while it < |list|
      invariant it <= |list| && done + (|list| - it) == |ids|
      invariant list[..it] == Kept(cells, ids[..done]) && list[it..] == ids[done..]
      invariant own !in ids[..done]
      decreases |list| - it
    {
      assert list[it] == list[it..][0] == ids[done];
      assert list[it + 1..] == list[it..][1..] == ids[done + 1..];
      KeptOneMore(cells, ids, done);
      assert ids[..done + 1] == ids[..done] + [ids[done]];
      var cellIt := FindCell(cells, list[it]);
      if cellIt == |cells| {
        list := list[..it] + list[it + 1..];
      } else if cells[cellIt].cellId == own {
        assert list == list[..it] + list[it..];
        return false, list;
      } else {
        assert list[..it + 1] == list[..it] + [list[it]];
        it := it + 1;
      }
      done := done + 1;
    }
    assert ids[..done] == ids && list[..it] == list;
    ok := true;
  }

  /** The cells after a successful derivation. */
  ghost predicate Derived(before: seq<Cell>, after: seq<Cell>, n: nat)
    requires n <= |before| == |after|
  {
    && (forall i | 0 <= i < n :: after[i] == before[i].(scells := Kept(before, before[i].scells)))
    && (forall i | n <= i < |before| :: after[i] == before[i])
  }

  lemma SameIdsExist(a: seq<Cell>, b: seq<Cell>, ids: seq<nat>)
    requires |a| == |b| && forall i | 0 <= i < |a| :: a[i].cellId == b[i].cellId
    ensures forall id :: Exists(a, id) <==> Exists(b, id)
    ensures Kept(a, ids) == Kept(b, ids)
  {
    forall id
      ensures Exists(a, id) <==> Exists(b, id)
    {
      if Exists(a, id) {
        var i :| 0 <= i < |a| && a[i].cellId == id;
        assert b[i].cellId == id;
      }
      if Exists(b, id) {
        var i :| 0 <= i < |b| && b[i].cellId == id;
        assert a[i].cellId == id;
      }
    }
    if ids != [] {
      SameIdsExist(a, b, ids[..|ids| - 1]);
    }
  }

  class RrcConfig {
    var cellList: seq<Cell>

    constructor (cells: seq<Cell>)
      ensures cellList == cells
    {
      cellList := cells;
    }

    /** Derives each cell's frequencies, which may fail, and filters its list in place; fails
        exactly when some cell has no frequencies or lists itself.  Cells before the first such
        one are derived then, cells after it untouched. */
    method SetDerivedArgs(tuned: seq<bool>) returns (ok: bool)
      requires |tuned| == |cellList|
      modifies this
      ensures ok <==> forall i | 0 <= i < |old(cellList)| ::
                  tuned[i] && old(cellList)[i].cellId !in old(cellList)[i].scells
      ensures |cellList| == |old(cellList)|
      ensures ok ==> Derived(old(cellList), cellList, |cellList|)
      ensures !ok ==> exists n :: 0 <= n < |cellList|
                                  && (!tuned[n] || old(cellList)[n].cellId in old(cellList)[n].scells)
                                  && Derived(old(cellList), cellList[n := old(cellList)[n]], n)
                                  && (!tuned[n] ==> cellList[n] == old(cellList)[n])
    {
      ghost var before := cellList;
      for i := 0 to |cellList|
        invariant |cellList| == |before| && Derived(before, cellList, i)
        invariant forall k | 0 <= k < i :: tuned[k] && before[k].cellId !in before[k].scells
      {
        if !tuned[i] {
          assert cellList[i := before[i]] == cellList;
          return false;
        }
        SameIdsExist(before, cellList, before[i].scells);
        var cfg := cellList[i];
        assert Exists(cellList, cfg.cellId);
        var fine, list := FilterScells(cellList, cfg.cellId, cfg.scells);
        cellList := cellList[i := cfg.(scells := list)];
        if !fine {
          assert Derived(before, cellList[i := before[i]], i);
          return false;
        }
      }
      ok := true;
    }
  }

  /** After the uniqueness check and the derivation, each surviving secondary cell was listed, is
      not the cell itself, and names exactly one cell. */
  lemma SurvivorsAreUnique(before: seq<Cell>, after: seq<Cell>, i: nat, id: nat)
    requires Unique(before) && |before| == |after| && Derived(before, after, |before|)
    requires i < |before| && before[i].cellId !in before[i].scells
    ensures id in after[i].scells <==> id in before[i].scells && Exists(after, id)
    ensures id in after[i].scells ==>
              id != after[i].cellId
              && exists j :: 0 <= j < |after| && after[j].cellId == id
                             && forall k | 0 <= k < |after| && k != j :: after[k].cellId != id
  {
    KeptExist(before, before[i].scells);
    SameIdsExist(before, after, []);
    if id in after[i].scells {
      var j :| 0 <= j < |before| && before[j].cellId == id;
      forall k | 0 <= k < |after| && k != j
        ensures after[k].cellId != id
      {
        assert before[k].cellId != before[j].cellId;
      }
      assert after[j].cellId == id;
    }
  }
}
