/**
  The in-memory transport: a map of entries it mutates, fresh identities from a counter, and a
  walk up the parents that decides what a recycle takes along.
 */
module C03Fake {
  import opened Wrappers
  import opened Decimals
  import opened C03Model
  import opened C03Tree

  const FIRST_ID: nat := 90000000000000000001

  /** One step up the parents does not change whether a node hangs below `root`. */
  lemma DescendsUp(t: Tree, id: Id, root: Id)
    requires id in t && t[id].parent in t && t[id].parent != root
    ensures Descends(t, id, root) <==> Descends(t, t[id].parent, root)
  {
    if n: nat :| Below(t, id, root, n) {
      assert Below(t, t[id].parent, root, n - 1);
    }
    if n: nat :| Below(t, t[id].parent, root, n) {
      assert Below(t, id, root, n + 1);
    }
  }

  class FakeTransport {
    var entries: Tree
    var nextId: nat
    var writes: seq<Operation>

    constructor ()
      ensures Valid() && entries == map[] && writes == []
    {
      entries, nextId, writes := map[], FIRST_ID, [];
    }

    /** An identity the counter has yet to hand out. */
    ghost predicate Future(id: Id)
      reads `nextId
    {
      exists n: nat :: n >= nextId && id == Decimal(n)
    }

    ghost predicate Valid()
      reads this
    {
      && nextId > 0
      && forall id | id in entries :: !Future(id) && !Future(entries[id].parent)
    }

    /** Walks up from `id`; without a cycle the walk ends, and finds `root` exactly if it is an
        ancestor. */
    method IsDescendant(id: Id, root: Id) returns (found: bool)
      requires Acyclic(entries) && id in entries
      ensures found <==> Descends(entries, id, root)
    {
      ghost var rank :| Ranked(entries, rank);
      var current := id;
      while entries[current].parent in entries
        invariant current in entries
        invariant Descends(entries, id, root) <==> Descends(entries, current, root)
        decreases rank[current]
      {
        var parent := entries[current].parent;
        if parent == root {
          assert Below(entries, current, root, 1);
          return true;
        }
        DescendsUp(entries, current, root);
        current := parent;
      }
      found := false;
    }

    /** The entries a recycle of `root` takes along. */
    method Descendants(root: Id) returns (found: set<Id>)
      requires Acyclic(entries)
      ensures forall id :: id in found <==> id in entries && Descends(entries, id, root)
    {
      found := {};
      var rest := entries.Keys;
      while rest != {}
        invariant rest <= entries.Keys
        invariant forall id :: id in found <==> id in entries && id !in rest && Descends(entries, id, root)
        decreases rest
      {
        var id :| id in rest;
        var below := IsDescendant(id, root);
        if below {
          found := found + {id};
        }
        rest := rest - {id};
      }
    }

    /** Every write does to the map what an honest remote does to its tree. */
    method Execute(request: Request) returns (answer: WriteAnswer)
      requires Valid()
      requires request.Mkdir? ==> !Future(request.parent)
      requires request.Move? ==> !Future(request.target)
      requires request.Recycle? ==> Acyclic(entries)
      modifies this
      ensures Valid() && writes == old(writes) + [request.Op()]
      ensures ExecutesHonestly(old(entries), request, answer)
      ensures entries == AfterRequest(old(entries), request, answer)
      ensures (request.Move? || request.Rename?) && request.id !in old(entries) ==> answer == WriteRaised
    {
      writes := writes + [request.Op()];
      match request {
        case Mkdir(parent, name) =>
          var n := nextId;
          var id := Decimal(n);
          assert Future(id);
          nextId := n + 1;
          DecimalsDiffer(n);
          entries := entries[id := Node(parent, name, true)];
          answer := Received(Receipt(Succeeded, Some(NumberId(n))));
        case Move(id, target) =>
          if id !in entries {
            return WriteRaised;
          }
          entries := entries[id := entries[id].(parent := target)];
          answer := Received(Receipt(Succeeded, None));
        case Rename(id, name) =>
          if id !in entries {
            return WriteRaised;
          }
          entries := entries[id := entries[id].(name := name)];
          answer := Received(Receipt(Succeeded, None));
        case Recycle(root) =>
          var below := Descendants(root);
          entries := entries - {root} - below;
          answer := Received(Receipt(Succeeded, None));
      }
    }
  }

  lemma DecimalsDiffer(n: nat)
    ensures forall m: nat :: m > n ==> Decimal(m) != Decimal(n)
  {
    forall m: nat | m > n ensures Decimal(m) != Decimal(n) {
      if Decimal(m) == Decimal(n) {
        DecimalInjective(m, n);
      }
    }
  }
}
