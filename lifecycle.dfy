/** Histories of committed transactions: what the world state looks like after
    a sequence of contract calls, each applied to the state the previous one
    left behind. */
module Lifecycle {
  import opened Assets
  import opened Contract

  /** One invocation of the contract. */
  datatype Call =
    | ExistsCall(id: string)
    | CreateCall(id: string, name: string, description: string)
    | ReadCall(id: string)
    | UpdateCall(id: string, name: string, description: string)
    | DeleteCall(id: string)

  /** The world state after a transaction: its write if it succeeded, the
      state as it was if it threw. */
  function Commit(l: Ledger, r: Result<Ledger>): Ledger
  {
    if r.Ok? then r.value else l
  }

  function Apply(l: Ledger, c: Call): Ledger
  {
    match c
    case ExistsCall(_) => l
    case ReadCall(_) => l
    case CreateCall(id, name, description) => Commit(l, Create(l, id, name, description))
    case UpdateCall(id, name, description) => Commit(l, Update(l, id, name, description))
    case DeleteCall(id) => Commit(l, Delete(l, id))
  }

  /** The world state after the calls cs, in order, starting from l. */
  function Run(l: Ledger, cs: seq<Call>): Ledger
  {
    if cs == [] then l else Apply(Run(l, cs[..|cs| - 1]), cs[|cs| - 1])
  }

  predicate Creates(c: Call, id: string)
  {
    c.CreateCall? && c.id == id
  }

  predicate Deletes(c: Call, id: string)
  {
    c.DeleteCall? && c.id == id
  }

  /** Some call in cs creates id and no later call deletes it. */
  ghost predicate CreatedSinceDeleted(cs: seq<Call>, id: string)
  {
    exists i :: 0 <= i < |cs| && Creates(cs[i], id) && NoDeleteAfter(cs, id, i)
  }

  ghost predicate NoDeleteAfter(cs: seq<Call>, id: string, i: nat)
  {
    forall j :: i < j < |cs| ==> !Deletes(cs[j], id)
  }

  /** One call decides existence of id by itself: a create on id leaves it
      existing (it either writes or finds it there), a delete on id leaves it
      absent (it either removes it or finds it absent), and every other call
      keeps it as it was. */
  lemma ApplyExistence(l: Ledger, c: Call, id: string)
    ensures Exists(Apply(l, c), id) ==
              if Creates(c, id) then true
              else if Deletes(c, id) then false
              else Exists(l, id)
  {
    if c.UpdateCall? && c.id == id && Update(l, id, c.name, c.description).Err? {
      assert Apply(l, c) == l;
    }
  }

  /** From an empty world state, an election exists exactly when some call
      created it and no later call deleted it. */
  lemma {:induction false} ExistenceHistory(cs: seq<Call>, id: string)
    ensures Exists(Run(map[], cs), id) <==> CreatedSinceDeleted(cs, id)
  {
    if cs == [] {
      assert !Exists(map[], id);
    } else {
      var n := |cs| - 1;
      var before, c := cs[..n], cs[n];
      assert cs == before + [c];
      ExistenceHistory(before, id);
      ApplyExistence(Run(map[], before), c, id);
      if Creates(c, id) {
        assert NoDeleteAfter(cs, id, n);
      } else if Deletes(c, id) {
        forall i | 0 <= i < |cs| && Creates(cs[i], id)
          ensures !NoDeleteAfter(cs, id, i)
        {
          assert i < n;
        }
      } else {
        if CreatedSinceDeleted(before, id) {
          var i :| 0 <= i < |before| && Creates(before[i], id) && NoDeleteAfter(before, id, i);
          assert Creates(cs[i], id) && NoDeleteAfter(cs, id, i);
        }
        if CreatedSinceDeleted(cs, id) {
          var i :| 0 <= i < |cs| && Creates(cs[i], id) && NoDeleteAfter(cs, id, i);
          assert i < n;
          assert Creates(before[i], id) && NoDeleteAfter(before, id, i);
        }
      }
    }
  }

  /** What the contract itself writes: under every key, an object whose id
      property is that key. */
  ghost predicate WellFormed(l: Ledger)
  {
    forall k :: k in l ==> l[k].Object? && "id" in l[k].fields && l[k].fields["id"] == k
  }

  lemma ApplyKeepsWellFormed(l: Ledger, c: Call)
    requires WellFormed(l)
    ensures WellFormed(Apply(l, c))
  {
    if c.UpdateCall? {
      var r := Update(l, c.id, c.name, c.description);
      if r.Ok? {
        assert "id" != "name" && "id" != "description";
        assert Patched(l[c.id].fields, r.value[c.id].fields, c.name, c.description);
      }
    }
  }

  lemma {:induction false} RunKeepsWellFormed(l: Ledger, cs: seq<Call>)
    requires WellFormed(l)
    ensures WellFormed(Run(l, cs))
  {
    if cs != [] {
      RunKeepsWellFormed(l, cs[..|cs| - 1]);
      ApplyKeepsWellFormed(Run(l, cs[..|cs| - 1]), cs[|cs| - 1]);
    }
  }

  /** In a world state built by the contract alone, reading never meets
      a value that is not a flat object of strings, and the election read back carries its own id:
      updates never change which key an election occupies. */
  lemma ReadAfterHistory(cs: seq<Call>, id: string)
    ensures Read(Run(map[], cs), id).Ok? <==> CreatedSinceDeleted(cs, id)
    ensures Read(Run(map[], cs), id).Err? ==> Read(Run(map[], cs), id).error == NotFound(id)
    ensures Read(Run(map[], cs), id).Ok? ==>
              "id" in Read(Run(map[], cs), id).value && Read(Run(map[], cs), id).value["id"] == id
  {
    RunKeepsWellFormed(map[], cs);
    ExistenceHistory(cs, id);
  }
}
