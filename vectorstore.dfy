/** The module-level registry of named vector indexes: creating a name that
    exists and adding to a name that does not are refused with `ValueError`.
    An index is reduced to the documents inserted into it. */
module Vectorstore {
  import opened Wrappers
  import opened Nodes

  class VectorIndex {
    var documents: seq<Document>

    constructor ()
      ensures documents == []
    {
      documents := [];
    }
  }

  /** `index_store`. */
  class Registry {
    var indexes: map<string, VectorIndex>

    /** No two names share one index object: every index is created fresh. */
    ghost predicate Valid()
      reads this
    {
      forall a, b | a in indexes && b in indexes && a != b :: indexes[a] != indexes[b]
    }

    constructor ()
      ensures Valid() && indexes == map[]
    {
      indexes := map[];
    }

    /** `create_index_store(name)`. */
    method CreateIndexStore(name: string) returns (r: Result<VectorIndex, string>)
      requires Valid()
      modifies this
      ensures Valid()
      ensures name in old(indexes) ==>
        r == Err("Index with name '" + name + "' already exists.") && indexes == old(indexes)
      ensures name !in old(indexes) ==>
        r.Ok? && fresh(r.value) && r.value.documents == [] && indexes == old(indexes)[name := r.value]
      ensures forall n | n in old(indexes) :: n in indexes && indexes[n] == old(indexes)[n]
    {
      if name in indexes {
        return Err("Index with name '" + name + "' already exists.");
      }
      var index := new VectorIndex();
      indexes := indexes[name := index];
      return Ok(index);
    }

    /** `add_to_index_store(name, documents)`: the named index takes the
        documents; every other index and the registry itself are unchanged. */
    method AddToIndexStore(name: string, docs: seq<Document>) returns (r: Result<(), string>)
      requires Valid()
      modifies if name in indexes then {indexes[name]} else {}
      ensures name !in indexes ==> r == Err("Index with name '" + name + "' does not exist.")
      ensures name in indexes ==>
        r == Ok(()) && indexes[name].documents == old(indexes[name].documents) + docs
      ensures forall n | n in indexes && n != name :: indexes[n].documents == old(indexes[n].documents)
    {
      if name !in indexes {
        return Err("Index with name '" + name + "' does not exist.");
      }
      var index := indexes[name];
      index.documents := index.documents + docs;
      return Ok(());
    }
  }
}
