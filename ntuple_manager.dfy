/**
 * The ntuple registry (Framework/src/NtupleManager.cxx): a single shared
 * manager holding named output trees and the values of named variables.
 *
 * A ROOT tree is modelled by its name, its title and the number of entries
 * filled into it; a variable by its current value.
 */
module Ntuple {
  import opened Wrappers

  /** The value `clear` gives every variable. */
  const Unset := -9999

  datatype Tree = Tree(name: string, title: string, entries: nat)

  datatype NtupleError = TreeExists(name: string)

  /** The trees after one fill: each gains one entry. */
  function Filled(trees: map<string, Tree>): (r: map<string, Tree>)
    ensures r.Keys == trees.Keys
    ensures forall n :: n in r ==> r[n].entries == trees[n].entries + 1
  {
    map n | n in trees :: trees[n].(entries := trees[n].entries + 1)
  }

  /** The variables after a clear. */
  function Cleared(variables: map<string, int>): (r: map<string, int>)
    ensures r.Keys == variables.Keys
    ensures forall n :: n in r ==> r[n] == Unset
  {
    map n | n in variables :: Unset
  }

  /** Clearing twice leaves the variables as clearing once. */
  lemma ClearIdempotent(variables: map<string, int>)
    ensures Cleared(Cleared(variables)) == Cleared(variables)
  {}

  /** Filling with no trees does nothing, and clearing no variables does nothing. */
  lemma EmptyDoesNothing()
    ensures Filled(map[]) == map[] && Cleared(map[]) == map[]
  {}

  class NtupleManager {
    var trees: map<string, Tree>
    var variables: map<string, int>

    constructor()
      ensures trees == map[] && variables == map[]
    {
      trees := map[];
      variables := map[];
    }

    /**
     * create: an error if a tree with the name exists, and then nothing
     * changes; otherwise exactly one tree, named and titled `name`, is added.
     */
    method Create(name: string) returns (r: Outcome<NtupleError>)
      modifies this`trees
      ensures name in old(trees) ==> r == Fail(TreeExists(name)) && trees == old(trees)
      ensures name !in old(trees) ==> r == Pass && trees == old(trees)[name := Tree(name, name, 0)]
      ensures name !in old(trees) ==> trees.Keys == old(trees).Keys + {name}
    {
      if name in trees {
        return Fail(TreeExists(name));
      }
      trees := trees[name := Tree(name, name, 0)];
      r := Pass;
    }

    /** fill: nothing when there are no trees; otherwise each tree is filled once. */
    method Fill()
      modifies this`trees
      ensures trees == Filled(old(trees))
    {
      if trees == map[] {
        return;
      }
      var todo := trees.Keys;
      var filled := trees;
      while todo != {}
        invariant todo <= trees.Keys && filled.Keys == trees.Keys
        invariant forall n :: n in filled && n !in todo ==> filled[n] == trees[n].(entries := trees[n].entries + 1)
        invariant forall n :: n in todo ==> filled[n] == trees[n]
        decreases todo
      {
        var n :| n in todo;
        filled := filled[n := trees[n].(entries := trees[n].entries + 1)];
        todo := todo - {n};
      }
      trees := filled;
    }

    /** clear: nothing when there are no variables; otherwise every variable becomes -9999. */
    method Clear()
      modifies this`variables
      ensures variables == Cleared(old(variables))
    {
      if variables == map[] {
        return;
      }
      var todo := variables.Keys;
      while todo != {}
        invariant todo <= variables.Keys && variables.Keys == old(variables).Keys
        invariant forall n :: n in variables && n !in todo ==> variables[n] == Unset
        invariant forall n :: n in todo ==> variables[n] == old(variables)[n]
        decreases todo
      {
        var n :| n in todo;
        variables := variables[n := Unset];
        todo := todo - {n};
      }
    }
  }

  /** The process-wide slot that holds the single manager once it exists. */
  class Registry {
    var instance: NtupleManager?

    constructor()
      ensures instance == null
    {
      instance := null;
    }

    /** getInstance: creates the manager on the first call and returns that one ever after. */
    method GetInstance() returns (m: NtupleManager)
      modifies this`instance
      ensures old(instance) != null ==> m == old(instance)
      ensures old(instance) == null ==> fresh(m) && m.trees == map[] && m.variables == map[]
      ensures instance == m
    {
      if instance == null {
        instance := new NtupleManager();
      }
      m := instance;
    }

    /** Two calls return the same manager. */
    method GetInstanceTwice() returns (a: NtupleManager, b: NtupleManager)
      modifies this`instance
      ensures a == b && instance == a
    {
      a := GetInstance();
      b := GetInstance();
    }
  }
}
