/** Retained contributions and the two reverse indexes that make invalidation and
suppression refresh targeted (internal/typefacts/retained_contributions.go). */
module ContributionStores {
  import opened Order
  import opened Facts
  import opened Contributions

  /** Small buckets are a short list; past the threshold a bucket becomes a set and stays one. */
  datatype PathMembership = Small(list: seq<Path>) | Large(members: set<Path>) {

    ghost predicate Valid() {
      Small? ==> |list| <= THRESHOLD && Distinct(list)
    }

    function Members(): set<Path> {
      match this
      case Small(list) => SetOf(list)
      case Large(members) => members
    }

    function Len(): nat {
      match this
      case Small(list) => |list|
      case Large(members) => |members|
    }

    function Add(path: Path): PathMembership {
      match this
      case Large(members) => Large(members + {path})
      case Small(list) =>
        if path in list then this
        else if |list| < THRESHOLD then Small(list + [path])
        else Large(SetOf(list) + {path})
    }

    function IndexIn(path: Path, from: nat): (index: nat)
      requires Small?
      requires from <= |list| && path in list[from..]
      ensures from <= index < |list| && list[index] == path
      decreases |list| - from
    {
      if list[from] == path then from else IndexIn(path, from + 1)
    }

    /** The removed slot takes the last entry. */
    function Remove(path: Path): PathMembership {
      match this
      case Large(members) => Large(members - {path})
      case Small(list) =>
        if path !in list then this
        else
          var index := IndexIn(path, 0);
          Small(list[index := list[|list| - 1]][..|list| - 1])
    }
  }

  const THRESHOLD: nat := 16

  lemma AddMeaning(m: PathMembership, path: Path)
    requires m.Valid()
    ensures m.Add(path).Valid() && m.Add(path).Members() == m.Members() + {path}
  {
  }

  lemma RemoveMeaning(m: PathMembership, path: Path)
    requires m.Valid()
    ensures m.Remove(path).Valid() && m.Remove(path).Members() == m.Members() - {path}
  {
    if m.Small? && path in m.list {
      var list, index := m.list, m.IndexIn(path, 0);
      var last := |list| - 1;
      var next := list[index := list[last]][..last];
      forall x ensures x in next <==> x in list && x != path {
        if x in list && x != path {
          var k :| 0 <= k < |list| && list[k] == x;
          assert next[if k == last then index else k] == x;
        }
        if x in next {
          var k :| 0 <= k < last && next[k] == x;
          assert x == list[if k == index then last else k];
        }
      }
    }
  }

  /** A bucket reports itself empty exactly when it has no member. */
  lemma LenMeaning(m: PathMembership)
    requires m.Valid()
    ensures m.Len() == |m.Members()|
  {
    if m.Small? { DistinctSize(m.list); }
  }

  type Index = map<string, PathMembership>

  /** Which path uses which key. */
  type Uses = set<(string, Path)>

  function Bucket(index: Index, key: string): PathMembership {
    if key in index then index[key] else Small([])
  }

  /** The index holds exactly the uses, in valid buckets, and no bucket is empty. */
  ghost predicate Inverts(index: Index, uses: Uses) {
    && (forall key, path :: (key, path) in uses <==> path in Bucket(index, key).Members())
    && (forall key :: key in index ==> index[key].Valid() && index[key].Members() != {})
  }

  function KeyUses(path: Path, keys: seq<string>): Uses {
    set key | key in keys :: (key, path)
  }

  function WithoutUse(index: Index, key: string, path: Path): Index {
    var users := Bucket(index, key).Remove(path);
    if users.Len() == 0 then index - {key} else index[key := users]
  }

  lemma AddUse(index: Index, uses: Uses, key: string, path: Path)
    requires Inverts(index, uses)
    ensures Inverts(index[key := Bucket(index, key).Add(path)], uses + {(key, path)})
  {
    AddMeaning(Bucket(index, key), path);
  }

  lemma RemoveUse(index: Index, uses: Uses, key: string, path: Path)
    requires Inverts(index, uses)
    ensures Inverts(WithoutUse(index, key, path), uses - {(key, path)})
  {
    var users := Bucket(index, key).Remove(path);
    RemoveMeaning(Bucket(index, key), path);
    LenMeaning(users);
    var next := WithoutUse(index, key, path);
    forall k, p ensures (k, p) in uses - {(key, path)} <==> p in Bucket(next, k).Members() {
      assert (k, p) in uses <==> p in Bucket(index, k).Members();
      if k == key { assert Bucket(next, k).Members() == users.Members(); }
    }
  }

  method AddKeys(index: Index, path: Path, keys: seq<string>, ghost uses: Uses) returns (next: Index)
    requires Inverts(index, uses)
    ensures Inverts(next, uses + KeyUses(path, keys))
  {
    next := index;
    assert uses + KeyUses(path, keys[..0]) == uses;
    for k := 0 to |keys|
      invariant Inverts(next, uses + KeyUses(path, keys[..k]))
    {
      AddUse(next, uses + KeyUses(path, keys[..k]), keys[k], path);
      next := next[keys[k] := Bucket(next, keys[k]).Add(path)];
      assert uses + KeyUses(path, keys[..k + 1]) == uses + KeyUses(path, keys[..k]) + {(keys[k], path)};
    }
    assert keys[..|keys|] == keys;
  }

  method RemoveKeys(index: Index, path: Path, keys: seq<string>, ghost uses: Uses) returns (next: Index)
    requires Inverts(index, uses)
    ensures Inverts(next, uses - KeyUses(path, keys))
  {
    next := index;
    assert uses - KeyUses(path, keys[..0]) == uses;
    for k := 0 to |keys|
      invariant Inverts(next, uses - KeyUses(path, keys[..k]))
    {
      RemoveUse(next, uses - KeyUses(path, keys[..k]), keys[k], path);
      var users := Bucket(next, keys[k]).Remove(path);
      next := if users.Len() == 0 then next - {keys[k]} else next[keys[k] := users];
      assert uses - KeyUses(path, keys[..k + 1]) == uses - KeyUses(path, keys[..k]) - {(keys[k], path)};
    }
    assert keys[..|keys|] == keys;
  }

  function DependencyUses(byPath: map<Path, Contribution>): Uses {
    set path, key | path in byPath && key in byPath[path].dependencies :: (key, path)
  }

  function SymbolUses(byPath: map<Path, Contribution>): Uses {
    set path, key | path in byPath && key in byPath[path].descriptorSymbols :: (key, path)
  }

  lemma UsesWithout(byPath: map<Path, Contribution>, path: Path)
    requires path in byPath
    ensures DependencyUses(byPath - {path}) == DependencyUses(byPath) - KeyUses(path, byPath[path].dependencies)
    ensures SymbolUses(byPath - {path}) == SymbolUses(byPath) - KeyUses(path, byPath[path].descriptorSymbols)
  {
  }

  lemma UsesWith(byPath: map<Path, Contribution>, path: Path, contribution: Contribution)
    requires path !in byPath
    ensures DependencyUses(byPath[path := contribution]) == DependencyUses(byPath) + KeyUses(path, contribution.dependencies)
    ensures SymbolUses(byPath[path := contribution]) == SymbolUses(byPath) + KeyUses(path, contribution.descriptorSymbols)
  {
  }

  /** The paths that depend on one of `paths`. */
  function DirectDependents(byPath: map<Path, Contribution>, paths: set<Path>): set<Path> {
    set path | path in byPath && exists dependency :: dependency in byPath[path].dependencies && dependency in paths
  }

  class RetainedContributionStore {
    var byPath: map<Path, Contribution>
    var dependentsByPath: Index
    var descriptorUsers: Index

    /** Both reverse indexes are exact inverses of the contributions, with no empty bucket. */
    ghost predicate Valid()
      reads this
    {
      Inverts(dependentsByPath, DependencyUses(byPath)) && Inverts(descriptorUsers, SymbolUses(byPath))
    }

    constructor ()
      ensures Valid() && byPath == map[]
    {
      byPath, dependentsByPath, descriptorUsers := map[], map[], map[];
    }

    method Remove(path: Path)
      requires Valid()
      modifies this
      ensures Valid() && byPath == old(byPath) - {path}
    {
      hide Inverts, DependencyUses, SymbolUses, KeyUses;
      if path !in byPath { return; }
      var contribution := byPath[path];
      UsesWithout(byPath, path);
      dependentsByPath := RemoveKeys(dependentsByPath, path, contribution.dependencies, DependencyUses(byPath));
      descriptorUsers := RemoveKeys(descriptorUsers, path, contribution.descriptorSymbols, SymbolUses(byPath));
      byPath := byPath - {path};
    }

    method Add(path: Path, contribution: Contribution)
      requires Valid()
      modifies this
      ensures Valid() && byPath == old(byPath)[path := contribution]
    {
      hide Inverts, DependencyUses, SymbolUses, KeyUses;
      Remove(path);
      UsesWith(byPath, path, contribution);
      dependentsByPath := AddKeys(dependentsByPath, path, contribution.dependencies, DependencyUses(byPath));
      descriptorUsers := AddKeys(descriptorUsers, path, contribution.descriptorSymbols, SymbolUses(byPath));
      byPath := byPath[path := contribution];
    }

    method Discard(paths: set<Path>)
      requires Valid()
      modifies this
      ensures Valid() && byPath == old(byPath) - paths
    {
      var remaining := paths;
      while remaining != {}
        invariant remaining <= paths && Valid()
        invariant byPath == old(byPath) - (paths - remaining)
      {
        var path :| path in remaining;
        Remove(path);
        remaining := remaining - {path};
      }
    }

    /** Removes the named paths and their direct dependents, and no more; the extended set
    is what the transport manifest must name. */
    method Invalidate(paths: set<Path>) returns (extended: set<Path>)
      requires Valid()
      modifies this
      ensures extended == paths + DirectDependents(old(byPath), paths)
      ensures Valid() && byPath == old(byPath) - extended
    {
      extended := paths;
      var direct := paths;
      while direct != {}
        invariant direct <= paths && Valid()
        invariant byPath == old(byPath)
        invariant extended == paths + DirectDependents(byPath, paths - direct)
      {
        var path :| path in direct;
        ghost var seen := paths - direct;
        var users := Bucket(dependentsByPath, path).Members();
        assert forall user :: user in users <==> (path, user) in DependencyUses(byPath);
        extended := extended + users;
        direct := direct - {path};
        assert paths - direct == seen + {path};
        assert DirectDependents(byPath, seen + {path}) == DirectDependents(byPath, seen) + users;
      }
      assert paths - direct == paths;
      Discard(extended);
    }

    /** The paths that use a descriptor symbol. */
    method DescriptorUsersOf(symbol: SymbolID) returns (users: set<Path>)
      requires Valid()
      ensures users == set path | path in byPath && symbol in byPath[path].descriptorSymbols
    {
      users := Bucket(descriptorUsers, symbol).Members();
      assert forall user :: user in users <==> (symbol, user) in SymbolUses(byPath);
    }

    /** Publishes a materialisation: exactly its durable groups stay, with its contributions. */
    method Commit(groups: seq<(Path, Contribution)>)
      requires Valid()
      requires forall i, j :: 0 <= i < j < |groups| ==> groups[i].0 != groups[j].0
      modifies this
      ensures Valid()
      ensures forall path, contribution ::
        (path in byPath && byPath[path] == contribution) <==> ((path, contribution) in groups && contribution.durable)
    {
      hide *;
      var desired: set<Path> := {};
      for index := 0 to |groups|
        invariant desired == set i | 0 <= i < index && groups[i].1.durable :: groups[i].0
      {
        if groups[index].1.durable {
          desired := desired + {groups[index].0};
        }
      }
      Discard(byPath.Keys - desired);
      ghost var kept := byPath;
      for index := 0 to |groups|
        invariant Valid()
        invariant forall i :: 0 <= i < index && groups[i].1.durable ==> groups[i].0 in byPath && byPath[groups[i].0] == groups[i].1
        invariant byPath.Keys <= desired
      {
        var (path, contribution) := groups[index];
        if contribution.durable && !(path in byPath && byPath[path] == contribution) {
          Add(path, contribution);
        }
      }
      forall path, contribution
        ensures (path in byPath && byPath[path] == contribution) <==> ((path, contribution) in groups && contribution.durable)
      {
        if path in byPath {
          var i :| 0 <= i < |groups| && groups[i].1.durable && groups[i].0 == path;
        }
        if (path, contribution) in groups && contribution.durable {
          var i :| 0 <= i < |groups| && groups[i] == (path, contribution);
          assert groups[i].1.durable;
        }
      }
    }

    /** Drops one contribution's expanded rows; neither index depends on them. */
    method Release(path: Path)
      requires Valid() && path in byPath
      modifies this
      ensures Valid() && byPath == old(byPath)[path := old(byPath)[path].(entities := [], fullTier := [])]
    {
      byPath := byPath[path := byPath[path].(entities := [], fullTier := [])];
      assert DependencyUses(byPath) == DependencyUses(old(byPath));
      assert SymbolUses(byPath) == SymbolUses(old(byPath));
    }

    method Reset()
      modifies this
      ensures Valid() && byPath == map[]
    {
      byPath, dependentsByPath, descriptorUsers := map[], map[], map[];
    }
  }
}
