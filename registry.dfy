/** The environment registry (`EnvironmentCollection`): an ordered list of
    environments whose names and locations are kept unique by `Add`. */
module Registry {
  import opened Wrappers
  import opened Environments

  /** Why `Add` refused an environment (both are an InvalidEnvironmentException
      in the source, with different messages). */
  datatype Conflict = SameName | SameLocation

  /** `x` and `e` share a name or a location. */
  predicate Clashes(x: Environment, e: Environment) {
    x.name == e.name || x.location == e.location
  }

  /** No two entries share a name and no two share a location. */
  ghost predicate Unique(values: seq<Environment>) {
    forall i, j :: 0 <= i < j < |values| ==> !Clashes(values[i], values[j])
  }

  /** Entry `i` is the first one that clashes with `e`. */
  ghost predicate FirstClashAt(values: seq<Environment>, e: Environment, i: int) {
    0 <= i < |values| && Clashes(values[i], e) && forall j :: 0 <= j < i ==> !Clashes(values[j], e)
  }

  /** The error `add` raises for `e`: entries are inspected in order and, for
      each, the name is compared before the location. */
  function FirstConflict(values: seq<Environment>, e: Environment): (r: Option<Conflict>)
    ensures r.None? <==> forall i :: 0 <= i < |values| ==> !Clashes(values[i], e)
    ensures r.Some? ==> exists i :: (FirstClashAt(values, e, i)
      && r.value == (if values[i].name == e.name then SameName else SameLocation))
  {
    if values == [] then None
    else if values[0].name == e.name then Some(SameName)
    else if values[0].location == e.location then Some(SameLocation)
    else
      var r := FirstConflict(values[1..], e);
      assert r.Some? ==> exists i :: (FirstClashAt(values, e, i)
        && r.value == (if values[i].name == e.name then SameName else SameLocation)) by {
        if r.Some? {
          var i :| FirstClashAt(values[1..], e, i)
            && r.value == (if values[1..][i].name == e.name then SameName else SameLocation);
          assert FirstClashAt(values, e, i + 1);
        }
      }
      r
  }

  lemma UniqueSnoc(values: seq<Environment>, x: Environment)
    requires Unique(values)
    requires forall y :: y in values ==> !Clashes(y, x)
    ensures Unique(values + [x])
  {
    var s := values + [x];
    forall i, j | 0 <= i < j < |s| ensures !Clashes(s[i], s[j]) {
      if j == |values| {
        assert s[i] in values;
      }
    }
  }

  lemma UniqueCons(x: Environment, values: seq<Environment>)
    requires Unique(values)
    requires forall y :: y in values ==> !Clashes(y, x)
    ensures Unique([x] + values)
  {
    var s := [x] + values;
    forall i, j | 0 <= i < j < |s| ensures !Clashes(s[i], s[j]) {
      if i == 0 {
        assert s[j] in values;
      } else {
        assert s[i] == values[i - 1] && s[j] == values[j - 1];
      }
    }
  }

  /** A successful `add` keeps names and locations unique. */
  lemma AddKeepsUnique(values: seq<Environment>, e: Environment)
    requires Unique(values)
    requires FirstConflict(values, e).None?
    ensures Unique(values + [e])
  {
    forall y | y in values ensures !Clashes(y, e) {
      var i :| 0 <= i < |values| && values[i] == y;
    }
    UniqueSnoc(values, e);
  }

  /** The entries that survive the removal loop: those at another location,
      in their original order. */
  function WithoutLocation(values: seq<Environment>, location: string): (r: seq<Environment>)
    ensures forall x :: x in r <==> x in values && x.location != location
    ensures multiset(r) <= multiset(values)
    ensures (forall x :: x in values ==> x.location != location) ==> r == values
  {
    if values == [] then []
    else
      var init := WithoutLocation(values[..|values| - 1], location);
      var last := values[|values| - 1];
      assert values == values[..|values| - 1] + [last];
      if last.location == location then init else init + [last]
  }

  /** Lexicographic order on strings. */
  predicate StrLeq(a: string, b: string)
    decreases |a|
  {
    a == [] || (b != [] && (a[0] < b[0] || (a[0] == b[0] && StrLeq(a[1..], b[1..]))))
  }

  lemma {:induction false} StrLeqTotal(a: string, b: string)
    ensures StrLeq(a, b) || StrLeq(b, a)
    decreases |a|
  {
    if a != [] && b != [] && a[0] == b[0] {
      StrLeqTotal(a[1..], b[1..]);
    }
  }

  /** The order `remove` re-sorts the survivors by: name, then location. */
  predicate EntryLeq(x: Environment, y: Environment) {
    if x.name != y.name then StrLeq(x.name, y.name) else StrLeq(x.location, y.location)
  }

  lemma EntryLeqTotal(x: Environment, y: Environment)
    ensures EntryLeq(x, y) || EntryLeq(y, x)
  {
    StrLeqTotal(x.name, y.name);
    StrLeqTotal(x.location, y.location);
  }

  predicate Sorted(s: seq<Environment>) {
    forall i :: 0 < i < |s| ==> EntryLeq(s[i - 1], s[i])
  }

  /** Inserts `x` before the first entry it does not follow. */
  function Insert(x: Environment, s: seq<Environment>): (r: seq<Environment>)
    ensures multiset(r) == multiset(s) + multiset{x}
    ensures Sorted(s) ==> Sorted(r)
    ensures |r| > 0 && (r[0] == x || (s != [] && r[0] == s[0]))
  {
    if s == [] || EntryLeq(x, s[0]) then [x] + s
    else
      var rest := Insert(x, s[1..]);
      assert s == [s[0]] + s[1..];
      EntryLeqTotal(x, s[0]);
      [s[0]] + rest
  }

  /** Insertion sort by `EntryLeq`. */
  function SortEntries(s: seq<Environment>): (r: seq<Environment>)
    ensures multiset(r) == multiset(s)
    ensures Sorted(r)
  {
    if s == [] then []
    else
      assert s == [s[0]] + s[1..];
      Insert(s[0], SortEntries(s[1..]))
  }

  lemma {:induction false} InsertKeepsUnique(x: Environment, s: seq<Environment>)
    requires Unique(s)
    requires forall y :: y in s ==> !Clashes(y, x)
    ensures Unique(Insert(x, s))
    decreases |s|
  {
    if s == [] || EntryLeq(x, s[0]) {
      UniqueCons(x, s);
    } else {
      assert s == [s[0]] + s[1..];
      assert Unique(s[1..]) by {
        forall i, j | 0 <= i < j < |s[1..]| ensures !Clashes(s[1..][i], s[1..][j]) {
          assert s[1..][i] == s[i + 1] && s[1..][j] == s[j + 1];
        }
      }
      InsertKeepsUnique(x, s[1..]);
      var rest := Insert(x, s[1..]);
      forall y | y in rest ensures !Clashes(y, s[0]) {
        assert y in multiset(rest);
        assert s[0] in s;
        if y != x {
          assert y in multiset(s[1..]);
          var j :| 0 <= j < |s[1..]| && s[1..][j] == y;
          assert s[j + 1] == y;
        }
      }
      UniqueCons(s[0], rest);
    }
  }

  lemma {:induction false} SortKeepsUnique(s: seq<Environment>)
    requires Unique(s)
    ensures Unique(SortEntries(s))
  {
    if s != [] {
      assert s == [s[0]] + s[1..];
      assert Unique(s[1..]) by {
        forall i, j | 0 <= i < j < |s[1..]| ensures !Clashes(s[1..][i], s[1..][j]) {
          assert s[1..][i] == s[i + 1] && s[1..][j] == s[j + 1];
        }
      }
      SortKeepsUnique(s[1..]);
      var sorted := SortEntries(s[1..]);
      forall y | y in sorted ensures !Clashes(y, s[0]) {
        assert y in multiset(s[1..]);
        var j :| 0 <= j < |s[1..]| && s[1..][j] == y;
        assert s[j + 1] == y;
      }
      InsertKeepsUnique(s[0], sorted);
    }
  }

  lemma {:induction false} FilterKeepsUnique(s: seq<Environment>, location: string)
    requires Unique(s)
    ensures Unique(WithoutLocation(s, location))
  {
    if s != [] {
      var init := s[..|s| - 1];
      var last := s[|s| - 1];
      assert Unique(init) by {
        forall i, j | 0 <= i < j < |init| ensures !Clashes(init[i], init[j]) {
          assert init[i] == s[i] && init[j] == s[j];
        }
      }
      FilterKeepsUnique(init, location);
      var kept := WithoutLocation(init, location);
      forall y | y in kept ensures !Clashes(y, last) {
        var j :| 0 <= j < |init| && init[j] == y;
        assert s[j] == y;
      }
      UniqueSnoc(kept, last);
    }
  }

  /** A `remove` keeps names and locations unique. */
  lemma RemoveKeepsUnique(s: seq<Environment>, location: string)
    requires Unique(s)
    ensures Unique(SortEntries(WithoutLocation(s, location)))
  {
    FilterKeepsUnique(s, location);
    SortKeepsUnique(WithoutLocation(s, location));
  }

  /** After `remove`, no entry is at the removed location, every entry at
      another location is still there, and nothing else was added. */
  lemma RemoveContents(s: seq<Environment>, location: string)
    ensures forall x :: x in SortEntries(WithoutLocation(s, location)) <==> x in s && x.location != location
  {
    var r := SortEntries(WithoutLocation(s, location));
    forall x ensures x in r <==> x in multiset(WithoutLocation(s, location)) {
    }
  }

  /** Removing a location that no entry has keeps the same entries, with the
      same multiplicities, possibly reordered. */
  lemma RemoveAbsentKeepsEntries(s: seq<Environment>, location: string)
    requires forall x :: x in s ==> x.location != location
    ensures multiset(SortEntries(WithoutLocation(s, location))) == multiset(s)
  {
  }

  /** Removing the same location twice leaves the same entries as removing it once. */
  lemma RemoveIdempotent(s: seq<Environment>, location: string)
    ensures var once := SortEntries(WithoutLocation(s, location));
      multiset(SortEntries(WithoutLocation(once, location))) == multiset(once)
  {
    var once := SortEntries(WithoutLocation(s, location));
    RemoveContents(s, location);
    RemoveAbsentKeepsEntries(once, location);
  }

  class EnvironmentCollection {
    /** The stored environments, in insertion (or last re-sort) order. */
    var values: seq<Environment>

    /** The source accepts any initial list, unique or not. */
    constructor (values: seq<Environment>)
      ensures this.values == values
    {
      this.values := values;
    }

    method Count() returns (n: nat)
      ensures n == |values|
    {
      n := |values|;
    }

    /** Appends `e` unless an entry already has its name or its location; the
        check runs over every entry before anything is changed. */
    method Add(e: Environment) returns (r: Result<(), Conflict>)
      modifies this
      ensures FirstConflict(old(values), e).None? ==> r == Success(()) && values == old(values) + [e]
      ensures FirstConflict(old(values), e).Some? ==>
        r == Failure(FirstConflict(old(values), e).value) && values == old(values)
      ensures Unique(old(values)) ==> Unique(values)
    {
      var i := 0;
      while i < |values|
        invariant 0 <= i <= |values|
        invariant values == old(values)
        invariant FirstConflict(values, e) == FirstConflict(values[i..], e)
      {
        assert values[i..][1..] == values[i + 1..];
        if values[i].name == e.name {
          return Failure(SameName);
        }
        if values[i].location == e.location {
          return Failure(SameLocation);
        }
        i := i + 1;
      }
      if Unique(values) {
        AddKeepsUnique(values, e);
      }
      values := values + [e];
      r := Success(());
    }

    /** Drops every entry at `e`'s location, then re-sorts the survivors. */
    method Remove(e: Environment)
      modifies this
      ensures multiset(values) == multiset(WithoutLocation(old(values), e.location))
      ensures forall x :: x in values <==> x in old(values) && x.location != e.location
      ensures Unique(old(values)) ==> Unique(values)
    {
      var kept := [];
      var i := 0;
      while i < |values|
        invariant 0 <= i <= |values|
        invariant kept == WithoutLocation(values[..i], e.location)
      {
        assert values[..i + 1][..i] == values[..i];
        if values[i].location != e.location {
          kept := kept + [values[i]];
        }
        i := i + 1;
      }
      assert values[..i] == values;
      RemoveContents(values, e.location);
      if Unique(values) {
        RemoveKeepsUnique(values, e.location);
      }
      values := SortEntries(kept);
    }
  }
}
