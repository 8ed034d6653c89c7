/**
  Duplicate-free name lists built by "append unless already present", the rule the
  inspector uses both for the invalidation index and for a command's affecting properties.
 */
module NameLists {

  predicate NoDuplicates(s: seq<string>)
  {
    forall i, j :: 0 <= i < j < |s| ==> s[i] != s[j]
  }

  /** `list` after appending, in order, each of `names` that it does not yet contain. */
  function AppendNew(list: seq<string>, names: seq<string>): seq<string>
    decreases |names|
  {
    if names == [] then list
    else
      var previous := AppendNew(list, names[..|names| - 1]);
      var name := names[|names| - 1];
      if name in previous then previous else previous + [name]
  }

  /**
    What appending new names leaves: the original list as a prefix, exactly the names of
    both inputs, only names of `names` not in `list` after the prefix, and no duplicates
    when the original list has none.
   */
  lemma {:induction false} AppendNewContents(list: seq<string>, names: seq<string>)
    ensures |list| <= |AppendNew(list, names)| && AppendNew(list, names)[..|list|] == list
    ensures forall x :: x in AppendNew(list, names) <==> x in list || x in names
    ensures forall i :: |list| <= i < |AppendNew(list, names)| ==>
              AppendNew(list, names)[i] in names && AppendNew(list, names)[i] !in list
    ensures NoDuplicates(list) ==> NoDuplicates(AppendNew(list, names))
    decreases |names|
  {
    if names != [] {
      var k := |names| - 1;
      AppendNewContents(list, names[..k]);
      assert names == names[..k] + [names[k]];
    }
  }

  /** Appending one name. */
  lemma AppendNewOne(list: seq<string>, name: string)
    ensures AppendNew(list, [name]) == if name in list then list else list + [name]
  {
    assert [name][..0] == [];
  }

  /** The position of the first occurrence of `x` in `s`. */
  function FirstIndex(s: seq<string>, x: string): (k: nat)
    requires x in s
    ensures k < |s| && s[k] == x && x !in s[..k]
  {
    if s[0] == x then 0
    else
      var k := 1 + FirstIndex(s[1..], x);
      assert s[..k] == [s[0]] + s[1..][..k - 1];
      k
  }

  /** An occurrence with no earlier occurrence is the first one. */
  lemma FirstIndexUnique(s: seq<string>, x: string, k: nat)
    requires k < |s| && s[k] == x && x !in s[..k]
    ensures FirstIndex(s, x) == k
  {
    var f := FirstIndex(s, x);
    assert forall i :: 0 <= i < k ==> s[..k][i] == s[i] != x;
    assert forall i :: 0 <= i < f ==> s[..f][i] == s[i] != x;
  }

  /** Extending a sequence does not move the first occurrence of a name already in it. */
  lemma FirstIndexInPrefix(s: seq<string>, n: nat, x: string)
    requires n <= |s| && x in s[..n]
    ensures FirstIndex(s, x) == FirstIndex(s[..n], x) < n
  {
    var k := FirstIndex(s[..n], x);
    assert s[..n][..k] == s[..k];
    FirstIndexUnique(s, x, k);
  }

  /**
    The names appended to `list` appear in the order in which `names` first mentions
    them: first-seen order.
   */
  lemma {:induction false} AppendNewKeepsFirstSeenOrder(list: seq<string>, names: seq<string>, i: nat, j: nat)
    requires |list| <= i < j < |AppendNew(list, names)|
    ensures AppendNew(list, names)[i] in names && AppendNew(list, names)[j] in names
    ensures FirstIndex(names, AppendNew(list, names)[i]) < FirstIndex(names, AppendNew(list, names)[j])
    decreases |names|
  {
    var k := |names| - 1;
    var prefix := names[..k];
    var previous := AppendNew(list, prefix);
    var r := AppendNew(list, names);
    AppendNewContents(list, prefix);
    assert r == (if names[k] in previous then previous else previous + [names[k]]);
    assert previous[i] in prefix;
    FirstIndexInPrefix(names, k, previous[i]);
    if j < |previous| {
      AppendNewKeepsFirstSeenOrder(list, prefix, i, j);
      FirstIndexInPrefix(names, k, previous[j]);
    } else {
      assert r[j] == names[k] && names[k] !in prefix;
      FirstIndexUnique(names, names[k], k);
    }
  }

  /** Appending two batches one after the other is appending their concatenation. */
  lemma {:induction false} AppendNewConcat(list: seq<string>, a: seq<string>, b: seq<string>)
    ensures AppendNew(AppendNew(list, a), b) == AppendNew(list, a + b)
    decreases |b|
  {
    if b == [] {
      assert a + b == a;
    } else {
      var k := |b| - 1;
      AppendNewConcat(list, a, b[..k]);
      assert (a + b)[..|a + b| - 1] == a + b[..k];
    }
  }

  /** A duplicate-free list appended to the empty list comes out unchanged. */
  lemma {:induction false} AppendNewDistinct(names: seq<string>)
    requires NoDuplicates(names)
    ensures AppendNew([], names) == names
    decreases |names|
  {
    if names != [] {
      var k := |names| - 1;
      assert NoDuplicates(names[..k]);
      AppendNewDistinct(names[..k]);
      AppendNewContents([], names[..k]);
      assert names[k] !in names[..k];
      assert names[..k] + [names[k]] == names;
    }
  }
}
