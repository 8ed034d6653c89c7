/** Reading attribute arguments and selecting attributes of one kind. */
module Arguments {
  import opened Wrappers
  import opened Symbols

  /** `ConstructorArguments.FirstOrDefault().Value?.ToString()`: absent when there is none. */
  function FirstValue(args: seq<Option<string>>): Option<string>
  {
    if args == [] then None else args[0]
  }

  /** The value a loop assigning each constructor argument in turn ends with. */
  function LastValue(args: seq<Option<string>>): Option<string>
  {
    if args == [] then None else args[|args| - 1]
  }

  /** No named argument has this key. */
  predicate NoneWithKey(named: seq<NamedArgument>, key: string)
  {
    forall j :: 0 <= j < |named| ==> named[j].key != key
  }

  /** Index `j` holds the last named argument with this key. */
  predicate IsLastWithKey(named: seq<NamedArgument>, j: int, key: string)
  {
    0 <= j < |named| && named[j].key == key &&
    forall k :: j < k < |named| ==> named[k].key != key
  }

  /**
    The value of a variable that starts as `init` and is overwritten by every named
    argument with the given key, in declaration order: the last such argument wins.
   */
  function NamedValue(init: Option<string>, named: seq<NamedArgument>, key: string): Option<string>
    decreases |named|
  {
    if named == [] then init
    else
      var previous := NamedValue(init, named[..|named| - 1], key);
      if named[|named| - 1].key == key then named[|named| - 1].value else previous
  }

  /** The value is `init` when no argument has the key, else the last such argument's value. */
  lemma {:induction false} NamedValueMeaning(init: Option<string>, named: seq<NamedArgument>, key: string)
    ensures NoneWithKey(named, key) ==> NamedValue(init, named, key) == init
    ensures forall j :: IsLastWithKey(named, j, key) ==> NamedValue(init, named, key) == named[j].value
    decreases |named|
  {
    if named != [] {
      var k := |named| - 1;
      NamedValueMeaning(init, named[..k], key);
      if NoneWithKey(named, key) {
        assert NoneWithKey(named[..k], key);
      }
      forall j | IsLastWithKey(named, j, key)
        ensures NamedValue(init, named, key) == named[j].value
      {
        if j < k {
          assert IsLastWithKey(named[..k], j, key);
        }
      }
    }
  }

  /** One more named argument in a left-to-right scan. */
  lemma NamedValueStep(init: Option<string>, named: seq<NamedArgument>, n: nat, key: string)
    requires n < |named|
    ensures NamedValue(init, named[..n + 1], key) ==
              if named[n].key == key then named[n].value else NamedValue(init, named[..n], key)
  {
    assert named[..n + 1][..n] == named[..n];
  }

  /** `FirstOrDefault` over attributes of one kind. */
  function FirstOfKind(anns: seq<Annotation>, kind: AnnotationKind): (r: Option<Annotation>)
    ensures r.Some? ==> r.value.kind == kind
  {
    if anns == [] then None
    else if anns[0].kind == kind then Some(anns[0])
    else FirstOfKind(anns[1..], kind)
  }

  /** The first attribute of the kind, or none exactly when no attribute has that kind. */
  lemma {:induction false} FirstOfKindMeaning(anns: seq<Annotation>, kind: AnnotationKind)
    ensures FirstOfKind(anns, kind).None? <==> forall a :: a in anns ==> a.kind != kind
    ensures FirstOfKind(anns, kind).Some? ==> FirstOfKind(anns, kind).value in anns
    ensures forall j :: 0 <= j < |anns| && anns[j].kind == kind && (forall k :: 0 <= k < j ==> anns[k].kind != kind) ==>
              FirstOfKind(anns, kind) == Some(anns[j])
  {
    if anns != [] {
      FirstOfKindMeaning(anns[1..], kind);
      assert forall j :: 1 <= j < |anns| ==> anns[1..][j - 1] == anns[j];
      assert forall a :: a in anns ==> a == anns[0] || a in anns[1..];
    }
  }

  /** `Where` over attributes of one kind, keeping declaration order. */
  function OfKind(anns: seq<Annotation>, kind: AnnotationKind): (r: seq<Annotation>)
    ensures forall i :: 0 <= i < |r| ==> r[i].kind == kind
  {
    if anns == [] then []
    else (if anns[0].kind == kind then [anns[0]] else []) + OfKind(anns[1..], kind)
  }

  /** Nothing is selected exactly when no attribute has the kind. */
  lemma {:induction false} OfKindEmpty(anns: seq<Annotation>, kind: AnnotationKind)
    ensures OfKind(anns, kind) == [] <==> forall j :: 0 <= j < |anns| ==> anns[j].kind != kind
  {
    if anns != [] {
      OfKindEmpty(anns[1..], kind);
      assert forall j :: 1 <= j < |anns| ==> anns[1..][j - 1] == anns[j];
    }
  }

  /** Selecting by kind distributes over concatenation: order is kept. */
  lemma {:induction false} OfKindConcat(a: seq<Annotation>, b: seq<Annotation>, kind: AnnotationKind)
    ensures OfKind(a + b, kind) == OfKind(a, kind) + OfKind(b, kind)
  {
    if a == [] {
      assert a + b == b;
    } else {
      OfKindConcat(a[1..], b, kind);
      OfKindUnfold(a, b, kind);
    }
  }

  lemma OfKindUnfold(a: seq<Annotation>, b: seq<Annotation>, kind: AnnotationKind)
    requires a != []
    ensures OfKind(a + b, kind) == (if a[0].kind == kind then [a[0]] else []) + OfKind(a[1..] + b, kind)
  {
    assert (a + b)[1..] == a[1..] + b;
  }
}
