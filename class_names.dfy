/**
 * `cn`, the class-name combiner of the front end: falsy arguments are dropped and the
 * rest joined with single spaces.
 */
module ClassNames {
  import opened Text

  /**
   * An argument of `cn`: a string, or a non-string falsy value (`false`, `null`,
   * `undefined`) as written by conditional class expressions.
   */
  datatype ClassArg = Name(s: string) | Falsy

  /** `Boolean(arg)`: only a non-empty string is truthy. */
  predicate Truthy(a: ClassArg)
  {
    a.Name? && a.s != ""
  }

  /** The strings of the truthy arguments, in argument order. */
  function Kept(args: seq<ClassArg>): (r: seq<string>)
    ensures |r| <= |args|
    ensures forall k :: 0 <= k < |r| ==> r[k] != ""
    ensures forall x :: x in r <==> Name(x) in args && x != ""
    ensures r == [] <==> forall k :: 0 <= k < |args| ==> !Truthy(args[k])
    decreases |args|
  {
    if args == [] then []
    else if Truthy(args[0]) then [args[0].s] + Kept(args[1..])
    else Kept(args[1..])
  }

  /** The kept strings are the truthy arguments themselves, one for one and in the same order. */
  lemma {:induction false} KeptInOrder(args: seq<ClassArg>)
    ensures |Kept(args)| == |Filter(args, Truthy)|
    ensures forall k :: 0 <= k < |Kept(args)| ==> Filter(args, Truthy)[k] == Name(Kept(args)[k])
    decreases |args|
  {
    if args != [] {
      var tail := args[1..];
      KeptInOrder(tail);
      if Truthy(args[0]) {
        assert Kept(args) == [args[0].s] + Kept(tail);
        assert Filter(args, Truthy) == [args[0]] + Filter(tail, Truthy);
        assert args[0] == Name(args[0].s);
        ConsPairwise(args[0], Filter(tail, Truthy), args[0].s, Kept(tail), s => Name(s));
      } else {
        assert Kept(args) == Kept(tail) && Filter(args, Truthy) == Filter(tail, Truthy);
      }
    }
  }

  /** Prepending a related pair keeps two sequences related element by element. */
  lemma ConsPairwise<A, B>(x: A, xs: seq<A>, y: B, ys: seq<B>, f: B -> A)
    requires x == f(y) && |xs| == |ys|
    requires forall k :: 0 <= k < |ys| ==> xs[k] == f(ys[k])
    ensures forall k :: 0 <= k < |[y] + ys| ==> ([x] + xs)[k] == f(([y] + ys)[k])
  {
    forall k | 1 <= k < |[y] + ys|
      ensures ([x] + xs)[k] == f(([y] + ys)[k])
    {
      assert ([x] + xs)[k] == xs[k - 1] && ([y] + ys)[k] == ys[k - 1];
    }
  }

  /** Each non-empty string is kept exactly as often as it occurs among the arguments. */
  lemma {:induction false} KeptCounts(args: seq<ClassArg>)
    ensures forall x :: multiset(Kept(args))[x] == if x == "" then 0 else multiset(args)[Name(x)]
    decreases |args|
  {
    if args != [] {
      KeptCounts(args[1..]);
      assert args == [args[0]] + args[1..];
      if Truthy(args[0]) {
        assert Kept(args) == [args[0].s] + Kept(args[1..]);
        assert args[0] == Name(args[0].s);
      } else {
        assert forall x :: x != "" ==> args[0] != Name(x);
      }
    }
  }

  /** `classes.filter(Boolean).join(' ')`: empty iff no argument is truthy. */
  function Cn(args: seq<ClassArg>): (r: string)
    ensures r == "" <==> forall k :: 0 <= k < |args| ==> !Truthy(args[k])
  {
    var kept := Kept(args);
    assert kept != [] ==> |Join(kept, ' ')| > 0 by {
      if |kept| > 1 {
        assert Join(kept, ' ') == kept[0] + [' '] + Join(kept[1..], ' ');
      }
    }
    Join(kept, ' ')
  }

  /**
   * With class names free of spaces, splitting the result at single spaces gives back
   * the truthy arguments in their order: one space separates neighbours, and nothing else
   * is added.
   */
  lemma CnSplitsBack(args: seq<ClassArg>)
    requires exists k :: 0 <= k < |args| && Truthy(args[k])
    requires forall k :: 0 <= k < |args| && args[k].Name? ==> ' ' !in args[k].s
    ensures Split(Cn(args), ' ') == Kept(args)
  {
    var kept := Kept(args);
    var k :| 0 <= k < |args| && Truthy(args[k]);
    assert args[k] == Name(args[k].s);
    assert args[k].s in kept;
    forall j | 0 <= j < |kept|
      ensures ' ' !in kept[j]
    {
      assert kept[j] in kept;
      assert Name(kept[j]) in args;
    }
    SplitJoin(kept, ' ');
  }
}
