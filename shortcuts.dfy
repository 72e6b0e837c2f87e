/**
 * The key-down handler installed by `useKeyboardShortcuts`: each shortcut names a
 * modifier and a main key as `modifier+key`; every shortcut that matches the event
 * runs its action, in list order, and cancels the browser default unless it opts out.
 */
module Shortcuts {
  import opened Base
  import opened Text

  /** The fields of a `keydown` event the handler reads. */
  datatype KeyEvent = KeyEvent(key: string, ctrlKey: bool, altKey: bool, shiftKey: bool)

  /**
   * A registered shortcut. Actions are identified by their position in the list;
   * `preventDefault` is `None` when the shortcut leaves it out (it then defaults to true).
   */
  datatype Shortcut = Shortcut(keys: string, preventDefault: Option<bool>)

  /**
   * What one shortcut does with an event: nothing, run its action, or throw because a
   * matching modifier has no main key (`mainKey` is undefined and `toLowerCase` fails).
   */
  datatype Check = NoMatch | Match | Throws

  /** The state of the modifier the shortcut names; an unknown modifier is never held. */
  function ModifierHeld(modifier: string, e: KeyEvent): (held: bool)
    ensures modifier != "ctrl" && modifier != "alt" && modifier != "shift" ==> !held
  {
    if modifier == "ctrl" then e.ctrlKey
    else if modifier == "alt" then e.altKey
    else if modifier == "shift" then e.shiftKey
    else false
  }

  /** The shortcut's `keys` split at '+': the modifier is the first piece, the main key the second. */
  function CheckShortcut(e: KeyEvent, s: Shortcut): (r: Check)
    ensures var pieces := Split(s.keys, '+');
      r != NoMatch <==> ModifierHeld(pieces[0], e) && (|pieces| < 2 || Lower(e.key) == Lower(pieces[1]))
    ensures r == Throws <==> ModifierHeld(Split(s.keys, '+')[0], e) && |Split(s.keys, '+')| < 2
  {
    var pieces := Split(s.keys, '+');
    if !ModifierHeld(pieces[0], e) then NoMatch
    else if |pieces| < 2 then Throws
    else if Lower(e.key) == Lower(pieces[1]) then Match
    else NoMatch
  }

  /** `preventDefault = true`: an absent flag counts as true. */
  predicate PreventsDefault(s: Shortcut)
  {
    s.preventDefault != Some(false)
  }

  /** The outcome of one key-down: the shortcuts whose actions ran, whether the default was cancelled, and whether it threw. */
  datatype Handling = Handling(fired: seq<nat>, prevented: bool, thrown: bool)

  /**
   * The handler over the shortcuts in list order: a throw ends the iteration and the
   * shortcuts after it are not examined.
   */
  function Handled(e: KeyEvent, ss: seq<Shortcut>): Handling
    decreases |ss|
  {
    if ss == [] then Handling([], false, false)
    else
      var h := Handled(e, ss[..|ss| - 1]);
      var s := ss[|ss| - 1];
      if h.thrown then h
      else match CheckShortcut(e, s)
        case NoMatch => h
        case Throws => h.(thrown := true)
        case Match => Handling(h.fired + [|ss| - 1], h.prevented || PreventsDefault(s), false)
  }

  /**
   * Without a throw, exactly the matching shortcuts fire, in increasing list order, and
   * the default is cancelled iff one of them does not opt out.
   */
  lemma EveryMatchFires(e: KeyEvent, ss: seq<Shortcut>)
    ensures var h := Handled(e, ss);
      !h.thrown ==> forall i :: i in h.fired <==> 0 <= i < |ss| && CheckShortcut(e, ss[i]) == Match
    ensures var h := Handled(e, ss);
      forall a, b :: 0 <= a < b < |h.fired| ==> h.fired[a] < h.fired[b]
    ensures var h := Handled(e, ss);
      forall a :: 0 <= a < |h.fired| ==> h.fired[a] < |ss| && CheckShortcut(e, ss[h.fired[a]]) == Match
    ensures var h := Handled(e, ss);
      h.prevented <==> exists a :: 0 <= a < |h.fired| && PreventsDefault(ss[h.fired[a]])
  {
    FiredAreMatches(e, ss);
    MatchesFire(e, ss);
    PreventedByFired(e, ss);
  }

  /** The fired indices increase, and each names a shortcut that matches. */
  lemma {:induction false} FiredAreMatches(e: KeyEvent, ss: seq<Shortcut>)
    ensures forall a, b :: 0 <= a < b < |Handled(e, ss).fired| ==> Handled(e, ss).fired[a] < Handled(e, ss).fired[b]
    ensures forall a :: 0 <= a < |Handled(e, ss).fired| ==> Handled(e, ss).fired[a] < |ss|
    ensures forall a :: 0 <= a < |Handled(e, ss).fired| ==> CheckShortcut(e, ss[Handled(e, ss).fired[a]]) == Match
    decreases |ss|
  {
    if ss != [] {
      var init := ss[..|ss| - 1];
      FiredAreMatches(e, init);
      var h, h' := Handled(e, init), Handled(e, ss);
      if !h.thrown && CheckShortcut(e, ss[|ss| - 1]) == Match {
        assert h'.fired == h.fired + [|ss| - 1];
      } else {
        assert h'.fired == h.fired;
      }
      forall a | 0 <= a < |h'.fired|
        ensures h'.fired[a] < |ss|
        ensures CheckShortcut(e, ss[h'.fired[a]]) == Match
      {
        if a < |h.fired| {
          assert h'.fired[a] == h.fired[a] && init[h.fired[a]] == ss[h.fired[a]];
        }
      }
    }
  }

  /** Without a throw, every matching shortcut has fired. */
  lemma {:induction false} MatchesFire(e: KeyEvent, ss: seq<Shortcut>)
    ensures var h := Handled(e, ss);
      !h.thrown ==> forall i :: i in h.fired <==> 0 <= i < |ss| && CheckShortcut(e, ss[i]) == Match
    decreases |ss|
  {
    FiredAreMatches(e, ss);
    if ss != [] {
      var init := ss[..|ss| - 1];
      MatchesFire(e, init);
      assert forall i :: 0 <= i < |init| ==> init[i] == ss[i];
    }
  }

  /** The default is cancelled exactly when a fired shortcut does not opt out. */
  lemma {:induction false} PreventedByFired(e: KeyEvent, ss: seq<Shortcut>)
    ensures Handled(e, ss).prevented <==>
      exists i :: i in Handled(e, ss).fired && i < |ss| && PreventsDefault(ss[i])
    decreases |ss|
  {
    if ss != [] {
      var init := ss[..|ss| - 1];
      PreventedByFired(e, init);
      FiredAreMatches(e, init);
      var h, h' := Handled(e, init), Handled(e, ss);
      assert forall i :: i in h.fired ==> i < |init| && init[i] == ss[i];
      if !h.thrown && CheckShortcut(e, ss[|ss| - 1]) == Match {
        assert h'.fired == h.fired + [|ss| - 1];
      } else {
        assert h'.fired == h.fired && h'.prevented == h.prevented;
      }
    }
  }

  /** A throw examines nothing after it: once thrown, the outcome of the prefix stands. */
  lemma {:induction false} ThrowIsFinal(e: KeyEvent, ss: seq<Shortcut>, n: nat)
    requires n <= |ss|
    requires Handled(e, ss[..n]).thrown
    ensures Handled(e, ss) == Handled(e, ss[..n])
    decreases |ss| - n
  {
    if n < |ss| {
      assert ss[..n + 1][..n] == ss[..n];
      assert Handled(e, ss[..n + 1]) == Handled(e, ss[..n]);
      ThrowIsFinal(e, ss, n + 1);
    } else {
      assert ss[..n] == ss;
    }
  }

  /** The main key is compared without regard to ASCII case. */
  lemma CaseInsensitive(e: KeyEvent, s: Shortcut, key: string)
    requires Lower(key) == Lower(e.key)
    ensures CheckShortcut(e.(key := key), s) == CheckShortcut(e, s)
  {
  }

  /** A shortcut written `m+k` with '+'-free parts is held to modifier `m` and main key `k`. */
  lemma {:induction false} KeysSplitAtPlus(e: KeyEvent, m: string, k: string, p: Option<bool>)
    requires '+' !in m && '+' !in k
    ensures CheckShortcut(e, Shortcut(m + "+" + k, p)) == (if ModifierHeld(m, e) && Lower(e.key) == Lower(k) then Match else NoMatch)
  {
    SplitFirst(m, k, '+');
    SplitPlain(k, '+');
  }

  /** `handleKeyDown`: the `forEach` over the shortcuts, stopped by a throw. */
  method HandleKeyDown(e: KeyEvent, ss: seq<Shortcut>) returns (fired: seq<nat>, prevented: bool, thrown: bool)
    ensures Handling(fired, prevented, thrown) == Handled(e, ss)
    ensures !thrown ==> forall i :: i in fired <==> 0 <= i < |ss| && CheckShortcut(e, ss[i]) == Match
  {
    fired, prevented, thrown := [], false, false;
    var i := 0;
    while i < |ss| && !thrown
      invariant 0 <= i <= |ss|
      invariant Handling(fired, prevented, thrown) == Handled(e, ss[..i])
    {
      assert ss[..i + 1][..i] == ss[..i];
      var pieces := Split(ss[i].keys, '+');
      var modifier := pieces[0];
      var modifierMatch := false;
      if modifier == "ctrl" {
        modifierMatch := e.ctrlKey;
      } else if modifier == "alt" {
        modifierMatch := e.altKey;
      } else if modifier == "shift" {
        modifierMatch := e.shiftKey;
      }
      if modifierMatch {
        if |pieces| < 2 {
          thrown := true;
        } else if Lower(e.key) == Lower(pieces[1]) {
          if ss[i].preventDefault != Some(false) {
            prevented := true;
          }
          fired := fired + [i];
        }
      }
      i := i + 1;
    }
    if thrown {
      ThrowIsFinal(e, ss, i);
    } else {
      assert ss[..i] == ss;
    }
    EveryMatchFires(e, ss);
  }
}
