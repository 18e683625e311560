/**
  The multi-select update rules shared by the forms: uncheck removes every
  equal entry (`xs.filter(x => x !== v)`), check appends at the end
  (`[...xs, v]`), and a toggle picks between the two by `xs.includes(v)`.
*/
module Choices {

  /** `xs.filter(x => x !== v)`. */
  function RemoveAll(xs: seq<string>, v: string): (r: seq<string>)
    ensures |r| <= |xs|
    ensures v in xs ==> |r| < |xs|
    ensures v !in r
    ensures forall x :: x != v ==> multiset(r)[x] == multiset(xs)[x]
    decreases |xs|
  {
    if xs == [] then []
    else
      var rest := RemoveAll(xs[1..], v);
      assert xs == [xs[0]] + xs[1..];
      if xs[0] == v then rest else [xs[0]] + rest
  }

  /** Filtering keeps the order of what it keeps: it distributes over concatenation. */
  lemma {:induction false} RemoveAllAppend(a: seq<string>, b: seq<string>, v: string)
    ensures RemoveAll(a + b, v) == RemoveAll(a, v) + RemoveAll(b, v)
    decreases |a|
  {
    if a == [] {
      assert a + b == b;
    } else {
      assert (a + b)[0] == a[0];
      assert (a + b)[1..] == a[1..] + b;
      RemoveAllAppend(a[1..], b, v);
      var head := if a[0] == v then [] else [a[0]];
      assert RemoveAll(a + b, v) == head + (RemoveAll(a[1..], v) + RemoveAll(b, v));
      assert RemoveAll(a, v) == head + RemoveAll(a[1..], v);
    }
  }

  /** Filtering out a value that is absent changes nothing. */
  lemma {:induction false} RemoveAllAbsent(xs: seq<string>, v: string)
    requires v !in xs
    ensures RemoveAll(xs, v) == xs
    decreases |xs|
  {
    if xs != [] {
      RemoveAllAbsent(xs[1..], v);
    }
  }

  /** The checkbox handler: `checked ? [...xs, v] : xs.filter(x => x !== v)`. */
  function SetChecked(xs: seq<string>, v: string, checked: bool): (r: seq<string>)
    ensures checked ==> r == xs + [v]
    ensures !checked ==> v !in r && forall x :: x != v ==> multiset(r)[x] == multiset(xs)[x]
  {
    if checked then xs + [v] else RemoveAll(xs, v)
  }

  /** `xs.includes(v) ? xs.filter(x => x !== v) : [...xs, v]`. */
  function Toggle(xs: seq<string>, v: string): (r: seq<string>)
    ensures v in r <==> v !in xs
    ensures v !in xs ==> r == xs + [v]
    ensures v in xs ==> |r| < |xs|
    ensures forall x :: x != v ==> multiset(r)[x] == multiset(xs)[x]
  {
    if v in xs then RemoveAll(xs, v) else xs + [v]
  }

  /** A toggle is a click on the checkbox whose checked state is `includes(v)`. */
  lemma ToggleIsClick(xs: seq<string>, v: string)
    ensures Toggle(xs, v) == SetChecked(xs, v, v !in xs)
  {
  }

  /** Toggling an absent value twice restores the selection exactly. */
  lemma {:induction false} ToggleTwiceAbsent(xs: seq<string>, v: string)
    requires v !in xs
    ensures Toggle(Toggle(xs, v), v) == xs
  {
    RemoveAllAppend(xs, [v], v);
    RemoveAllAbsent(xs, v);
  }

  /** Toggling a present value twice drops its duplicates and moves it to the end. */
  lemma {:induction false} ToggleTwicePresent(xs: seq<string>, v: string)
    requires v in xs
    ensures Toggle(Toggle(xs, v), v) == RemoveAll(xs, v) + [v]
  {
  }

  /** Checking a box that was clear and then clearing it restores the selection exactly. */
  lemma {:induction false} CheckThenUncheck(xs: seq<string>, v: string)
    requires v !in xs
    ensures SetChecked(SetChecked(xs, v, true), v, false) == xs
  {
    RemoveAllAppend(xs, [v], v);
    RemoveAllAbsent(xs, v);
  }

  /** Clearing a box twice is the same as clearing it once. */
  lemma UncheckTwice(xs: seq<string>, v: string)
    ensures SetChecked(SetChecked(xs, v, false), v, false) == SetChecked(xs, v, false)
  {
    RemoveAllAbsent(RemoveAll(xs, v), v);
  }
}
