/**
 * The screen history of the weather app in jma2/main.py: a stack of
 * (view, arguments) entries, pushed by `navigate_to` and popped by
 * `go_back`. Views and their arguments are opaque; rendering a view is
 * recorded as the entry it was called with.
 */
module Navigation {

  /** A `(view_func, args)` pair on the stack. */
  datatype Entry<V, A> = Entry(view: V, args: seq<A>)

  /** `navigation_stack`, bottom first. */
  type History<V, A> = seq<Entry<V, A>>

  function Top<V, A>(h: History<V, A>): Entry<V, A>
    requires |h| > 0
  {
    h[|h| - 1]
  }

  /**
   * The stack `go_back` leaves: the top entry removed when there is more
   * than one, otherwise the stack as it was.
   */
  function Back<V, A>(h: History<V, A>): (r: History<V, A>)
    ensures |h| > 1 ==> |r| == |h| - 1 && h == r + [Top(h)]
    ensures |h| <= 1 ==> r == h
    ensures |h| >= 1 ==> |r| >= 1
  {
    if |h| > 1 then h[..|h| - 1] else h
  }

  /** Going back right after opening a screen returns to the stack as it was, once it holds a screen. */
  lemma BackAfterPush<V, A>(h: History<V, A>, e: Entry<V, A>)
    requires |h| >= 1
    ensures Back(h + [e]) == h
  {
    assert (h + [e])[..|h|] == h;
  }

  /** On the first screen there is nothing to go back to. */
  lemma BackAfterFirstPush<V, A>(e: Entry<V, A>)
    ensures Back([e]) == [e]
  {
  }

  /** A click on the app: open a screen, or press a back button. */
  datatype Move<V, A> = Visit(e: Entry<V, A>) | Return

  /** The stack after a sequence of clicks: each click moves its depth by at most one. */
  function Replay<V, A>(h: History<V, A>, moves: seq<Move<V, A>>): (r: History<V, A>)
    ensures |h| - |moves| <= |r| <= |h| + |moves|
    decreases |moves|
  {
    if moves == [] then h
    else
      var h' := match moves[0] case Visit(e) => h + [e] case Return => Back(h);
      Replay(h', moves[1..])
  }

  /** Once the stack holds a screen it is never empty again, and its bottom entry never changes. */
  lemma {:induction false} ReplayKeepsBottom<V, A>(h: History<V, A>, moves: seq<Move<V, A>>)
    requires |h| >= 1
    ensures |Replay(h, moves)| >= 1
    ensures Replay(h, moves)[0] == h[0]
    decreases |moves|
  {
    if moves != [] {
      var h' := match moves[0] case Visit(e) => h + [e] case Return => Back(h);
      assert |h'| >= 1 && h'[0] == h[0];
      ReplayKeepsBottom(h', moves[1..]);
    }
  }

  /** The number of screens opened by a sequence of clicks. */
  function Visits<V, A>(moves: seq<Move<V, A>>): nat
    decreases |moves|
  {
    if moves == [] then 0 else (if moves[0].Visit? then 1 else 0) + Visits(moves[1..])
  }

  /** The stack grows only by the screens opened. */
  lemma {:induction false} ReplayDepth<V, A>(h: History<V, A>, moves: seq<Move<V, A>>)
    ensures |Replay(h, moves)| <= |h| + Visits(moves)
    decreases |moves|
  {
    if moves != [] {
      var h' := match moves[0] case Visit(e) => h + [e] case Return => Back(h);
      ReplayDepth(h', moves[1..]);
    }
  }

  /**
   * The navigation state of the app: `navigation_stack`, and the entries
   * the views were called with, in order (what was drawn on the page).
   */
  class Navigator<V(==), A(==)> {
    var stack: History<V, A>
    var rendered: seq<Entry<V, A>>

    /** The page shows the top of the stack, and nothing was drawn before the first screen. */
    predicate Valid()
      reads this
    {
      && (stack == [] ==> rendered == [])
      && (stack != [] ==> rendered != [] && rendered[|rendered| - 1] == Top(stack))
    }

    /** `main`: an empty stack, then `navigate_to(show_regions)`. */
    constructor (home: V)
      ensures stack == [Entry(home, [])] && rendered == [Entry(home, [])]
      ensures Valid()
    {
      stack := [];
      rendered := [];
      new;
      NavigateTo(home, []);
    }

    /** `navigate_to(view_func, *args)`: push the entry, then draw it. */
    method NavigateTo(view: V, args: seq<A>)
      modifies this
      ensures stack == old(stack) + [Entry(view, args)]
      ensures rendered == old(rendered) + [Entry(view, args)]
      ensures Valid()
    {
      var e := Entry(view, args);
      stack := stack + [e];
      rendered := rendered + [e];
    }

    /** `go_back()`: with more than one entry, pop the top and redraw the new top with its arguments. */
    method GoBack()
      modifies this
      ensures stack == Back(old(stack))
      ensures |old(stack)| > 1 ==> rendered == old(rendered) + [Top(stack)]
      ensures |old(stack)| <= 1 ==> rendered == old(rendered)
      ensures old(Valid()) ==> Valid()
    {
      if |stack| > 1 {
        stack := stack[..|stack| - 1];
        var prev := Top(stack);
        rendered := rendered + [prev];
      }
    }
  }

  /** A back button pressed on a screen just opened returns to the screen below, redrawn. */
  method OpenThenBack<V(==), A(==)>(nav: Navigator<V, A>, view: V, args: seq<A>)
    requires |nav.stack| >= 1 && nav.Valid()
    modifies nav
    ensures nav.Valid()
    ensures nav.stack == old(nav.stack)
    ensures nav.rendered == old(nav.rendered) + [Entry(view, args), Top(old(nav.stack))]
  {
    nav.NavigateTo(view, args);
    BackAfterPush(old(nav.stack), Entry(view, args));
    nav.GoBack();
  }
}
