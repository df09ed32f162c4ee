/** The menu navigator: a cursor over the IVR tree with a back stack and a
    forward stack. `Nav` and the functions over it are the abstract view;
    the class `MenuViewModel` is the object the screen mutates. */
module Navigator {
  import opened MenuTree

  /** A sibling group: the options shown together on one screen. */
  type Group = seq<MenuOption>

  /** The navigator's state: the group on screen, the back stack and the
      forward stack, both with the most recent group last. */
  datatype Nav = Nav(current: Group, history: seq<Group>, forward: seq<Group>)

  /** The state of a navigator built over `root`. */
  function Init(root: Group): (s: Nav) {
    Nav(root, [], [])
  }

  /** Tapping an option with a sub-menu descends into it, pushing the screen
      onto the back stack and discarding the forward stack; a leaf leaves
      the state as it is. Membership of `o` in the screen is not checked. */
  function Select(s: Nav, o: MenuOption): (t: Nav) {
    if o.children != [] then Nav(o.children, s.history + [s.current], []) else s
  }

  /** Pops the back stack onto the screen and pushes the screen onto the
      forward stack; does nothing when the back stack is empty. */
  function Back(s: Nav): (t: Nav) {
    if s.history == [] then s
    else
      var n := |s.history| - 1;
      Nav(s.history[n], s.history[..n], s.forward + [s.current])
  }

  /** Pops the forward stack onto the screen and pushes the screen onto the
      back stack; does nothing when the forward stack is empty. */
  function Forward(s: Nav): (t: Nav) {
    if s.forward == [] then s
    else
      var n := |s.forward| - 1;
      Nav(s.forward[n], s.history + [s.current], s.forward[..n])
  }

  function Reverse<T>(xs: seq<T>): (r: seq<T>)
    ensures |r| == |xs|
    ensures forall i :: 0 <= i < |xs| ==> r[i] == xs[|xs| - 1 - i]
  {
    if xs == [] then [] else Reverse(xs[1..]) + [xs[0]]
  }

  /** The linear path the user has walked: every group behind the screen,
      the screen, and every group ahead of it, in walking order. */
  function Path(s: Nav): (p: seq<Group>)
    ensures |p| == |s.history| + 1 + |s.forward|
    ensures p[|s.history|] == s.current
    ensures p[..|s.history|] == s.history
  {
    s.history + [s.current] + Reverse(s.forward)
  }

  /** `h` is the sub-menu of some branch option of `g`. */
  ghost predicate Descends(g: Group, h: Group) {
    exists o :: o in g && o.children != [] && o.children == h
  }

  /** The path starts at `root` and each group on it is the sub-menu of an
      option of the group before it. */
  ghost predicate ChainFrom(root: Group, p: seq<Group>) {
    && |p| >= 1
    && p[0] == root
    && forall i :: 0 <= i < |p| - 1 ==> Descends(p[i], p[i + 1])
  }

  /** Every group on the navigator's path, the screen included, is reached
      from `root` by descending through options of the tree. */
  ghost predicate OnTree(root: Group, s: Nav) {
    ChainFrom(root, Path(s))
  }

  // ---------------------------------------------------------------------
  // Selection

  /** Descending pushes exactly the old screen and clears the forward stack. */
  lemma SelectBranch(s: Nav, o: MenuOption)
    requires o.children != []
    ensures Select(s, o).current == o.children
    ensures Select(s, o).history == s.history + [s.current]
    ensures |Select(s, o).history| == |s.history| + 1
    ensures Select(s, o).forward == []
  {
  }

  /** Tapping a leaf changes nothing. */
  lemma SelectLeaf(s: Nav, o: MenuOption)
    requires o.IsLeaf()
    ensures Select(s, o) == s
  {
  }

  /** A descent cuts the path just after the screen and appends the new
      sub-menu: whatever lay ahead is forgotten. */
  lemma SelectCutsPath(s: Nav, o: MenuOption)
    requires o.children != []
    ensures Path(Select(s, o)) == Path(s)[..|s.history| + 1] + [o.children]
  {
  }

  /** Going back right after a descent shows the screen displayed just
      before it, with the same back stack, and remembers the sub-menu as the
      only way forward. */
  lemma SelectThenBack(s: Nav, o: MenuOption)
    requires o.children != []
    ensures Back(Select(s, o)) == Nav(s.current, s.history, [o.children])
  {
  }

  // ---------------------------------------------------------------------
  // Back and forward

  /** Back then forward undoes the back step exactly. */
  lemma BackThenForward(s: Nav)
    requires s.history != []
    ensures Forward(Back(s)) == s
  {
  }

  /** Forward then back undoes the forward step exactly. */
  lemma ForwardThenBack(s: Nav)
    requires s.forward != []
    ensures Back(Forward(s)) == s
  {
  }

  /** Going back moves the cursor one step left along an unchanged path,
      keeping the total depth of the two stacks. */
  lemma BackKeepsPath(s: Nav)
    ensures Path(Back(s)) == Path(s)
    ensures |Back(s).history| + |Back(s).forward| == |s.history| + |s.forward|
    ensures s.history != [] ==> |Back(s).history| == |s.history| - 1
  {
  }

  /** Going forward moves the cursor one step right along an unchanged path,
      keeping the total depth of the two stacks. */
  lemma ForwardKeepsPath(s: Nav)
    ensures Path(Forward(s)) == Path(s)
    ensures |Forward(s).history| + |Forward(s).forward| == |s.history| + |s.forward|
    ensures s.forward != [] ==> |Forward(s).history| == |s.history| + 1
  {
  }

  // ---------------------------------------------------------------------
  // Staying on the tree

  /** A fresh navigator has walked nothing but its root group. */
  lemma InitOnTree(root: Group)
    ensures Path(Init(root)) == [root]
    ensures OnTree(root, Init(root))
  {
  }

  /** Tapping an option that is on screen keeps every group on the path a
      sub-menu of the group before it. */
  lemma SelectKeepsOnTree(root: Group, s: Nav, o: MenuOption)
    requires OnTree(root, s)
    requires o in s.current
    ensures OnTree(root, Select(s, o))
  {
  }

  lemma BackKeepsOnTree(root: Group, s: Nav)
    requires OnTree(root, s)
    ensures OnTree(root, Back(s))
  {
    BackKeepsPath(s);
  }

  lemma ForwardKeepsOnTree(root: Group, s: Nav)
    requires OnTree(root, s)
    ensures OnTree(root, Forward(s))
  {
    ForwardKeepsPath(s);
  }

  /** Going back `n` times. */
  function BackN(s: Nav, n: nat): (t: Nav)
    decreases n
  {
    if n == 0 then s else BackN(Back(s), n - 1)
  }

  lemma {:induction false} BackNKeepsPath(s: Nav, n: nat)
    requires n <= |s.history|
    ensures Path(BackN(s, n)) == Path(s)
    ensures |BackN(s, n).history| == |s.history| - n
    decreases n
  {
    if n > 0 {
      BackKeepsPath(s);
      BackNKeepsPath(Back(s), n - 1);
    }
  }

  /** There is no terminal state: from any state on the tree, going back as
      many times as the back stack is deep lands on the root group with
      nothing left behind it. */
  lemma BackOutToRoot(root: Group, s: Nav)
    requires OnTree(root, s)
    ensures BackN(s, |s.history|).current == root
    ensures BackN(s, |s.history|).history == []
  {
    var t := BackN(s, |s.history|);
    BackNKeepsPath(s, |s.history|);
    assert Path(t)[0] == t.current;
  }

  /** Every option of every group on the path was obtained from the options
      of `root` by descending, so it inherits their DTMF-keyed digits. */
  lemma {:induction false} ChainKeepsDtmf(root: Group, p: seq<Group>, k: nat)
    requires ChainFrom(root, p)
    requires forall o :: o in root ==> AllDigitsDtmf(o)
    requires k < |p|
    ensures forall o :: o in p[k] ==> AllDigitsDtmf(o)
  {
    if k > 0 {
      ChainKeepsDtmf(root, p, k - 1);
      assert Descends(p[k - 1], p[k]);
      var parent :| parent in p[k - 1] && parent.children != [] && parent.children == p[k];
      assert AllDigitsDtmf(parent);
    }
  }

  /** When the tree's digits are all keypad keys, so is the digit of every
      option a navigator on that tree can show. */
  lemma OnTreeOptionsDtmf(root: Group, s: Nav, o: MenuOption)
    requires OnTree(root, s)
    requires forall c :: c in root ==> AllDigitsDtmf(c)
    requires o in s.current
    ensures IsDtmfSequence(o.digit)
  {
    ChainKeepsDtmf(root, Path(s), |s.history|);
  }

  // ---------------------------------------------------------------------
  // The view model

  /** The navigator object the menu screen owns and mutates in place. */
  class MenuViewModel {
    var currentOptions: Group
    var history: seq<Group>
    var forwardHistory: seq<Group>

    /** The abstract state of this navigator. */
    function State(): (s: Nav)
      reads this
    {
      Nav(currentOptions, history, forwardHistory)
    }

    constructor (rootOptions: Group)
      ensures State() == Init(rootOptions)
      ensures currentOptions == rootOptions && history == [] && forwardHistory == []
      ensures !CanGoBack() && !CanGoForward()
    {
      currentOptions := rootOptions;
      history := [];
      forwardHistory := [];
    }

    method SelectOption(option: MenuOption)
      modifies this
      ensures State() == Select(old(State()), option)
      ensures option.children != [] ==>
        && currentOptions == option.children
        && history == old(history) + [old(currentOptions)]
        && forwardHistory == []
      ensures option.children == [] ==>
        currentOptions == old(currentOptions) && history == old(history) && forwardHistory == old(forwardHistory)
    {
      if option.children != [] {
        history := history + [currentOptions];
        currentOptions := option.children;
        forwardHistory := [];
      }
    }

    method GoBack()
      modifies this
      ensures State() == Back(old(State()))
      ensures old(history) != [] ==>
        && currentOptions == old(history)[|old(history)| - 1]
        && history == old(history)[..|old(history)| - 1]
        && forwardHistory == old(forwardHistory) + [old(currentOptions)]
      ensures old(history) == [] ==>
        currentOptions == old(currentOptions) && history == old(history) && forwardHistory == old(forwardHistory)
    {
      if history != [] {
        var previousOptions := history[|history| - 1];
        history := history[..|history| - 1];
        forwardHistory := forwardHistory + [currentOptions];
        currentOptions := previousOptions;
      }
    }

    method GoForward()
      modifies this
      ensures State() == Forward(old(State()))
      ensures old(forwardHistory) != [] ==>
        && currentOptions == old(forwardHistory)[|old(forwardHistory)| - 1]
        && forwardHistory == old(forwardHistory)[..|old(forwardHistory)| - 1]
        && history == old(history) + [old(currentOptions)]
      ensures old(forwardHistory) == [] ==>
        currentOptions == old(currentOptions) && history == old(history) && forwardHistory == old(forwardHistory)
    {
      if forwardHistory != [] {
        var nextOptions := forwardHistory[|forwardHistory| - 1];
        forwardHistory := forwardHistory[..|forwardHistory| - 1];
        history := history + [currentOptions];
        currentOptions := nextOptions;
      }
    }

    /** Previous is enabled exactly when going back would change the state. */
    function CanGoBack(): (b: bool)
      reads this
      ensures b <==> Back(State()) != State()
    {
      history != []
    }

    /** Next is enabled exactly when going forward would change the state. */
    function CanGoForward(): (b: bool)
      reads this
      ensures b <==> Forward(State()) != State()
    {
      forwardHistory != []
    }
  }
}
