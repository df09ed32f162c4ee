/** The menu screen's button actions: a tap on an option sends its digit to
    the call and then selects the option; Previous and Next only move the
    navigator, and only while their button is enabled. */
module MenuScreen {
  import opened MenuTree
  import opened Navigator

  /** The screen with its navigator. The call's `sendDigit` is modelled by
      the ghost log `sentDigits`, most recent last. */
  class MenuView {
    const viewModel: MenuViewModel
    ghost const root: Group
    ghost var sentDigits: seq<string>

    /** The navigator stays on the tree it was built over, and when that
        tree's digits are all keypad keys, so is everything sent so far. */
    ghost predicate Valid()
      reads this, viewModel
    {
      && OnTree(root, viewModel.State())
      && ((forall o :: o in root ==> AllDigitsDtmf(o)) ==>
            forall i :: 0 <= i < |sentDigits| ==> IsDtmfSequence(sentDigits[i]))
    }

    constructor (rootOptions: Group)
      ensures Valid() && fresh(viewModel)
      ensures root == rootOptions
      ensures viewModel.State() == Init(rootOptions)
      ensures sentDigits == []
    {
      viewModel := new MenuViewModel(rootOptions);
      root := rootOptions;
      sentDigits := [];
      InitOnTree(rootOptions);
    }

    /** The action of an option's button. Buttons exist only for the options
        on screen, hence the precondition. The digit is sent as it is, the
        empty string included, and before the selection. */
    method Tap(option: MenuOption)
      requires Valid()
      requires option in viewModel.currentOptions
      modifies this, viewModel
      ensures Valid()
      ensures sentDigits == old(sentDigits) + [option.digit]
      ensures viewModel.State() == Select(old(viewModel.State()), option)
    {
      ghost var before := viewModel.State();
      sentDigits := sentDigits + [option.digit];
      viewModel.SelectOption(option);
      SelectKeepsOnTree(root, before, option);
      if forall o :: o in root ==> AllDigitsDtmf(o) {
        OnTreeOptionsDtmf(root, before, option);
      }
    }

    /** The Previous button: disabled unless the navigator can go back. */
    method Previous()
      requires Valid()
      modifies viewModel
      ensures Valid()
      ensures sentDigits == old(sentDigits)
      ensures viewModel.State() == Back(old(viewModel.State()))
    {
      if viewModel.CanGoBack() {
        ghost var before := viewModel.State();
        viewModel.GoBack();
        BackKeepsOnTree(root, before);
      }
    }

    /** The Next button: disabled unless the navigator can go forward. */
    method Next()
      requires Valid()
      modifies viewModel
      ensures Valid()
      ensures sentDigits == old(sentDigits)
      ensures viewModel.State() == Forward(old(viewModel.State()))
    {
      if viewModel.CanGoForward() {
        ghost var before := viewModel.State();
        viewModel.GoForward();
        ForwardKeepsOnTree(root, before);
      }
    }
  }

  /** Root group [A, B] with A = "1" over [X, Y], X a leaf keyed "#", and B a
      leaf keyed "2": descend into A, tap X, go back, go forward. */
  method BranchAndLeafScenario() {
    var x := Leaf("X", "#");
    var y := Leaf("Y", "3");
    var a := MenuOption("A", "1", [x, y]);
    var b := Leaf("B", "2");
    var view := new MenuView([a, b]);

    view.Tap(a);
    assert view.viewModel.currentOptions == [x, y];
    assert view.sentDigits == ["1"];
    assert view.viewModel.CanGoBack();

    view.Tap(x);
    assert view.viewModel.currentOptions == [x, y];
    assert view.sentDigits == ["1", "#"];

    view.Previous();
    assert view.viewModel.currentOptions == [a, b];
    assert view.viewModel.CanGoForward();

    view.Next();
    assert view.viewModel.currentOptions == [x, y];
    assert view.sentDigits == ["1", "#"];
  }

  /** A new descent after going back discards the forward stack. */
  method NewBranchScenario() {
    var x := Leaf("X", "#");
    var a := MenuOption("A", "1", [x]);
    var b := MenuOption("B", "2", [x, x]);
    var view := new MenuView([a, b]);

    view.Tap(a);
    view.Previous();
    assert view.viewModel.CanGoForward();
    view.Tap(b);
    assert view.viewModel.forwardHistory == [];
    assert view.viewModel.history == [[a, b]];
  }

  /** On the shipped menu: English, then "new to Rogers", then back twice. */
  method RogersScenario() {
    RogersMenuShape();
    RogersMenuDigitsDtmf();
    var view := new MenuView(RogersMenu.children);
    var english := RogersMenu.children[0];
    view.Tap(english);
    var newCustomer := english.children[1];
    view.Tap(newCustomer);
    assert view.sentDigits == ["1", "*"];
    assert view.viewModel.currentOptions == newCustomer.children;
    view.Previous();
    assert view.viewModel.currentOptions == english.children;
    view.Previous();
    assert view.viewModel.currentOptions == RogersMenu.children;
    assert !view.viewModel.CanGoBack();
  }
}
