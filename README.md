# CallEm IVR menu navigator, modelled in Dafny

CallEm is an iOS calling client. While a call is connected, it guides the user through a
company's interactive-voice-response (IVR) phone menu. Each tap on a menu option sends the
option's DTMF digits to the call. If the option has a sub-menu, the screen then shows that
sub-menu. Previous and Next buttons move back and forth along the menus already walked.

This project models that navigator, from `CallEm/CallOptions.swift`:

- `menu_tree.dfy` (module `MenuTree`) holds the menu tree node `MenuOption` as a datatype
  with a title, a digit string and an ordered list of children. It also holds the shipped
  Rogers menu literal, node for node, with its larger sub-menus as named constants. It proves that
  the literal's top level has the expected shape and that every digit string in it is made of
  keypad keys (`0`-`9`, `*`, `#`) or is empty.
- `navigator.dfy` (module `Navigator`) has two parts:
  - The abstract navigator state `Nav`: the group on screen, the back stack and the forward
    stack. The transitions `Select`, `Back` and `Forward` are functions over it, and lemmas
    relate them. The linear path is `history + [current] + reverse(forward)`.
  - The class `MenuViewModel`, whose fields `currentOptions`, `history` and `forwardHistory`
    its methods update in place, mirroring the Swift class. Each method is proved to move the
    object's state exactly as the matching function does.
- `menu_view.dfy` (module `MenuScreen`) models the screen's button actions in the class
  `MenuView`:
  - A tap on an option appends its digit to a ghost log `sentDigits`, which stands in for
    `callManager.sendDigit`, and then calls `SelectOption`.
  - Previous and Next call `GoBack` and `GoForward` only while their buttons are enabled, and
    send nothing.

  The class invariant `Valid()` says two things. First, every group on the walked path is the
  sub-menu of an option of the group before it, starting from the root group. Second, when
  every node under the root has keypad-key digits, everything sent so far is made of keypad
  keys. Three client methods replay example scenarios: `BranchAndLeafScenario` and
  `NewBranchScenario` on a small tree, `RogersScenario` on the shipped menu.

Two behaviours of the code are modelled exactly as written:

- `sendDigit` is called even for an option whose digit is `""`
  (CallEm/CallOptions.swift:69), and `Tap` logs `""`.
- `selectOption` does not check that the option is on screen (CallEm/CallOptions.swift:25-31),
  so `SelectOption` is unguarded too. Only `Tap` requires the option to be on screen, because
  the buttons are built from `currentOptions` (CallEm/CallOptions.swift:67).

## Model

| member | source | states |
|---|---|---|
| `MenuTree.LeafDigitsDtmf` | CallEm/CallOptions.swift:9-13 | a node built without children (the initialiser's default) is keypad-keyed exactly when its own digit is |
| `MenuTree.RogersMenuShape` | CallEm/CallOptions.swift:102-260 | the root prompt's digit is empty; it has exactly two options: English (`"1"`), which has a sub-menu, and French (`"2"`), which is a leaf |
| `MenuTree.RogersMenuDigitsDtmf` | CallEm/CallOptions.swift:102-260 | every node of the shipped menu carries a digit string made only of keypad keys, the empty string included |
| `Navigator.Init` | CallEm/CallOptions.swift:21-23 | value-level definition of the initial state (root on screen, both stacks empty); no contract of its own, its properties are the lemmas below |
| `Navigator.Select` | CallEm/CallOptions.swift:25-31 | value-level definition of `selectOption`; no contract of its own, its properties are the Select lemmas below |
| `Navigator.Back` | CallEm/CallOptions.swift:33-38 | value-level definition of `goBack`; no contract of its own, its properties are the Back lemmas below |
| `Navigator.Forward` | CallEm/CallOptions.swift:40-45 | value-level definition of `goForward`; no contract of its own, its properties are the Forward lemmas below |
| `Navigator.Path` | CallEm/CallOptions.swift:16-19 | the walked path is one longer than both stacks together; the screen sits right after the back stack, which is its prefix |
| `Navigator.SelectBranch` | CallEm/CallOptions.swift:25-31 | selecting an option with a sub-menu shows the sub-menu, pushes exactly the old screen onto the back stack (which grows by one) and empties the forward stack |
| `Navigator.SelectLeaf` | CallEm/CallOptions.swift:26 | selecting a leaf changes neither the screen nor either stack |
| `Navigator.SelectCutsPath` | CallEm/CallOptions.swift:25-31 | a descent keeps the path up to the current screen, drops everything ahead of it and appends the sub-menu |
| `Navigator.SelectThenBack` | CallEm/CallOptions.swift:25-38 | going back right after a descent restores the previous screen and back stack and leaves the sub-menu as the only forward step |
| `Navigator.BackThenForward` | CallEm/CallOptions.swift:33-45 | with a non-empty back stack, going back and then forward restores the screen and both stacks exactly |
| `Navigator.ForwardThenBack` | CallEm/CallOptions.swift:33-45 | with a non-empty forward stack, going forward and then back restores the screen and both stacks exactly |
| `Navigator.BackKeepsPath` | CallEm/CallOptions.swift:33-38 | going back leaves the walked path and the total stack depth unchanged, and shortens the back stack by one when it was non-empty |
| `Navigator.ForwardKeepsPath` | CallEm/CallOptions.swift:40-45 | going forward leaves the walked path and the total stack depth unchanged, and lengthens the back stack by one when the forward stack was non-empty |
| `Navigator.InitOnTree` | CallEm/CallOptions.swift:21-23 | a fresh navigator's path is just the root group, so it starts on the tree over that group |
| `Navigator.SelectKeepsOnTree` | CallEm/CallOptions.swift:25-31 | selecting an option that is on screen keeps every group on the path a sub-menu of an option of the group before it |
| `Navigator.BackKeepsOnTree` | CallEm/CallOptions.swift:33-38 | going back keeps the navigator on the tree it started from |
| `Navigator.ForwardKeepsOnTree` | CallEm/CallOptions.swift:40-45 | going forward keeps the navigator on the tree it started from |
| `Navigator.BackNKeepsPath` | CallEm/CallOptions.swift:33-38 | going back n times (n at most the back stack's depth) keeps the path and removes exactly n groups from the back stack |
| `Navigator.BackOutToRoot` | CallEm/CallOptions.swift:21-38 | from any state on the tree, going back as often as the back stack is deep shows the root group with an empty back stack |
| `Navigator.ChainKeepsDtmf` | CallEm/CallOptions.swift:3-14 | every option of every group on a path that descends from the root is a node of the tree, so it keeps the tree's keypad-key digits |
| `Navigator.OnTreeOptionsDtmf` | CallEm/CallOptions.swift:67-69 | on a tree whose digits are keypad keys, every option the screen can show has a keypad-key digit string |
| `Navigator.MenuViewModel.constructor` | CallEm/CallOptions.swift:21-23 | a fresh navigator shows the root options exactly, has both stacks empty, and can go neither back nor forward |
| `Navigator.MenuViewModel.SelectOption` | CallEm/CallOptions.swift:25-31 | an option with a sub-menu pushes the old screen, shows the sub-menu and empties the forward stack; a leaf leaves all three fields unchanged; option membership is not checked |
| `Navigator.MenuViewModel.GoBack` | CallEm/CallOptions.swift:33-38 | the top of the back stack is popped onto the screen and the old screen is pushed onto the forward stack; with an empty back stack nothing changes |
| `Navigator.MenuViewModel.GoForward` | CallEm/CallOptions.swift:40-45 | the top of the forward stack is popped onto the screen and the old screen is pushed onto the back stack; with an empty forward stack nothing changes |
| `Navigator.MenuViewModel.CanGoBack` | CallEm/CallOptions.swift:47-49 | true exactly when going back would change the navigator's state |
| `Navigator.MenuViewModel.CanGoForward` | CallEm/CallOptions.swift:51-53 | true exactly when going forward would change the navigator's state |
| `MenuScreen.MenuView.constructor` | CallEm/CallOptions.swift:60-63 | the screen starts on a fresh navigator over the root options with nothing sent |
| `MenuScreen.MenuView.Tap` | CallEm/CallOptions.swift:67-71 | a tap on an on-screen option sends exactly its digit once, the empty string included, then selects it; the navigator stays on the tree and, on a keypad-keyed tree, only keypad keys are ever sent |
| `MenuScreen.MenuView.Previous` | CallEm/CallOptions.swift:84-87 | Previous sends nothing and goes back only when going back is possible |
| `MenuScreen.MenuView.Next` | CallEm/CallOptions.swift:91-94 | Next sends nothing and goes forward only when going forward is possible |

## Left out

- The SwiftUI layout of `MenuView.body` (padding, colours, the `ForEach` rendering) is left
  out. Only the button actions are modelled.
- The commented-out sample tree and app entry point (CallEm/CallOptions.swift:263-310) are
  left out. They are not live code.
- `MenuOption.id` (a `UUID`) and class reference identity are left out. They exist only for
  list rendering, so nodes compare by value in the model.
- `MenuOption.children` is a `var` in Swift, but it is never reassigned. The datatype field is
  immutable.
- `@Published` and `ObservableObject` change notification is left out. It is plumbing of the
  UI framework.
- The call itself is left out: the telephony SDK, `CallManager`, tokens and the realtime
  verification channel. `sendDigit` is the ghost log `sentDigits`. What the SDK does with a
  digit, and any failure there, is outside the model.
- `CallEm/CallOptions.swift` declares `MenuView` (CallEm/CallOptions.swift:55-63) but never
  constructs it, so the root group is a parameter of `MenuScreen.MenuView.constructor`.
  `RogersMenuDigitsDtmf` covers both plausible choices, `menuTree.children` and `[menuTree]`.
- In a tap, the order "send, then select" is modelled as written. It cannot be
  observed beyond the log, because the digit sent does not depend on the navigator's state.
- The longest title of the shipped menu is a named constant, `MenuTree.WebsiteNotice`, rather
  than inline text. The value is the same.
