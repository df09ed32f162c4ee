/** The static IVR phone-menu tree: its node type and the one literal
    instance the app ships (the Rogers customer-service menu). */
module MenuTree {

  /** A node of the phone menu: the prompt shown to the user, the DTMF keys
      a tap on it sends, and its sub-menu in display order. A node with no
      children is a leaf. The rendering-only UUID is not part of the model. */
  datatype MenuOption = MenuOption(title: string, digit: string, children: seq<MenuOption>)
  {
    predicate IsLeaf() {
      children == []
    }
  }

  /** The keys of a telephone keypad. */
  const DtmfKeys: string := "0123456789*#"

  /** A digit string is sendable as DTMF when every character is a keypad
      key; the empty string qualifies (it sends no tone). */
  predicate IsDtmfSequence(d: string) {
    forall i :: 0 <= i < |d| ==> d[i] in DtmfKeys
  }

  /** Every node of the subtree rooted at `o` carries a DTMF digit string. */
  ghost predicate AllDigitsDtmf(o: MenuOption) {
    && IsDtmfSequence(o.digit)
    && forall c :: c in o.children ==> AllDigitsDtmf(c)
  }

  /** Builds a leaf, as the Swift initialiser does when `children` is omitted. */
  function Leaf(title: string, digit: string): (o: MenuOption) {
    MenuOption(title, digit, [])
  }

  /** A leaf carries no sub-menu, so it is keypad-keyed exactly when its own
      digit is. */
  lemma LeafDigitsDtmf(title: string, digit: string)
    ensures Leaf(title, digit).IsLeaf()
    ensures AllDigitsDtmf(Leaf(title, digit)) <==> IsDtmfSequence(digit)
  {
  }

  const EnterPhone: string :=
    "To better assist you, please enter your 10-digit telephone number, including the area code, then press pound."

  const WebsiteNotice: string := "Most account modifications such as price plan changes or modifying your contact information can be done through Rogers.com. To do so now, hang up and visit www.rogers.com."

  /** The `menuTree` literal, node for node and in the same order; the
      larger sub-menus are constants of their own. */
  const RogersMenu: MenuOption :=
    MenuOption("Welcome to Rogers. For English, press 1. Pour le français, faites le 2.", "",
      [EnglishMenu, Leaf("Pour le français, faites le 2.", "2")])

  const EnglishMenu: MenuOption :=
    MenuOption("For English, press 1.", "1", [
      Leaf("Please enter your phone number, then press pound.", "#"),
      MenuOption("If new to Rogers, press star.", "*",
        [BillingMenu, SupportMenu, ProductsMenu, AccountMenu])
    ])

  const BillingMenu: MenuOption :=
    MenuOption("For billing and payment inquiries, press 1.", "1", [
      MenuOption("For your account balance, press 1.", "1", [Leaf(EnterPhone, "#")]),
      MenuOption("To make a payment, press 2.", "2", [Leaf(EnterPhone, "#")]),
      Leaf("For payment arrangements, press 3.", "3"),
      Leaf("For usage details, press 4.", "4"),
      Leaf("For more options, press 5.", "5")
    ])

  const SupportMenu: MenuOption :=
    MenuOption("For technical support, press 2.", "2", [Leaf(EnterPhone, "#")])

  const ProductsMenu: MenuOption :=
    MenuOption("To add products and services, press 3.", "3", [
      MenuOption("For all your mobile needs, including 5G home Internet, press 1.", "1", [
        Leaf("If you're already a Rogers mobile or 5G home Internet customer, press 1.", "1"),
        Leaf("If you would like to become a new mobile or 5G home Internet customer, press 2.", "2"),
        Leaf("For phone number transfer requests to Rogers, press 3.", "3")
      ]),
      Leaf("For all your residential needs, press 2.", "2")
    ])

  const AccountMenu: MenuOption :=
    MenuOption("For account changes, press 4.", "4", [
      Leaf("For travel-related inquiries, including roaming, press 1.", "1"),
      Leaf("To report a lost or stolen device, press 2.", "2"),
      Leaf("For move-related inquiries, press 3.", "3"),
      Leaf("To change a service, press 4.", "4"),
      Leaf("To cancel a service, press 5.", "5"),
      MoreAccountMenu
    ])

  const MoreAccountMenu: MenuOption :=
    MenuOption("To hear more options, press 6.", "6", [
      Leaf(WebsiteNotice, ""),
      Leaf("To schedule or modify a temporary suspension of your mobile phone, press 1.", "1"),
      Leaf("To update or change your method of payment, press 2.", "2"),
      Leaf("To create or reset your account PIN, press 3.", "3"),
      Leaf("To purchase new products or services, press 4.", "4"),
      Leaf("To update or change your contact number, email address, or billing address, press 5.", "5"),
      Leaf("For all other account changes, press 6.", "6"),
      Leaf("For more information, visit www.rogers.com.", "")
    ])

  /** The top of the literal: the welcome prompt sends nothing, English ("1")
      opens a sub-menu and French ("2") is a leaf. */
  lemma RogersMenuShape()
    ensures RogersMenu.digit == ""
    ensures |RogersMenu.children| == 2
    ensures RogersMenu.children[0].digit == "1" && !RogersMenu.children[0].IsLeaf()
    ensures RogersMenu.children[1].digit == "2" && RogersMenu.children[1].IsLeaf()
  {
  }

  /** A node all of whose children are DTMF-keyed is DTMF-keyed when its own
      digit is. */
  lemma AllDigitsDtmfNode(o: MenuOption)
    requires IsDtmfSequence(o.digit)
    requires forall i :: 0 <= i < |o.children| ==> AllDigitsDtmf(o.children[i])
    ensures AllDigitsDtmf(o)
  {
  }

  lemma BillingMenuDtmf()
    ensures AllDigitsDtmf(BillingMenu)
  {
  }

  lemma ProductsMenuDtmf()
    ensures AllDigitsDtmf(ProductsMenu)
  {
  }

  lemma AccountMenuDtmf()
    ensures AllDigitsDtmf(AccountMenu)
  {
  }

  lemma EnglishMenuDtmf()
    ensures AllDigitsDtmf(EnglishMenu)
  {
    BillingMenuDtmf();
    AllDigitsDtmfNode(SupportMenu);
    ProductsMenuDtmf();
    AccountMenuDtmf();
    var english := EnglishMenu;
    AllDigitsDtmfNode(english.children[1]);
    AllDigitsDtmfNode(english);
  }

  /** Every digit string in the shipped menu is made of keypad keys only
      (digits, star, pound, or nothing). */
  lemma RogersMenuDigitsDtmf()
    ensures AllDigitsDtmf(RogersMenu)
  {
    EnglishMenuDtmf();
    AllDigitsDtmfNode(RogersMenu);
  }
}
