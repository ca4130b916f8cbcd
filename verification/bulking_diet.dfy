/** The surplus variant: a regular surplus of 500 calories a day or a lean one of 250. */
module Bulking {
  import opened Wrappers
  import opened Numbers

  const RegularSurplus: int := 500
  const LeanSurplus: int := 250

  /** The surplus a plan adds to its TDEE, given whether it is lean bulking. */
  function Surplus(lean: bool): (s: int)
    ensures s == LeanSurplus || s == RegularSurplus
    ensures lean <==> s == LeanSurplus
  {
    if lean then LeanSurplus else RegularSurplus
  }

  /** The lean flag after a menu option: option 1 switches between lean and regular,
      option 2 ("No Action") and every unknown option keep it. */
  function LeanAfter(lean: bool, option: int): (l: bool)
    ensures option == 1 ==> Surplus(l) != Surplus(lean)
    ensures option != 1 ==> Surplus(l) == Surplus(lean)
  {
    match option
    case 1 => !lean
    case 2 => lean
    case _ => lean
  }

  /** Choosing option 1 twice restores the surplus. */
  lemma ToggleTwice(lean: bool)
    ensures LeanAfter(LeanAfter(lean, 1), 1) == lean
  {
  }

  /** The description of the surplus option 1 switches to. */
  function SwitchLabel(lean: bool): string {
    if !lean then "250 calories (Lean Bulk)" else "500 calories (Regular Bulk)"
  }

  /** The menu changeCalorieOffset returns: option 1 offers the surplus, and its kind,
      that option 1 switches to. */
  function Menu(lean: bool): (s: string)
    ensures s == "Choose option" + NewLine + "(1) Switch to a surplus of "
                 + (IntToString(Surplus(LeanAfter(lean, 1))) + " calories ("
                    + (if LeanAfter(lean, 1) then "Lean" else "Regular") + " Bulk)")
                 + NewLine + "(2) No Action"
  {
    MenuOffersToggle(lean);
    "Choose option" + NewLine + "(1) Switch to a surplus of " + SwitchLabel(lean) + NewLine + "(2) No Action"
  }

  /** Integer.toString of the two surpluses. */
  lemma SurplusText()
    ensures IntToString(LeanSurplus) == "250" && IntToString(RegularSurplus) == "500"
  {
    assert NatToString(2) == "2" && NatToString(25) == "25";
    assert NatToString(5) == "5" && NatToString(50) == "50";
  }

  /** The label option 1 offers, given the text of the surplus it switches to, the kind
      of that surplus and their join. */
  lemma ToggleLabel(lean: bool, amount: string, kind: string)
    requires IntToString(Surplus(LeanAfter(lean, 1))) == amount
    requires (if LeanAfter(lean, 1) then "Lean" else "Regular") == kind
    requires SwitchLabel(lean) == amount + " calories (" + kind + " Bulk)"
    ensures SwitchLabel(lean)
         == IntToString(Surplus(LeanAfter(lean, 1))) + " calories ("
            + (if LeanAfter(lean, 1) then "Lean" else "Regular") + " Bulk)"
  {
  }

  /** The menu's option 1 names exactly the surplus, and its kind, that option 1 switches to. */
  lemma MenuOffersToggle(lean: bool)
    ensures SwitchLabel(lean)
         == IntToString(Surplus(LeanAfter(lean, 1))) + " calories ("
            + (if LeanAfter(lean, 1) then "Lean" else "Regular") + " Bulk)"
  {
    if lean {
      assert "500" + " calories (" + "Regular" + " Bulk)" == "500 calories (Regular Bulk)";
      SurplusText();
      ToggleLabel(lean, "500", "Regular");
    } else {
      assert "250" + " calories (" + "Lean" + " Bulk)" == "250 calories (Lean Bulk)";
      SurplusText();
      ToggleLabel(lean, "250", "Lean");
    }
  }
}
