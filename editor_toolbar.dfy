/**
 * The toolbar's format switching (composetexteditor/toolbar/EditorToolbar.kt):
 * `handleActionClick`, which toggles one format in the active set with
 * Heading and Subheading excluding each other, and the click handlers of the
 * Heading and Subheading buttons, which dispatch one or two actions.
 */
module EditorToolbar {
  import F = FormattingActions

  /** `handleActionClick(action, activeFormatting)`: the active set after one click. */
  function HandleActionClick(action: F.FormattingAction, activeFormatting: set<F.FormattingAction>): set<F.FormattingAction>
  {
    match action
    case Heading =>
      if F.Heading in activeFormatting then activeFormatting - {F.Heading}
      else activeFormatting - {F.Subheading} + {F.Heading}
    case Subheading =>
      if F.Subheading in activeFormatting then activeFormatting - {F.Subheading}
      else activeFormatting - {F.Heading} + {F.Subheading}
    case _ =>
      if action in activeFormatting then activeFormatting - {action}
      else activeFormatting + {action}
  }

  /** Heading and Subheading are never active together. */
  predicate HeadingsExclusive(activeFormatting: set<F.FormattingAction>)
  {
    !(F.Heading in activeFormatting && F.Subheading in activeFormatting)
  }

  /** Any action but Heading and Subheading flips its own membership and no other. */
  lemma OtherActionToggles(action: F.FormattingAction, s: set<F.FormattingAction>)
    requires action != F.Heading && action != F.Subheading
    ensures forall x :: x in HandleActionClick(action, s) <==> (if x == action then x !in s else x in s)
  {
  }

  /** Clicking an action other than Heading and Subheading twice gives back the set it started from. */
  lemma OtherActionTwiceRestores(action: F.FormattingAction, s: set<F.FormattingAction>)
    requires action != F.Heading && action != F.Subheading
    ensures HandleActionClick(action, HandleActionClick(action, s)) == s
  {
    OtherActionToggles(action, s);
    OtherActionToggles(action, HandleActionClick(action, s));
  }

  /**
   * Heading flips Heading; selecting it drops Subheading, deselecting it
   * leaves Subheading alone; every other format stays as it was.
   */
  lemma HeadingClick(s: set<F.FormattingAction>)
    ensures var r := HandleActionClick(F.Heading, s);
      && (F.Heading in r <==> F.Heading !in s)
      && (F.Subheading in r <==> F.Heading in s && F.Subheading in s)
      && forall x :: x != F.Heading && x != F.Subheading ==> (x in r <==> x in s)
  {
  }

  /** Subheading is the mirror image of Heading. */
  lemma SubheadingClick(s: set<F.FormattingAction>)
    ensures var r := HandleActionClick(F.Subheading, s);
      && (F.Subheading in r <==> F.Subheading !in s)
      && (F.Heading in r <==> F.Subheading in s && F.Heading in s)
      && forall x :: x != F.Heading && x != F.Subheading ==> (x in r <==> x in s)
  {
  }

  /** No click can make Heading and Subheading active together. */
  lemma ClickKeepsHeadingsExclusive(action: F.FormattingAction, s: set<F.FormattingAction>)
    requires HeadingsExclusive(s)
    ensures HeadingsExclusive(HandleActionClick(action, s))
  {
    if action == F.Heading {
      HeadingClick(s);
    } else if action == F.Subheading {
      SubheadingClick(s);
    } else {
      OtherActionToggles(action, s);
    }
  }

  /**
   * The screen hands every action the toolbar dispatches to
   * `handleActionClick` on its current set: the set after a run of clicks.
   */
  function Dispatched(actions: seq<F.FormattingAction>, activeFormatting: set<F.FormattingAction>): set<F.FormattingAction>
  {
    if actions == [] then activeFormatting
    else Dispatched(actions[1..], HandleActionClick(actions[0], activeFormatting))
  }

  /** The actions the Heading button dispatches: Heading alone, or Subheading then Heading. */
  function HeadingButtonActions(activeFormatting: set<F.FormattingAction>): seq<F.FormattingAction>
  {
    if F.Heading in activeFormatting then [F.Heading] else [F.Subheading, F.Heading]
  }

  /** The actions the Subheading button dispatches: Subheading alone, or Heading then Subheading. */
  function SubheadingButtonActions(activeFormatting: set<F.FormattingAction>): seq<F.FormattingAction>
  {
    if F.Subheading in activeFormatting then [F.Subheading] else [F.Heading, F.Subheading]
  }

  /**
   * The Heading button deselects Heading when it is active; otherwise it ends
   * with Heading active and Subheading not, whether Subheading was active or
   * not, and leaves every other format alone.
   */
  lemma HeadingButtonClick(s: set<F.FormattingAction>)
    ensures var r := Dispatched(HeadingButtonActions(s), s);
      && (F.Heading in r <==> F.Heading !in s)
      && (F.Heading in s ==> (F.Subheading in r <==> F.Subheading in s))
      && (F.Heading !in s ==> F.Subheading !in r)
      && forall x :: x != F.Heading && x != F.Subheading ==> (x in r <==> x in s)
  {
    if F.Heading !in s {
      var t := HandleActionClick(F.Subheading, s);
      assert [F.Subheading, F.Heading][1..] == [F.Heading] && [F.Heading][1..] == [];
      assert Dispatched([F.Heading], t) == HandleActionClick(F.Heading, t);
      SubheadingClick(s);
      HeadingClick(HandleActionClick(F.Subheading, s));
    } else {
      HeadingClick(s);
    }
  }

  /** The Subheading button is the mirror image of the Heading button. */
  lemma SubheadingButtonClick(s: set<F.FormattingAction>)
    ensures var r := Dispatched(SubheadingButtonActions(s), s);
      && (F.Subheading in r <==> F.Subheading !in s)
      && (F.Subheading in s ==> (F.Heading in r <==> F.Heading in s))
      && (F.Subheading !in s ==> F.Heading !in r)
      && forall x :: x != F.Heading && x != F.Subheading ==> (x in r <==> x in s)
  {
    if F.Subheading !in s {
      var t := HandleActionClick(F.Heading, s);
      assert [F.Heading, F.Subheading][1..] == [F.Subheading] && [F.Subheading][1..] == [];
      assert Dispatched([F.Subheading], t) == HandleActionClick(F.Subheading, t);
      HeadingClick(s);
      SubheadingClick(HandleActionClick(F.Heading, s));
    } else {
      SubheadingClick(s);
    }
  }
}
