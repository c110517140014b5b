/** The collapsible section of the profile page (`Collapsible`): it starts
    open unless told otherwise or empty, a click on the header flips it, and
    an open empty section shows a placeholder instead of its children.
 */
module Collapsible {
  import opened Wrappers

  /** The optional props that decide behaviour; an omitted one is `None`
      and takes its default (`defaultOpen = true`, `isEmpty = false`). */
  datatype Props = Props(defaultOpen: Option<bool>, isEmpty: Option<bool>)

  predicate IsEmpty(props: Props) {
    props.isEmpty.GetOr(false)
  }

  /** The initial `isOpen`. */
  function InitiallyOpen(props: Props): (open: bool)
    ensures open ==> !IsEmpty(props)
    ensures open <==> props.defaultOpen != Some(false) && props.isEmpty != Some(true)
  {
    props.defaultOpen.GetOr(true) && !IsEmpty(props)
  }

  /** With every prop omitted, the section starts open. */
  lemma DefaultsStartOpen()
    ensures InitiallyOpen(Props(None, None))
  {
  }

  /** A click on the header. */
  function Toggle(isOpen: bool): (next: bool)
    ensures next != isOpen
  {
    !isOpen
  }

  datatype BodyView = Hidden | Placeholder | Children

  /** The section as drawn: whether the chevron is turned, whether the
      "Empty" tag shows, and what the body shows. */
  datatype View = View(chevronTurned: bool, emptyTag: bool, body: BodyView)

  function Render(props: Props, isOpen: bool): (v: View)
    ensures v.chevronTurned == isOpen
    ensures v.emptyTag == IsEmpty(props)
    ensures v.body.Hidden? <==> !isOpen
    ensures v.body.Placeholder? <==> isOpen && IsEmpty(props)
    ensures v.body.Children? <==> isOpen && !IsEmpty(props)
  {
    View(isOpen, IsEmpty(props),
         if !isOpen then Hidden else if IsEmpty(props) then Placeholder else Children)
  }

  /** An empty section starts closed even when asked to start open, and
      one click opens it onto the placeholder, never the children. */
  lemma EmptySectionOpensOntoPlaceholder(props: Props)
    requires IsEmpty(props)
    ensures Render(props, InitiallyOpen(props)).body == Hidden
    ensures Render(props, Toggle(InitiallyOpen(props))).body == Placeholder
  {
  }
}
