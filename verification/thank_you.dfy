/** The confirmation page (src/pages/ThankYou.tsx): it thanks the customer by name for
    feedback about a product, falling back to generic words for whatever the navigation state
    does not supply, and sends a visitor who arrives without any state back to "/". */
module ThankYou {
  import opened Wrappers
  import opened Text
  import opened Routing
  import FeedbackForm

  const DefaultName: string := "Valued Customer"
  const DefaultProduct: string := "our products"
  const RootRoute: string := "/"

  /** `a || fallback` on an optional string: an absent value and the empty string are both
      falsy and give the fallback. */
  function OrDefault(a: Option<string>, fallback: string): (r: string)
    ensures a.Some? && a.value != "" ==> r == a.value
    ensures a.None? || a.value == "" ==> r == fallback
  {
    if a.Some? && a.value != "" then a.value else fallback
  }

  /** `location.state?.customerName || "Valued Customer"`: never empty. */
  function DisplayName(state: Option<NavState>): (name: string)
    ensures name != ""
    ensures (state.Some? && state.value.customerName.Some? && state.value.customerName.value != "")
            ==> name == state.value.customerName.value
    ensures (state.None? || state.value.customerName.None? || state.value.customerName.value == "")
            ==> name == DefaultName
  {
    if state.Some? then OrDefault(state.value.customerName, DefaultName) else DefaultName
  }

  /** `location.state?.productName || "our products"`: never empty. */
  function DisplayProduct(state: Option<NavState>): (product: string)
    ensures product != ""
    ensures (state.Some? && state.value.productName.Some? && state.value.productName.value != "")
            ==> product == state.value.productName.value
    ensures (state.None? || state.value.productName.None? || state.value.productName.value == "")
            ==> product == DefaultProduct
  {
    if state.Some? then OrDefault(state.value.productName, DefaultProduct) else DefaultProduct
  }

  /** The mount effect: with no state object the page navigates to "/"; with one, however
      empty its fields, it stays. */
  function RedirectOnMount(state: Option<NavState>): (redirect: Option<string>)
    ensures redirect.Some? <==> state.None?
    ensures redirect.Some? ==> redirect.value == RootRoute
  {
    if state.None? then Some(RootRoute) else None
  }

  /** The thank-you paragraph. */
  function Message(name: string, product: string): (m: string)
    ensures "Thank you " <= m
  {
    "Thank you " + name + " for your valuable feedback about " + product
      + ". Your input helps us improve our products and services."
  }

  /** The paragraph names the customer and the product it was given. */
  lemma MessageMentionsBoth(name: string, product: string)
    ensures Contains(Message(name, product), name)
    ensures Contains(Message(name, product), product)
  {
    var m := Message(name, product);
    var middle := " for your valuable feedback about ";
    var p := 10 + |name| + |middle|;
    assert name <= m[10..];
    ContainsAt(m, name, 10);
    assert product <= m[p..];
    ContainsAt(m, product, p);
  }

  /** "Back to Home". */
  function BackToHome(): (nav: Navigation)
    ensures nav.path == RootRoute && nav.state.None?
  {
    Navigation(RootRoute, None)
  }

  /** Every navigation the feedback page makes carries no state, so the confirmation page it
      leads to redirects to "/" at once and would only have thanked a "Valued Customer" for
      feedback about "our products". */
  lemma FeedbackArrivalRedirects(page: FeedbackForm.FeedbackPage, i: nat)
    requires page.Valid() && i < |page.navigations|
    ensures RedirectOnMount(page.navigations[i].state) == Some(RootRoute)
    ensures Message(DisplayName(page.navigations[i].state), DisplayProduct(page.navigations[i].state))
              == Message(DefaultName, DefaultProduct)
  {
  }
}
