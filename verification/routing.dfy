/** Navigation requests as react-router receives them: a path and an optional state object. */
module Routing {
  import opened Wrappers

  /** The state object a navigation may carry to the confirmation page. */
  datatype NavState = NavState(customerName: Option<string>, productName: Option<string>)

  datatype Navigation = Navigation(path: string, state: Option<NavState>)
}
