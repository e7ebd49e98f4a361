# Browser navigation history, in Dafny

This project models the navigation history of the browser-stack simulator's
`BrowserController`. The state is a current page and two stacks of pages: the
back stack and the forward stack. Four commands change that state in place:

- `visit(url)` pushes the current page onto the back stack, makes `url`
  current and empties the forward stack.
- `back()` moves the current page onto the forward stack and pops the back
  stack into current. It does nothing when the back stack is empty.
- `forward()` does the same in the other direction.
- `clear()` empties both stacks and makes `"Home"` current.

`updateView` hands the view the three fields and two flags, `hasBack` and
`hasForward`.

Two modules hold the model:

- `navigation.dfy`, module `Navigation`: the state machine on values. It has
  the `History` triple, one function per command, the `View` projection, and
  `Run` over a list of commands. The lemmas beside them state the laws: round
  trips, no-ops, reset, conservation, and a size bound. A stack is a
  `seq<string>` whose top is its last element. `updateView` passes the
  `Stack` objects themselves to the view (lines 64-65), and a `Stack`
  iterates bottom to top, which is the order of the sequence. `Line(h)` is the whole browsing line
  `back + [current] + reversed(forward)`. Back and Forward keep it unchanged
  and only move the current page along it. Visit cuts the line just after the
  current page and appends the new page.
- `browser_controller.dfy`, module `Browser`: class `BrowserController`. Its
  three fields are updated in place by one method per command. Each method
  states the new triple explicitly, and that the new `State()` is the matching
  `Navigation` function applied to the old one.

Three points about the code that the model keeps:

- The controller starts on `"Google.com"`. Only `clear()` sets `"Home"`.
- Nothing stops the current page from also being in a stack. Visiting the
  page already shown pushes it again. `VisitDoesNotDeduplicate` shows this.
- The stacks have no capacity bound.

## Model

| member | source | states |
|---|---|---|
| Navigation.Visit | mybrowser/src/main/java/com/example/demo/BrowserController.java:25-27 | the browsing line is cut just after the old current page and the new page is appended; the back stack grows by one; the forward stack is empty |
| Navigation.Back | mybrowser/src/main/java/com/example/demo/BrowserController.java:34-37 | with a non-empty back stack, the new current page is the one just before the old current on the browsing line, the back stack shrinks by one, and the old current page is pushed on the forward stack; the browsing line and the multiset of all locations held are unchanged; with an empty back stack the state is unchanged |
| Navigation.Forward | mybrowser/src/main/java/com/example/demo/BrowserController.java:44-47 | with a non-empty forward stack, the new current page is the one just after the old current on the browsing line, the back stack grows by one, and the forward stack loses its top; the browsing line and the multiset of all locations are unchanged; with an empty forward stack the state is unchanged |
| Navigation.Clear | mybrowser/src/main/java/com/example/demo/BrowserController.java:55-57 | the browsing line becomes just `"Home"` |
| Navigation.ViewOf | mybrowser/src/main/java/com/example/demo/BrowserController.java:63-68 | the view carries the three fields; `hasBack` holds exactly when Back would change the state, and `hasForward` exactly when Forward would |
| Navigation.InitialState | mybrowser/src/main/java/com/example/demo/BrowserController.java:13-15 | the initial state is `("Google.com", [], [])`; both flags are false; Back and Forward do nothing on it |
| Navigation.VisitDiscardsForward | mybrowser/src/main/java/com/example/demo/BrowserController.java:25-27 | after any visit, current is the visited page and Forward is a no-op; Back right after a visit returns to the old current page and back stack, with only the visited page ahead |
| Navigation.VisitDoesNotDeduplicate | mybrowser/src/main/java/com/example/demo/BrowserController.java:25 | visiting the current page again grows the back stack by exactly one and changes the state; afterwards the current page is also in the back stack |
| Navigation.BackForwardRoundTrip | mybrowser/src/main/java/com/example/demo/BrowserController.java:34-36 | Forward after Back restores the exact prior state if and only if the back stack was non-empty or the forward stack was empty |
| Navigation.ForwardBackRoundTrip | mybrowser/src/main/java/com/example/demo/BrowserController.java:44-46 | Back after Forward restores the exact prior state if and only if the forward stack was non-empty or the back stack was empty |
| Navigation.NoOpExactlyOnEmpty | mybrowser/src/main/java/com/example/demo/BrowserController.java:34-47 | Back leaves the state unchanged if and only if the back stack is empty; Forward likewise for the forward stack |
| Navigation.ClearResets | mybrowser/src/main/java/com/example/demo/BrowserController.java:55-57 | Clear yields `("Home", [], [])` from any state; it is idempotent; Back and Forward are no-ops after it; the only location left is `"Home"` |
| Navigation.MovesKeepLine | mybrowser/src/main/java/com/example/demo/BrowserController.java:34-46 | any sequence of Back and Forward commands leaves the browsing line unchanged |
| Navigation.MovesKeepLocations | mybrowser/src/main/java/com/example/demo/BrowserController.java:34-46 | any sequence of Back and Forward commands keeps the multiset of all locations held and the total size of the two stacks |
| Navigation.StackedBoundedByVisits | mybrowser/src/main/java/com/example/demo/BrowserController.java:25-57 | over any command sequence, the two stacks together grow by at most one page per Visit |
| Navigation.StackedSinceClear | mybrowser/src/main/java/com/example/demo/BrowserController.java:55-57 | after a Clear, the stacks together hold at most as many pages as there were later visits |
| Navigation.RunAppend | mybrowser/src/main/java/com/example/demo/BrowserController.java:25-57 | running one command list and then another ends in the same state as running the two joined |
| Navigation.StackedSinceLastClear | mybrowser/src/main/java/com/example/demo/BrowserController.java:55-57 | whatever commands came before the last Clear, the stacks together hold at most as many pages as there were visits after it |
| Navigation.WalkthroughStates | mybrowser/src/main/java/com/example/demo/BrowserController.java:25-57 | from the reset state, the walk visit A, visit B, back, back, forward, visit C passes through `(A,[Home],[])`, `(B,[Home,A],[])`, `(A,[Home],[B])`, `(Home,[],[B,A])`, `(A,[Home],[B])` and `(C,[Home,A],[])` |
| Navigation.Walkthrough | mybrowser/src/main/java/com/example/demo/BrowserController.java:25-57 | running clear and then that walk as one command list ends in `(C,[Home,A],[])` from any state |
| Browser.BrowserController.constructor | mybrowser/src/main/java/com/example/demo/BrowserController.java:13-15 | a new controller holds `"Google.com"` and two empty stacks |
| Browser.BrowserController.Visit | mybrowser/src/main/java/com/example/demo/BrowserController.java:24-27 | in place: the old current page is pushed on the back stack, `url` becomes current and the forward stack is emptied; the new state is `Navigation.Visit` of the old one |
| Browser.BrowserController.Back | mybrowser/src/main/java/com/example/demo/BrowserController.java:33-37 | in place: nothing changes when the back stack is empty; otherwise the old current page is pushed on the forward stack and the back stack's top is popped into current; the new state is `Navigation.Back` of the old one |
| Browser.BrowserController.Forward | mybrowser/src/main/java/com/example/demo/BrowserController.java:43-47 | in place: nothing changes when the forward stack is empty; otherwise the old current page is pushed on the back stack and the forward stack's top is popped into current; the new state is `Navigation.Forward` of the old one |
| Browser.BrowserController.Clear | mybrowser/src/main/java/com/example/demo/BrowserController.java:54-57 | in place: both stacks are emptied and `"Home"` becomes current; the new state is `Navigation.Clear` of the old one |
| Browser.BrowserController.UpdateView | mybrowser/src/main/java/com/example/demo/BrowserController.java:62-68 | without changing anything, returns `Navigation.ViewOf` of the current state; `hasBack` holds exactly when the back stack is non-empty, and `hasForward` exactly when the forward stack is non-empty |
| Browser.Session | mybrowser/src/main/java/com/example/demo/BrowserController.java:13-68 | a fresh controller driven through visit A, visit B and back shows current A, back history `[Google.com]`, forward history `[B]`, and both flags set |

## Left out

- Spring MVC routing, request-parameter binding and the `"index"` view names
  (lines 10, 17-24, 29, 32-33, 39, 42-43, 49, 53-54, 59) are framework
  plumbing with no logic. Each handler's `updateView(model)` call (lines 28,
  38, 48, 58) is the read-only projection that `UpdateView` models.
  The `index` handler only renders the view; `UpdateView` covers that.
- `Model.addAttribute` is a library call. `UpdateView` returns the projected
  values as a `View` instead of filling an attribute map.
- The view receives the live stack objects (lines 64-65). The model returns
  sequence values, so the template modifying the stacks through that alias
  is not captured.
- The controller is a singleton shared by all HTTP requests without
  synchronisation. The model treats each command as one atomic step on one
  instance.
- The null check before the push in `visit` (line 25) is always true. The
  page starts non-null and is only ever set from a required request
  parameter, from the literal `"Home"` (line 57), or from a stack of non-null
  pages. The model therefore pushes
  unconditionally, with `current` as a plain string.
