/** The controller object that holds the navigation history and updates it in
    place, one command per request. Each stack is a sequence whose top is its
    last element: push appends, pop removes the last element.
 */
module Browser {
  import N = Navigation

  class BrowserController {
    var currentPage: N.Location
    var backStack: seq<N.Location>
    var forwardStack: seq<N.Location>

    /** The fields as a value of the state machine. */
    ghost function State(): N.History
      reads this
    {
      N.History(currentPage, backStack, forwardStack)
    }

    constructor ()
      ensures currentPage == "Google.com" && backStack == [] && forwardStack == []
      ensures State() == N.Initial()
    {
      backStack := [];
      forwardStack := [];
      currentPage := N.InitialPage;
    }

    /** `visit` guards the push with "current page is not null"; the page
        is never null, so the push always happens. */
    method Visit(url: N.Location)
      modifies this
      ensures currentPage == url
      ensures backStack == old(backStack) + [old(currentPage)]
      ensures forwardStack == []
      ensures State() == N.Visit(old(State()), url)
    {
      backStack := backStack + [currentPage];
      currentPage := url;
      forwardStack := [];
    }

    method Back()
      modifies this
      ensures old(backStack) == [] ==> unchanged(this)
      ensures old(backStack) != [] ==>
                currentPage == old(backStack)[|old(backStack)| - 1] &&
                backStack == old(backStack)[..|old(backStack)| - 1] &&
                forwardStack == old(forwardStack) + [old(currentPage)]
      ensures State() == N.Back(old(State()))
    {
      if backStack != [] {
        forwardStack := forwardStack + [currentPage];
        currentPage := backStack[|backStack| - 1];
        backStack := backStack[..|backStack| - 1];
      }
    }

    method Forward()
      modifies this
      ensures old(forwardStack) == [] ==> unchanged(this)
      ensures old(forwardStack) != [] ==>
                currentPage == old(forwardStack)[|old(forwardStack)| - 1] &&
                forwardStack == old(forwardStack)[..|old(forwardStack)| - 1] &&
                backStack == old(backStack) + [old(currentPage)]
      ensures State() == N.Forward(old(State()))
    {
      if forwardStack != [] {
        backStack := backStack + [currentPage];
        currentPage := forwardStack[|forwardStack| - 1];
        forwardStack := forwardStack[..|forwardStack| - 1];
      }
    }

    method Clear()
      modifies this
      ensures currentPage == "Home" && backStack == [] && forwardStack == []
      ensures State() == N.Clear(old(State()))
    {
      backStack := [];
      forwardStack := [];
      currentPage := N.HomePage;
    }

    /** The attributes handed to the view: it changes nothing. */
    method UpdateView() returns (v: N.View)
      ensures v == N.ViewOf(State())
      ensures v.hasBack <==> backStack != []
      ensures v.hasForward <==> forwardStack != []
    {
      v := N.ViewOf(N.History(currentPage, backStack, forwardStack));
    }
  }

  /** One run as a client's requests would drive it: visit A, visit B, back,
      then the view. */
  method Session() returns (v: N.View)
    ensures v == N.View("A", ["Google.com"], ["B"], true, true)
  {
    var c := new BrowserController();
    c.Visit("A");
    c.Visit("B");
    c.Back();
    v := c.UpdateView();
  }
}
