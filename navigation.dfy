/** The navigation-history state machine of the browser simulator, on values.

    A state is the triple (current page, back stack, forward stack). Each
    stack is a sequence whose top is its LAST element, so the sequence runs
    bottom to top, as a Java Stack iterates. The four commands are
    total: an empty stack turns Back or Forward into a no-op.
 */
module Navigation {

  type Location = string

  /** The page the controller shows when it is created. */
  const InitialPage: Location := "Google.com"
  /** The page Clear resets to. */
  const HomePage: Location := "Home"

  datatype History = History(current: Location, back: seq<Location>, forward: seq<Location>)

  /** What the view is given: the three fields and the two button flags. */
  datatype View = View(current: Location, backHistory: seq<Location>, forwardHistory: seq<Location>,
                       hasBack: bool, hasForward: bool)

  datatype Command = VisitCmd(url: Location) | BackCmd | ForwardCmd | ClearCmd

  function Initial(): History {
    History(InitialPage, [], [])
  }

  /** The top of a non-empty stack. */
  function Top(s: seq<Location>): Location
    requires s != []
  {
    s[|s| - 1]
  }

  /** A non-empty stack with its top removed. */
  function Popped(s: seq<Location>): seq<Location>
    requires s != []
  {
    s[..|s| - 1]
  }

  /** Every location the state holds, counted with multiplicity. */
  function Locations(h: History): multiset<Location> {
    multiset(h.back) + multiset{h.current} + multiset(h.forward)
  }

  /** The number of locations held in the two stacks. */
  function Stacked(h: History): nat {
    |h.back| + |h.forward|
  }

  function Reversed(s: seq<Location>): (r: seq<Location>)
    ensures |r| == |s|
  {
    if s == [] then [] else Reversed(s[1..]) + [s[0]]
  }

  /** The whole browsing line, oldest first: the back stack bottom to top,
      the current page, then the forward stack from top to bottom (the order
      in which Forward would reach its pages). The current page sits at
      index |h.back|. */
  function Line(h: History): seq<Location> {
    h.back + [h.current] + Reversed(h.forward)
  }

  /** visit(url): the current page is pushed on the back stack, url becomes
      current and the forward branch is discarded. */
  function Visit(h: History, url: Location): (r: History)
    ensures Line(r) == Line(h)[..|h.back| + 1] + [url]
    ensures |r.back| == |h.back| + 1 && r.forward == []
  {
    History(url, h.back + [h.current], [])
  }

  /** back(): when the back stack is non-empty, the current page goes on the
      forward stack and the top of the back stack becomes current. */
  function Back(h: History): (r: History)
    ensures Line(r) == Line(h)
    ensures Locations(r) == Locations(h)
    ensures h.back != [] ==> |r.back| == |h.back| - 1 && r.current == Line(h)[|h.back| - 1]
    ensures h.back != [] ==> r.forward == h.forward + [h.current]
    ensures h.back == [] ==> r == h
  {
    if h.back == [] then h
    else
      var r := History(Top(h.back), Popped(h.back), h.forward + [h.current]);
      assert h.back == Popped(h.back) + [Top(h.back)];
      ReversedSnoc(h.forward, h.current);
      r
  }

  /** forward(): the mirror of back(). */
  function Forward(h: History): (r: History)
    ensures Line(r) == Line(h)
    ensures Locations(r) == Locations(h)
    ensures h.forward != [] ==> |r.back| == |h.back| + 1 && r.current == Line(h)[|h.back| + 1]
    ensures h.forward != [] ==> r.forward == Popped(h.forward)
    ensures h.forward == [] ==> r == h
  {
    if h.forward == [] then h
    else
      var r := History(Top(h.forward), h.back + [h.current], Popped(h.forward));
      assert h.forward == Popped(h.forward) + [Top(h.forward)];
      ReversedSnoc(Popped(h.forward), Top(h.forward));
      r
  }

  /** clear(): both stacks emptied, current reset to "Home". */
  function Clear(h: History): (r: History)
    ensures Line(r) == [HomePage]
  {
    History(HomePage, [], [])
  }

  /** The projection handed to the view: the flags say whether the Back and
      Forward buttons would do anything. */
  function ViewOf(h: History): (v: View)
    ensures v.current == h.current && v.backHistory == h.back && v.forwardHistory == h.forward
    ensures v.hasBack <==> Back(h) != h
    ensures v.hasForward <==> Forward(h) != h
  {
    View(h.current, h.back, h.forward, h.back != [], h.forward != [])
  }

  function Apply(h: History, c: Command): History {
    match c
    case VisitCmd(url) => Visit(h, url)
    case BackCmd => Back(h)
    case ForwardCmd => Forward(h)
    case ClearCmd => Clear(h)
  }

  /** The state after running the commands in order. */
  function Run(h: History, cmds: seq<Command>): History
    decreases |cmds|
  {
    if cmds == [] then h else Run(Apply(h, cmds[0]), cmds[1..])
  }

  /** The number of visits among the commands. */
  function Visits(cmds: seq<Command>): nat {
    if cmds == [] then 0 else (if cmds[0].VisitCmd? then 1 else 0) + Visits(cmds[1..])
  }

  /** Whether the commands are all Back or Forward. */
  predicate OnlyMoves(cmds: seq<Command>) {
    forall i :: 0 <= i < |cmds| ==> cmds[i].BackCmd? || cmds[i].ForwardCmd?
  }

  lemma {:induction false} ReversedSnoc(s: seq<Location>, x: Location)
    ensures Reversed(s + [x]) == [x] + Reversed(s)
    decreases |s|
  {
    if s == [] {
      assert s + [x] == [x];
    } else {
      assert (s + [x])[1..] == s[1..] + [x];
      ReversedSnoc(s[1..], x);
    }
  }

  // ---------------------------------------------------------------------
  // Laws of the state machine

  /** The controller starts on "Google.com" with nothing to go back or
      forward to. */
  lemma InitialState()
    ensures Initial().current == "Google.com"
    ensures !ViewOf(Initial()).hasBack && !ViewOf(Initial()).hasForward
    ensures Back(Initial()) == Initial() && Forward(Initial()) == Initial()
  {
  }

  /** Visiting replaces the whole forward branch, whatever the prior state,
      and afterwards Forward has nothing to do. */
  lemma VisitDiscardsForward(h: History, url: Location)
    ensures Visit(h, url).current == url
    ensures Forward(Visit(h, url)) == Visit(h, url)
    ensures Back(Visit(h, url)) == History(h.current, h.back, [url])
  {
  }

  /** Visiting the page already shown still records it: the back stack grows
      by one and the state changes, so a state may hold its current page in a
      stack. */
  lemma VisitDoesNotDeduplicate(h: History)
    ensures |Visit(h, h.current).back| == |h.back| + 1
    ensures Visit(h, h.current) != h
    ensures Visit(h, h.current).current in Visit(h, h.current).back
  {
  }

  /** Back then Forward restores the state exactly when there was somewhere
      to go back to. */
  lemma BackForwardRoundTrip(h: History)
    ensures Forward(Back(h)) == h <==> h.back != [] || h.forward == []
  {
  }

  /** Forward then Back restores the state when there was somewhere to go
      forward to. */
  lemma ForwardBackRoundTrip(h: History)
    ensures Back(Forward(h)) == h <==> h.forward != [] || h.back == []
  {
  }

  /** Back is a no-op exactly when the back stack is empty; likewise Forward. */
  lemma NoOpExactlyOnEmpty(h: History)
    ensures Back(h) == h <==> h.back == []
    ensures Forward(h) == h <==> h.forward == []
  {
  }

  /** Clear forgets everything, is idempotent, and leaves Back and Forward
      nothing to do. */
  lemma ClearResets(h: History)
    ensures Clear(h) == History("Home", [], [])
    ensures Back(Clear(h)) == Clear(h) && Forward(Clear(h)) == Clear(h)
    ensures Clear(Clear(h)) == Clear(h)
    ensures Locations(Clear(h)) == multiset{"Home"}
  {
  }

  /** Commands after the first of a list of moves are moves too. */
  lemma MovesTail(cmds: seq<Command>)
    requires cmds != [] && OnlyMoves(cmds)
    ensures OnlyMoves(cmds[1..])
    ensures cmds[0].BackCmd? || cmds[0].ForwardCmd?
  {
  }

  /** Any mix of Back and Forward keeps the browsing line; only the position
      of the current page on it moves. */
  lemma {:induction false} MovesKeepLine(h: History, cmds: seq<Command>)
    requires OnlyMoves(cmds)
    ensures Line(Run(h, cmds)) == Line(h)
    decreases |cmds|
  {
    if cmds != [] {
      MovesTail(cmds);
      MovesKeepLine(Apply(h, cmds[0]), cmds[1..]);
    }
  }

  /** Any mix of Back and Forward keeps every location held, and so the
      number of pages in the two stacks. */
  lemma {:induction false} MovesKeepLocations(h: History, cmds: seq<Command>)
    requires OnlyMoves(cmds)
    ensures Locations(Run(h, cmds)) == Locations(h)
    ensures Stacked(Run(h, cmds)) == Stacked(h)
    decreases |cmds|
  {
    if cmds != [] {
      MovesTail(cmds);
      MovesKeepLocations(Apply(h, cmds[0]), cmds[1..]);
    }
  }

  /** The stacks together never hold more pages than they started with plus
      one per visit: Back and Forward only move pages, Clear drops them. */
  lemma {:induction false} StackedBoundedByVisits(h: History, cmds: seq<Command>)
    ensures Stacked(Run(h, cmds)) <= Stacked(h) + Visits(cmds)
    decreases |cmds|
  {
    if cmds != [] {
      var h' := Apply(h, cmds[0]);
      StackedBoundedByVisits(h', cmds[1..]);
      match cmds[0]
      case VisitCmd(url) =>
        assert Stacked(h') <= Stacked(h) + 1;
      case BackCmd =>
        assert Stacked(h') == Stacked(h);
      case ForwardCmd =>
        assert Stacked(h') == Stacked(h);
      case ClearCmd =>
        assert Stacked(h') == 0;
    }
  }

  /** After a Clear, the stacks hold at most one page per later visit. */
  lemma StackedSinceClear(h: History, cmds: seq<Command>)
    ensures Stacked(Run(h, [ClearCmd] + cmds)) <= Visits(cmds)
  {
    assert ([ClearCmd] + cmds)[1..] == cmds;
    StackedBoundedByVisits(Clear(h), cmds);
  }

  /** Running two command lists one after the other is running them joined. */
  lemma {:induction false} RunAppend(h: History, a: seq<Command>, b: seq<Command>)
    ensures Run(h, a + b) == Run(Run(h, a), b)
    decreases |a|
  {
    if a != [] {
      assert (a + b)[1..] == a[1..] + b;
      RunAppend(Apply(h, a[0]), a[1..], b);
    } else {
      assert a + b == b;
    }
  }

  /** Whatever came before the last Clear, the stacks hold at most one page
      per visit after it. */
  lemma StackedSinceLastClear(h: History, pre: seq<Command>, post: seq<Command>)
    ensures Stacked(Run(h, pre + [ClearCmd] + post)) <= Visits(post)
  {
    assert pre + [ClearCmd] + post == pre + ([ClearCmd] + post);
    RunAppend(h, pre, [ClearCmd] + post);
    StackedSinceClear(Run(h, pre), post);
  }

  /** Running a command list is running its first command, then the rest. */
  lemma RunCons(h: History, c: Command, rest: seq<Command>)
    ensures Run(h, [c] + rest) == Run(Apply(h, c), rest)
  {
  }

  /** The states a walk through visits, backs, a forward and a fresh visit
      passes through, from the reset state. */
  lemma WalkthroughStates(h: History)
    ensures Visit(Clear(h), "A") == History("A", ["Home"], [])
    ensures Visit(Visit(Clear(h), "A"), "B") == History("B", ["Home", "A"], [])
    ensures Back(History("B", ["Home", "A"], [])) == History("A", ["Home"], ["B"])
    ensures Back(History("A", ["Home"], ["B"])) == History("Home", [], ["B", "A"])
    ensures Forward(History("Home", [], ["B", "A"])) == History("A", ["Home"], ["B"])
    ensures Visit(History("A", ["Home"], ["B"]), "C") == History("C", ["Home", "A"], [])
  {
  }

  /** The same walk as one run of commands. */
  lemma Walkthrough(h: History)
    ensures Run(h, [ClearCmd, VisitCmd("A"), VisitCmd("B"), BackCmd, BackCmd, ForwardCmd, VisitCmd("C")])
            == History("C", ["Home", "A"], [])
  {
    WalkthroughStates(h);
    var s1 := History("A", ["Home"], []);
    var s2 := History("B", ["Home", "A"], []);
    var s3 := History("A", ["Home"], ["B"]);
    var s4 := History("Home", [], ["B", "A"]);
    var s5 := History("A", ["Home"], ["B"]);
    RunCons(s5, VisitCmd("C"), []);
    RunCons(s4, ForwardCmd, [VisitCmd("C")]);
    RunCons(s3, BackCmd, [ForwardCmd, VisitCmd("C")]);
    RunCons(s2, BackCmd, [BackCmd, ForwardCmd, VisitCmd("C")]);
    RunCons(s1, VisitCmd("B"), [BackCmd, BackCmd, ForwardCmd, VisitCmd("C")]);
    RunCons(Clear(h), VisitCmd("A"), [VisitCmd("B"), BackCmd, BackCmd, ForwardCmd, VisitCmd("C")]);
    RunCons(h, ClearCmd, [VisitCmd("A"), VisitCmd("B"), BackCmd, BackCmd, ForwardCmd, VisitCmd("C")]);
  }
}
