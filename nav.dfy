/** Screen regions, main-content views and the focus navigation map (src/nav.rs) */
module Nav {

  /** What the main content area shows */
  datatype Content = Daylist | EditTodo | SearchResults

  /** The screen region that has keyboard focus */
  datatype Widget = Calendar | EditTodo | Main | Search | Upcoming | Projects

  /** The four directions a navigation key names */
  datatype Arrow = ArrowUp | ArrowDown | ArrowLeft | ArrowRight

  /** The regions arrows can reach: every region but the edit form */
  predicate Navigable(w: Widget) { !w.EditTodo? }

  function Up(w: Widget): (r: Widget)
    ensures Navigable(r)
    ensures w.EditTodo? ==> r == Main
    ensures r == w <==> w in {Search, Upcoming, Projects}
  {
    match w
    case Calendar => Upcoming
    case Main => Search
    case Search => Search
    case Upcoming => Upcoming
    case Projects => Projects
    case _ => Main
  }

  function Down(w: Widget): (r: Widget)
    ensures Navigable(r)
    ensures w.EditTodo? ==> r == Main
    ensures r == w <==> w in {Calendar, Main, Projects}
  {
    match w
    case Calendar => Calendar
    case Main => Main
    case Search => Main
    case Upcoming => Calendar
    case Projects => Projects
    case _ => Main
  }

  function Left(w: Widget): (r: Widget)
    ensures Navigable(r)
    ensures w.EditTodo? ==> r == Main
    ensures r == w <==> w in {Search, Projects}
  {
    match w
    case Calendar => Main
    case Main => Projects
    case Search => Search
    case Upcoming => Main
    case Projects => Projects
    case _ => Main
  }

  function Right(w: Widget): (r: Widget)
    ensures Navigable(r)
    ensures w.EditTodo? ==> r == Main
    ensures r == w <==> w in {Calendar, Upcoming}
  {
    match w
    case Calendar => Calendar
    case Main => Calendar
    case Search => Upcoming
    case Upcoming => Upcoming
    case Projects => Main
    case _ => Main
  }

  /** The direction function a navigation key selects */
  function Move(w: Widget, a: Arrow): Widget {
    match a
    case ArrowUp => Up(w)
    case ArrowDown => Down(w)
    case ArrowLeft => Left(w)
    case ArrowRight => Right(w)
  }

  /** Focus after a run of navigation keys */
  function Walk(w: Widget, arrows: seq<Arrow>): Widget
    decreases arrows
  {
    if arrows == [] then w else Walk(Move(w, arrows[0]), arrows[1..])
  }

  // ----------------------------------------------------------------- lemmas

  /** The four moves out of Main, and Main's own wall */
  lemma FromMain()
    ensures Up(Main) == Search && Left(Main) == Projects && Right(Main) == Calendar && Down(Main) == Main
  {
  }

  /** Paired moves that undo each other */
  lemma PairedMovesUndo()
    ensures Down(Up(Main)) == Main
    ensures Right(Left(Main)) == Main
    ensures Up(Down(Upcoming)) == Upcoming
    ensures Left(Right(Main)) == Main
  {
  }

  /** Moving down twice is moving down once */
  lemma DownIdempotent(w: Widget)
    ensures Down(Down(w)) == Down(w)
  {
  }

  /** The map is not symmetric: right from Search reaches Upcoming, but left from Upcoming reaches Main */
  lemma NotSymmetric()
    ensures Right(Search) == Upcoming && Left(Upcoming) == Main && Left(Upcoming) != Search
  {
  }

  /** No run of navigation keys, from any region, ever reaches the edit form */
  lemma {:induction false} WalkNeverReachesEditForm(w: Widget, arrows: seq<Arrow>)
    requires arrows != [] || Navigable(w)
    ensures Navigable(Walk(w, arrows))
    decreases arrows
  {
    if arrows != [] {
      var next := Move(w, arrows[0]);
      assert Navigable(next);
      WalkNeverReachesEditForm(next, arrows[1..]);
    }
  }

  /** Walking one run of keys and then another is walking their concatenation */
  lemma {:induction false} WalkAppend(w: Widget, xs: seq<Arrow>, ys: seq<Arrow>)
    ensures Walk(w, xs + ys) == Walk(Walk(w, xs), ys)
    decreases xs
  {
    if xs == [] {
      assert xs + ys == ys;
    } else {
      assert (xs + ys)[0] == xs[0];
      assert (xs + ys)[1..] == xs[1..] + ys;
      WalkAppend(Move(w, xs[0]), xs[1..], ys);
    }
  }

  /** A key sequence of at most three moves between two navigable regions */
  function Route(from: Widget, to: Widget): (r: seq<Arrow>)
    requires Navigable(from) && Navigable(to)
    ensures |r| <= 3
  {
    var toMain :=
      match from
      case Main => []
      case Search => [ArrowDown]
      case Projects => [ArrowRight]
      case _ => [ArrowLeft];
    var fromMain :=
      match to
      case Main => []
      case Search => [ArrowUp]
      case Projects => [ArrowLeft]
      case Calendar => [ArrowRight]
      case _ => [ArrowRight, ArrowUp];
    if from == to then []
    else if from == Calendar && to == Upcoming then [ArrowUp]
    else if from == Upcoming && to == Calendar then [ArrowDown]
    else toMain + fromMain
  }

  /** Every navigable region reaches every other in at most three keys */
  lemma RouteReaches(from: Widget, to: Widget)
    requires Navigable(from) && Navigable(to)
    ensures Walk(from, Route(from, to)) == to
  {
    var r := Route(from, to);
    if from != to && !(from == Calendar && to == Upcoming) && !(from == Upcoming && to == Calendar) {
      var toMain := if from == Main then [] else if from == Search then [ArrowDown]
                    else if from == Projects then [ArrowRight] else [ArrowLeft];
      var fromMain := r[|toMain|..];
      assert r == toMain + fromMain;
      WalkAppend(from, toMain, fromMain);
      assert Walk(from, toMain) == Main;
      if fromMain == [ArrowRight, ArrowUp] {
        assert Walk(Main, fromMain) == Walk(Calendar, [ArrowUp]);
      }
    }
  }
}
