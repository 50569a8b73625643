// Tickets on a board and how many of them a tick may add to.
module Board {
  import opened Prelude

  type TicketId = string

  datatype TicketState = Todo | InProgress | InReview | NeedsHuman | RunningUnattended

  type Columns = map<TicketId, TicketState>

  ghost predicate FlightState(s: TicketState) { s == InProgress || s == RunningUnattended }

  ghost predicate WaitState(s: TicketState) { s == InReview || s == NeedsHuman }

  ghost function InFlight(b: Columns): set<TicketId>
  {
    set id | id in b && FlightState(b[id])
  }

  ghost function Waiting(b: Columns): set<TicketId>
  {
    set id | id in b && WaitState(b[id])
  }

  // What the factory has taken up and nobody has closed.
  ghost function Committed(b: Columns): set<TicketId>
  {
    InFlight(b) + Waiting(b)
  }

  ghost function Total(b: Columns): nat
  {
    |InFlight(b)| + |Waiting(b)|
  }

  lemma SizeAround<T>(a: set<T>, x: T)
    ensures |a + {x}| == if x in a then |a| else |a| + 1
    ensures |a - {x}| == if x in a then |a| - 1 else |a|
  {
    if x in a {
      assert a + {x} == a;
    } else {
      assert a - {x} == a;
    }
  }

  lemma ColumnsAfterMove(b: Columns, t: TicketId, s: TicketState)
    ensures InFlight(b[t := s]) == if FlightState(s) then InFlight(b) + {t} else InFlight(b) - {t}
    ensures Waiting(b[t := s]) == if WaitState(s) then Waiting(b) + {t} else Waiting(b) - {t}
  {
  }

  lemma MoveOne(b: Columns, t: TicketId, s: TicketState)
    ensures |InFlight(b[t := s])| <= |InFlight(b)| + (if FlightState(s) then 1 else 0)
  {
    ColumnsAfterMove(b, t, s);
    SizeAround(InFlight(b), t);
  }

  // A board on which some tickets were put in front of people.
  ghost predicate Handed(b: Columns, b': Columns, moved: set<TicketId>)
  {
    && b'.Keys == b.Keys + moved
    && forall t :: t in b' ==> if t in moved then WaitState(b'[t]) else b'[t] == b[t]
  }

  lemma ColumnsAfterHanding(b: Columns, b': Columns, moved: set<TicketId>)
    requires Handed(b, b', moved)
    ensures InFlight(b') == InFlight(b) - moved && Waiting(b') == Waiting(b) + moved
    ensures Committed(b') == Committed(b) + moved
  {
    assert forall t :: t in moved ==> t in b' && WaitState(b'[t]);
    assert Waiting(b') == Waiting(b) + moved;
  }

  lemma SizeOfUnion<T>(a: set<T>, b: set<T>)
    ensures |a + b| <= |a| + |b| && (a !! b ==> |a + b| == |a| + |b|)
  {
    assert a + b == a + (b - a);
    SubsetSize(b - a, b);
    assert a !! b ==> b - a == b;
  }

  lemma TotalIsCommitted(b: Columns)
    ensures Total(b) == |Committed(b)|
  {
    assert InFlight(b) !! Waiting(b);
    SizeOfUnion(InFlight(b), Waiting(b));
  }

  function AtLeastZero(n: int): nat
  {
    if n < 0 then 0 else n
  }

  // ---- one turn --------------------------------------------------------------

  // What one tick may do to a board that it read: it dispatched `attempted`, and
  // `moved` are the tickets whose job it found finished or lost.
  ghost predicate TickEffect(limit: int, queue: Option<int>, b: Columns, b': Columns, attempted: set<TicketId>, moved: set<TicketId>)
  {
    && InFlight(b') <= InFlight(b) + attempted
    && Committed(b') == Committed(b) + moved + attempted
    && (attempted != {} ==> |InFlight(b)| + |attempted| <= limit)
    && (attempted != {} && queue.Some? ==> |Waiting(b)| + |moved| + |attempted| <= queue.value)
  }

  // A board on which some tickets were taken up.
  ghost predicate TakenUp(b: Columns, b': Columns, attempted: set<TicketId>)
  {
    && b'.Keys == b.Keys + attempted
    && forall t :: t in b' ==> if t in attempted then FlightState(b'[t]) || WaitState(b'[t]) else b'[t] == b[t]
  }

  lemma ColumnsAfterTakingUp(b: Columns, b': Columns, attempted: set<TicketId>)
    requires TakenUp(b, b', attempted)
    ensures InFlight(b') <= InFlight(b) + attempted && Committed(b') == Committed(b) + attempted
  {
    forall t ensures t in Committed(b') <==> t in Committed(b) || t in attempted {
      assert t in b'.Keys <==> t in b.Keys || t in attempted;
    }
  }

  lemma HandedThenTakenUp(limit: int, queue: Option<int>, b: Columns, b1: Columns, b': Columns, attempted: set<TicketId>, moved: set<TicketId>)
    requires Handed(b, b1, moved) && TakenUp(b1, b', attempted)
    requires attempted != {} ==> |InFlight(b)| + |attempted| <= limit
    requires attempted != {} && queue.Some? ==> |Waiting(b)| + |moved| + |attempted| <= queue.value
    ensures TickEffect(limit, queue, b, b', attempted, moved) && |InFlight(b1)| <= |InFlight(b)|
  {
    ColumnsAfterHanding(b, b1, moved);
    ColumnsAfterTakingUp(b1, b', attempted);
    SubsetSize(InFlight(b1), InFlight(b));
  }

  // People file, close, park and hand back tickets as they like; they start nothing.
  ghost predicate HumanMove(b: Columns, b': Columns)
  {
    InFlight(b') <= InFlight(b)
  }

  // `open` are the tickets with a job that a tick could find finished or lost.
  datatype Turn = ByPeople | ByTick(attempted: set<TicketId>, moved: set<TicketId>, open: set<TicketId>)

  ghost predicate Follows(limit: int, queue: Option<int>, b: Columns, b': Columns, turn: Turn)
  {
    match turn
    case ByPeople => HumanMove(b, b')
    case ByTick(attempted, moved, open) => moved <= open && TickEffect(limit, queue, b, b', attempted, moved)
  }

  // A tick leaves at most `most` tickets taken up exactly when those taken up
  // before it, with those it moved, are no more: what it dispatches always fits.
  lemma TickFitsExactlyWhen(limit: int, queue: int, b: Columns, b': Columns, attempted: set<TicketId>, moved: set<TicketId>)
    requires TickEffect(limit, Some(queue), b, b', attempted, moved)
    ensures Total(b') <= queue + limit - 1 <==> |Committed(b) + moved| <= queue + limit - 1
  {
    TotalIsCommitted(b');
    if attempted == {} {
      assert Committed(b') == Committed(b) + moved;
    } else {
      SizeOfUnion(Committed(b) + moved, attempted);
      SizeOfUnion(Committed(b), moved);
      TotalIsCommitted(b);
      assert |attempted| > 0;
    }
  }

  ghost predicate EveryTickFits(limit: int, queue: int, b: Columns, open: set<TicketId>)
  {
    forall b', attempted, moved ::
      moved <= open && TickEffect(limit, Some(queue), b, b', attempted, moved) ==> Total(b') <= queue + limit - 1
  }

  lemma NoTickOverfills(limit: int, queue: int, b: Columns, open: set<TicketId>, b': Columns, attempted: set<TicketId>, moved: set<TicketId>)
    requires moved <= open && TickEffect(limit, Some(queue), b, b', attempted, moved)
    requires |Committed(b) + open| <= queue + limit - 1
    ensures Total(b') <= queue + limit - 1
  {
    SubsetSize(Committed(b) + moved, Committed(b) + open);
    TickFitsExactlyWhen(limit, queue, b, b', attempted, moved);
  }

  lemma AllOpenFinish(limit: int, queue: int, b: Columns, open: set<TicketId>) returns (b': Columns)
    ensures TickEffect(limit, Some(queue), b, b', {}, open)
  {
    b' := map t | t in b.Keys + open :: if t in open then NeedsHuman else b[t];
    ColumnsAfterHanding(b, b', open);
  }

  // So before a tick one can tell whether it fits, whichever of the open jobs it
  // finds finished or lost.
  lemma EveryTickFitsExactlyWhen(limit: int, queue: int, b: Columns, open: set<TicketId>)
    ensures EveryTickFits(limit, queue, b, open) <==> |Committed(b) + open| <= queue + limit - 1
  {
    if |Committed(b) + open| <= queue + limit - 1 {
      forall b', attempted, moved | moved <= open && TickEffect(limit, Some(queue), b, b', attempted, moved)
        ensures Total(b') <= queue + limit - 1
      {
        NoTickOverfills(limit, queue, b, open, b', attempted, moved);
      }
    } else {
      var b' := AllOpenFinish(limit, queue, b, open);
      TickFitsExactlyWhen(limit, queue, b, b', {}, open);
    }
  }

  // ---- over any sequence of turns ------------------------------------------

  ghost predicate BoardHistory(limit: int, queue: Option<int>, boards: seq<Columns>, turns: seq<Turn>)
  {
    && |boards| == |turns| + 1 && Committed(boards[0]) == {}
    && forall i :: 0 <= i < |turns| ==> Follows(limit, queue, boards[i], boards[i + 1], turns[i])
  }

  lemma OneMoreTurn(limit: int, queue: Option<int>, boards: seq<Columns>, turns: seq<Turn>, b': Columns, turn: Turn)
    requires BoardHistory(limit, queue, boards, turns) && Follows(limit, queue, boards[|turns|], b', turn)
    ensures BoardHistory(limit, queue, boards + [b'], turns + [turn])
  {
    forall i | 0 <= i < |turns| + 1
      ensures Follows(limit, queue, (boards + [b'])[i], (boards + [b'])[i + 1], (turns + [turn])[i])
    {
      if i < |turns| {
        assert Follows(limit, queue, boards[i], boards[i + 1], turns[i]);
      }
    }
  }

  lemma InFlightAfter(limit: int, queue: Option<int>, b: Columns, b': Columns, turn: Turn)
    requires Follows(limit, queue, b, b', turn) && |InFlight(b)| <= AtLeastZero(limit)
    ensures |InFlight(b')| <= AtLeastZero(limit)
  {
    if turn.ByTick? {
      SizeOfUnion(InFlight(b), turn.attempted);
      SubsetSize(InFlight(b'), InFlight(b) + turn.attempted);
    } else {
      SubsetSize(InFlight(b'), InFlight(b));
    }
  }

  // From a board with nothing taken up, whatever ticks and people do in whatever
  // order, and however long the review queue may grow, no more is in flight than
  // the limit.
  lemma {:induction false} InFlightBound(limit: int, queue: Option<int>, boards: seq<Columns>, turns: seq<Turn>, k: nat)
    requires BoardHistory(limit, queue, boards, turns) && k < |boards|
    ensures |InFlight(boards[k])| <= AtLeastZero(limit)
  {
    if k > 0 {
      InFlightBound(limit, queue, boards, turns, k - 1);
      InFlightAfter(limit, queue, boards[k - 1], boards[k - 1 + 1], turns[k - 1]);
    }
  }

  // People take up nothing by themselves.
  ghost predicate PeopleAddNothing(boards: seq<Columns>, turns: seq<Turn>)
    requires |boards| == |turns| + 1
  {
    forall i :: 0 <= i < |turns| && turns[i].ByPeople? ==> Committed(boards[i + 1]) <= Committed(boards[i])
  }

  // The tick finds no more finished and lost jobs than there is room for.
  ghost predicate MovesFit(most: int, b: Columns, turn: Turn)
  {
    turn.ByTick? ==> |Committed(b) + turn.moved| <= most
  }

  // Every ticket with an open job is taken up: nobody moved it out.
  ghost predicate JobsOnBoard(b: Columns, turn: Turn)
  {
    turn.ByTick? ==> turn.open <= Committed(b)
  }

  ghost predicate StaysBelow(boards: seq<Columns>, bound: int)
  {
    forall k :: 0 <= k < |boards| ==> Total(boards[k]) < bound
  }

  ghost predicate AllMovesFit(boards: seq<Columns>, turns: seq<Turn>, most: int)
    requires |boards| == |turns| + 1
  {
    forall i :: 0 <= i < |turns| ==> MovesFit(most, boards[i], turns[i])
  }

  ghost predicate AllJobsOnBoard(boards: seq<Columns>, turns: seq<Turn>)
    requires |boards| == |turns| + 1
  {
    forall i :: 0 <= i < |turns| ==> JobsOnBoard(boards[i], turns[i])
  }

  lemma TotalAfter(limit: int, queue: int, b: Columns, b': Columns, turn: Turn)
    requires Follows(limit, Some(queue), b, b', turn) && (turn.ByPeople? ==> Committed(b') <= Committed(b))
    requires Total(b) <= queue + limit - 1
    ensures JobsOnBoard(b, turn) ==> MovesFit(queue + limit - 1, b, turn)
    ensures Total(b') <= queue + limit - 1 <==> MovesFit(queue + limit - 1, b, turn)
  {
    TotalIsCommitted(b);
    if turn.ByTick? {
      TickFitsExactlyWhen(limit, queue, b, b', turn.attempted, turn.moved);
      assert turn.open <= Committed(b) ==> Committed(b) + turn.moved == Committed(b);
    } else {
      TotalIsCommitted(b');
      SubsetSize(Committed(b'), Committed(b));
    }
  }

  lemma {:induction false} TotalBoundUpTo(limit: int, queue: int, boards: seq<Columns>, turns: seq<Turn>, k: nat)
    requires limit >= 0 && queue >= 1 && BoardHistory(limit, Some(queue), boards, turns) && PeopleAddNothing(boards, turns)
    requires forall i :: 0 <= i < |turns| ==> MovesFit(queue + limit - 1, boards[i], turns[i]) || JobsOnBoard(boards[i], turns[i])
    requires k < |boards|
    ensures Total(boards[k]) <= queue + limit - 1
  {
    if k == 0 {
      TotalIsCommitted(boards[0]);
    } else {
      TotalBoundUpTo(limit, queue, boards, turns, k - 1);
      TotalAfter(limit, queue, boards[k - 1], boards[k - 1 + 1], turns[k - 1]);
    }
  }

  // What is in flight and what waits on people stay together below queue + limit
  // for good exactly when no tick ever finds too much finished or lost; and never
  // does one while every open job's ticket is still taken up.
  lemma TotalBoundExactlyWhen(limit: int, queue: int, boards: seq<Columns>, turns: seq<Turn>)
    requires limit >= 0 && queue >= 1 && BoardHistory(limit, Some(queue), boards, turns) && PeopleAddNothing(boards, turns)
    ensures StaysBelow(boards, queue + limit) <==> AllMovesFit(boards, turns, queue + limit - 1)
    ensures AllJobsOnBoard(boards, turns) ==> StaysBelow(boards, queue + limit)
  {
    var most := queue + limit - 1;
    if AllMovesFit(boards, turns, most) || AllJobsOnBoard(boards, turns) {
      forall k | 0 <= k < |boards| ensures Total(boards[k]) <= most {
        TotalBoundUpTo(limit, queue, boards, turns, k);
      }
    }
    if StaysBelow(boards, queue + limit) {
      forall i | 0 <= i < |turns| ensures MovesFit(most, boards[i], turns[i]) {
        TotalAfter(limit, queue, boards[i], boards[i + 1], turns[i]);
      }
    }
  }

  ghost function ParkedBoards(): seq<Columns>
  {
    [map["t1" := Todo, "t2" := Todo], map["t1" := RunningUnattended, "t2" := Todo], map["t1" := Todo, "t2" := Todo],
     map["t1" := Todo, "t2" := InReview], map["t1" := InReview, "t2" := InReview]]
  }

  ghost function ParkedTurns(): seq<Turn>
  {
    [ByTick({"t1"}, {}, {}), ByPeople, ByTick({"t2"}, {}, {"t1"}), ByTick({}, {"t1"}, {"t1"})]
  }

  lemma ParkedColumns(b: Columns, x: TicketState, y: TicketState)
    requires b == map["t1" := x, "t2" := y]
    ensures InFlight(b) == (if FlightState(x) then {"t1"} else {}) + (if FlightState(y) then {"t2"} else {})
    ensures Waiting(b) == (if WaitState(x) then {"t1"} else {}) + (if WaitState(y) then {"t2"} else {})
  {
  }

  lemma ParkedStart(b: Columns, b': Columns, t: TicketId, open: set<TicketId>, x: TicketState, y: TicketState)
    requires b == map["t1" := Todo, "t2" := Todo] && b' == map["t1" := x, "t2" := y]
    requires if t == "t1" then x.RunningUnattended? && y.Todo? else t == "t2" && x.Todo? && y.InReview?
    ensures Follows(1, Some(1), b, b', ByTick({t}, {}, open)) && Committed(b) == {} && InFlight(b) == {}
  {
    ParkedColumns(b, Todo, Todo);
    ParkedColumns(b', x, y);
    assert InFlight(b') <= Committed(b') == {t};
  }

  lemma ParkedEnds(b: Columns, b': Columns)
    requires b == map["t1" := Todo, "t2" := InReview] && b' == map["t1" := InReview, "t2" := InReview]
    ensures Follows(1, Some(1), b, b', ByTick({}, {"t1"}, {"t1"})) && Total(b') == 2
    ensures !JobsOnBoard(b, ByTick({}, {"t1"}, {"t1"}))
  {
    ParkedColumns(b, Todo, InReview);
    ParkedColumns(b', InReview, InReview);
    assert Waiting(b') == {"t1", "t2"} && InFlight(b') == {} && Committed(b) == {"t2"};
  }

  // With room for one of each: a ticket is parked on its job, a person moves it
  // back, another ticket goes to review, and the first one's job finishes.
  lemma AParkedTicketMovedOut()
    ensures BoardHistory(1, Some(1), ParkedBoards(), ParkedTurns()) && PeopleAddNothing(ParkedBoards(), ParkedTurns())
    ensures Total(ParkedBoards()[4]) == 2 && !JobsOnBoard(ParkedBoards()[3], ParkedTurns()[3])
  {
    var b := ParkedBoards();
    ParkedStart(b[0], b[1], "t1", {}, RunningUnattended, Todo);
    ParkedStart(b[2], b[3], "t2", {"t1"}, Todo, InReview);
    ParkedEnds(b[3], b[4]);
  }
}
