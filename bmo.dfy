/** The BMO controller: a robot whose behaviour on every tick is chosen by its mood.
    Each tick runs the routine of the current mood, and that routine then rolls its
    own mood transitions; every transition tells the audio worker to play the sound
    of the new mood.

    Random draws and the answers of the world's tools are inputs of a tick
    (`TickInput`), so a tick is a deterministic step. The calls the routines make
    into the world and its tools are recorded, in order, in `calls`. */
module Bmo {
  import opened Wrappers
  import opened Robotics
  import A = AudioWorker
  import opened Shopping

  /** The robot's emotions. */
  datatype MentalState = Happy | Calm | Sad | Panic

  /** What the lucky-spin tool answers: a message, or an error. Either way it is only
      logged. */
  datatype SpinResult = Spun(message: string) | SpinFailed(error: LibError)

  /** What the explorer answers when asked to walk a plan: it arrived, or it stopped
      with the moves it did not make and the error that stopped it. */
  datatype MoveResult = Arrived | Interrupted(leftover: seq<Dir>, error: LibError)

  /** Everything a tick depends on besides the controller's own state.
      `first` and `second` are the routine's transition rolls in source order (Happy
      and Panic roll once and ignore `second`). */
  datatype TickInput = TickInput(
    spin: SpinResult,         // lucky_spin (Happy)
    border: Option<seq<Dir>>, // cheapest_border (Calm, only with no plan carried over)
    moved: MoveResult,        // move_to_cheapest_border (Calm)
    backpackSize: nat,        // the backpack's get_size (Sad)
    replies: seq<Reply>,      // op_map's answers, in order (Sad)
    dir: Dir,                 // the direction drawn at random (Panic)
    goAllowed: bool,          // go_allowed succeeded (Panic)
    first: bool,
    second: bool)

  /** The sound named after a mood. */
  function SoundOf(m: MentalState): A.Sound
  {
    match m
    case Happy => A.Happy
    case Calm => A.Calm
    case Sad => A.Sad
    case Panic => A.Panic
  }

  /** The mood graph: the only moves between moods. */
  predicate Edge(from: MentalState, to: MentalState)
  {
    match from
    case Happy => to == Calm
    case Calm => to == Sad || to == Happy
    case Sad => to == Calm || to == Panic
    case Panic => to == Sad
  }

  /** The moods a routine assigns, in order, for its rolls. Each roll that fires
      assigns one mood; both of Calm's and of Sad's rolls may fire in one tick. */
  function Assignments(m: MentalState, first: bool, second: bool): (r: seq<MentalState>)
    ensures |r| == (if first then 1 else 0) + (if second && (m == Calm || m == Sad) then 1 else 0)
    ensures forall i :: 0 <= i < |r| ==> Edge(m, r[i])
    ensures first ==> r[0] == (match m case Happy => Calm case Calm => Sad case Sad => Calm case Panic => Sad)
    ensures second && (m == Calm || m == Sad) ==> r[|r| - 1] == (if m == Calm then Happy else Panic)
  {
    match m
    case Happy => if first then [Calm] else []
    case Calm => (if first then [Sad] else []) + (if second then [Happy] else [])
    case Sad => (if first then [Calm] else []) + (if second then [Panic] else [])
    case Panic => if first then [Sad] else []
  }

  /** The mood after a tick's rolls: the last assignment wins. */
  function NextMood(m: MentalState, first: bool, second: bool): (r: MentalState)
    ensures r == m || Edge(m, r)
    ensures r != m <==> first || (second && (m == Calm || m == Sad))
    ensures second && m == Calm ==> r == Happy
    ensures second && m == Sad ==> r == Panic
    ensures first && !(second && (m == Calm || m == Sad))
      ==> r == (match m case Happy => Calm case Calm => Sad case Sad => Calm case Panic => Sad)
  {
    var a := Assignments(m, first, second);
    if a == [] then m else a[|a| - 1]
  }

  /** The commands a tick's rolls send: one `Play` of the new mood's sound per
      assignment, in the same order. */
  function Announcements(m: MentalState, first: bool, second: bool): (r: seq<A.Command>)
    ensures |r| == |Assignments(m, first, second)| <= 2
    ensures forall i :: 0 <= i < |r| ==> r[i] == A.Play(SoundOf(Assignments(m, first, second)[i]))
    ensures r == [] <==> NextMood(m, first, second) == m
    ensures r != [] ==> r[|r| - 1] == A.Play(SoundOf(NextMood(m, first, second)))
  {
    var a := Assignments(m, first, second);
    seq(|a|, i requires 0 <= i < |a| => A.Play(SoundOf(a[i])))
  }

  /** What the outbox says about the mood: it holds only `Play` commands, and the last
      one names the current mood; before anything is sent the robot is Calm. */
  predicate OutboxAgrees(outbox: seq<A.Command>, mood: MentalState)
  {
    (forall i :: 0 <= i < |outbox| ==> outbox[i].Play?) &&
    if outbox == [] then mood == Calm else outbox[|outbox| - 1] == A.Play(SoundOf(mood))
  }

  /** Which routine makes a call: the four routines use disjoint tools, except that
      both Sad and Panic step with `go`. */
  predicate MadeBy(c: Call, m: MentalState)
  {
    match c
    case RobotView => false
    case LuckySpin => m == Happy
    case CheapestBorder => m == Calm
    case MoveToBorder(_) => m == Calm
    case BestAction => m == Sad
    case DestroyAt(_) => m == Sad
    case PutAt(_, _, _) => m == Sad
    case GoAllowed(_) => m == Panic
    case Go(_) => m == Sad || m == Panic
  }

  /** The plan the Calm routine carries to the next tick. A plan carried over is
      replayed and then dropped, whatever the explorer answers; with no plan, the
      moves left over by an interrupted walk to a fresh border become the plan. */
  function CalmPlanAfter(plan: seq<Dir>, border: Option<seq<Dir>>, moved: MoveResult): (r: seq<Dir>)
    ensures plan != [] ==> r == []
    ensures border.None? || moved.Arrived? ==> r == []
    ensures plan == [] && border.Some? && moved.Interrupted? ==> r == moved.leftover
  {
    if plan != [] then []
    else match border
      case None => []
      case Some(_) => if moved.Interrupted? then moved.leftover else []
  }

  /** The calls of the Calm routine: a fresh border is asked for only when no plan is
      carried over, and at most one walk is made. */
  function CalmCalls(plan: seq<Dir>, border: Option<seq<Dir>>): (r: seq<Call>)
    ensures CheapestBorder in r <==> plan == []
    ensures plan != [] ==> r == [MoveToBorder(plan)]
    ensures plan == [] && border.Some? ==> r == [CheapestBorder, MoveToBorder(border.value)]
    ensures plan == [] && border.None? ==> r == [CheapestBorder]
  {
    if plan == [] then
      [CheapestBorder] + (if border.Some? then [MoveToBorder(border.value)] else [])
    else [MoveToBorder(plan)]
  }

  /** The calls of the Panic routine: it asks whether it may step, and steps only if
      it may. */
  function PanicCalls(dir: Dir, allowed: bool): (r: seq<Call>)
    ensures r != [] && r[0] == GoAllowed(dir)
    ensures Go(dir) in r <==> allowed
    ensures !allowed ==> r == [GoAllowed(dir)]
    ensures allowed ==> r == [GoAllowed(dir), Go(dir)]
  {
    [GoAllowed(dir)] + (if allowed then [Go(dir)] else [])
  }

  /** The Sad routine's loop, on the list built for the input's backpack size. */
  function SadRun(input: TickInput): (LoopEnd, seq<Call>)
  {
    ShoppingLoop(ShoppingList(input.backpackSize), input.replies)
  }

  /** The calls of the routine of mood `m`: each one is a call that routine makes. */
  function RoutineCalls(m: MentalState, plan: seq<Dir>, input: TickInput): (r: seq<Call>)
    ensures forall c :: c in r ==> MadeBy(c, m)
  {
    match m
    case Happy => [LuckySpin]
    case Calm => CalmCalls(plan, input.border)
    case Sad => SadRun(input).1
    case Panic => PanicCalls(input.dir, input.goAllowed)
  }

  class Bmo {
    var mood: MentalState
    var calmMoves: seq<Dir>
    /** Every command sent to the audio worker, in send order. */
    var outbox: seq<A.Command>
    /** Every call made into the world and its tools, in order. */
    var calls: seq<Call>

    ghost predicate Valid()
      reads this
    {
      OutboxAgrees(outbox, mood)
    }

    /** A new robot is Calm, carries no plan and has sent nothing. */
    constructor ()
      ensures Valid()
      ensures mood == Calm && calmMoves == [] && outbox == [] && calls == []
    {
      mood := Calm;
      calmMoves := [];
      outbox := [];
      calls := [];
    }

    /** Spin the lucky wheel (its answer is only logged), then maybe calm down. */
    method HappyRoutine(spin: SpinResult, toCalm: bool)
      requires Valid()
      modifies this
      ensures Valid()
      ensures calls == old(calls) + [LuckySpin] && calmMoves == old(calmMoves)
      ensures mood == (if toCalm then Calm else old(mood))
      ensures outbox == old(outbox) + (if toCalm then [A.Play(A.Calm)] else [])
    {
      calls := calls + [LuckySpin];
      if toCalm {
        outbox := outbox + [A.Play(A.Calm)];
        mood := Calm;
      }
    }

    /** Explore: replay the plan carried over, or walk to the cheapest border; then
        maybe turn Sad, then maybe Happy (the later roll wins). */
    method CalmRoutine(border: Option<seq<Dir>>, moved: MoveResult, toSad: bool, toHappy: bool)
      requires Valid()
      modifies this
      ensures Valid()
      ensures calls == old(calls) + CalmCalls(old(calmMoves), border)
      ensures calmMoves == CalmPlanAfter(old(calmMoves), border, moved)
      ensures mood == (if toHappy then Happy else if toSad then Sad else old(mood))
      ensures outbox == old(outbox) + (if toSad then [A.Play(A.Sad)] else [])
                                    + (if toHappy then [A.Play(A.Happy)] else [])
    {
      if |calmMoves| == 0 {
        calls := calls + [CheapestBorder];
        match border {
          case None =>
          case Some(v) =>
            calls := calls + [MoveToBorder(v)];
            match moved {
              case Arrived =>
              case Interrupted(leftover, _) =>
                calmMoves := leftover;
            }
        }
      } else {
        calls := calls + [MoveToBorder(calmMoves)];
        match moved {
          case Arrived =>
          case Interrupted(leftover, _) =>
            calmMoves := leftover;
        }
        calmMoves := [];
      }
      if toSad {
        mood := Sad;
        outbox := outbox + [A.Play(A.Sad)];
      }
      if toHappy {
        mood := Happy;
        outbox := outbox + [A.Play(A.Happy)];
      }
    }

    /** Work through the shopping list with op_map, then maybe calm down, then maybe
        panic (the later roll wins). A failing move aborts the tick before the rolls,
        and so does a loop that has not ended yet; `finished` says which. */
    method SadRoutine(backpackSize: nat, replies: seq<Reply>, toCalm: bool, toPanic: bool)
      returns (finished: bool)
      requires Valid()
      modifies this
      ensures Valid()
      ensures var run := ShoppingLoop(ShoppingList(backpackSize), replies);
        calls == old(calls) + run.1 && finished == Completes(run.0)
      ensures calmMoves == old(calmMoves)
      ensures !finished ==> mood == old(mood) && outbox == old(outbox)
      ensures finished ==> mood == (if toPanic then Panic else if toCalm then Calm else old(mood))
      ensures finished ==> outbox == old(outbox) + (if toCalm then [A.Play(A.Calm)] else [])
                                                 + (if toPanic then [A.Play(A.Panic)] else [])
    {
      var list := BuildShoppingList(backpackSize);
      var end, trace := RunShoppingList(list, replies);
      calls := calls + trace;
      finished := Completes(end);
      if !finished {
        return;
      }
      if toCalm {
        mood := Calm;
        outbox := outbox + [A.Play(A.Calm)];
      }
      if toPanic {
        mood := Panic;
        outbox := outbox + [A.Play(A.Panic)];
      }
    }

    /** Step in a random direction if allowed (a failed step is ignored), then maybe
        turn Sad. */
    method PanicRoutine(dir: Dir, allowed: bool, toSad: bool)
      requires Valid()
      modifies this
      ensures Valid()
      ensures calls == old(calls) + PanicCalls(dir, allowed) && calmMoves == old(calmMoves)
      ensures mood == (if toSad then Sad else old(mood))
      ensures outbox == old(outbox) + (if toSad then [A.Play(A.Sad)] else [])
    {
      calls := calls + [GoAllowed(dir)];
      if allowed {
        calls := calls + [Go(dir)];
      }
      if toSad {
        mood := Sad;
        outbox := outbox + [A.Play(A.Sad)];
      }
    }

    /** One tick: look around, then run exactly the routine of the current mood. */
    method ProcessTick(input: TickInput) returns (finished: bool)
      requires Valid()
      modifies this
      ensures Valid()
      ensures calls == old(calls) + [RobotView] + RoutineCalls(old(mood), old(calmMoves), input)
      ensures calmMoves
        == if old(mood) == Calm then CalmPlanAfter(old(calmMoves), input.border, input.moved)
           else old(calmMoves)
      ensures finished <==> old(mood) != Sad || Completes(SadRun(input).0)
      ensures finished ==> mood == NextMood(old(mood), input.first, input.second)
      ensures finished ==> outbox == old(outbox) + Announcements(old(mood), input.first, input.second)
      ensures !finished ==> mood == old(mood) && outbox == old(outbox)
    {
      calls := calls + [RobotView];
      finished := true;
      match mood {
        case Happy =>
          HappyRoutine(input.spin, input.first);
        case Calm =>
          CalmRoutine(input.border, input.moved, input.first, input.second);
        case Sad =>
          finished := SadRoutine(input.backpackSize, input.replies, input.first, input.second);
        case Panic =>
          PanicRoutine(input.dir, input.goAllowed, input.first);
      }
    }
  }

  /** In Calm, when both rolls fire, the robot ends Happy after announcing Sad and
      then Happy. */
  lemma CalmBothRollsFire()
    ensures NextMood(Calm, true, true) == Happy
    ensures Announcements(Calm, true, true) == [A.Play(A.Sad), A.Play(A.Happy)]
  {
  }

  /** In Sad, when both rolls fire, the robot ends in Panic after announcing Calm and
      then Panic. */
  lemma SadBothRollsFire()
    ensures NextMood(Sad, true, true) == Panic
    ensures Announcements(Sad, true, true) == [A.Play(A.Calm), A.Play(A.Panic)]
  {
  }

  /** A tick whose rolls all fail keeps the mood and sends nothing. */
  lemma NoRollFires(m: MentalState)
    ensures NextMood(m, false, false) == m && Announcements(m, false, false) == []
  {
  }

  /** A finished tick keeps the outbox in step with the mood. */
  lemma {:induction false} TickKeepsOutboxAgreement(outbox: seq<A.Command>, m: MentalState, first: bool, second: bool)
    requires OutboxAgrees(outbox, m)
    ensures OutboxAgrees(outbox + Announcements(m, first, second), NextMood(m, first, second))
  {
    var sent := outbox + Announcements(m, first, second);
    forall i | 0 <= i < |sent|
      ensures sent[i].Play?
    {
      if i >= |outbox| {
        assert sent[i] == Announcements(m, first, second)[i - |outbox|];
      }
    }
  }

  /** The worker plays one sound for every command the robot has sent, in send order,
      and the last one it plays is the sound of the robot's current mood. */
  lemma WorkerEndsOnCurrentMood(outbox: seq<A.Command>, mood: MentalState)
    requires OutboxAgrees(outbox, mood)
    ensures |A.Played(outbox)| == |outbox|
    ensures forall i :: 0 <= i < |outbox| ==> A.Played(outbox)[i] == A.Asset(outbox[i].sound)
    ensures outbox != [] ==> A.Played(outbox)[|outbox| - 1] == A.Asset(SoundOf(mood))
  {
    A.PlayedOnlyPlays(outbox);
  }

  /** Once the robot is dropped and the channel closes, the worker has played exactly
      the sounds of everything the robot sent, in order, and nothing sent later. */
  lemma WorkerHearsWholeOutbox(outbox: seq<A.Command>, mood: MentalState, later: seq<Option<A.Command>>)
    requires OutboxAgrees(outbox, mood)
    ensures A.Received(A.Deliver(outbox) + [None] + later) == outbox
    ensures |A.Played(A.Received(A.Deliver(outbox) + [None] + later))| == |outbox|
  {
    A.ReceivedUntilClose(outbox, later);
    A.PlayedOnlyPlays(outbox);
  }
}
