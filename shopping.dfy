/** The Sad routine's resource plan: the shopping list it builds each time it runs,
    and the loop that hands the list to the op_map pathfinder and carries out the
    action it suggests until the list is empty or the pathfinder has nothing left. */
module Shopping {
  import opened Wrappers
  import opened Robotics

  /** The backpack size at which the robot stops trying to destroy trees. */
  const FullBackpack: nat := 20

  /** What op_map is asked to do with the content of a shopping-list entry. */
  datatype OpInput = DestroyIt | PutIn(content: Content, amount: nat)

  /** One shopping-list entry: the content to look for and what to do with it. */
  datatype Item = Item(content: Content, action: Option<OpInput>)

  /** The concrete next action op_map suggests. */
  datatype OpOutput = Move(dir: Dir) | Destroy(dir: Dir) | Put(content: Content, amount: nat, dir: Dir)

  /** One answer of op_map, together with what happened next: the suggested action
      (`None` when it finds none), the shopping list as op_map leaves it (op_map
      updates the list itself), and the error, if any, returned by the world call
      that carries out the action. */
  datatype Reply = Reply(action: Option<OpOutput>, listAfter: seq<Item>, error: Option<LibError>)

  /** How the loop ends. `MoveFailed` is the panic of a failing move; `OutOfReplies`
      means the modelled answers were used up while the list was still non-empty, so
      the loop had not ended yet. */
  datatype LoopEnd = Emptied | NoAction(discarded: seq<Item>) | MoveFailed | OutOfReplies

  /** Destroy one tree next to the robot. */
  const DestroyTree: Item := Item(Tree(1), Some(DestroyIt))

  /** Put one unit of tree into a crate (any crate: the range is the empty default). */
  const PutTreeInCrate: Item := Item(Crate(0, 0), Some(PutIn(Tree(1), 1)))

  /** The shopping list for a given backpack size: destroying a tree comes first, and
      only when the size is not exactly the full mark; putting a tree into a crate is
      always there, and always last. */
  function ShoppingList(backpackSize: nat): (r: seq<Item>)
    ensures |r| == 1 || |r| == 2
    ensures r[|r| - 1] == PutTreeInCrate
    ensures |r| == 2 <==> backpackSize != FullBackpack
    ensures r[0] == DestroyTree <==> backpackSize != FullBackpack
  {
    (if backpackSize != FullBackpack then [DestroyTree] else []) + [PutTreeInCrate]
  }

  /** Builds the shopping list by pushing onto an empty one, as the routine does. */
  method BuildShoppingList(backpackSize: nat) returns (list: seq<Item>)
    ensures list == ShoppingList(backpackSize)
  {
    list := [];
    if backpackSize != FullBackpack {
      list := list + [DestroyTree];
    }
    list := list + [PutTreeInCrate];
  }

  /** The world call that carries out an op_map action. */
  function CallFor(a: OpOutput): (c: Call)
    ensures a.Move? ==> c == Go(a.dir)
    ensures a.Destroy? ==> c == DestroyAt(a.dir)
    ensures a.Put? ==> c == PutAt(a.content, a.amount, a.dir)
  {
    match a
    case Move(d) => Go(d)
    case Destroy(d) => DestroyAt(d)
    case Put(content, amount, d) => PutAt(content, amount, d)
  }

  /** The loop of the Sad routine as a function of the list and op_map's answers: how
      it ends, and the collaborator calls it makes in order. */
  function ShoppingLoop(list: seq<Item>, replies: seq<Reply>): (r: (LoopEnd, seq<Call>))
    ensures |r.1| <= 2 * |replies|
    ensures forall c :: c in r.1 ==> c.BestAction? || c.Go? || c.DestroyAt? || c.PutAt?
    ensures r.0.OutOfReplies? ==> |r.1| == 2 * |replies|
    ensures r.0.NoAction? ==> r.1 != [] && r.1[|r.1| - 1] == BestAction
    ensures r.0.MoveFailed? ==> r.1 != [] && r.1[|r.1| - 1].Go?
    decreases |replies|
  {
    if list == [] then (Emptied, [])
    else if replies == [] then (OutOfReplies, [])
    else match replies[0].action
      case None => (NoAction(replies[0].listAfter), [BestAction])
      case Some(a) =>
        if a.Move? && replies[0].error.Some? then (MoveFailed, [BestAction, CallFor(a)])
        else
          var rest := ShoppingLoop(replies[0].listAfter, replies[1..]);
          (rest.0, [BestAction, CallFor(a)] + rest.1)
  }

  /** Whether the routine gets past the loop: only an emptied list or a missing action
      let it go on to its mood transitions. */
  predicate Completes(end: LoopEnd) {
    end.Emptied? || end.NoAction?
  }

  /** The Sad routine's loop, run over op_map's answers in order. */
  method RunShoppingList(list0: seq<Item>, replies: seq<Reply>) returns (end: LoopEnd, trace: seq<Call>)
    ensures (end, trace) == ShoppingLoop(list0, replies)
  {
    var list := list0;
    var i := 0;
    trace := [];
    assert replies[i..] == replies;
    assert [] + ShoppingLoop(list, replies).1 == ShoppingLoop(list, replies).1;
    while |list| > 0
      invariant 0 <= i <= |replies|
      invariant ShoppingLoop(list0, replies).0 == ShoppingLoop(list, replies[i..]).0
      invariant ShoppingLoop(list0, replies).1 == trace + ShoppingLoop(list, replies[i..]).1
      decreases |replies| - i
    {
      if i == |replies| {
        assert replies[i..] == [];
        assert trace + [] == trace;
        return OutOfReplies, trace;
      }
      var reply := replies[i];
      ghost var step := ShoppingLoop(list, replies[i..]);
      ghost var before := trace;
      assert replies[i..][0] == reply;
      assert replies[i..][1..] == replies[i + 1..];
      i := i + 1;
      trace := trace + [BestAction];
      match reply.action {
        case None =>
          return NoAction(reply.listAfter), trace;
        case Some(a) =>
          trace := trace + [CallFor(a)];
          assert trace == before + [BestAction, CallFor(a)];
          if a.Move? && reply.error.Some? {
            return MoveFailed, trace;
          }
          // a failed destroy or put is only logged
          list := reply.listAfter;
          ghost var rest := ShoppingLoop(list, replies[i..]);
          assert step == (rest.0, [BestAction, CallFor(a)] + rest.1);
          assert trace + rest.1 == before + ([BestAction, CallFor(a)] + rest.1);
      }
    }
    assert ShoppingLoop(list, replies[i..]) == (Emptied, []);
    assert trace + [] == trace;
    end := Emptied;
  }

  /** Queries to op_map sit exactly at the even positions of a trace. */
  predicate QueryThenAct(trace: seq<Call>) {
    forall i :: 0 <= i < |trace| ==> (trace[i] == BestAction <==> i % 2 == 0)
  }

  /** Every op_map query is followed by the action it suggested, if any, before the next
      query: queries sit exactly at the even positions of the trace. */
  lemma {:induction false} QueriesPrecedeActions(list: seq<Item>, replies: seq<Reply>)
    ensures QueryThenAct(ShoppingLoop(list, replies).1)
    decreases |replies|
  {
    if list != [] && replies != [] && replies[0].action.Some? {
      var a := replies[0].action.value;
      if !(a.Move? && replies[0].error.Some?) {
        var rest := ShoppingLoop(replies[0].listAfter, replies[1..]).1;
        QueriesPrecedeActions(replies[0].listAfter, replies[1..]);
        var trace := [BestAction, CallFor(a)] + rest;
        forall i | 2 <= i < |trace|
          ensures trace[i] == BestAction <==> i % 2 == 0
        {
          assert trace[i] == rest[i - 2];
          assert rest[i - 2] == BestAction <==> (i - 2) % 2 == 0;
          assert (i - 2) % 2 == i % 2;
        }
      }
    }
  }

  /** After the k-th query to op_map comes the world call that carries out the k-th
      answer: the loop does exactly what op_map suggested, in order. */
  lemma {:induction false} ActionsCarryOutAnswers(list: seq<Item>, replies: seq<Reply>)
    ensures var trace := ShoppingLoop(list, replies).1;
      forall k :: 0 <= k && 2 * k + 1 < |trace| ==>
        k < |replies| && replies[k].action.Some? && trace[2 * k + 1] == CallFor(replies[k].action.value)
    decreases |replies|
  {
    if list != [] && replies != [] && replies[0].action.Some? {
      var a := replies[0].action.value;
      if !(a.Move? && replies[0].error.Some?) {
        var rest := ShoppingLoop(replies[0].listAfter, replies[1..]).1;
        ActionsCarryOutAnswers(replies[0].listAfter, replies[1..]);
        var trace := [BestAction, CallFor(a)] + rest;
        assert trace == ShoppingLoop(list, replies).1;
        forall k | 1 <= k && 2 * k + 1 < |trace|
          ensures k < |replies| && replies[k].action.Some? && trace[2 * k + 1] == CallFor(replies[k].action.value)
        {
          assert trace[2 * k + 1] == rest[2 * (k - 1) + 1];
          assert replies[1..][k - 1] == replies[k];
        }
      }
    }
  }

  /** The answer is a move whose step failed: the robot panics. */
  predicate FailedMove(reply: Reply) {
    reply.action.Some? && reply.action.value.Move? && reply.error.Some?
  }

  /** How the loop ends, in terms of the last answer it used. An empty list does
      nothing. The loop ends `Emptied` exactly when the list was empty from the start or
      op_map left it empty after an action that did not panic; it ends `MoveFailed`
      exactly when the last answer used was a move whose step failed. */
  lemma {:induction false} LoopEnds(list: seq<Item>, replies: seq<Reply>)
    ensures list == [] ==> ShoppingLoop(list, replies) == (Emptied, [])
    ensures var r := ShoppingLoop(list, replies);
      r.0.MoveFailed? <==>
        r.1 != [] && |r.1| % 2 == 0 && FailedMove(replies[|r.1| / 2 - 1])
    ensures var r := ShoppingLoop(list, replies);
      r.0.Emptied? <==>
        list == [] ||
        (r.1 != [] && |r.1| % 2 == 0 && !FailedMove(replies[|r.1| / 2 - 1])
         && replies[|r.1| / 2 - 1].listAfter == [])
    decreases |replies|
  {
    if list != [] && replies != [] && replies[0].action.Some? {
      var a := replies[0].action.value;
      if !(a.Move? && replies[0].error.Some?) {
        var rest := ShoppingLoop(replies[0].listAfter, replies[1..]);
        LoopEnds(replies[0].listAfter, replies[1..]);
        var trace := [BestAction, CallFor(a)] + rest.1;
        assert |trace| == |rest.1| + 2;
        if rest.1 != [] {
          assert replies[0].listAfter != [];
          if |rest.1| % 2 == 0 {
            assert |trace| / 2 - 1 == |rest.1| / 2;
            assert replies[1..][|rest.1| / 2 - 1] == replies[|trace| / 2 - 1];
          }
        }
      }
    }
  }

  /** Answers beyond the ones the loop consumes change nothing: unless the loop ran out
      of answers, giving it more gives the same run. */
  lemma {:induction false} LaterRepliesUnused(list: seq<Item>, replies: seq<Reply>, more: seq<Reply>)
    requires !ShoppingLoop(list, replies).0.OutOfReplies?
    ensures ShoppingLoop(list, replies + more) == ShoppingLoop(list, replies)
    decreases |replies|
  {
    if list != [] {
      assert replies != [];
      assert (replies + more)[0] == replies[0];
      assert (replies + more)[1..] == replies[1..] + more;
      if replies[0].action.Some? {
        var a := replies[0].action.value;
        if !(a.Move? && replies[0].error.Some?) {
          LaterRepliesUnused(replies[0].listAfter, replies[1..], more);
        }
      }
    }
  }

  /** A failed destroy or put is only logged: the loop runs on exactly as if the
      action had succeeded. */
  lemma DestroyAndPutErrorsSwallowed(list: seq<Item>, replies: seq<Reply>, e: Option<LibError>)
    requires list != [] && replies != []
    requires replies[0].action.Some? && !replies[0].action.value.Move?
    ensures ShoppingLoop(list, [replies[0].(error := e)] + replies[1..]) == ShoppingLoop(list, replies)
  {
    var changed := [replies[0].(error := e)] + replies[1..];
    assert changed[1..] == replies[1..];
  }

  /** With no action for the current list the loop stops at once, after one query, and
      what op_map left in the list is dropped rather than carried to the next tick. */
  lemma NoActionBreaks(list: seq<Item>, replies: seq<Reply>)
    requires list != [] && replies != [] && replies[0].action.None?
    ensures ShoppingLoop(list, replies) == (NoAction(replies[0].listAfter), [BestAction])
  {
  }
}
