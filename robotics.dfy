/** The parts of the world-simulation library the controller talks to, seen only at
    their interface: directions, tile contents, library errors, and a record of
    each collaborator call the controller makes. */
module Robotics {

  /** A cardinal direction. The explorer's richer direction type is modelled by the
      same four values. */
  datatype Dir = Up | Down | Left | Right

  /** The tile contents the controller names: a tree (with an amount) and a crate
      (with the range of amounts it holds). */
  datatype Content = Tree(amount: nat) | Crate(lo: nat, hi: nat)

  /** The library's error values the controller distinguishes; everything else is `Other`. */
  datatype LibError = NotEnoughEnergy | NotEnoughSpace(amount: nat) | OperationNotAllowed | Other

  /** One call into a collaborator, in the order the controller makes them. */
  datatype Call =
    | RobotView                                   // robot_view at the start of a tick
    | LuckySpin                                   // the lucky-spin tool (Happy)
    | CheapestBorder                              // explorer: pick the cheapest border (Calm)
    | MoveToBorder(plan: seq<Dir>)                // explorer: walk a plan (Calm)
    | BestAction                                  // op_map: next action for the shopping list (Sad)
    | GoAllowed(dir: Dir)                         // may the robot step that way? (Panic)
    | Go(dir: Dir)                                // step (Sad, Panic)
    | DestroyAt(dir: Dir)                         // destroy the content next to the robot (Sad)
    | PutAt(content: Content, amount: nat, dir: Dir)  // put content next to the robot (Sad)
}
