/**
 * The controller's pure parts: the human-readable rendering of a button
 * record, and the rule that puts a player's buttons into the slot of the
 * outgoing command that belongs to that player.
 */
module Controller {
  import opened GameTypes
  import opened Text
  import opened BotModel

  /** A one-element list when the flag is set, else the empty list. */
  function Listed(flag: bool, name: string): seq<string>
  {
    if flag then [name] else []
  }

  /** The pressed directions, in the order Up, Down, Left, Right. */
  function DirectionLabels(b: Buttons): (labels: seq<string>)
    ensures |labels| <= 4
    ensures labels == [] <==> !(b.up || b.down || b.left || b.right)
  {
    Listed(b.up, "Up") + Listed(b.down, "Down") + Listed(b.left, "Left") + Listed(b.right, "Right")
  }

  /** The pressed action buttons, in the order Y, B, A, X, L, R, each with its move's name. */
  function ActionLabels(b: Buttons): (labels: seq<string>)
    ensures |labels| <= 6
    ensures labels == [] <==> !(b.Y || b.B || b.A || b.X || b.L || b.R)
  {
    Listed(b.Y, "Y(Heavy Punch)") + Listed(b.B, "B(Medium Punch)") + Listed(b.A, "A(Light Punch)")
    + Listed(b.X, "X(Heavy Kick)") + Listed(b.L, "L(Medium Kick)") + Listed(b.R, "R(Light Kick)")
  }

  /**
   * What `button_state_to_string` renders, by cases: "None" for no pressed
   * flag; otherwise a "Direction: " segment listing the pressed directions,
   * an "Action: " segment listing the pressed action buttons, each list
   * joined by ", ", and the two segments, direction first, joined by " | ".
   */
  function Rendering(b: Buttons): (s: string)
    ensures s == "None" <==> b == Released
    ensures DirectionLabels(b) != [] ==> |s| >= 11 && s[..11] == "Direction: "
    ensures DirectionLabels(b) == [] && ActionLabels(b) != [] ==>
      |s| >= 8 && s[..8] == "Action: "
  {
    var directions := DirectionLabels(b);
    var actions := ActionLabels(b);
    if directions == [] && actions == [] then "None"
    else if actions == [] then "Direction: " + Join(directions, ", ")
    else if directions == [] then "Action: " + Join(actions, ", ")
    else "Direction: " + Join(directions, ", ") + " | " + "Action: " + Join(actions, ", ")
  }

  /** Joining one or two segments. */
  lemma JoinOfSegments(parts: seq<string>, sep: string)
    requires 1 <= |parts| <= 2
    ensures Join(parts, sep) == if |parts| == 1 then parts[0] else parts[0] + sep + parts[1]
  {
    if |parts| == 2 {
      assert parts[1..] == [parts[1]];
    }
  }

  /** The first half of `button_state_to_string`: the pressed directions, appended in flag order. */
  method CollectDirections(b: Buttons) returns (directionButtons: seq<string>)
    ensures directionButtons == DirectionLabels(b)
  {
    // Each assertion records the list built so far.
    directionButtons := [];
    if b.up { directionButtons := directionButtons + ["Up"]; }
    assert directionButtons == Listed(b.up, "Up");
    if b.down { directionButtons := directionButtons + ["Down"]; }
    assert directionButtons == Listed(b.up, "Up") + Listed(b.down, "Down");
    if b.left { directionButtons := directionButtons + ["Left"]; }
    assert directionButtons == Listed(b.up, "Up") + Listed(b.down, "Down") + Listed(b.left, "Left");
    if b.right { directionButtons := directionButtons + ["Right"]; }
  }

  /** The second half: the pressed action buttons, appended in flag order. */
  method CollectActions(b: Buttons) returns (actionButtons: seq<string>)
    ensures actionButtons == ActionLabels(b)
  {
    actionButtons := [];
    if b.Y { actionButtons := actionButtons + ["Y(Heavy Punch)"]; }
    assert actionButtons == Listed(b.Y, "Y(Heavy Punch)");
    if b.B { actionButtons := actionButtons + ["B(Medium Punch)"]; }
    assert actionButtons == Listed(b.Y, "Y(Heavy Punch)") + Listed(b.B, "B(Medium Punch)");
    if b.A { actionButtons := actionButtons + ["A(Light Punch)"]; }
    assert actionButtons == Listed(b.Y, "Y(Heavy Punch)") + Listed(b.B, "B(Medium Punch)") + Listed(b.A, "A(Light Punch)");
    if b.X { actionButtons := actionButtons + ["X(Heavy Kick)"]; }
    assert actionButtons == Listed(b.Y, "Y(Heavy Punch)") + Listed(b.B, "B(Medium Punch)") + Listed(b.A, "A(Light Punch)")
      + Listed(b.X, "X(Heavy Kick)");
    if b.L { actionButtons := actionButtons + ["L(Medium Kick)"]; }
    assert actionButtons == Listed(b.Y, "Y(Heavy Punch)") + Listed(b.B, "B(Medium Punch)") + Listed(b.A, "A(Light Punch)")
      + Listed(b.X, "X(Heavy Kick)") + Listed(b.L, "L(Medium Kick)");
    if b.R { actionButtons := actionButtons + ["R(Light Kick)"]; }
  }

  /**
   * `button_state_to_string`: collects the pressed directions and action
   * buttons into two lists, makes a segment of each non-empty list, and
   * joins the segments.
   */
  method ButtonStateToString(b: Buttons) returns (s: string)
    ensures s == Rendering(b)
  {
    var directionButtons := CollectDirections(b);
    var actionButtons := CollectActions(b);
    var pressed: seq<string> := [];
    if |directionButtons| > 0 {
      pressed := pressed + ["Direction: " + Join(directionButtons, ", ")];
    }
    if |actionButtons| > 0 {
      pressed := pressed + ["Action: " + Join(actionButtons, ", ")];
    }
    if |pressed| == 0 {
      return "None";
    }
    s := Join(pressed, " | ");
    JoinOfSegments(pressed, " | ");
  }

  /** Each direction name is listed exactly when its flag is set. */
  lemma DirectionsListed(b: Buttons)
    ensures var labels := DirectionLabels(b);
      && ("Up" in labels <==> b.up) && ("Down" in labels <==> b.down)
      && ("Left" in labels <==> b.left) && ("Right" in labels <==> b.right)
  {
  }

  /** Each action button is listed exactly when its flag is set. */
  lemma ActionsListed(b: Buttons)
    ensures var labels := ActionLabels(b);
      && ("Y(Heavy Punch)" in labels <==> b.Y) && ("B(Medium Punch)" in labels <==> b.B)
      && ("A(Light Punch)" in labels <==> b.A) && ("X(Heavy Kick)" in labels <==> b.X)
      && ("L(Medium Kick)" in labels <==> b.L) && ("R(Light Kick)" in labels <==> b.R)
  {
    // The labels differ in their first character.
    assert "Y(Heavy Punch)"[0] == 'Y' && "B(Medium Punch)"[0] == 'B' && "A(Light Punch)"[0] == 'A';
    assert "X(Heavy Kick)"[0] == 'X' && "L(Medium Kick)"[0] == 'L' && "R(Light Kick)"[0] == 'R';
  }

  /** The button record `fight` builds for any action renders as something other than "None". */
  lemma EveryActionIsRendered(action: int)
    requires -(ActionCount as int) <= action < ActionCount
    ensures Rendering(ApplyEntries(Released, ActionToButtons(action))) != "None"
  {
    var combo := ActionToButtons(action);
    ComboPressesItsButtons(action);
    assert combo[|combo| - 1].0 in EntryKeys(combo);
    assert Pressed(Released) == {};
  }

  /** A jumping heavy punch renders both segments, with the heavy punch under its upper-case letter. */
  lemma JumpHeavyPunchRendering()
    ensures Rendering(ApplyEntries(Released, ActionToButtons(10))) == "Direction: Up | Action: Y(Heavy Punch)"
  {
    JumpHeavyPunchButtons();
    JumpHeavyPunchLabels();
    SegmentsText();
  }

  /** The record with `up` and `Y` set lists one direction and one action button. */
  lemma JumpHeavyPunchLabels()
    ensures DirectionLabels(Released.(up := true, Y := true)) == ["Up"]
    ensures ActionLabels(Released.(up := true, Y := true)) == ["Y(Heavy Punch)"]
  {
  }

  /** The two one-label segments joined by " | ". */
  lemma SegmentsText()
    ensures "Direction: " + Join(["Up"], ", ") + " | " + "Action: " + Join(["Y(Heavy Punch)"], ", ") == "Direction: Up | Action: Y(Heavy Punch)"
  {
  }

  /** Action 10's entries set exactly the `up` and `Y` flags. */
  lemma JumpHeavyPunchButtons()
    ensures ApplyEntries(Released, ActionToButtons(10)) == Released.(up := true, Y := true)
  {
    var combo := ActionToButtons(10);
    assert combo == [("up", true), ("Y", true)];
    AttributeNameOfButton("up");
    assert combo[..1] == [("up", true)];
    assert combo[..1][..0] == [];
    assert ApplyEntries(Released, combo[..1]) == Released.(up := true);
  }

  /** The slot of a command that belongs to `playerNumber`: player 1's own, else player 2's. */
  function SlotOf(command: Command, playerNumber: int): Buttons
  {
    if playerNumber == 1 then command.playerButtons else command.player2Buttons
  }

  /**
   * The routing in `process_frame`: a fresh command whose slot for this
   * player carries the buttons and whose other slot stays released.
   */
  method RouteCommand(playerNumber: int, buttons: Buttons) returns (command: Command)
    ensures SlotOf(command, playerNumber) == buttons
    ensures SlotOf(command, if playerNumber == 1 then 2 else 1) == Released
  {
    command := EmptyCommand;
    if playerNumber == 1 {
      command := command.(playerButtons := buttons);
    } else {
      command := command.(player2Buttons := buttons);
    }
  }
}
