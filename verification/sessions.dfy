/** Runs of the wrapper: any interleaving of the calls the simulation and the
    host make on one vehicle, and the properties that hold over whole runs. */
module Sessions {
  import opened Wrappers
  import opened HostGeometry
  import opened Collisions
  import opened VehicleStates
  import opened PawnWrapper

  /** One call on the wrapper. */
  datatype Event =
    | PoseCommand(position: Vector, orientation: Rotation, ignoreCollision: bool,
                  hitsDuringCommit: seq<CollisionEvent>, obstacle: Option<real>)
    | HostCollision(hit: CollisionEvent)
    | DebugPoseCommand(debugPosition: Vector)
    | TraceToggle
    | PassthroughToggle
    | ResetCommand

  datatype StepOutcome = StepOutcome(wrapper: Wrapper, move: Option<Move>)

  datatype RunOutcome = RunOutcome(wrapper: Wrapper, moves: seq<Move>)

  function Step(w: Wrapper, ev: Event): StepOutcome
  {
    match ev
    case PoseCommand(p, o, ignore, hits, obstacle) =>
      var r := SetPose(w, p, o, ignore, hits, obstacle);
      StepOutcome(r.wrapper, Some(r.move))
    case HostCollision(e) => StepOutcome(OnCollision(w, e), None)
    case DebugPoseCommand(p) => StepOutcome(SetDebugPose(w, p).wrapper, None)
    case TraceToggle => StepOutcome(ToggleTrace(w), None)
    case PassthroughToggle => StepOutcome(AllowPassthroughToggleInput(w), None)
    case ResetCommand =>
      var r := Reset(w);
      StepOutcome(r.wrapper, Some(r.move))
  }

  function MovesOf(m: Option<Move>): seq<Move>
  {
    match m
    case None => []
    case Some(move) => [move]
  }

  /** Moves issued by pose updates and resets. */
  function MoveCount(evs: seq<Event>): nat
  {
    if |evs| == 0 then 0
    else (if evs[0].PoseCommand? || evs[0].ResetCommand? then 1 else 0) + MoveCount(evs[1..])
  }

  /** Host hit notifications in a run, wherever they are delivered. */
  function HitCount(evs: seq<Event>): nat
  {
    if |evs| == 0 then 0
    else
      (match evs[0]
       case PoseCommand(_, _, _, hits, _) => |hits|
       case HostCollision(_) => 1
       case _ => 0)
      + HitCount(evs[1..])
  }

  /** Applies the events in order, collecting the moves committed to the host. */
  function Run(w: Wrapper, evs: seq<Event>): (r: RunOutcome)
    ensures |r.moves| == MoveCount(evs)
    ensures SameFixtures(w, r.wrapper)
    decreases |evs|
  {
    if |evs| == 0 then RunOutcome(w, [])
    else
      var first := Step(w, evs[0]);
      var rest := Run(first.wrapper, evs[1..]);
      RunOutcome(rest.wrapper, MovesOf(first.move) + rest.moves)
  }

  predicate NoReset(evs: seq<Event>)
  {
    forall i :: 0 <= i < |evs| ==> !evs[i].ResetCommand?
  }

  predicate NothingIgnored(evs: seq<Event>)
  {
    forall i :: 0 <= i < |evs| ==> !(evs[i].PoseCommand? && evs[i].ignoreCollision)
  }

  predicate NoTwoTeleportsInARow(moves: seq<Move>)
  {
    forall i :: 0 <= i < |moves| - 1 ==> !(moves[i].teleport && moves[i + 1].teleport)
  }

  /** The flip-flop over a whole run: with collisions on, no reset and no
      ignored collision, the host never sees two teleports in a row, and a
      run that starts right after a teleport starts with a resolved move. */
  lemma {:induction false} FlipFlopOverRun(w: Wrapper, evs: seq<Event>)
    requires w.state.collisionsEnabled
    requires NoReset(evs) && NothingIgnored(evs)
    ensures NoTwoTeleportsInARow(Run(w, evs).moves)
    ensures w.state.wasLastMoveTeleport && |Run(w, evs).moves| > 0 ==> !Run(w, evs).moves[0].teleport
    decreases |evs|
  {
    if |evs| > 0 {
      var first := Step(w, evs[0]);
      assert !evs[0].ResetCommand? && !(evs[0].PoseCommand? && evs[0].ignoreCollision);
      assert first.wrapper.state.collisionsEnabled;
      assert NoReset(evs[1..]) && NothingIgnored(evs[1..]) by {
        forall i | 0 <= i < |evs[1..]|
          ensures !evs[1..][i].ResetCommand? && !(evs[1..][i].PoseCommand? && evs[1..][i].ignoreCollision)
        {
          assert evs[1..][i] == evs[i + 1];
        }
      }
      FlipFlopOverRun(first.wrapper, evs[1..]);
      var rest := Run(first.wrapper, evs[1..]);
      if evs[0].PoseCommand? {
        var m := first.move.value;
        assert m.teleport == first.wrapper.state.wasLastMoveTeleport;
        if w.state.wasLastMoveTeleport {
          NoTeleportAfterTeleport(w.state);
        }
        assert Run(w, evs).moves == [m] + rest.moves;
      } else {
        assert first.move.None?;
        assert first.wrapper.state.wasLastMoveTeleport == w.state.wasLastMoveTeleport;
        assert Run(w, evs).moves == rest.moves;
      }
    }
  }

  /** Why the flip-flop excludes resets: a reset always teleports, so it
      can follow a teleporting pose update; and after a reset to a record
      with a clear teleport flag, a hit followed by a passthrough pose update
      teleports again. */
  lemma ResetBreaksAlternation(w: Wrapper, p: Vector, o: Rotation, hits: seq<CollisionEvent>,
                               d: Option<real>, e: CollisionEvent)
    ensures CanTeleportWhileMove(w.state) ==>
              var moves := Run(w, [PoseCommand(p, o, false, hits, d), ResetCommand]).moves;
              |moves| == 2 && moves[0].teleport && moves[1].teleport
    ensures w.initialState.collisionsEnabled && w.initialState.passthroughEnabled
            && !w.initialState.wasLastMoveTeleport ==>
              var moves := Run(w, [ResetCommand, HostCollision(e), PoseCommand(p, o, false, [], d)]).moves;
              |moves| == 2 && moves[0].teleport && moves[1].teleport
  {
    var evs1 := [PoseCommand(p, o, false, hits, d), ResetCommand];
    assert evs1[1..] == [ResetCommand];
    assert [ResetCommand][1..] == [];
    var evs2 := [ResetCommand, HostCollision(e), PoseCommand(p, o, false, [], d)];
    assert evs2[1..] == [HostCollision(e), PoseCommand(p, o, false, [], d)];
    assert evs2[1..][1..] == [PoseCommand(p, o, false, [], d)];
    assert [PoseCommand(p, o, false, [], d)][1..] == [];
    if w.initialState.collisionsEnabled && w.initialState.passthroughEnabled
       && !w.initialState.wasLastMoveTeleport {
      var afterReset := Step(w, ResetCommand);
      var afterHit := Step(afterReset.wrapper, HostCollision(e));
      assert CanTeleportWhileMove(afterHit.wrapper.state);
      var afterPose := Step(afterHit.wrapper, PoseCommand(p, o, false, [], d));
      assert afterPose.move.value.teleport;
      var tail := [PoseCommand(p, o, false, [], d)];
      assert Run(afterHit.wrapper, tail).moves == [afterPose.move.value];
      assert Run(afterReset.wrapper, evs2[1..]).moves == [afterPose.move.value];
      assert Run(w, evs2).moves == [afterReset.move.value] + [afterPose.move.value];
    }
  }

  /** With collisions off, both live and in the record reset restores, every
      move a run commits is a teleport. */
  lemma {:induction false} CollisionsOffAllTeleport(w: Wrapper, evs: seq<Event>)
    requires !w.state.collisionsEnabled && !w.initialState.collisionsEnabled
    ensures forall i :: 0 <= i < |Run(w, evs).moves| ==> Run(w, evs).moves[i].teleport
    decreases |evs|
  {
    if |evs| > 0 {
      var first := Step(w, evs[0]);
      assert !first.wrapper.state.collisionsEnabled;
      if evs[0].PoseCommand? {
        CollisionsOffTeleports(w.state);
      }
      CollisionsOffAllTeleport(first.wrapper, evs[1..]);
      assert Run(w, evs).moves == MovesOf(first.move) + Run(first.wrapper, evs[1..]).moves;
    }
  }

  /** Without a reset, the collision counter ends exactly as many hits higher
      as the host reported, whether inside pose updates or on their own. */
  lemma {:induction false} CollisionCountAccumulates(w: Wrapper, evs: seq<Event>)
    requires NoReset(evs)
    ensures Run(w, evs).wrapper.state.collisionInfo.collisionCount
              == w.state.collisionInfo.collisionCount + HitCount(evs)
    decreases |evs|
  {
    if |evs| > 0 {
      assert !evs[0].ResetCommand?;
      assert NoReset(evs[1..]) by {
        forall i | 0 <= i < |evs[1..]| ensures !evs[1..][i].ResetCommand? {
          assert evs[1..][i] == evs[i + 1];
        }
      }
      var first := Step(w, evs[0]);
      CollisionCountAccumulates(first.wrapper, evs[1..]);
    }
  }

  /** Reset forgets the run: after any run, reset yields the record the run
      started with. */
  lemma ResetForgetsHistory(w: Wrapper, evs: seq<Event>)
    ensures Reset(Run(w, evs).wrapper).wrapper.state == w.initialState
    ensures Reset(Run(w, evs).wrapper).move == Reset(w).move
  {
  }
}
