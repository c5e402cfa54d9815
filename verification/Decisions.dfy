/** What a backend may decide, and how the runtime repairs a decision before it
    executes it: behaviour guardrails, action stabilisation, speech policy. */
module Decisions {
  import opened Common
  import opened Names

  /** JSON-shaped argument values. */
  datatype Value =
    | Nil
    | Flag(flag: bool)
    | Num(num: real)
    | Str(text: string)
    | List(items: seq<Value>)
    | Obj(fields: map<string, Value>)

  type Args = map<Key, Value>

  datatype Action = Action(tool: Tool, args: Args)

  datatype Speech = Speech(text: string, target: string, emotion: string)

  datatype Decision = Decision(
    goal: Option<string>,
    mood: Option<string>,
    speech: Option<Speech>,
    actions: seq<Action>,
    internal: Args)

  /** The event that woke the backend: its name and its `position` field. */
  datatype Trigger = Trigger(eventName: EventName, position: Value)

  /** What normalisation reads from outside the decision: how numeric text is
      read, and the NPC's most recent known position. */
  datatype Lookups = Lookups(parseFloat: string -> Option<real>, recentPosition: Value)

  function At(args: Args, key: Key): Value {
    if key in args then args[key] else Nil
  }

  predicate Truthy(v: Value) {
    match v
    case Nil => false
    case Flag(b) => b
    case Num(n) => n != 0.0
    case Str(s) => s != ""
    case List(items) => items != []
    case Obj(fields) => fields != map[]
  }

  /** Text of a value; containers have none. */
  function TextOf(v: Value, numeral: string := "0"): string {
    match v
    case Flag(b) => if b then "true" else "false"
    case Num(_) => numeral
    case Str(s) => s
    case _ => ""
  }

  function FloatOr(v: Value, fallback: real, look: Lookups): real {
    match v
    case Flag(b) => if b then 1.0 else 0.0
    case Num(n) => n
    case Str(s) => if look.parseFloat(s).Some? then look.parseFloat(s).value else fallback
    case _ => fallback
  }

  predicate IsPosition(v: Value) {
    v.List? && |v.items| >= 3
  }

  /** Absent and nil arguments are the same thing. */
  function WithoutNil(args: Args): Args {
    map k | k in args && args[k] != Nil :: args[k]
  }

  const STABLE_TOOLS: set<Tool> := {
    Say, LookAt, Face, Follow, FleeFrom, Wander, GoTo,
    Investigate, Wait, Gesture, Stop, ClearAttention}

  /** The action is supported and carries its required argument. */
  ghost predicate Ready(a: Action) {
    && a.tool in STABLE_TOOLS
    && (forall k <- a.args :: a.args[k] != Nil)
    && match a.tool
       case Say => !Blank(TextOf(At(a.args, Text)))
       case LookAt => Entity in a.args
       case Face => Entity in a.args
       case Follow => Entity in a.args
       case FleeFrom => Entity in a.args
       case Wander => At(a.args, Radius).Num?
       case GoTo => Truthy(At(a.args, Destination))
       case Investigate => Truthy(At(a.args, Position))
       case Wait => At(a.args, Duration).Num?
       case Gesture => GestureType in a.args
       case _ => a.args == map[]
  }

  /** What a tool handler itself insists on before it dispatches. */
  predicate HandlerAccepts(tool: Tool, args: Args) {
    match tool
    case Say => !Blank(TextOf(At(args, Text)))
    case GoTo => At(args, Destination) != Nil
    case Investigate => At(args, Position) != Nil && At(args, Position) != List([])
    case _ => true
  }

  /** Keep the (repaired) action, or drop it; an empty reason drops silently. */
  datatype Verdict = Keep(action: Action) | Reject(reason: string)

  predicate SpeaksAloud(d: Decision) {
    d.speech.Some? && d.speech.value.text != ""
  }

  function Normalize(d: Decision, a: Action, look: Lookups): (v: Verdict)
    ensures v.Keep? ==> Ready(v.action)
    ensures v.Reject? && v.reason == "" ==> a.tool == Say && SpeaksAloud(d)
    ensures v.Keep? && v.action.tool == Say ==> !SpeaksAloud(d)
    ensures v.Keep? ==> v.action.tool == a.tool || (a.tool == GoTo && v.action.tool == Wander)
  {
    var args := WithoutNil(a.args);
    match a.tool
    case Say =>
      if SpeaksAloud(d) then Reject("")
      else if Blank(TextOf(At(args, Text))) then Reject("say_missing_text")
      else Keep(Action(Say, args))
    case Wander => Keep(Action(a.tool, args[Radius := Num(FloatOr(At(args, Radius), 8.0, look))]))
    case GoTo =>
      if Truthy(At(args, Destination)) then Keep(Action(a.tool, args))
      else if Truthy(At(d.internal, Destination)) then
        Keep(Action(a.tool, args[Destination := At(d.internal, Destination)]))
      else if d.goal.Some? && d.goal.value != "" then
        Keep(Action(Wander, map[Radius := Num(8.0)]))
      else Reject("go_to_missing_destination")
    case Investigate =>
      var position := if Truthy(At(args, Position)) then At(args, Position) else look.recentPosition;
      if Truthy(position) then Keep(Action(a.tool, args[Position := position]))
      else Reject("investigate_missing_position")
    case Wait => Keep(Action(a.tool, args[Duration := Num(FloatOr(At(args, Duration), 2.0, look))]))
    case Gesture =>
      Keep(Action(a.tool, if GestureType in args then args else args[GestureType := Str("neutral")]))
    case _ =>
      if a.tool in {LookAt, Face, Follow, FleeFrom} then
        Keep(Action(a.tool, if Entity in args then args else args[Entity := Str("player")]))
      else if a.tool in {Stop, ClearAttention} then Keep(Action(a.tool, map[]))
      else Reject("unsupported_tool")
  }

  /** The surviving actions and, in order, the tools of the logged failures. */
  datatype Stabilized = Stabilized(kept: seq<Action>, failed: seq<Tool>)

  /** A repaired action is kept; a rejected one counts as failed if there is a reason. */
  function Judged(r: Stabilized, a: Action, v: Verdict): Stabilized {
    if v.Keep? then Stabilized(r.kept + [v.action], r.failed)
    else if v.reason == "" then r
    else Stabilized(r.kept, r.failed + [a.tool])
  }

  function Stabilize(d: Decision, actions: seq<Action>, look: Lookups): Stabilized {
    if actions == [] then Stabilized([], [])
    else
      var front, a := actions[..|actions| - 1], actions[|actions| - 1];
      Judged(Stabilize(d, front, look), a, Normalize(d, a, look))
  }

  /** Whatever survives is supported, carries its argument, and is no duplicate `say`. */
  lemma {:induction false} SurvivorsAreReady(d: Decision, actions: seq<Action>, look: Lookups, kept: Action)
    requires kept in Stabilize(d, actions, look).kept
    ensures Ready(kept) && (kept.tool == Say ==> !SpeaksAloud(d))
  {
    var front, a := actions[..|actions| - 1], actions[|actions| - 1];
    if kept in Stabilize(d, front, look).kept {
      SurvivorsAreReady(d, front, look, kept);
    }
  }

  function Count(actions: seq<Action>, tool: Tool): nat {
    if actions == [] then 0
    else Count(actions[..|actions| - 1], tool) + (if actions[|actions| - 1].tool == tool then 1 else 0)
  }

  /** Every action is kept, logged as exactly one failure, or is a duplicate `say`. */
  lemma {:induction false} StabilizeAccounts(d: Decision, actions: seq<Action>, look: Lookups)
    ensures var r := Stabilize(d, actions, look);
            |r.kept| + |r.failed| + (if SpeaksAloud(d) then Count(actions, Say) else 0) == |actions|
  {
    if actions != [] {
      StabilizeAccounts(d, actions[..|actions| - 1], look);
    }
  }

  /** A ready action normalises to itself. */
  lemma ReadyIsFixed(d: Decision, a: Action, look: Lookups)
    requires Ready(a)
    requires a.tool == Say ==> !SpeaksAloud(d)
    ensures Normalize(d, a, look) == Keep(a)
  {
    assert WithoutNil(a.args) == a.args;
    match a.tool {
      case Wander => assert a.args[Radius := a.args[Radius]] == a.args;
      case Wait => assert a.args[Duration := a.args[Duration]] == a.args;
      case Investigate => assert a.args[Position := a.args[Position]] == a.args;
      case _ =>
    }
  }

  /** A second pass changes nothing and logs nothing. */
  lemma {:induction false} StabilizeIsIdempotent(d: Decision, actions: seq<Action>, look: Lookups, again: Lookups)
    ensures var kept := Stabilize(d, actions, look).kept;
            Stabilize(d, kept, again) == Stabilized(kept, [])
  {
    var kept := Stabilize(d, actions, look).kept;
    forall a | a in kept
      ensures Normalize(d, a, again) == Keep(a)
    {
      SurvivorsAreReady(d, actions, look, a);
      ReadyIsFixed(d, a, again);
    }
    StabilizeFixes(d, kept, again);
  }

  lemma {:induction false} StabilizeFixes(d: Decision, kept: seq<Action>, look: Lookups)
    requires forall a <- kept :: Normalize(d, a, look) == Keep(a)
    ensures Stabilize(d, kept, look) == Stabilized(kept, [])
  {
    if kept != [] {
      var front, a := kept[..|kept| - 1], kept[|kept| - 1];
      assert forall b <- front :: b in kept;
      assert a in kept;
      StabilizeFixes(d, front, look);
      StabilizeUnfolds(d, kept, look);
      FixedIsKept(front, a);
    }
  }

  lemma StabilizeUnfolds(d: Decision, actions: seq<Action>, look: Lookups)
    requires actions != []
    ensures var front, a := actions[..|actions| - 1], actions[|actions| - 1];
            && Stabilize(d, actions, look) == Judged(Stabilize(d, front, look), a, Normalize(d, a, look))
            && front + [a] == actions
  {
  }

  lemma FixedIsKept(front: seq<Action>, a: Action)
    ensures Judged(Stabilized(front, []), a, Keep(a)) == Stabilized(front + [a], [])
  {
  }

  /** A ready action is never refused by its handler. */
  lemma ReadyIsDispatched(a: Action)
    requires Ready(a)
    ensures HandlerAccepts(a.tool, WithoutNil(a.args))
  {
    assert WithoutNil(a.args) == a.args;
  }

  // ---------------------------------------------------------------------
  // Behaviour guardrails
  // ---------------------------------------------------------------------

  predicate Has(actions: seq<Action>, tool: Tool) {
    exists a <- actions :: a.tool == tool
  }

  function Without(actions: seq<Action>, blocked: set<Tool>): (r: seq<Action>)
    ensures forall a <- r :: a in actions && a.tool !in blocked
    ensures forall a <- actions :: a.tool !in blocked ==> a in r
  {
    if actions == [] then []
    else
      var front, a := actions[..|actions| - 1], actions[|actions| - 1];
      if a.tool in blocked then Without(front, blocked) else Without(front, blocked) + [a]
  }

  function Default(current: Option<string>, fallback: string): Option<string> {
    if current.Some? && current.value != "" then current else Some(fallback)
  }

  const THREATS: set<EventName> := {PlayerThreatenedNpc, PlayerAttackedNpc, NpcDamaged}
  const PURSUITS: set<Tool> := {GoTo, Follow, Wander, Investigate}

  const FLEE: Action := Action(FleeFrom, map[Entity := Str("player")])
  const FACE: Action := Action(Face, map[Entity := Str("player")])

  function Guard(d: Decision, trigger: Option<Trigger>, courage: real): Decision {
    if trigger.None? then d
    else if trigger.value.eventName in THREATS then
      if courage < 0.48 then
        var calm := Without(d.actions, PURSUITS);
        d.(actions := if Has(calm, FleeFrom) then calm else [FLEE] + calm,
           mood := Default(d.mood, "afraid"),
           goal := Default(d.goal, "get away from the player"))
      else if !Has(d.actions, Face) && !Has(d.actions, LookAt) then
        d.(actions := d.actions + [FACE])
      else d
    else if trigger.value.eventName == GunshotHeard then
      if courage >= 0.55 && IsPosition(trigger.value.position) then
        d.(actions :=
             if Has(d.actions, Investigate) then d.actions
             else Without(d.actions, {Wander, GoTo, Follow, FleeFrom}) +
                  [Action(Investigate, map[Position := trigger.value.position])],
           mood := Default(d.mood, "alert"),
           goal := Default(d.goal, "investigate the gunshot"))
      else if courage < 0.40 && !Has(d.actions, Wander) && !Has(d.actions, GoTo) && !Has(d.actions, FleeFrom)
      then
        d.(actions := d.actions + [Action(Wander, map[Radius := Num(12.0)])],
           mood := Default(d.mood, "afraid"))
      else d
    else d
  }

  /** A kept action stems from an action of the input. */
  lemma {:induction false} KeptComesFrom(d: Decision, actions: seq<Action>, look: Lookups, kept: Action)
    requires kept in Stabilize(d, actions, look).kept
    ensures Has(actions, kept.tool) || (kept.tool == Wander && Has(actions, GoTo))
  {
    var front, a := actions[..|actions| - 1], actions[|actions| - 1];
    assert a in actions;
    if kept in Stabilize(d, front, look).kept {
      KeptComesFrom(d, front, look, kept);
      assert forall b <- front :: b in actions;
    }
  }

  lemma {:induction false} FleeSurvives(d: Decision, actions: seq<Action>, look: Lookups)
    requires Has(actions, FleeFrom)
    ensures Has(Stabilize(d, actions, look).kept, FleeFrom)
  {
    var front, a := actions[..|actions| - 1], actions[|actions| - 1];
    var kept := Stabilize(d, actions, look).kept;
    if a.tool == FleeFrom {
      assert kept[|kept| - 1].tool == FleeFrom;
    } else {
      var flee :| flee in actions && flee.tool == FleeFrom;
      assert flee in front;
      FleeSurvives(d, front, look);
      var k :| k in Stabilize(d, front, look).kept && k.tool == FleeFrom;
      assert k in kept;
    }
  }

  /** A flight and no pursuit. */
  ghost predicate FleesOnly(actions: seq<Action>) {
    Has(actions, FleeFrom) && forall tool <- PURSUITS :: !Has(actions, tool)
  }

  /** All the guardrails leave a threatened NPC. */
  lemma GuardMakesFlee(d: Decision, trigger: Trigger, courage: real)
    requires trigger.eventName in THREATS && courage < 0.48
    ensures FleesOnly(Guard(d, Some(trigger), courage).actions)
  {
    var guarded := Guard(d, Some(trigger), courage);
    assert !Has(Without(d.actions, PURSUITS), FleeFrom) ==> guarded.actions[0] == FLEE;
  }

  /** A threatened NPC of low courage always ends up fleeing and never ends up
      pursuing anything, whatever the backend decided. */
  lemma ThreatenedNpcFlees(d: Decision, trigger: Trigger, courage: real, look: Lookups)
    requires trigger.eventName in THREATS && courage < 0.48
    ensures var guarded := Guard(d, Some(trigger), courage);
            FleesOnly(Stabilize(guarded, guarded.actions, look).kept)
  {
    var guarded := Guard(d, Some(trigger), courage);
    var kept := Stabilize(guarded, guarded.actions, look).kept;
    GuardMakesFlee(d, trigger, courage);
    FleeSurvives(guarded, guarded.actions, look);
    forall a | a in kept
      ensures a.tool !in PURSUITS
    {
      KeptComesFrom(guarded, guarded.actions, look, a);
    }
  }

  /** Guardrails never put words into an NPC's mouth. */
  lemma GuardAddsNoSpeech(d: Decision, trigger: Option<Trigger>, courage: real)
    ensures Guard(d, trigger, courage).speech == d.speech
    ensures Has(Guard(d, trigger, courage).actions, Say) ==> Has(d.actions, Say)
  {
  }

  // ---------------------------------------------------------------------
  // Speech policy
  // ---------------------------------------------------------------------

  /** Direct answers and urgent reactions bypass the cooldowns. */
  predicate Exempt(reason: Reason) {
    || reason == PushToTalk || reason == AnswerPlayer
    || (reason.Meaningful? && (reason.event in THREATS || reason.event == GunshotHeard))
  }

  /** Whether the policy consults the clock at all. */
  predicate PolicyApplies(d: Decision, reason: Reason) {
    d.speech.Some? && !Exempt(reason)
  }

  predicate CoolingDown(now: real, lastSpokenAt: real, lastGlobalAt: real, cooldown: real, globalCooldown: real) {
    now - lastSpokenAt < cooldown || now - lastGlobalAt < globalCooldown
  }

  // ---------------------------------------------------------------------
  // The same steps as the program performs them
  // ---------------------------------------------------------------------

  method NormalizeAction(d: Decision, a: Action, look: Lookups) returns (fixed: Action, reason: string, ok: bool)
    ensures ok ==> Normalize(d, a, look) == Keep(fixed)
    ensures !ok ==> Normalize(d, a, look) == Reject(reason)
  {
    var args := map k | k in a.args && a.args[k] != Nil :: a.args[k];
    fixed, reason, ok := a, "", false;
    match a.tool {
      case Say =>
        if d.speech.Some? && d.speech.value.text != "" {
          return;
        }
        if Blank(TextOf(At(args, Text))) {
          reason := "say_missing_text";
          return;
        }
        fixed, ok := Action(Say, args), true;
      case LookAt | Face | Follow | FleeFrom =>
        if Entity !in args {
          args := args[Entity := Str("player")];
        }
        fixed, ok := Action(a.tool, args), true;
      case Wander =>
        args := args[Radius := Num(FloatOr(At(args, Radius), 8.0, look))];
        fixed, ok := Action(a.tool, args), true;
      case GoTo =>
        if !Truthy(At(args, Destination)) {
          var internalDestination := At(d.internal, Destination);
          if Truthy(internalDestination) {
            args := args[Destination := internalDestination];
          } else if d.goal.Some? && d.goal.value != "" {
            fixed, ok := Action(Wander, map[Radius := Num(8.0)]), true;
            return;
          } else {
            reason := "go_to_missing_destination";
            return;
          }
        }
        fixed, ok := Action(a.tool, args), true;
      case Investigate =>
        var position := At(args, Position);
        if !Truthy(position) {
          position := look.recentPosition;
        }
        if !Truthy(position) {
          reason := "investigate_missing_position";
          return;
        }
        args := args[Position := position];
        fixed, ok := Action(a.tool, args), true;
      case Wait =>
        args := args[Duration := Num(FloatOr(At(args, Duration), 2.0, look))];
        fixed, ok := Action(a.tool, args), true;
      case Gesture =>
        if GestureType !in args {
          args := args[GestureType := Str("neutral")];
        }
        fixed, ok := Action(a.tool, args), true;
      case Stop | ClearAttention =>
        fixed, ok := Action(a.tool, map[]), true;
      case _ =>
        reason := "unsupported_tool";
    }
  }

  method FilterActions(actions: seq<Action>, blocked: set<Tool>) returns (filtered: seq<Action>)
    ensures filtered == Without(actions, blocked)
  {
    filtered := [];
    for i := 0 to |actions|
      invariant filtered == Without(actions[..i], blocked)
    {
      assert actions[..i + 1][..i] == actions[..i];
      if actions[i].tool !in blocked {
        filtered := filtered + [actions[i]];
      }
    }
    assert actions[..|actions|] == actions;
  }

  method ApplyBehaviorGuardrails(decision: Decision, trigger: Option<Trigger>, courage: real)
    returns (guarded: Decision)
    ensures guarded == Guard(decision, trigger, courage)
  {
    guarded := decision;
    if trigger.None? {
      return;
    }
    var actions := decision.actions;
    match trigger.value.eventName {
      case PlayerThreatenedNpc | PlayerAttackedNpc | NpcDamaged =>
        if courage < 0.48 {
          actions := FilterActions(actions, PURSUITS);
          if !Has(actions, FleeFrom) {
            actions := [FLEE] + actions;
          }
          guarded := guarded.(mood := Default(guarded.mood, "afraid"));
          guarded := guarded.(goal := Default(guarded.goal, "get away from the player"));
        } else if !Has(actions, Face) && !Has(actions, LookAt) {
          actions := actions + [FACE];
        }
      case GunshotHeard =>
        var position := trigger.value.position;
        if courage >= 0.55 && IsPosition(position) {
          if !Has(actions, Investigate) {
            actions := FilterActions(actions, {Wander, GoTo, Follow, FleeFrom});
            actions := actions + [Action(Investigate, map[Position := position])];
          }
          guarded := guarded.(mood := Default(guarded.mood, "alert"));
          guarded := guarded.(goal := Default(guarded.goal, "investigate the gunshot"));
        } else if courage < 0.40 && !Has(actions, Wander) && !Has(actions, GoTo) && !Has(actions, FleeFrom) {
          actions := actions + [Action(Wander, map[Radius := Num(12.0)])];
          guarded := guarded.(mood := Default(guarded.mood, "afraid"));
        }
      case _ =>
    }
    guarded := guarded.(actions := actions);
  }
}
