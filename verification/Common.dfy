/** Small vocabulary shared by every module of the model. */
module Common {

  datatype Option<+T> = None | Some(value: T)

  predicate NoDup<T(==)>(s: seq<T>) {
    forall i, j :: 0 <= i < j < |s| ==> s[i] != s[j]
  }

  /** `s` lists exactly the members of `keys`, each once. */
  ghost predicate Lists<T(!new)>(s: seq<T>, keys: set<T>) {
    NoDup(s) && forall x :: x in s <==> x in keys
  }

  /** `s` without its first `x`. */
  function Drop<T(==)>(s: seq<T>, x: T): seq<T> {
    if s == [] then []
    else if s[0] == x then s[1..]
    else [s[0]] + Drop(s[1..], x)
  }

  /** Dropping at a known position cuts one entry out and keeps the order. */
  lemma {:induction false} DropAt<T>(s: seq<T>, x: T, i: nat)
    requires i < |s| && s[i] == x && x !in s[..i]
    ensures Drop(s, x) == s[..i] + s[i + 1..]
  {
    if i > 0 {
      assert s[1..][..i - 1] == s[..i][1..];
      DropAt(s[1..], x, i - 1);
      assert [s[0]] + (s[1..][..i - 1] + s[1..][i..]) == s[..i] + s[i + 1..];
    }
  }

  lemma {:induction false} DropAbsent<T>(s: seq<T>, x: T)
    requires x !in s
    ensures Drop(s, x) == s
  {
    if s != [] {
      DropAbsent(s[1..], x);
    }
  }

  lemma IndexOf<T>(s: seq<T>, x: T) returns (i: nat)
    requires NoDup(s) && x in s
    ensures i < |s| && s[i] == x && x !in s[..i] && x !in s[i + 1..]
  {
    i :| i < |s| && s[i] == x;
  }

  /** Dropping from a duplicate-free list removes exactly that member. */
  lemma DropLists<T(!new)>(s: seq<T>, keys: set<T>, x: T)
    requires Lists(s, keys) && x in keys
    ensures Lists(Drop(s, x), keys - {x})
  {
    var i := IndexOf(s, x);
    DropAt(s, x, i);
    var rest := Drop(s, x);
    assert forall y <- s :: y != x ==> y in s[..i] || y in s[i + 1..];
    assert forall j :: 0 <= j < |rest| ==> rest[j] == if j < i then s[j] else s[j + 1];
  }

  lemma AppendLists<T(!new)>(s: seq<T>, keys: set<T>, x: T)
    requires Lists(s, keys) && x !in keys
    ensures Lists(s + [x], keys + {x})
  {
  }

  /** Unicode white space, as trimmed by both programs. */
  predicate IsSpace(c: char) {
    || '\t' <= c <= '\r'
    || c in {' ', '\U{85}', '\U{A0}', '\U{1680}', '\U{2028}', '\U{2029}', '\U{202F}', '\U{205F}', '\U{3000}'}
    || '\U{2000}' <= c <= '\U{200A}'
  }

  /** Trimming leaves nothing. */
  predicate Blank(text: string) {
    forall c <- text :: IsSpace(c)
  }
}

/** The wire names the program compares, as constructors: event names, tools,
    tool arguments, reasons for asking the backend. */
module Names {

  datatype EventName =
    | AgentResumed | AgentSuspended | QuestDialogueEntered | NpcReleased | NpcActivated
    | ConversationStarted | ConversationEnded | ConversationInterrupted
    | AgentActivationDeferred
    | ActionStarted | ActionCompleted | ActionFailed | NpcSpoke
    | GoalCreated | GoalChanged | GoalCompleted
    | PlayerSpoke | PlayerThreatenedNpc | PlayerAttackedNpc | NpcDamaged | GunshotHeard
    | DeadBodyDiscovered | FightStarted | PlayerApproached | PlayerLookedAtNpc
    | OtherEvent(name: string)

  datatype Tool =
    | Say | LookAt | Face | Follow | FleeFrom | Wander | GoTo | Investigate | Wait | Gesture | Stop
    | ClearAttention | Think
    | OtherTool(name: string)

  datatype Key =
    | Text | Entity | Radius | Destination | Position | Duration | GestureType
    | OtherKey(name: string)

  datatype Reason =
    | AnswerPlayer | PushToTalk | QuestLine | ActionFailure | Idle
    | Meaningful(event: EventName)
    | Promotion(deferred: Reason)
}
