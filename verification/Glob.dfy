/** The eligibility gate's glob matcher: a memoised search against a declarative
    reading of patterns. */
module Glob {
  import opened Common

  // ---------------------------------------------------------------------
  // What a pattern means
  // ---------------------------------------------------------------------

  /** Characters from `lo` to `hi`; a single one has both the same. */
  datatype Range = Range(lo: char, hi: char)

  datatype Token =
    | Any
    | One
    | Class(negated: bool, members: seq<Range>)
    | Literal(c: char)

  predicate Contains(members: seq<Range>, c: char) {
    exists m <- members :: m.lo <= c <= m.hi
  }

  /** May this token stand for this piece of a name? */
  predicate Fits(token: Token, piece: string) {
    match token
    case Any => true
    case One => |piece| == 1
    case Class(negated, members) => |piece| == 1 && negated != Contains(members, piece[0])
    case Literal(c) => piece == [c]
  }

  /** The members of a class: `x-y` is a range when all three are there. */
  function Members(body: string): seq<Range> {
    if body == "" then []
    else if |body| >= 3 && body[1] == '-' then [Range(body[0], body[2])] + Members(body[3..])
    else [Range(body[0], body[0])] + Members(body[1..])
  }

  function ClassOf(body: string): Token {
    if body != "" && body[0] == '!' then Class(true, Members(body[1..])) else Class(false, Members(body))
  }

  /** The first `]` at or after `from`. */
  function BracketFrom(p: string, from: nat): (end: Option<nat>)
    requires from <= |p|
    ensures end.Some? ==> from <= end.value < |p| && p[end.value] == ']' && ']' !in p[from..end.value]
    ensures end.None? ==> ']' !in p[from..]
    decreases |p| - from
  {
    if from == |p| then None
    else if p[from] == ']' then Some(from)
    else
      var end := BracketFrom(p, from + 1);
      assert end.Some? ==> p[from..end.value] == [p[from]] + p[from + 1..end.value];
      assert p[from..] == [p[from]] + p[from + 1..];
      end
  }

  /** Where the search for the closing bracket starts: past a `!` and past a `]`
      that comes first. */
  function BodyFrom(p: string): (from: nat)
    requires p != ""
    ensures 1 <= from <= |p|
  {
    var afterBang := if |p| > 1 && p[1] == '!' then 2 else 1;
    if |p| > afterBang && p[afterBang] == ']' then afterBang + 1 else afterBang
  }

  /** The bracket that closes the class a pattern starts with, if it is closed. */
  function ClassClose(p: string): (end: Option<nat>)
    requires p != ""
    ensures end.Some? ==> 1 <= end.value < |p|
  {
    BracketFrom(p, BodyFrom(p))
  }

  /** A pattern read as tokens; a `[` that is never closed stands for itself. */
  function Tokens(p: string): seq<Token>
    decreases |p|
  {
    if p == "" then []
    else if p[0] == '*' then [Any] + Tokens(p[1..])
    else if p[0] == '?' then [One] + Tokens(p[1..])
    else if p[0] == '[' && ClassClose(p).Some? then
      var end := ClassClose(p).value;
      [ClassOf(p[1..end])] + Tokens(p[end + 1..])
    else [Literal(p[0])] + Tokens(p[1..])
  }

  function Joined(pieces: seq<string>): string {
    if pieces == [] then "" else pieces[0] + Joined(pieces[1..])
  }

  ghost predicate Segments(tokens: seq<Token>, name: string, pieces: seq<string>) {
    && |pieces| == |tokens| && Joined(pieces) == name
    && forall i :: 0 <= i < |tokens| ==> Fits(tokens[i], pieces[i])
  }

  /** The declarative relation: the name can be cut into pieces that fit the
      pattern's tokens one by one. */
  ghost predicate Matches(tokens: seq<Token>, name: string) {
    exists pieces :: Segments(tokens, name, pieces)
  }

  // ---------------------------------------------------------------------
  // The search and the relation agree
  // ---------------------------------------------------------------------

  /** The search without its memory. */
  predicate Search(tokens: seq<Token>, name: string)
    decreases |tokens| + |name|
  {
    if tokens == [] then name == ""
    else if tokens[0].Any? then Search(tokens[1..], name) || (name != "" && Search(tokens, name[1..]))
    else name != "" && Fits(tokens[0], name[..1]) && Search(tokens[1..], name[1..])
  }

  lemma {:induction false} StarSkips(tokens: seq<Token>, piece: string, rest: string)
    requires tokens != [] && tokens[0].Any? && Search(tokens[1..], rest)
    ensures Search(tokens, piece + rest)
    decreases |piece|
  {
    if piece == "" {
      assert piece + rest == rest;
    } else {
      assert (piece + rest)[1..] == piece[1..] + rest;
      StarSkips(tokens, piece[1..], rest);
    }
  }

  lemma {:induction false} SearchFindsSegments(tokens: seq<Token>, name: string, pieces: seq<string>)
    requires Segments(tokens, name, pieces)
    ensures Search(tokens, name)
    decreases |tokens|
  {
    if tokens != [] {
      var rest := Joined(pieces[1..]);
      SearchFindsSegments(tokens[1..], rest, pieces[1..]);
      if tokens[0].Any? {
        StarSkips(tokens, pieces[0], rest);
      } else {
        assert Fits(tokens[0], pieces[0]) && |pieces[0]| == 1;
        assert name[..1] == pieces[0] && name[1..] == rest;
      }
    }
  }

  lemma {:induction false} SearchIsSegmented(tokens: seq<Token>, name: string) returns (pieces: seq<string>)
    requires Search(tokens, name)
    ensures Segments(tokens, name, pieces)
    decreases |tokens| + |name|
  {
    if tokens == [] {
      pieces := [];
    } else if tokens[0].Any? && Search(tokens[1..], name) {
      var more := SearchIsSegmented(tokens[1..], name);
      pieces := [""] + more;
      assert pieces[1..] == more && "" + name == name;
    } else if tokens[0].Any? {
      var more := SearchIsSegmented(tokens, name[1..]);
      pieces := [[name[0]] + more[0]] + more[1..];
      assert pieces[1..] == more[1..];
      assert [name[0]] + more[0] + Joined(more[1..]) == [name[0]] + (more[0] + Joined(more[1..]));
    } else {
      var more := SearchIsSegmented(tokens[1..], name[1..]);
      pieces := [name[..1]] + more;
      assert pieces[1..] == more;
    }
  }

  lemma SearchIsExact(tokens: seq<Token>, name: string)
    ensures Search(tokens, name) <==> Matches(tokens, name)
  {
    if Search(tokens, name) {
      var pieces := SearchIsSegmented(tokens, name);
    }
    if Matches(tokens, name) {
      var pieces :| Segments(tokens, name, pieces);
      SearchFindsSegments(tokens, name, pieces);
    }
  }

  // ---------------------------------------------------------------------
  // The matcher
  // ---------------------------------------------------------------------

  method ClassEnd(pattern: string, start: nat) returns (end: Option<nat>)
    requires start < |pattern|
    ensures end.None? <==> ClassClose(pattern[start..]).None?
    ensures end.Some? ==> start < end.value < |pattern| && ClassClose(pattern[start..]) == Some(end.value - start)
  {
    ghost var p := pattern[start..];
    var index := start + 1;
    if index < |pattern| && pattern[index] == '!' {
      index := index + 1;
    }
    if index < |pattern| && pattern[index] == ']' {
      index := index + 1;
    }
    assert index == start + BodyFrom(p);
    while index < |pattern|
      invariant start < index <= |pattern| && BracketFrom(p, index - start) == ClassClose(p)
    {
      if pattern[index] == ']' {
        return Some(index);
      }
      index := index + 1;
    }
    end := None;
  }

  method ClassContains(class': string, c: char) returns (contained: bool)
    ensures contained == Fits(ClassOf(class'), [c])
  {
    var body := class';
    var negate := false;
    if |body| > 0 && body[0] == '!' {
      negate := true;
      body := body[1..];
    }
    var found := false;
    var index := 0;
    assert body[0..] == body;
    while index < |body|
      invariant index <= |body|
      invariant (found || Contains(Members(body[index..]), c)) == Contains(Members(body), c)
    {
      MembersStep(body[index..], c);
      if index + 2 < |body| && body[index + 1] == '-' {
        if body[index] <= c <= body[index + 2] {
          found := true;
        }
        assert body[index..][3..] == body[index + 3..];
        index := index + 3;
      } else {
        if body[index] == c {
          found := true;
        }
        assert body[index..][1..] == body[index + 1..];
        index := index + 1;
      }
    }
    contained := if negate then !found else found;
  }

  lemma EmptyName(p: string)
    requires p != "" && p[0] == '['
    ensures !Search(Tokens(p), "")
  {
  }

  lemma OpenBracket(p: string, name: string)
    requires p != "" && p[0] == '[' && ClassClose(p).None?
    ensures Search(Tokens(p), name) <==> name != "" && name[0] == '[' && Search(Tokens(p[1..]), name[1..])
  {
    assert Tokens(p)[1..] == Tokens(p[1..]);
  }

  lemma ClosedClass(p: string, name: string)
    requires p != "" && p[0] == '[' && ClassClose(p).Some?
    ensures var end := ClassClose(p).value;
            Search(Tokens(p), name) <==>
            name != "" && Fits(ClassOf(p[1..end]), [name[0]]) && Search(Tokens(p[end + 1..]), name[1..])
  {
    var end := ClassClose(p).value;
    assert Tokens(p) == [ClassOf(p[1..end])] + Tokens(p[end + 1..]);
    assert Tokens(p)[1..] == Tokens(p[end + 1..]);
    if name != "" {
      assert name[..1] == [name[0]];
    }
  }

  lemma MembersStep(body: string, c: char)
    requires body != ""
    ensures Contains(Members(body), c) <==>
            if |body| >= 3 && body[1] == '-' then body[0] <= c <= body[2] || Contains(Members(body[3..]), c)
            else body[0] == c || Contains(Members(body[1..]), c)
  {
    var all := Members(body);
    assert all == [all[0]] + all[1..];
    assert forall m <- all :: m == all[0] || m in all[1..];
    assert all[0] in all;
  }

  /** A pair of positions: how much of the name and of the pattern is used up. */
  datatype Position = Position(name: nat, pattern: nat)

  class Matcher {
    const name: string
    const pattern: string
    var memo: map<Position, bool>
    var resolved: set<Position>
    /** The calls under way, outermost included. */
    ghost var underWay: set<Position>
    /** How often each pair of positions was evaluated. */
    ghost var evaluations: multiset<Position>

    /** What the pair stands for. */
    ghost predicate Answer(at: Position) {
      at.name <= |name| && at.pattern <= |pattern| && Search(Tokens(pattern[at.pattern..]), name[at.name..])
    }

    ghost predicate Valid()
      reads this
    {
      && resolved == memo.Keys + underWay && memo.Keys !! underWay
      && (forall at <- memo :: memo[at] == Answer(at))
      && (forall at :: evaluations[at] == if at in resolved then 1 else 0)
    }

    constructor (name: string, pattern: string)
      ensures Valid() && underWay == {} && this.name == name && this.pattern == pattern
    {
      this.name, this.pattern := name, pattern;
      memo, resolved := map[], {};
      underWay, evaluations := {}, multiset{};
    }

    /** Answers from memory, or evaluates and remembers.  Calls under way are
        nearer the start, so the answer of one is never asked for: whatever is
        marked resolved has its answer in the memo. */
    method Match(n: nat, p: nat) returns (result: bool)
      requires Valid() && n <= |name| && p <= |pattern|
      requires forall at <- underWay :: at.name + at.pattern < n + p
      modifies this
      ensures Valid() && underWay == old(underWay) && result == Answer(Position(n, p))
      decreases |name| - n + (|pattern| - p), 1
    {
      var key := Position(n, p);
      if key in resolved {
        assert key in memo;
        return memo[key];
      }
      resolved := resolved + {key};
      underWay := underWay + {key};
      evaluations := evaluations + multiset{key};
      result := Evaluate(n, p);
      memo := memo[key := result];
      underWay := underWay - {key};
      assert underWay == old(underWay);
    }

    method Evaluate(n: nat, p: nat) returns (result: bool)
      requires Valid() && n <= |name| && p <= |pattern| && Position(n, p) in underWay
      requires forall at <- underWay :: at == Position(n, p) || at.name + at.pattern < n + p
      modifies this
      ensures Valid() && underWay == old(underWay) && result == Answer(Position(n, p))
      decreases |name| - n + (|pattern| - p), 0
    {
      ghost var rest := pattern[p..];
      if p == |pattern| {
        return n == |name|;
      }
      assert rest[1..] == pattern[p + 1..];
      match pattern[p] {
        case '*' =>
          result := Match(n, p + 1);
          if !result && n < |name| {
            result := Match(n + 1, p);
            assert name[n..][1..] == name[n + 1..];
          }
        case '?' => result := n < |name|;
          if result {
            result := MatchNext(n, p, p + 1);
          }
        case '[' => result := EvaluateClass(n, p);
        case _ =>
          result := n < |name| && name[n] == pattern[p];
          if result {
            result := MatchNext(n, p, p + 1);
          }
      }
    }

    method EvaluateClass(n: nat, p: nat) returns (result: bool)
      requires Valid() && n <= |name| && p < |pattern| && pattern[p] == '[' && Position(n, p) in underWay
      requires forall at <- underWay :: at == Position(n, p) || at.name + at.pattern < n + p
      modifies this
      ensures Valid() && underWay == old(underWay)
      ensures result == Search(Tokens(pattern[p..]), name[n..])
      decreases |name| - n + (|pattern| - p) - 1, 4
    {
      var end := ClassEnd(pattern, p);
      if n == |name| {
        EmptyName(pattern[p..]);
        return false;
      }
      if end.None? {
        OpenBracket(pattern[p..], name[n..]);
        result := name[n] == '[';
        if result {
          result := MatchNext(n, p, p + 1);
        }
      } else {
        ClosedClass(pattern[p..], name[n..]);
        result := EvaluateMember(n, p, end.value);
      }
    }

    method EvaluateMember(n: nat, p: nat, end: nat) returns (result: bool)
      requires Valid() && n < |name| && p < end < |pattern| && Position(n, p) in underWay
      requires forall at <- underWay :: at == Position(n, p) || at.name + at.pattern < n + p
      modifies this
      ensures Valid() && underWay == old(underWay)
      ensures result <==>
              && Fits(ClassOf(pattern[p..][1..end - p]), [name[n..][0]])
              && Search(Tokens(pattern[p..][end - p + 1..]), name[n..][1..])
      decreases |name| - n + (|pattern| - p) - 1, 3
    {
      ClassParts(p, end);
      result := ClassContains(pattern[p + 1..end], name[n]);
      if result {
        result := MatchNext(n, p, end + 1);
      }
    }

    /** A class and the rest, seen from the whole pattern. */
    lemma ClassParts(p: nat, end: nat)
      requires p < end < |pattern|
      ensures pattern[p..][1..end - p] == pattern[p + 1..end]
      ensures pattern[p..][end - p + 1..] == pattern[end + 1..]
    {
    }

    /** One character is used up; the pattern goes on at `q`. */
    method MatchNext(n: nat, p: nat, q: nat) returns (result: bool)
      requires Valid() && n < |name| && p < q <= |pattern|
      requires forall at <- underWay :: at == Position(n, p) || at.name + at.pattern < n + p
      modifies this
      ensures Valid() && underWay == old(underWay)
      ensures result == Search(Tokens(pattern[q..]), name[n..][1..])
      decreases |name| - n + (|pattern| - p) - 1, 2
    {
      result := Match(n + 1, q);
      assert name[n..][1..] == name[n + 1..];
    }
  }

  /** The matcher accepts exactly the names the pattern's tokens can be laid over. */
  method GlobMatch(name: string, pattern: string) returns (matched: bool)
    ensures matched <==> Matches(Tokens(pattern), name)
  {
    var matcher := new Matcher(name, pattern);
    matched := matcher.Match(0, 0);
    assert pattern[0..] == pattern && name[0..] == name;
    SearchIsExact(Tokens(pattern), name);
  }
}
