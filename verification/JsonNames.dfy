/** The walk that refuses an object using one name twice (internal/record/decode.go, checkNoDuplicateNames). */
module JsonNames {
  import opened Names
  import opened Lists

  /** A JSON value. A scalar keeps its text when it is a string. */
  datatype Json =
    | Scalar(text: Option<Text>)
    | Arr(items: seq<Json>)
    | Obj(members: seq<Member>)

  datatype Member = Member(name: Text, value: Json)

  /** What the decoder's Token returns. */
  datatype Token = BeginObject | BeginArray | End | Atom(text: Option<Text>)

  function Tokens(j: Json): seq<Token> {
    match j
    case Scalar(text) => [Atom(text)]
    case Arr(items) => [BeginArray] + TokensOf(items) + [End]
    case Obj(members) => [BeginObject] + MemberTokens(members) + [End]
  }

  function TokensOf(items: seq<Json>): seq<Token> {
    if items == [] then [] else Tokens(items[0]) + TokensOf(items[1..])
  }

  function MemberTokens(members: seq<Member>): seq<Token> {
    if members == [] then []
    else [Atom(Some(members[0].name))] + Tokens(members[0].value) + MemberTokens(members[1..])
  }

  // ---- What is to be refused -------------------------------------------------------------------------

  predicate Repeats(members: seq<Member>) {
    exists i, k :: 0 <= i < k < |members| && members[i].name == members[k].name
  }

  /** Some object, at some depth, uses one name twice. */
  predicate RepeatsWithin(j: Json) {
    match j
    case Scalar(_) => false
    case Arr(items) => exists i :: 0 <= i < |items| && RepeatsWithin(items[i])
    case Obj(members) => Repeats(members) || exists i :: 0 <= i < |members| && RepeatsWithin(members[i].value)
  }

  predicate AnyRepeats(items: seq<Json>) {
    exists i :: 0 <= i < |items| && RepeatsWithin(items[i])
  }

  // ---- The walk --------------------------------------------------------------------------------------

  /** An open object with the names seen, or an open array. */
  datatype Frame = Frame(names: Option<set<Text>>, wantKey: bool)

  /** The document ended with these frames open, a name was repeated, or an end had nothing to close. */
  datatype Outcome = Ended(stack: seq<Frame>) | Refused | Stuck

  /** valueDone. */
  function ValueDone(stack: seq<Frame>): seq<Frame> {
    if stack != [] && stack[|stack| - 1].names.Some? then stack[|stack| - 1 := stack[|stack| - 1].(wantKey := true)] else stack
  }

  function NameOf(t: Token): Text
    requires t.Atom?
  {
    if t.text.Some? then t.text.value else []
  }

  predicate WantsKey(stack: seq<Frame>) {
    stack != [] && stack[|stack| - 1].wantKey && stack[|stack| - 1].names.Some?
  }

  /** One token. */
  function Feed(t: Token, stack: seq<Frame>): Outcome {
    match t
    case BeginObject => Ended(stack + [Frame(Some({}), true)])
    case BeginArray => Ended(stack + [Frame(None, false)])
    case End => if stack == [] then Stuck else Ended(ValueDone(stack[..|stack| - 1]))
    case Atom(_) =>
      if !WantsKey(stack) then Ended(ValueDone(stack))
      else
        var top := stack[|stack| - 1];
        if NameOf(t) in top.names.value then Refused
        else Ended(stack[|stack| - 1 := Frame(Some(top.names.value + {NameOf(t)}), false)])
  }

  function Walk(ts: seq<Token>, stack: seq<Frame>): Outcome {
    if ts == [] then Ended(stack)
    else
      var next := Feed(ts[0], stack);
      if next.Ended? then Walk(ts[1..], next.stack) else next
  }

  /** Walking two lists is walking one and then the other. */
  lemma {:induction false} WalkOn(a: seq<Token>, b: seq<Token>, stack: seq<Frame>)
    ensures Walk(a + b, stack) == (if Walk(a, stack).Ended? then Walk(b, Walk(a, stack).stack) else Walk(a, stack))
  {
    if a == [] {
      assert a + b == b;
    } else {
      assert (a + b)[0] == a[0] && (a + b)[1..] == a[1..] + b;
      if Feed(a[0], stack).Ended? {
        WalkOn(a[1..], b, Feed(a[0], stack).stack);
      }
    }
  }

  lemma WalkOne(t: Token, stack: seq<Frame>)
    ensures Walk([t], stack) == Feed(t, stack)
  {
    assert [t][1..] == [];
  }

  /** One token between two lists. */
  lemma WalkThrough(t: Token, b: seq<Token>, stack: seq<Frame>)
    ensures Walk([t] + b, stack) == (if Feed(t, stack).Ended? then Walk(b, Feed(t, stack).stack) else Feed(t, stack))
  {
    WalkOn([t], b, stack);
    WalkOne(t, stack);
  }

  /** A value is expected: not the name of a member. */
  predicate WantsValue(stack: seq<Frame>) {
    !WantsKey(stack)
  }

  /** Walking a value refuses it if it repeats a name within, and otherwise leaves the value done. */
  lemma {:induction false} WalkValue(j: Json, stack: seq<Frame>)
    requires WantsValue(stack)
    ensures Walk(Tokens(j), stack) == if RepeatsWithin(j) then Refused else Ended(ValueDone(stack))
    decreases j, 0
  {
    match j
    case Scalar(text) => WalkOne(Atom(text), stack);
    case Arr(items) =>
      var inner := stack + [Frame(None, false)];
      Joins([BeginArray], TokensOf(items), [End]);
      WalkThrough(BeginArray, TokensOf(items) + [End], stack);
      WalkOn(TokensOf(items), [End], inner);
      WalkItems(items, inner);
      WalkOne(End, inner);
      assert inner[..|inner| - 1] == stack;
    case Obj(members) =>
      var inner := stack + [Frame(Some({}), true)];
      Joins([BeginObject], MemberTokens(members), [End]);
      WalkThrough(BeginObject, MemberTokens(members) + [End], stack);
      WalkOn(MemberTokens(members), [End], inner);
      WalkMembers(members, stack, {});
      RepeatsFromNothing(members);
      if !Fails(members, {}) {
        var last := Walk(MemberTokens(members), inner).stack;
        WalkOne(End, last);
        assert last[..|last| - 1] == stack;
      }
  }

  lemma {:induction false} WalkItems(items: seq<Json>, stack: seq<Frame>)
    requires WantsValue(stack) && ValueDone(stack) == stack
    ensures Walk(TokensOf(items), stack) == if AnyRepeats(items) then Refused else Ended(stack)
    decreases items, 0
  {
    if items != [] {
      WalkOn(Tokens(items[0]), TokensOf(items[1..]), stack);
      WalkValue(items[0], stack);
      WalkItems(items[1..], stack);
      assert AnyRepeats(items) <==> RepeatsWithin(items[0]) || AnyRepeats(items[1..]) by {
        if AnyRepeats(items[1..]) {
          var i :| 0 <= i < |items[1..]| && RepeatsWithin(items[1..][i]);
          assert RepeatsWithin(items[i + 1]);
        }
        if AnyRepeats(items) {
          var i :| 0 <= i < |items| && RepeatsWithin(items[i]);
          assert i > 0 ==> items[1..][i - 1] == items[i];
        }
      }
    }
  }

  /** The members from here on repeat one of `names`, or each other's, or repeat a name within. */
  predicate Fails(members: seq<Member>, names: set<Text>) {
    members != []
    && (members[0].name in names || RepeatsWithin(members[0].value) || Fails(members[1..], names + {members[0].name}))
  }

  /** All the names seen once the members are walked. */
  function SeenAfter(members: seq<Member>, names: set<Text>): set<Text> {
    if members == [] then names else SeenAfter(members[1..], names + {members[0].name})
  }

  lemma {:induction false} WalkMembers(members: seq<Member>, outer: seq<Frame>, names: set<Text>)
    ensures Walk(MemberTokens(members), outer + [Frame(Some(names), true)])
         == if Fails(members, names) then Refused else Ended(outer + [Frame(Some(SeenAfter(members, names)), true)])
    decreases members, 0
  {
    if members != [] {
      var m := members[0];
      var stack := outer + [Frame(Some(names), true)];
      var valued := outer + [Frame(Some(names + {m.name}), false)];
      var done := outer + [Frame(Some(names + {m.name}), true)];
      var rest := MemberTokens(members[1..]);
      Joins([Atom(Some(m.name))], Tokens(m.value), rest);
      WalkThrough(Atom(Some(m.name)), Tokens(m.value) + rest, stack);
      if m.name !in names {
        assert Feed(Atom(Some(m.name)), stack) == Ended(valued);
        WalkOn(Tokens(m.value), rest, valued);
        WalkValue(m.value, valued);
        assert ValueDone(valued) == done;
        WalkMembers(members[1..], outer, names + {m.name});
      }
    }
  }

  lemma {:induction false} FailsMeans(members: seq<Member>, names: set<Text>)
    ensures Fails(members, names) <==>
      || Repeats(members)
      || (exists i :: 0 <= i < |members| && (members[i].name in names || RepeatsWithin(members[i].value)))
  {
    if members != [] {
      FailsMeans(members[1..], names + {members[0].name});
      FailsFirst(members, names);
    }
  }

  predicate FailsAt(members: seq<Member>, names: set<Text>, i: nat)
    requires i < |members|
  {
    members[i].name in names || RepeatsWithin(members[i].value)
  }

  /** The same of the first member and the rest. */
  lemma FailsFirst(members: seq<Member>, names: set<Text>)
    requires members != []
    ensures var rest, more := members[1..], names + {members[0].name};
      (|| Repeats(members)
       || (exists i :: 0 <= i < |members| && (members[i].name in names || RepeatsWithin(members[i].value))))
      <==>
      (|| FailsAt(members, names, 0)
       || Repeats(rest)
       || (exists i :: 0 <= i < |rest| && (rest[i].name in more || RepeatsWithin(rest[i].value))))
  {
    var rest, more := members[1..], names + {members[0].name};
    assert forall i :: 0 <= i < |rest| ==> rest[i] == members[i + 1];
    if i, k :| 0 <= i < k < |members| && members[i].name == members[k].name {
      if i == 0 {
        assert rest[k - 1].name in more;
      } else {
        assert rest[i - 1].name == rest[k - 1].name;
      }
    }
    if i :| 0 <= i < |members| && (members[i].name in names || RepeatsWithin(members[i].value)) {
      if i > 0 {
        assert rest[i - 1].name in more || RepeatsWithin(rest[i - 1].value);
      }
    }
    if i :| 0 <= i < |rest| && (rest[i].name in more || RepeatsWithin(rest[i].value)) {
      assert rest[i].name == members[0].name ==> members[0].name == members[i + 1].name;
      assert rest[i].name != members[0].name ==> members[i + 1].name in names || RepeatsWithin(members[i + 1].value);
    }
    if i, k :| 0 <= i < k < |rest| && rest[i].name == rest[k].name {
      assert members[i + 1].name == members[k + 1].name;
    }
  }

  lemma RepeatsFromNothing(members: seq<Member>)
    ensures Fails(members, {}) <==> RepeatsWithin(Obj(members))
  {
    FailsMeans(members, {});
  }

  // ---- The program's loop --------------------------------------------------------------------------------

  /** The tokens of any list of values are walked to the end unless an object repeats a name. */
  lemma WalkDocument(values: seq<Json>)
    ensures Walk(TokensOf(values), []) == if AnyRepeats(values) then Refused else Ended([])
  {
    WalkItems(values, []);
  }

  /** checkNoDuplicateNames over the tokens the decoder returns for `values`: it refuses exactly when some
      object at some depth uses one name twice. The decoder closes only what it opened, so the stack is never
      empty when a delimiter is popped. */
  method CheckNoDuplicateNames(ts: seq<Token>, ghost values: seq<Json>) returns (refused: bool)
    requires ts == TokensOf(values)
    ensures refused <==> AnyRepeats(values)
  {
    WalkDocument(values);
    var stack: seq<Frame> := [];
    var i := 0;
    assert ts[0..] == ts;
    while i < |ts|
      invariant i <= |ts| && Walk(ts, []) == Walk(ts[i..], stack)
      invariant forall k :: 0 <= k < |stack| && stack[k].wantKey ==> stack[k].names.Some?
    {
      var tok := ts[i];
      assert ts[i..][0] == tok && ts[i..][1..] == ts[i + 1..];
      i := i + 1;
      match tok
      case BeginObject =>
        stack := stack + [Frame(Some({}), true)];
      case BeginArray =>
        stack := stack + [Frame(None, false)];
      case End =>
        stack := ValueDone(stack[..|stack| - 1]);
      case Atom(_) =>
        var n := |stack|;
        if n > 0 && stack[n - 1].wantKey {
          var name := NameOf(tok);
          if name in stack[n - 1].names.value {
            return true;
          }
          stack := stack[n - 1 := Frame(Some(stack[n - 1].names.value + {name}), false)];
        } else {
          stack := ValueDone(stack);
        }
    }
    return false;
  }

  /** Two values one after the other pass, although the function's comment says it refuses anything that is
      not a single value: what is refused is exactly a repeated name. */
  lemma TwoValuesPass(a: Option<Text>, b: Option<Text>)
    ensures Walk(TokensOf([Scalar(a), Scalar(b)]), []) == Ended([])
  {
    WalkDocument([Scalar(a), Scalar(b)]);
  }
}
