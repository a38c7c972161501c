/** The JSON parser as it runs: a cursor and an item count that move forward, loops that push elements and members.
    Every method reads what the grammar in `Json` reads. */
module JsonParser {
  import opened Bytes
  import Json

  type Value = Json.Value

  // ---------------------------------------------------------------- growing containers

  function PushItem(items: Json.Items, v: Value): Json.Items {
    if items.NoItems? then Json.Item(v, Json.NoItems) else Json.Item(items.head, PushItem(items.tail, v))
  }

  function JoinItems(a: Json.Items, b: Json.Items): Json.Items {
    if a.NoItems? then b else Json.Item(a.head, JoinItems(a.tail, b))
  }

  lemma {:induction false} JoinPushed(a: Json.Items, v: Value, b: Json.Items)
    ensures JoinItems(PushItem(a, v), b) == JoinItems(a, Json.Item(v, b))
    ensures JoinItems(PushItem(a, v), Json.NoItems) == PushItem(a, v)
    ensures Json.Length(PushItem(a, v)) == Json.Length(a) + 1
  {
    if a.Item? { JoinPushed(a.tail, v, b); }
  }

  function PushMember(members: Json.Members, key: seq<byte>, v: Value): Json.Members {
    if members.NoMembers? then Json.Member(key, v, Json.NoMembers)
    else Json.Member(members.key, members.value, PushMember(members.rest, key, v))
  }

  function JoinMembers(a: Json.Members, b: Json.Members): Json.Members {
    if a.NoMembers? then b else Json.Member(a.key, a.value, JoinMembers(a.rest, b))
  }

  lemma {:induction false} JoinPushedMember(a: Json.Members, key: seq<byte>, v: Value, b: Json.Members)
    ensures JoinMembers(PushMember(a, key, v), b) == JoinMembers(a, Json.Member(key, v, b))
    ensures JoinMembers(PushMember(a, key, v), Json.NoMembers) == PushMember(a, key, v)
    ensures Json.MemberCount(PushMember(a, key, v)) == Json.MemberCount(a) + 1
    ensures Json.Keys(PushMember(a, key, v)) == Json.Keys(a) + {key}
  {
    if a.Member? { JoinPushedMember(a.rest, key, v, b); }
  }

  /** What is still to come, after what was already pushed. */
  function AfterItems(done: Json.Items, rest: Json.Step<Json.Items>): Json.Step<Json.Items> {
    match rest case Done(tail, text, n) => Json.Done(JoinItems(done, tail), text, n) case Refuse => Json.Refuse
  }

  function AfterMembers(done: Json.Members, rest: Json.Step<Json.Members>): Json.Step<Json.Members> {
    match rest case Done(tail, text, n) => Json.Done(JoinMembers(done, tail), text, n) case Refuse => Json.Refuse
  }

  function ItemThen(v: Value, rest: Json.Step<Json.Items>): Json.Step<Json.Items> {
    match rest case Done(tail, text, n) => Json.Done(Json.Item(v, tail), text, n) case Refuse => Json.Refuse
  }

  function MemberThen(key: seq<byte>, v: Value, rest: Json.Step<Json.Members>): Json.Step<Json.Members> {
    match rest case Done(tail, text, n) => Json.Done(Json.Member(key, v, tail), text, n) case Refuse => Json.Refuse
  }

  lemma AfterPush(done: Json.Items, v: Value, rest: Json.Step<Json.Items>)
    ensures AfterItems(done, ItemThen(v, rest)) == AfterItems(PushItem(done, v), rest)
    ensures Json.Length(PushItem(done, v)) == Json.Length(done) + 1
    ensures JoinItems(done, Json.Item(v, Json.NoItems)) == PushItem(done, v)
  {
    hide JoinItems, PushItem, Json.Length;
    JoinPushed(done, v, Json.NoItems);
    if rest.Done? { JoinPushed(done, v, rest.value); }
  }

  lemma AfterPushMember(done: Json.Members, key: seq<byte>, v: Value, rest: Json.Step<Json.Members>)
    ensures AfterMembers(done, MemberThen(key, v, rest)) == AfterMembers(PushMember(done, key, v), rest)
    ensures Json.MemberCount(PushMember(done, key, v)) == Json.MemberCount(done) + 1
    ensures Json.Keys(PushMember(done, key, v)) == Json.Keys(done) + {key}
    ensures JoinMembers(done, Json.Member(key, v, Json.NoMembers)) == PushMember(done, key, v)
  {
    hide JoinMembers, PushMember, Json.MemberCount, Json.Keys;
    JoinPushedMember(done, key, v, Json.NoMembers);
    if rest.Done? { JoinPushedMember(done, key, v, rest.value); }
  }

  /** The parser has read what the grammar reads from the same place. */
  ghost predicate Agrees<T(!new)>(step: Json.Step<T>, result: Option<T>, rest: seq<byte>, items: nat) {
    match step
    case Done(v, text, n) => result == Some(v) && rest == text && items == n
    case Refuse => result.None?
  }

  // ---------------------------------------------------------------- the parser

  class Parser {
    const text: seq<byte>
    const lim: Json.ParseLimits
    var position: nat
    var items: nat

    ghost predicate Valid()
      reads this
    {
      position <= |text|
    }

    ghost function Ahead(): seq<byte>
      requires Valid()
      reads this
    {
      text[position..]
    }

    constructor (text: seq<byte>, lim: Json.ParseLimits)
      ensures Valid() && this.text == text && this.lim == lim && items == 0 && Ahead() == text
    {
      this.text, this.lim := text, lim;
      position, items := 0, 0;
    }

    method SkipWhitespace()
      requires Valid()
      modifies this`position
      ensures Valid() && old(position) <= position && Ahead() == Json.SkipWhitespace(old(Ahead()))
    {
      position := Json.SkipBlanks(text, position);
    }

    /** A string, from just after its opening quote. */
    method ParseString() returns (result: Option<seq<byte>>)
      requires Valid()
      modifies this`position
      ensures Valid() && old(position) <= position
      ensures Agrees(Json.Counted(Json.ParseString(lim.maxStringBytes, old(Ahead()), []), items), result, Ahead(),
                     items)
      ensures result.Some? ==> old(position) < position
    {
      var end;
      result, end := Json.ScanString(lim.maxStringBytes, text, position);
      position := end;
    }

    method Run() returns (result: Option<Value>)
      requires Valid() && position == 0 && items == 0
      modifies this
      ensures result == Json.Parse(lim, text)
    {
      hide Json.ParseValue, Json.SkipWhitespace;
      assert text[0..] == text;
      if text == [] || |text| > lim.maxBytes {
        return None;
      }
      result := ParseValue(0);
      if result.None? {
        return None;
      }
      SkipWhitespace();
      if position != |text| {
        return None;
      }
    }

    method ParseValue(depth: nat) returns (result: Option<Value>)
      requires Valid()
      modifies this
      ensures Valid() && old(position) <= position
      ensures Agrees(Json.ParseValue(lim, depth, old(items), old(Ahead())), result, Ahead(), items)
      ensures result.Some? ==> old(position) < position
      decreases |text| - position, 6
    {
      hide Json.ParseItems, Json.ParseMembers, Json.ParseString, Json.ParseNumber, Json.SkipWhitespace;
      if depth > lim.maxDepth || items >= lim.maxItems {
        return None;
      }
      items := items + 1;
      SkipWhitespace();
      if position >= |text| {
        return None;
      }
      var c := text[position];
      ghost var ahead := Ahead();
      assert ahead[0] == c && ahead[1..] == text[position + 1..];
      if c == Json.OPEN_BRACE {
        result := ParseObject(depth);
      } else if c == Json.OPEN_BRACKET {
        result := ParseArray(depth);
      } else if c == Json.QUOTE {
        position := position + 1;
        var characters := ParseString();
        if characters.None? {
          return None;
        }
        result := Some(Json.Text(characters.value));
      } else if c == 116 {
        result := ParseLiteral(Json.TRUE_TEXT, Json.Boolean(true));
      } else if c == 102 {
        result := ParseLiteral(Json.FALSE_TEXT, Json.Boolean(false));
      } else if c == 110 {
        result := ParseLiteral(Json.NULL_TEXT, Json.Null);
      } else if c == Json.MINUS || Json.IsDigit(c) {
        result := ParseNumber();
      } else {
        result := None;
      }
    }

    method ParseLiteral(literal: seq<byte>, v: Value) returns (result: Option<Value>)
      requires Valid() && literal != []
      modifies this`position
      ensures Valid() && old(position) <= position
      ensures Agrees(Json.Literal(literal, v, old(Ahead()), items), result, Ahead(), items)
      ensures result.Some? ==> old(position) < position
    {
      if |text| - position < |literal| || text[position..position + |literal|] != literal {
        assert !(literal <= Ahead());
        return None;
      }
      assert Ahead()[..|literal|] == literal && Ahead()[|literal|..] == text[position + |literal|..];
      position := position + |literal|;
      result := Some(v);
    }

    method ParseNumber() returns (result: Option<Value>)
      requires Valid()
      modifies this`position
      ensures Valid() && old(position) <= position
      ensures Agrees(Json.Counted(Json.ParseNumber(old(Ahead())), items), result, Ahead(), items)
      ensures result.Some? ==> old(position) < position
    {
      hide Json.ParseNumber;
      var number := Json.ParseNumber(text[position..]);
      if number.Reject? {
        return None;
      }
      NumberIsSuffix(text[position..]);
      ghost var ahead := Ahead();
      position := |text| - |number.rest|;
      assert ahead[|ahead| - |number.rest|..] == text[position..];
      result := Some(number.value);
    }

    /** A number is read off the front. */
    static lemma NumberIsSuffix(s: seq<byte>)
      requires Json.ParseNumber(s).Got?
      ensures |Json.ParseNumber(s).rest| < |s| && Json.ParseNumber(s).rest == s[|s| - |Json.ParseNumber(s).rest|..]
    {
      hide Json.NumberOf, Json.Digits, Json.FractionLength, Json.IntegerOf;
    }

    /** From the opening bracket on. */
    method ParseArray(depth: nat) returns (result: Option<Value>)
      requires Valid() && position < |text| && items > 0
      modifies this
      ensures Valid() && old(position) <= position
      ensures Agrees(ArrayStep(depth, old(items), old(Ahead())), result, Ahead(), items)
      ensures result.Some? ==> old(position) < position
      decreases |text| - position, 5
    {
      hide Json.ParseItems, Json.ParseValue, Json.SkipWhitespace;
      assert Ahead()[1..] == text[position + 1..];
      position := position + 1;
      ghost var start, count := Ahead(), items;
      SkipWhitespace();
      if position < |text| && text[position] == Json.CLOSE_BRACKET {
        assert Ahead()[1..] == text[position + 1..];
        position := position + 1;
        return Some(Json.Array(Json.NoItems));
      }
      LeadingBlanks(depth, count, start, Ahead());
      var elements := ParseElements(depth);
      if elements.None? {
        return None;
      }
      return Some(Json.Array(elements.value));
    }

    /** The elements, up to the closing bracket. */
    method ParseElements(depth: nat) returns (result: Option<Json.Items>)
      requires Valid()
      modifies this
      ensures Valid() && old(position) <= position
      ensures Agrees(Json.ParseItems(lim, depth, old(items), old(Ahead()), 0), result, Ahead(), items)
      ensures result.Some? ==> old(position) < position
      decreases |text| - position, 7
    {
      hide Json.ParseItems, Json.ParseValue, Json.SkipWhitespace, PushItem, JoinItems, ItemThen;
      ghost var whole := Json.ParseItems(lim, depth, items, Ahead(), 0);
      var elements, size := Json.NoItems, 0;
      NothingPushed(whole);
      while true
        invariant Valid() && old(position) <= position && size == Json.Length(elements)
        invariant whole == AfterItems(elements, Json.ParseItems(lim, depth, items, Ahead(), size))
        decreases |text| - position
      {
        ItemsUnfold(depth, items, Ahead(), size);
        var value := ParseValue(depth + 1);
        if value.None? || size >= lim.maxArrayItems {
          return None;
        }
        SkipWhitespace();
        if position >= |text| {
          return None;
        }
        assert Ahead()[0] == text[position] && Ahead()[1..] == text[position + 1..];
        AfterPush(elements, value.value, Json.ParseItems(lim, depth, items, text[position + 1..], size + 1));
        elements, size := PushItem(elements, value.value), size + 1;
        position := position + 1;
        if text[position - 1] == Json.CLOSE_BRACKET {
          return Some(elements);
        }
        if text[position - 1] != Json.COMMA {
          return None;
        }
      }
    }

    /** What the grammar makes of an array, from its opening bracket on. */
    ghost function ArrayStep(depth: nat, count: nat, s: seq<byte>): Json.Step<Value>
      requires s != []
    {
      var u := Json.SkipWhitespace(s[1..]);
      if Json.StartsWith(u, Json.CLOSE_BRACKET) then Json.Done(Json.Array(Json.NoItems), u[1..], count)
      else match Json.ParseItems(lim, depth, count, s[1..], 0) case Done(v, rest, n) =>
             Json.Done(Json.Array(v), rest, n) case Refuse => Json.Refuse
    }

    static lemma NothingPushed(whole: Json.Step<Json.Items>)
      ensures whole == AfterItems(Json.NoItems, whole)
    {}

    /** Blanks before the first element make no difference. */
    lemma LeadingBlanks(depth: nat, count: nat, s: seq<byte>, t: seq<byte>)
      requires t == Json.SkipWhitespace(s)
      ensures Json.ParseItems(lim, depth, count, s, 0) == Json.ParseItems(lim, depth, count, t, 0)
    {
      hide Json.ParseValue;
      SkipTwice(s);
      Json.ParseValueSkips(lim, depth + 1, count, s, t);
    }

    static lemma {:induction false} SkipTwice(s: seq<byte>)
      ensures Json.SkipWhitespace(Json.SkipWhitespace(s)) == Json.SkipWhitespace(s)
      decreases |s|
    {
      if s != [] && Json.IsWhitespace(s[0]) { SkipTwice(s[1..]); }
    }

    lemma ItemsUnfold(depth: nat, count: nat, s: seq<byte>, size: nat)
      ensures Json.ParseItems(lim, depth, count, s, size) ==
              var first := Json.ParseValue(lim, depth + 1, count, s);
              if first.Refuse? then Json.Refuse
              else
                var t := Json.SkipWhitespace(first.rest);
                if size >= lim.maxArrayItems || t == [] then Json.Refuse
                else if t[0] == Json.COMMA then
                  ItemThen(first.value, Json.ParseItems(lim, depth, first.count, t[1..], size + 1))
                else if t[0] == Json.CLOSE_BRACKET then
                  Json.Done(Json.Item(first.value, Json.NoItems), t[1..], first.count)
                else Json.Refuse
    {
      hide Json.ParseValue, Json.SkipWhitespace;
    }

    /** From the opening brace on. */
    method ParseObject(depth: nat) returns (result: Option<Value>)
      requires Valid() && position < |text| && items > 0
      modifies this
      ensures Valid() && old(position) <= position
      ensures Agrees(ObjectStep(depth, old(items), old(Ahead())), result, Ahead(), items)
      ensures result.Some? ==> old(position) < position
      decreases |text| - position, 5
    {
      hide Json.ParseMembers, Json.ParseValue, Json.SkipWhitespace;
      assert Ahead()[1..] == text[position + 1..];
      position := position + 1;
      ghost var start, count := Ahead(), items;
      SkipWhitespace();
      if position < |text| && text[position] == Json.CLOSE_BRACE {
        assert Ahead()[1..] == text[position + 1..];
        position := position + 1;
        return Some(Json.Object(Json.NoMembers));
      }
      LeadingBlanksInObject(depth, count, start, Ahead());
      var members := ParseMembers(depth);
      if members.None? {
        return None;
      }
      return Some(Json.Object(members.value));
    }

    /** A key, its colon and its value. */
    method ParseMember(depth: nat) returns (result: Option<(seq<byte>, Value)>)
      requires Valid()
      modifies this
      ensures Valid() && old(position) <= position
      ensures Agrees(MemberStep(depth, old(items), old(Ahead())), result, Ahead(), items)
      ensures result.Some? ==> old(position) < position
      decreases |text| - position, 3
    {
      hide Json.ParseValue, Json.SkipWhitespace, Json.ParseString;
      SkipWhitespace();
      if position >= |text| || text[position] != Json.QUOTE {
        return None;
      }
      assert Ahead()[0] == Json.QUOTE && Ahead()[1..] == text[position + 1..];
      position := position + 1;
      var key := ParseString();
      if key.None? {
        return None;
      }
      SkipWhitespace();
      if position >= |text| || text[position] != Json.COLON {
        return None;
      }
      assert Ahead()[0] == Json.COLON && Ahead()[1..] == text[position + 1..];
      position := position + 1;
      var value := ParseValue(depth + 1);
      if value.None? {
        return None;
      }
      return Some((key.value, value.value));
    }

    /** What the grammar makes of one member. */
    ghost function MemberStep(depth: nat, count: nat, s: seq<byte>): Json.Step<(seq<byte>, Value)> {
      var t := Json.SkipWhitespace(s);
      if !Json.StartsWith(t, Json.QUOTE) then Json.Refuse
      else
        var key := Json.ParseString(lim.maxStringBytes, t[1..], []);
        if key.Reject? then Json.Refuse
        else
          var u := Json.SkipWhitespace(key.rest);
          if !Json.StartsWith(u, Json.COLON) then Json.Refuse
          else
            match Json.ParseValue(lim, depth + 1, count, u[1..])
            case Done(v, rest, n) => Json.Done((key.value, v), rest, n)
            case Refuse => Json.Refuse
    }

    /** The members, up to the closing brace. */
    method ParseMembers(depth: nat) returns (result: Option<Json.Members>)
      requires Valid()
      modifies this
      ensures Valid() && old(position) <= position
      ensures Agrees(Json.ParseMembers(lim, depth, old(items), old(Ahead()), {}, 0), result, Ahead(), items)
      ensures result.Some? ==> old(position) < position
      decreases |text| - position, 4
    {
      hide Json.ParseMembers, Json.SkipWhitespace, PushMember, JoinMembers, MemberThen, Json.Keys, MemberStep;
      ghost var whole := Json.ParseMembers(lim, depth, items, Ahead(), {}, 0);
      var members, size := Json.NoMembers, 0;
      NoMembersPushed(whole);
      while true
        invariant Valid() && old(position) <= position && size == Json.MemberCount(members)
        invariant whole == AfterMembers(members,
                                        Json.ParseMembers(lim, depth, items, Ahead(), Json.Keys(members), size))
        decreases |text| - position
      {
        MembersUnfold(depth, items, Ahead(), Json.Keys(members), size);
        var member := ParseMember(depth);
        if member.None? || size >= lim.maxObjectMembers || member.value.0 in Json.Keys(members) {
          return None;
        }
        SkipWhitespace();
        if position >= |text| {
          return None;
        }
        assert Ahead()[0] == text[position] && Ahead()[1..] == text[position + 1..];
        var key, value := member.value.0, member.value.1;
        AfterPushMember(members, key, value,
                        Json.ParseMembers(lim, depth, items, text[position + 1..], Json.Keys(members) + {key},
                                          size + 1));
        members, size := PushMember(members, key, value), size + 1;
        position := position + 1;
        if text[position - 1] == Json.CLOSE_BRACE {
          return Some(members);
        }
        if text[position - 1] != Json.COMMA {
          return None;
        }
      }
    }

    /** What the grammar makes of an object, from its opening brace on. */
    ghost function ObjectStep(depth: nat, count: nat, s: seq<byte>): Json.Step<Value>
      requires s != []
    {
      var u := Json.SkipWhitespace(s[1..]);
      if Json.StartsWith(u, Json.CLOSE_BRACE) then Json.Done(Json.Object(Json.NoMembers), u[1..], count)
      else match Json.ParseMembers(lim, depth, count, s[1..], {}, 0) case Done(v, rest, n) =>
             Json.Done(Json.Object(v), rest, n) case Refuse => Json.Refuse
    }

    static lemma NoMembersPushed(whole: Json.Step<Json.Members>)
      ensures whole == AfterMembers(Json.NoMembers, whole)
      ensures Json.Keys(Json.NoMembers) == {}
    {}

    lemma LeadingBlanksInObject(depth: nat, count: nat, s: seq<byte>, t: seq<byte>)
      requires t == Json.SkipWhitespace(s)
      ensures Json.ParseMembers(lim, depth, count, s, {}, 0) == Json.ParseMembers(lim, depth, count, t, {}, 0)
    {
      hide Json.ParseValue, Json.ParseString;
      SkipTwice(s);
    }

    lemma MembersUnfold(depth: nat, count: nat, s: seq<byte>, keys: set<seq<byte>>, size: nat)
      ensures Json.ParseMembers(lim, depth, count, s, keys, size) ==
              var member := MemberStep(depth, count, s);
              if member.Refuse? then Json.Refuse
              else
                var w := Json.SkipWhitespace(member.rest);
                if size >= lim.maxObjectMembers || member.value.0 in keys || w == [] then Json.Refuse
                else if w[0] == Json.COMMA then
                  MemberThen(member.value.0, member.value.1,
                             Json.ParseMembers(lim, depth, member.count, w[1..], keys + {member.value.0}, size + 1))
                else if w[0] == Json.CLOSE_BRACE then
                  Json.Done(Json.Member(member.value.0, member.value.1, Json.NoMembers), w[1..], member.count)
                else Json.Refuse
    {
      hide Json.ParseValue, Json.SkipWhitespace, Json.ParseString;
    }
  }
}
