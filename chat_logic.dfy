/** The pure list updates behind the chat screen's `userTyping` handler and
    the text of its typing indicator. */
module ChatLogic {
  import opened Protocol
  import opened Text

  predicate NoDup<T(==)>(s: seq<T>)
  {
    forall i, j :: 0 <= i < j < |s| ==> s[i] != s[j]
  }

  /** `list.filter(user => user !== u)`: every occurrence of `u` removed. */
  function Without(s: seq<string>, u: string): (r: seq<string>)
    ensures forall x :: x in r <==> x in s && x != u
    ensures multiset(r) == multiset(s)[u := 0]
  {
    if s == [] then []
    else
      assert s == [s[0]] + s[1..];
      if s[0] == u then Without(s[1..], u) else [s[0]] + Without(s[1..], u)
  }

  /** Filtering keeps the order of what it keeps: it distributes over concatenation. */
  lemma {:induction false} WithoutConcat(a: seq<string>, b: seq<string>, u: string)
    ensures Without(a + b, u) == Without(a, u) + Without(b, u)
  {
    if a == [] {
      assert a + b == b;
    } else {
      assert (a + b)[1..] == a[1..] + b;
      WithoutConcat(a[1..], b, u);
    }
  }

  /** Removing a name that is not in the list changes nothing. */
  lemma {:induction false} WithoutAbsent(s: seq<string>, u: string)
    requires u !in s
    ensures Without(s, u) == s
  {
    if s != [] {
      WithoutAbsent(s[1..], u);
    }
  }

  /** A duplicate-free list stays duplicate-free when filtered. */
  lemma {:induction false} WithoutNoDup(s: seq<string>, u: string)
    requires NoDup(s)
    ensures NoDup(Without(s, u))
  {
    if s != [] {
      assert NoDup(s[1..]) by {
        forall i, j | 0 <= i < j < |s[1..]| ensures s[1..][i] != s[1..][j] {
          assert s[1..][i] == s[i + 1] && s[1..][j] == s[j + 1];
        }
      }
      WithoutNoDup(s[1..], u);
      var w := Without(s[1..], u);
      if s[0] != u {
        assert s[0] !in s[1..];
        forall i, j | 0 <= i < j < |[s[0]] + w| ensures ([s[0]] + w)[i] != ([s[0]] + w)[j] {
          if i == 0 {
            assert ([s[0]] + w)[j] == w[j - 1] && w[j - 1] in w;
          }
        }
      }
    }
  }

  /** The `userTyping` update for `isTyping = true`:
      `[...prev.filter(user => user !== name), name]`. */
  function MarkTyping(prev: seq<string>, name: string): (r: seq<string>)
    ensures r != [] && r[|r| - 1] == name
    ensures multiset(r)[name] == 1
    ensures forall x :: x != name ==> (x in r <==> x in prev)
    ensures forall x :: x != name ==> multiset(r)[x] == multiset(prev)[x]
  {
    Without(prev, name) + [name]
  }

  /** A start-typing event keeps the entries other than `name` in their old relative order. */
  lemma MarkTypingKeepsOthersInOrder(prev: seq<string>, name: string)
    ensures Without(MarkTyping(prev, name), name) == Without(prev, name)
  {
    var w := Without(prev, name);
    WithoutConcat(w, [name], name);
    WithoutAbsent(w, name);
    assert Without([name], name) == [];
  }

  /** A duplicate-free typing list stays duplicate-free after a start-typing event. */
  lemma MarkTypingNoDup(prev: seq<string>, name: string)
    requires NoDup(prev)
    ensures NoDup(MarkTyping(prev, name))
  {
    WithoutNoDup(prev, name);
  }

  /** A repeated start-typing event from the same user changes nothing. */
  lemma MarkTypingIdempotent(prev: seq<string>, name: string)
    ensures MarkTyping(MarkTyping(prev, name), name) == MarkTyping(prev, name)
  {
    MarkTypingKeepsOthersInOrder(prev, name);
  }

  /** A start then a stop from the same user leave the list as a stop alone would. */
  lemma StartThenStop(prev: seq<string>, name: string)
    ensures Without(MarkTyping(prev, name), name) == Without(prev, name)
    ensures name !in Without(MarkTyping(prev, name), name)
  {
    MarkTypingKeepsOthersInOrder(prev, name);
  }

  const IsTypingSuffix := " is typing..."
  const PeopleTypingSuffix := " people are typing..."

  /** The text of `renderTypingIndicator`, or `None` when nothing is shown. */
  function TypingLabel(typingUsers: seq<string>): (r: Option<string>)
    ensures r.None? <==> typingUsers == []
  {
    if |typingUsers| == 0 then None
    else if |typingUsers| == 1 then Some(typingUsers[0] + IsTypingSuffix)
    else Some(NatToDecimal(|typingUsers|) + PeopleTypingSuffix)
  }

  /** A single typist is named; several are counted: the text then starts
      with decimal digits that denote the number of typists. */
  lemma TypingLabelMeaning(typingUsers: seq<string>)
    requires typingUsers != []
    ensures var shown := TypingLabel(typingUsers).value;
      if |typingUsers| == 1 then
        shown[..|typingUsers[0]|] == typingUsers[0] && shown[|typingUsers[0]|..] == IsTypingSuffix
      else
        var k := |shown| - |PeopleTypingSuffix|;
        && 0 < k
        && (forall i :: 0 <= i < k ==> IsDigit(shown[i]))
        && DecimalValue(shown[..k]) == |typingUsers|
        && shown[k..] == PeopleTypingSuffix
  {
    var shown := TypingLabel(typingUsers).value;
    if |typingUsers| == 1 {
      assert shown == typingUsers[0] + IsTypingSuffix;
    } else {
      var digits := NatToDecimal(|typingUsers|);
      assert shown == digits + PeopleTypingSuffix;
      assert shown[..|digits|] == digits;
      DecimalRoundTrip(|typingUsers|);
    }
  }
}
