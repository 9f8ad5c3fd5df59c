/** Canonical JSON text identifies a value up to the order of its object keys, and contains no line feed. */
module JsonLaws {
  import opened Json

  /// ## Strings read back

  lemma HexDigits(u: Unit)
    ensures u as int == ((u / 0x1000 * 16 + u / 0x100 % 16) * 16 + u / 0x10 % 16) * 16 + u % 16
  {
    assert u / 0x100 == u / 0x1000 * 16 + u / 0x100 % 16;
    assert u / 0x10 == u / 0x100 * 16 + u / 0x10 % 16;
  }

  lemma HexDigitsIdentify(u: Unit, v: Unit)
    requires u / 0x1000 == v / 0x1000 && u / 0x100 % 16 == v / 0x100 % 16
    requires u / 0x10 % 16 == v / 0x10 % 16 && u % 16 == v % 16
    ensures u == v
  {
    HexDigits(u);
    HexDigits(v);
  }

  lemma UnicodeEscapeIdentifies(u: Unit, v: Unit)
    requires UnicodeEscape(u) == UnicodeEscape(v)
    ensures u == v
  {
    var s, t := UnicodeEscape(u), UnicodeEscape(v);
    assert s[2] == t[2] && s[3] == t[3] && s[4] == t[4] && s[5] == t[5];
    HexDigitsIdentify(u, v);
  }

  lemma Uncons(a: Unit, b: Unit, x: Text, y: Text)
    requires [a] + x == [b] + y
    ensures a == b && x == y
  {
    assert x == ([a] + x)[1..] && y == ([b] + y)[1..] && a == ([a] + x)[0] && b == ([b] + y)[0];
  }

  lemma EscapeIsPrefixFree(u: Unit, v: Unit, x: Text, y: Text)
    requires Escape(u) + x == Escape(v) + y
    ensures u == v && x == y
  {
    var s, t := Escape(u) + x, Escape(v) + y;
    assert s[0] == Escape(u)[0] && t[0] == Escape(v)[0];
    if s[0] == BACKSLASH {
      assert s[1] == Escape(u)[1] && t[1] == Escape(v)[1];
    }
    assert |Escape(u)| == |Escape(v)|;
    assert Escape(u) == s[..|Escape(u)|] && Escape(v) == t[..|Escape(v)|];
    assert x == s[|Escape(u)|..] && y == t[|Escape(v)|..];
    if |Escape(u)| == 6 { UnicodeEscapeIdentifies(u, v); }
  }

  // The first unit of a quoted string tells how the string goes on.
  lemma QuoteBodyStarts(a: Text, x: Text)
    ensures var s := QuoteBody(a, x);
      (s[0] == QUOTE <==> a == []) && (IsHighSurrogate(s[0]) <==> StartsWithPair(a))
  {
    if a != [] && !StartsWithPair(a) { assert QuoteBody(a, x)[0] == Escape(a[0])[0]; }
  }

  lemma {:induction false} QuoteBodyReadsBack(a: Text, b: Text, x: Text, y: Text)
    requires QuoteBody(a, x) == QuoteBody(b, y)
    ensures a == b && x == y
    decreases |a|
  {
    QuoteBodyStarts(a, x);
    QuoteBodyStarts(b, y);
    if a == [] {
      Uncons(QUOTE, QUOTE, x, y);
    } else if StartsWithPair(a) {
      Uncons(a[0], b[0], [a[1]] + QuoteBody(a[2..], x), [b[1]] + QuoteBody(b[2..], y));
      Uncons(a[1], b[1], QuoteBody(a[2..], x), QuoteBody(b[2..], y));
      QuoteBodyReadsBack(a[2..], b[2..], x, y);
      assert a == a[..2] + a[2..] && b == b[..2] + b[2..];
    } else {
      EscapeIsPrefixFree(a[0], b[0], QuoteBody(a[1..], x), QuoteBody(b[1..], y));
      QuoteBodyReadsBack(a[1..], b[1..], x, y);
      assert a == [a[0]] + a[1..] && b == [b[0]] + b[1..];
    }
  }

  lemma QuoteReadsBack(a: Text, b: Text, x: Text, y: Text)
    requires Quote(a, x) == Quote(b, y)
    ensures a == b && x == y
  {
    Uncons(QUOTE, QUOTE, QuoteBody(a, x), QuoteBody(b, y));
    QuoteBodyReadsBack(a, b, x, y);
  }

  /// ## Values read back

  // What may follow a value in a JSON text.
  predicate Ends(x: Text) {
    x == [] || x[0] in {COMMA, 0x5D, 0x7D}
  }

  // The length of the longest prefix made of number characters.
  function NumberSpan(s: Text): nat {
    if s != [] && NumberUnit(s[0]) then 1 + NumberSpan(s[1..]) else 0
  }

  lemma {:induction false} NumberSpanIs(s: Text, x: Text)
    requires forall i | 0 <= i < |s| :: NumberUnit(s[i])
    requires Ends(x)
    ensures NumberSpan(s + x) == |s|
  {
    if s == [] {
      assert s + x == x;
    } else {
      assert (s + x)[1..] == s[1..] + x;
      NumberSpanIs(s[1..], x);
    }
  }

  lemma SplitAt(s: Text, t: Text, x: Text, y: Text)
    requires |s| == |t| && s + x == t + y
    ensures s == t && x == y
  {
    assert s == (s + x)[..|s|] && t == (t + y)[..|t|] && x == (s + x)[|s|..] && y == (t + y)[|t|..];
  }

  lemma NumberReadsBack(s: NumberText, t: NumberText, x: Text, y: Text)
    requires Ends(x) && Ends(y)
    requires s + x == t + y
    ensures s == t && x == y
  {
    NumberSpanIs(s, x);
    NumberSpanIs(t, y);
    SplitAt(s, t, x, y);
  }

  // Values with texts that start alike.
  function Kind(v: Value): nat {
    match v
    case Null => 0
    case Bool(b) => if b then 1 else 2
    case Number(_) => 3
    case String(_) => 4
    case Array(_) => 5
    case Object(_) => 6
  }

  function KindOfUnit(u: Unit): nat {
    if u == 0x6E then 0 else if u == 0x74 then 1 else if u == 0x66 then 2
    else if 0x30 <= u <= 0x39 || u == 0x2D then 3
    else if u == QUOTE then 4 else if u == 0x5B then 5 else if u == 0x7B then 6 else 7
  }

  lemma PrintStarts(v: Value, x: Text)
    ensures PrintBefore(v, x) != [] && KindOfUnit(PrintBefore(v, x)[0]) == Kind(v)
  {
  }

  lemma {:induction false} PrintReadsBack(a: Value, b: Value, x: Text, y: Text)
    requires Ends(x) && Ends(y)
    requires PrintBefore(a, x) == PrintBefore(b, y)
    ensures a == b && x == y
    decreases a, 1
  {
    PrintStarts(a, x);
    PrintStarts(b, y);
    if a.Number? {
      NumberReadsBack(a.digits, b.digits, x, y);
    } else if a.String? {
      QuoteReadsBack(a.text, b.text, x, y);
    } else if a.Array? {
      Uncons(0x5B, 0x5B, PrintItems(a.items, x), PrintItems(b.items, y));
      ItemsReadBack(a.items, b.items, x, y);
    } else if a.Object? {
      Uncons(0x7B, 0x7B, PrintMembers(a.members, x), PrintMembers(b.members, y));
      MembersReadBack(a.members, b.members, x, y);
    } else if a.Null? {
      SplitAt([0x6E, 0x75, 0x6C, 0x6C], [0x6E, 0x75, 0x6C, 0x6C], x, y);
    } else if a.b {
      SplitAt([0x74, 0x72, 0x75, 0x65], [0x74, 0x72, 0x75, 0x65], x, y);
    } else {
      SplitAt([0x66, 0x61, 0x6C, 0x73, 0x65], [0x66, 0x61, 0x6C, 0x73, 0x65], x, y);
    }
  }

  lemma ItemsStart(items: seq<Value>, x: Text)
    ensures PrintItems(items, x) != [] && (PrintItems(items, x)[0] == 0x5D <==> items == [])
  {
    if items != [] {
      PrintStarts(items[0], if |items| == 1 then [0x5D] + x else [COMMA] + PrintItems(items[1..], x));
    }
  }

  lemma {:induction false} ItemsReadBack(a: seq<Value>, b: seq<Value>, x: Text, y: Text)
    requires PrintItems(a, x) == PrintItems(b, y)
    ensures a == b && x == y
    decreases a, 0
  {
    ItemsStart(a, x);
    ItemsStart(b, y);
    if a == [] {
      Uncons(0x5D, 0x5D, x, y);
    } else {
      var restA := if |a| == 1 then [0x5D] + x else [COMMA] + PrintItems(a[1..], x);
      var restB := if |b| == 1 then [0x5D] + y else [COMMA] + PrintItems(b[1..], y);
      PrintReadsBack(a[0], b[0], restA, restB);
      assert restA[0] == restB[0];
      assert a == [a[0]] + a[1..] && b == [b[0]] + b[1..];
      if |a| == 1 {
        Uncons(0x5D, 0x5D, x, y);
      } else {
        Uncons(COMMA, COMMA, PrintItems(a[1..], x), PrintItems(b[1..], y));
        ItemsReadBack(a[1..], b[1..], x, y);
      }
    }
  }

  lemma {:induction false} MemberReadsBack(a: Member, b: Member, x: Text, y: Text)
    requires Ends(x) && Ends(y)
    requires PrintMember(a, x) == PrintMember(b, y)
    ensures a == b && x == y
    decreases a, 2
  {
    QuoteReadsBack(a.key, b.key, [COLON] + PrintBefore(a.value, x), [COLON] + PrintBefore(b.value, y));
    Uncons(COLON, COLON, PrintBefore(a.value, x), PrintBefore(b.value, y));
    PrintReadsBack(a.value, b.value, x, y);
  }

  lemma {:induction false} MembersReadBack(a: seq<Member>, b: seq<Member>, x: Text, y: Text)
    requires PrintMembers(a, x) == PrintMembers(b, y)
    ensures a == b && x == y
    decreases a, 0
  {
    assert PrintMembers(a, x)[0] == if a == [] then 0x7D else QUOTE;
    assert PrintMembers(b, y)[0] == if b == [] then 0x7D else QUOTE;
    if a == [] {
      Uncons(0x7D, 0x7D, x, y);
    } else {
      var restA := if |a| == 1 then [0x7D] + x else [COMMA] + PrintMembers(a[1..], x);
      var restB := if |b| == 1 then [0x7D] + y else [COMMA] + PrintMembers(b[1..], y);
      MemberReadsBack(a[0], b[0], restA, restB);
      assert restA[0] == restB[0];
      assert a == [a[0]] + a[1..] && b == [b[0]] + b[1..];
      if |a| == 1 {
        Uncons(0x7D, 0x7D, x, y);
      } else {
        Uncons(COMMA, COMMA, PrintMembers(a[1..], x), PrintMembers(b[1..], y));
        MembersReadBack(a[1..], b[1..], x, y);
      }
    }
  }

  /** JSON.stringify is injective: its text determines the value, key order included. */
  lemma StringifyIsInjective(a: Value, b: Value)
    requires Print(a) == Print(b)
    ensures a == b
  {
    PrintReadsBack(a, b, [], []);
  }

  /// ## Sorting makes key order irrelevant

  lemma {:induction false} KeyLessIsTotal(a: Text, b: Text)
    ensures a == b || KeyLess(a, b) || KeyLess(b, a)
    ensures !(KeyLess(a, b) && KeyLess(b, a)) && !KeyLess(a, a)
  {
    if a != [] && b != [] {
      KeyLessIsTotal(a[1..], b[1..]);
      assert a == [a[0]] + a[1..] && b == [b[0]] + b[1..];
    }
    if a != [] { KeyLessIsTotal(a[1..], a[1..]); }
  }

  lemma {:induction false} KeyLessIsTransitive(a: Text, b: Text, c: Text)
    requires KeyLess(a, b) && KeyLess(b, c)
    ensures KeyLess(a, c)
  {
    if a != [] && a[0] == b[0] && b[0] == c[0] { KeyLessIsTransitive(a[1..], b[1..], c[1..]); }
  }

  predicate StrictlySorted(ms: seq<Member>) {
    forall i, j | 0 <= i < j < |ms| :: KeyLess(ms[i].key, ms[j].key)
  }

  lemma {:induction false} InsertKeepsSorted(m: Member, ms: seq<Member>)
    requires StrictlySorted(ms)
    requires forall i | 0 <= i < |ms| :: ms[i].key != m.key
    ensures StrictlySorted(Insert(m, ms))
  {
    if ms != [] {
      KeyLessIsTotal(m.key, ms[0].key);
      if KeyLess(m.key, ms[0].key) {
        forall j | 0 < j < |ms| ensures KeyLess(m.key, ms[j].key) { KeyLessIsTransitive(m.key, ms[0].key, ms[j].key); }
      } else {
        InsertKeepsSorted(m, ms[1..]);
        var r := Insert(m, ms[1..]);
        forall j | 0 <= j < |r| ensures KeyLess(ms[0].key, r[j].key) {
          assert r[j] in multiset(r);
          assert r[j] in ms[1..] || r[j] == m;
        }
      }
    }
  }

  lemma {:induction false} SortSorts(ms: seq<Member>)
    requires DistinctKeys(ms)
    ensures StrictlySorted(SortMembers(ms))
  {
    if ms != [] {
      SortSorts(ms[1..]);
      var r := SortMembers(ms[1..]);
      forall i | 0 <= i < |r| ensures r[i].key != ms[0].key {
        assert r[i] in multiset(r);
        assert r[i] in ms[1..];
      }
      InsertKeepsSorted(ms[0], r);
    }
  }

  // A strictly sorted sequence is determined by its set of members.
  lemma {:induction false} SortedIsUnique(a: seq<Member>, b: seq<Member>)
    requires StrictlySorted(a) && StrictlySorted(b)
    requires forall m :: m in a <==> m in b
    ensures a == b
  {
    assert a != [] ==> a[0] in a;
    assert b != [] ==> b[0] in b;
    if a != [] {
      assert a[0] in b && b[0] in a;
      KeyLessIsTotal(a[0].key, b[0].key);
      assert a[0] == b[0];
      forall m ensures m in a[1..] <==> m in b[1..] {
        KeyLessIsTotal(a[0].key, a[0].key);
        if m in a[1..] { assert m in a; assert m in b; assert m != b[0]; }
        if m in b[1..] { assert m in b; assert m in a; assert m != a[0]; }
      }
      SortedIsUnique(a[1..], b[1..]);
      assert a == [a[0]] + a[1..] && b == [b[0]] + b[1..];
    }
  }

  lemma SortedMembers(ms: seq<Member>, m: Member)
    ensures m in SortMembers(ms) <==> m in ms
  {
    assert m in SortMembers(ms) <==> m in multiset(SortMembers(ms));
  }

  // Member i of one object has its counterpart in the other.
  ghost predicate HasMember(m: Member, ms: seq<Member>) {
    exists j | 0 <= j < |ms| :: m.key == ms[j].key && Normal(m.value) == Normal(ms[j].value)
  }

  // Two objects without repeated keys, of the same size, where each member of a has a counterpart in b.
  lemma CounterpartsBothWays(a: seq<Member>, b: seq<Member>)
    requires DistinctKeys(a) && DistinctKeys(b) && |a| == |b|
    requires forall i | 0 <= i < |a| :: HasMember(a[i], b)
    ensures forall m :: m in NormalMembers(a) <==> m in NormalMembers(b)
  {
    var na, nb := NormalMembers(a), NormalMembers(b);
    var sa, sb := set m | m in na, set m | m in nb;
    CardinalityOfDistinct(na);
    CardinalityOfDistinct(nb);
    forall m | m in sa ensures m in sb {
      var i :| 0 <= i < |na| && na[i] == m;
      assert HasMember(a[i], b);
      var j :| 0 <= j < |b| && a[i].key == b[j].key && Normal(a[i].value) == Normal(b[j].value);
      assert nb[j] == m;
    }
    SubsetOfSameSize(sa, sb);
    forall m ensures m in na <==> m in nb {
      assert m in na <==> m in sa;
      assert m in nb <==> m in sb;
    }
  }

  lemma {:induction false} CardinalityOfDistinct(ms: seq<Member>)
    requires DistinctKeys(ms)
    ensures |set m | m in ms| == |ms|
  {
    if ms != [] {
      CardinalityOfDistinct(ms[1..]);
      assert (set m | m in ms) == (set m | m in ms[1..]) + {ms[0]};
      assert ms[0] !in ms[1..];
    }
  }

  lemma {:induction false} SubsetOfSameSize<T>(a: set<T>, b: set<T>)
    requires a <= b && |a| == |b|
    ensures a == b
  {
    if x :| x in b && x !in a {
      assert a <= b - {x};
      SizeOfSubset(a, b - {x});
      assert false;
    }
  }

  lemma {:induction false} SizeOfSubset<T>(a: set<T>, b: set<T>)
    requires a <= b
    ensures |a| <= |b|
  {
    if a != {} {
      var x :| x in a;
      SizeOfSubset(a - {x}, b - {x});
    }
  }

  lemma {:induction false} SameIffNormal(a: Value, b: Value)
    requires WellFormed(a) && WellFormed(b)
    ensures Same(a, b) <==> Normal(a) == Normal(b)
    decreases a, 0
  {
    if a.Array? && b.Array? {
      if |a.items| == |b.items| {
        forall i | 0 <= i < |a.items|
          ensures Same(a.items[i], b.items[i]) <==> Normal(a.items[i]) == Normal(b.items[i])
        {
          SameIffNormal(a.items[i], b.items[i]);
        }
      }
      var na, nb := NormalItems(a.items), NormalItems(b.items);
      assert na == nb <==> |na| == |nb| && forall i | 0 <= i < |na| :: na[i] == nb[i];
    } else if a.Object? && b.Object? {
      forall i | 0 <= i < |a.members| ensures HasSame(a.members[i], b.members) <==> HasMember(a.members[i], b.members) {
        HasSameIffHasMember(a.members[i], b.members);
      }
      CounterpartsIffSorted(a.members, b.members);
    }
  }

  lemma {:induction false} HasSameIffHasMember(m: Member, ms: seq<Member>)
    requires WellFormed(m.value) && forall j | 0 <= j < |ms| :: WellFormed(ms[j].value)
    ensures HasSame(m, ms) <==> HasMember(m, ms)
    decreases m, 1
  {
    forall j | 0 <= j < |ms| ensures Same(m.value, ms[j].value) <==> Normal(m.value) == Normal(ms[j].value) {
      SameIffNormal(m.value, ms[j].value);
    }
  }

  lemma CounterpartsIffSorted(a: seq<Member>, b: seq<Member>)
    requires DistinctKeys(a) && DistinctKeys(b)
    ensures (|a| == |b| && forall i | 0 <= i < |a| :: HasMember(a[i], b))
        <==> SortMembers(NormalMembers(a)) == SortMembers(NormalMembers(b))
  {
    var na, nb := NormalMembers(a), NormalMembers(b);
    if |a| == |b| && forall i | 0 <= i < |a| :: HasMember(a[i], b) {
      CounterpartsBothWays(a, b);
      SortSorts(na);
      SortSorts(nb);
      forall m ensures m in SortMembers(na) <==> m in SortMembers(nb) {
        SortedMembers(na, m);
        SortedMembers(nb, m);
      }
      SortedIsUnique(SortMembers(na), SortMembers(nb));
    }
    if SortMembers(na) == SortMembers(nb) {
      assert |na| == |multiset(na)| == |multiset(nb)| == |nb|;
      forall i | 0 <= i < |a| ensures HasMember(a[i], b) {
        SortedMembers(na, na[i]);
        SortedMembers(nb, na[i]);
        var j :| 0 <= j < |nb| && nb[j] == na[i];
        assert a[i].key == b[j].key && Normal(a[i].value) == Normal(b[j].value);
      }
    }
  }

  /** The text that is hashed identifies a payload exactly up to the order of object keys. */
  lemma CanonicalIsUnambiguous(a: Value, b: Value)
    requires WellFormed(a) && WellFormed(b)
    ensures Canonical(a) == Canonical(b) <==> Same(a, b)
  {
    SameIffNormal(a, b);
    if Canonical(a) == Canonical(b) { StringifyIsInjective(Normal(a), Normal(b)); }
  }

  /// ## One record, one line

  lemma {:induction false} QuoteBodyHasNoLineFeed(t: Text, x: Text)
    requires LF !in x
    ensures LF !in QuoteBody(t, x)
    decreases |t|
  {
    if t != [] {
      if StartsWithPair(t) { QuoteBodyHasNoLineFeed(t[2..], x); } else { QuoteBodyHasNoLineFeed(t[1..], x); }
    }
  }

  lemma {:induction false} PrintHasNoLineFeed(v: Value, x: Text)
    requires LF !in x
    ensures LF !in PrintBefore(v, x)
    decreases v, 1
  {
    match v
    case Number(digits) => assert forall i | 0 <= i < |digits| :: NumberUnit(digits[i]);
    case String(text) => QuoteBodyHasNoLineFeed(text, x);
    case Array(items) => ItemsHaveNoLineFeed(items, x);
    case Object(members) => MembersHaveNoLineFeed(members, x);
    case _ =>
  }

  lemma {:induction false} ItemsHaveNoLineFeed(items: seq<Value>, x: Text)
    requires LF !in x
    ensures LF !in PrintItems(items, x)
    decreases items, 0
  {
    if |items| == 1 {
      PrintHasNoLineFeed(items[0], [0x5D] + x);
    } else if |items| > 1 {
      ItemsHaveNoLineFeed(items[1..], x);
      PrintHasNoLineFeed(items[0], [COMMA] + PrintItems(items[1..], x));
    }
  }

  lemma {:induction false} MembersHaveNoLineFeed(ms: seq<Member>, x: Text)
    requires LF !in x
    ensures LF !in PrintMembers(ms, x)
    decreases ms, 0
  {
    if ms != [] {
      if |ms| > 1 { MembersHaveNoLineFeed(ms[1..], x); }
      var rest := if |ms| == 1 then [0x7D] + x else [COMMA] + PrintMembers(ms[1..], x);
      PrintHasNoLineFeed(ms[0].value, rest);
      QuoteBodyHasNoLineFeed(ms[0].key, [COLON] + PrintBefore(ms[0].value, rest));
    }
  }

  /** Serialized JSON never contains a raw line feed, so a record always occupies one line. */
  lemma RecordIsOneLine(v: Value)
    ensures LF !in Print(v) && LF !in Canonical(v)
  {
    PrintHasNoLineFeed(v, []);
    PrintHasNoLineFeed(Normal(v), []);
  }
}
