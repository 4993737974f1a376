/**
 * Canonical argument serialization: json.dumps with sorted keys and no white space.
 * Two calls are "the same call" exactly when their canonical texts agree, so the text has to
 * determine the value and nothing but the value.
 */
module CanonicalJson {
  import opened JsonValues
  import opened Wrappers

  // ---- what a value means ------------------------------------------------

  /** A JSON value with its objects read as maps: insertion order is gone. */
  datatype Value =
    | VNull
    | VBool(b: bool)
    | VInt(n: int)
    | VStr(s: string)
    | VArr(items: seq<Value>)
    | VObj(fields: map<string, Value>)

  function Meaning(j: Json): Value
    decreases j
  {
    match j
    case Null => VNull
    case Bool(b) => VBool(b)
    case Int(n) => VInt(n)
    case Str(s) => VStr(s)
    case Arr(xs) => VArr(seq(|xs|, i requires 0 <= i < |xs| => Meaning(xs[i])))
    case Obj(ms) => VObj(Fields(ms))
  }

  function Fields(ms: seq<Member>): map<string, Value>
    decreases ms
  {
    if ms == [] then map[] else map[ms[0].key := Meaning(ms[0].value)] + Fields(ms[1..])
  }

  // ---- sort_keys ---------------------------------------------------------

  /** Python's order on strings: by code point, a proper prefix first. */
  predicate KeyLess(a: string, b: string) {
    b != [] && (a == [] || a[0] < b[0] || (a[0] == b[0] && KeyLess(a[1..], b[1..])))
  }

  function Insert(m: Member, ms: seq<Member>): seq<Member> {
    if ms == [] || KeyLess(m.key, ms[0].key) then [m] + ms else [ms[0]] + Insert(m, ms[1..])
  }

  function SortByKey(ms: seq<Member>): seq<Member> {
    if ms == [] then [] else Insert(ms[0], SortByKey(ms[1..]))
  }

  /** The value with the members of every object, at any depth, in key order. */
  function Normal(j: Json): Json
    decreases j, 1
  {
    match j
    case Arr(xs) => Arr(seq(|xs|, i requires 0 <= i < |xs| => Normal(xs[i])))
    case Obj(ms) => Obj(SortByKey(NormalMembers(ms)))
    case _ => j
  }

  function NormalMembers(ms: seq<Member>): (r: seq<Member>)
    decreases ms, 0
  {
    seq(|ms|, i requires 0 <= i < |ms| => Member(ms[i].key, Normal(ms[i].value)))
  }

  function Canonical(j: Json): string {
    Print(Normal(j), COMPACT)
  }

  // ---- printing is injective ----------------------------------------------

  /** What may follow a value inside a text: nothing, a separator or a closing bracket. */
  predicate Stop(x: string) {
    x == [] || x[0] == ',' || x[0] == ']' || x[0] == '}'
  }

  lemma EscapeCharPrefixFree(c: char, d: char, x: string, y: string)
    requires EscapeChar(c) + x == EscapeChar(d) + y
    ensures c == d && x == y
  {
    var a, b := EscapeChar(c), EscapeChar(d);
    assert (a + x)[0] == (b + y)[0];
    if |a| > 1 && |b| > 1 {
      assert (a + x)[1] == (b + y)[1];
      if |a| > 2 && |b| > 2 {
        assert (a + x)[4] == (b + y)[4];
        assert (a + x)[5] == (b + y)[5];
      }
    }
    assert c == d;
    assert x == (a + x)[|a|..] == (b + y)[|b|..] == y;
  }

  lemma {:induction false} EscapeInjective(s: string, t: string, x: string, y: string)
    requires Escape(s) + "\"" + x == Escape(t) + "\"" + y
    ensures s == t && x == y
  {
    var a, b := Escape(s) + "\"" + x, Escape(t) + "\"" + y;
    if s == [] || t == [] {
      assert a[0] == b[0];
      assert s == t;
      assert x == a[1..] == b[1..] == y;
    } else {
      EscapeFirst(s, x);
      EscapeFirst(t, y);
      EscapeCharPrefixFree(s[0], t[0], Escape(s[1..]) + "\"" + x, Escape(t[1..]) + "\"" + y);
      EscapeInjective(s[1..], t[1..], x, y);
    }
  }

  lemma EscapeFirst(s: string, x: string)
    requires s != []
    ensures Escape(s) + "\"" + x == EscapeChar(s[0]) + (Escape(s[1..]) + "\"" + x)
  {
    var rest := Escape(s[1..]);
    Regroup(EscapeChar(s[0]), rest, "\"");
    Regroup(EscapeChar(s[0]), rest + "\"", x);
  }

  lemma QuoteFirst(s: string, x: string)
    ensures Quote(s) + x == "\"" + (Escape(s) + "\"" + x)
  {
    Regroup("\"", Escape(s), "\"");
    Regroup("\"", Escape(s) + "\"", x);
  }

  lemma QuoteInjective(s: string, t: string, x: string, y: string)
    requires Quote(s) + x == Quote(t) + y
    ensures s == t && x == y
  {
    QuoteFirst(s, x);
    QuoteFirst(t, y);
    DropPrefix("\"", Escape(s) + "\"" + x, Escape(t) + "\"" + y);
    EscapeInjective(s, t, x, y);
  }

  lemma IntTextInjective(m: int, n: int, x: string, y: string)
    requires Stop(x) && Stop(y)
    requires IntText(m) + x == IntText(n) + y
    ensures m == n && x == y
  {
    assert (IntText(m) + x)[0] == (IntText(n) + y)[0];
    assert m < 0 <==> IntText(m)[0] == '-';
    assert n < 0 <==> IntText(n)[0] == '-';
    if m < 0 {
      Regroup("-", Digits(-m), x);
      Regroup("-", Digits(-n), y);
      DropPrefix("-", Digits(-m) + x, Digits(-n) + y);
      DigitRun(-m, -n, x, y);
    } else {
      DigitRun(m, n, x, y);
    }
  }

  /** The first character of a printed value tells which kind of value it is. */
  function Kind(c: char): nat {
    if c == 'n' then 0
    else if c == 't' then 1
    else if c == 'f' then 2
    else if c == '"' then 3
    else if c == '[' then 4
    else if c == '{' then 5
    else 6
  }

  function KindOf(j: Json): nat {
    match j
    case Null => 0
    case Bool(b) => if b then 1 else 2
    case Int(_) => 6
    case Str(_) => 3
    case Arr(_) => 4
    case Obj(_) => 5
  }

  lemma PrintStart(j: Json, st: Style, x: string)
    ensures Print(j, st) != [] && Kind((Print(j, st) + x)[0]) == KindOf(j)
    ensures Print(j, st)[0] !in {',', ']', '}'}
  {
    if j.Int? {
      assert IntText(j.n)[0] == '-' || IsDigit(IntText(j.n)[0]);
    }
  }

  /** The text of an array or object after its opening bracket. */
  function Body(j: Json, st: Style): string
    requires j.Arr? || j.Obj?
  {
    if j.Arr? then
      if j.items == [] then "]" else Print(j.items[0], st) + PrintItems(j.items[1..], st)
    else
      if j.members == [] then "}" else PrintMember(j.members[0], st) + PrintMembers(j.members[1..], st)
  }

  lemma {:induction false} PrintInjective(a: Json, b: Json, st: Style, x: string, y: string)
    requires Stop(x) && Stop(y)
    requires Print(a, st) + x == Print(b, st) + y
    ensures a == b && x == y
    decreases a, 2
  {
    PrintStart(a, st, x);
    PrintStart(b, st, y);
    match a {
      case Null => DropPrefix("null", x, y);
      case Bool(v) => DropPrefix(if v then "true" else "false", x, y);
      case Int(m) => IntTextInjective(m, b.n, x, y);
      case Str(s) => QuoteInjective(s, b.s, x, y);
      case Arr(xs) =>
        Regroup("[", Body(a, st), x);
        Regroup("[", Body(b, st), y);
        DropPrefix("[", Body(a, st) + x, Body(b, st) + y);
        ArrayInjective(xs, b.items, st, x, y);
      case Obj(ms) =>
        Regroup("{", Body(a, st), x);
        Regroup("{", Body(b, st), y);
        DropPrefix("{", Body(a, st) + x, Body(b, st) + y);
        ObjectInjective(ms, b.members, st, x, y);
    }
  }

  lemma {:induction false} ArrayInjective(xs: seq<Json>, ys: seq<Json>, st: Style, x: string, y: string)
    requires Stop(x) && Stop(y)
    requires Body(Arr(xs), st) + x == Body(Arr(ys), st) + y
    ensures xs == ys && x == y
    decreases xs, 1
  {
    if xs == [] || ys == [] {
      if xs != [] { PrintStart(xs[0], st, []); }
      if ys != [] { PrintStart(ys[0], st, []); }
      assert (Body(Arr(xs), st) + x)[0] == (Body(Arr(ys), st) + y)[0];
      DropPrefix("]", x, y);
    } else {
      var r, s := PrintItems(xs[1..], st), PrintItems(ys[1..], st);
      Regroup(Print(xs[0], st), r, x);
      Regroup(Print(ys[0], st), s, y);
      PrintInjective(xs[0], ys[0], st, r + x, s + y);
      PrintItemsInjective(xs[1..], ys[1..], st, x, y);
      assert xs == [xs[0]] + xs[1..] == [ys[0]] + ys[1..] == ys;
    }
  }

  lemma {:induction false} PrintItemsInjective(xs: seq<Json>, ys: seq<Json>, st: Style, x: string, y: string)
    requires Stop(x) && Stop(y)
    requires PrintItems(xs, st) + x == PrintItems(ys, st) + y
    ensures xs == ys && x == y
    decreases xs, 2
  {
    assert (PrintItems(xs, st) + x)[0] == (PrintItems(ys, st) + y)[0];
    if xs == [] {
      DropPrefix("]", x, y);
    } else {
      var sep := "," + st.itemGap;
      Regroup(sep + Print(xs[0], st), PrintItems(xs[1..], st), x);
      Regroup(sep + Print(ys[0], st), PrintItems(ys[1..], st), y);
      Regroup(sep, Print(xs[0], st), PrintItems(xs[1..], st) + x);
      Regroup(sep, Print(ys[0], st), PrintItems(ys[1..], st) + y);
      Regroup(Print(xs[0], st), PrintItems(xs[1..], st), x);
      Regroup(Print(ys[0], st), PrintItems(ys[1..], st), y);
      DropPrefix(sep, Body(Arr(xs), st) + x, Body(Arr(ys), st) + y);
      ArrayInjective(xs, ys, st, x, y);
    }
  }

  lemma {:induction false} PrintMemberInjective(m: Member, n: Member, st: Style, x: string, y: string)
    requires Stop(x) && Stop(y)
    requires PrintMember(m, st) + x == PrintMember(n, st) + y
    ensures m == n && x == y
    decreases m, 0
  {
    var sep := ":" + st.keyGap;
    MemberSplit(m, st, x);
    MemberSplit(n, st, y);
    QuoteInjective(m.key, n.key, sep + (Print(m.value, st) + x), sep + (Print(n.value, st) + y));
    DropPrefix(sep, Print(m.value, st) + x, Print(n.value, st) + y);
    PrintInjective(m.value, n.value, st, x, y);
  }

  lemma MemberSplit(m: Member, st: Style, x: string)
    ensures PrintMember(m, st) + x == Quote(m.key) + ((":" + st.keyGap) + (Print(m.value, st) + x))
  {
    var k, g, p := Quote(m.key), st.keyGap, Print(m.value, st);
    assert ((k + ":" + g) + p) + x == k + ((":" + g) + (p + x));
  }

  lemma {:induction false} ObjectInjective(ms: seq<Member>, ns: seq<Member>, st: Style, x: string, y: string)
    requires Stop(x) && Stop(y)
    requires Body(Obj(ms), st) + x == Body(Obj(ns), st) + y
    ensures ms == ns && x == y
    decreases ms, 1
  {
    if ms == [] || ns == [] {
      assert (Body(Obj(ms), st) + x)[0] == (Body(Obj(ns), st) + y)[0];
      DropPrefix("}", x, y);
    } else {
      var r, s := PrintMembers(ms[1..], st), PrintMembers(ns[1..], st);
      Regroup(PrintMember(ms[0], st), r, x);
      Regroup(PrintMember(ns[0], st), s, y);
      PrintMemberInjective(ms[0], ns[0], st, r + x, s + y);
      PrintMembersInjective(ms[1..], ns[1..], st, x, y);
      assert ms == [ms[0]] + ms[1..] == [ns[0]] + ns[1..] == ns;
    }
  }

  lemma {:induction false} PrintMembersInjective(
      ms: seq<Member>, ns: seq<Member>, st: Style, x: string, y: string)
    requires Stop(x) && Stop(y)
    requires PrintMembers(ms, st) + x == PrintMembers(ns, st) + y
    ensures ms == ns && x == y
    decreases ms, 2
  {
    assert (PrintMembers(ms, st) + x)[0] == (PrintMembers(ns, st) + y)[0];
    if ms == [] {
      DropPrefix("}", x, y);
    } else {
      var sep := "," + st.itemGap;
      Regroup(sep + PrintMember(ms[0], st), PrintMembers(ms[1..], st), x);
      Regroup(sep + PrintMember(ns[0], st), PrintMembers(ns[1..], st), y);
      Regroup(sep, PrintMember(ms[0], st), PrintMembers(ms[1..], st) + x);
      Regroup(sep, PrintMember(ns[0], st), PrintMembers(ns[1..], st) + y);
      Regroup(PrintMember(ms[0], st), PrintMembers(ms[1..], st), x);
      Regroup(PrintMember(ns[0], st), PrintMembers(ns[1..], st), y);
      DropPrefix(sep, Body(Obj(ms), st) + x, Body(Obj(ns), st) + y);
      ObjectInjective(ms, ns, st, x, y);
    }
  }

  // ---- sorting by key ------------------------------------------------------

  lemma KeyLessIrreflexive(a: string)
    ensures !KeyLess(a, a)
  {
  }

  lemma KeyLessTransitive(a: string, b: string, c: string)
    requires KeyLess(a, b) && KeyLess(b, c)
    ensures KeyLess(a, c)
  {
  }

  lemma KeyLessTotal(a: string, b: string)
    ensures a == b || KeyLess(a, b) || KeyLess(b, a)
  {
    if a != [] && b != [] && a[0] == b[0] {
      KeyLessTotal(a[1..], b[1..]);
      assert a == [a[0]] + a[1..] && b == [b[0]] + b[1..];
    }
  }

  ghost predicate StrictlySorted(ms: seq<Member>) {
    forall i, j :: 0 <= i < j < |ms| ==> KeyLess(ms[i].key, ms[j].key)
  }

  lemma PutFirst(first: Member, rest: seq<Member>)
    requires StrictlySorted(rest) && forall x :: x in rest ==> KeyLess(first.key, x.key)
    ensures StrictlySorted([first] + rest)
  {
    forall j | 0 <= j < |rest| ensures KeyLess(first.key, rest[j].key) {
      assert rest[j] in rest;
    }
  }

  lemma {:induction false} InsertSorted(m: Member, ms: seq<Member>)
    requires StrictlySorted(ms) && forall x :: x in ms ==> x.key != m.key
    ensures StrictlySorted(Insert(m, ms))
    ensures multiset(Insert(m, ms)) == multiset(ms) + multiset{m}
  {
    if ms == [] {
    } else if KeyLess(m.key, ms[0].key) {
      forall x | x in ms ensures KeyLess(m.key, x.key) {
        if x != ms[0] { KeyLessTransitive(m.key, ms[0].key, x.key); }
      }
      PutFirst(m, ms);
    } else {
      KeyLessTotal(m.key, ms[0].key);
      InsertSorted(m, ms[1..]);
      var rest := Insert(m, ms[1..]);
      assert ms == [ms[0]] + ms[1..];
      forall x | x in rest ensures KeyLess(ms[0].key, x.key) {
        assert x in multiset(rest);
      }
      PutFirst(ms[0], rest);
    }
  }

  lemma {:induction false} SortByKeySorts(ms: seq<Member>)
    requires DistinctKeys(ms)
    ensures StrictlySorted(SortByKey(ms))
    ensures multiset(SortByKey(ms)) == multiset(ms)
  {
    if ms != [] {
      SortByKeySorts(ms[1..]);
      var rest := SortByKey(ms[1..]);
      forall x | x in rest ensures x.key != ms[0].key {
        assert x in multiset(rest) && x in ms[1..];
        var k :| 0 <= k < |ms| - 1 && ms[1..][k] == x;
        assert ms[k + 1] == x;
      }
      InsertSorted(ms[0], rest);
      assert ms == [ms[0]] + ms[1..];
    }
  }

  lemma SortedIsDistinct(ms: seq<Member>)
    requires StrictlySorted(ms)
    ensures DistinctKeys(ms)
  {
    forall i, j | 0 <= i < j < |ms| ensures ms[i].key != ms[j].key {
      KeyLessIrreflexive(ms[i].key);
    }
  }

  lemma TailMembers(ms: seq<Member>, m: Member)
    requires DistinctKeys(ms) && ms != []
    ensures m in ms[1..] <==> m in ms && m != ms[0]
  {
    assert ms == [ms[0]] + ms[1..];
    if m in ms[1..] {
      var k :| 0 <= k < |ms| - 1 && ms[1..][k] == m;
      assert ms[k + 1].key != ms[0].key;
    }
  }

  /** A strictly sorted list is determined by the set of its members. */
  lemma {:induction false} SortedUnique(ps: seq<Member>, qs: seq<Member>)
    requires StrictlySorted(ps) && StrictlySorted(qs)
    requires forall m :: m in ps <==> m in qs
    ensures ps == qs
  {
    assert ps != [] ==> ps[0] in ps;
    assert qs != [] ==> qs[0] in qs;
    if ps != [] && qs != [] {
      SortedIsDistinct(ps);
      SortedIsDistinct(qs);
      assert ps[0] in qs && qs[0] in ps;
      if ps[0] != qs[0] {
        KeyLessTransitive(ps[0].key, qs[0].key, ps[0].key);
        KeyLessIrreflexive(ps[0].key);
      }
      forall m ensures m in ps[1..] <==> m in qs[1..] {
        TailMembers(ps, m);
        TailMembers(qs, m);
      }
      SortedUnique(ps[1..], qs[1..]);
      assert ps == [ps[0]] + ps[1..] == [qs[0]] + qs[1..] == qs;
    }
  }

  // ---- the canonical text and the meaning agree -----------------------------

  lemma {:induction false} FieldsKeys(ms: seq<Member>)
    ensures forall k :: k in Fields(ms) <==> exists m :: m in ms && m.key == k
  {
    if ms != [] {
      FieldsKeys(ms[1..]);
      assert ms == [ms[0]] + ms[1..];
    }
  }

  lemma {:induction false} FieldsAt(ms: seq<Member>, i: nat)
    requires DistinctKeys(ms) && i < |ms|
    ensures ms[i].key in Fields(ms) && Fields(ms)[ms[i].key] == Meaning(ms[i].value)
  {
    if i > 0 {
      FieldsAt(ms[1..], i - 1);
    } else {
      FirstKeyIsNew(ms);
    }
  }

  lemma FirstKeyIsNew(ms: seq<Member>)
    requires DistinctKeys(ms) && ms != []
    ensures ms[0].key !in Fields(ms[1..])
  {
    FieldsKeys(ms[1..]);
    forall m | m in ms[1..] ensures m.key != ms[0].key {
      var k :| 0 <= k < |ms[1..]| && ms[1..][k] == m;
      assert ms[k + 1] == m;
    }
  }

  /** Without a repeated key, the fields are the members. */
  lemma FieldsOfDistinct(ms: seq<Member>)
    requires DistinctKeys(ms)
    ensures forall k :: k in Fields(ms) <==> exists m :: m in ms && m.key == k
    ensures forall m :: m in ms ==> Fields(ms)[m.key] == Meaning(m.value)
  {
    FieldsKeys(ms);
    forall m | m in ms ensures m.key in Fields(ms) && Fields(ms)[m.key] == Meaning(m.value) {
      var i :| 0 <= i < |ms| && ms[i] == m;
      FieldsAt(ms, i);
    }
  }

  lemma NormalMembersDistinct(ms: seq<Member>)
    requires DistinctKeys(ms)
    ensures DistinctKeys(NormalMembers(ms))
  {
  }

  lemma SortedMembers(ms: seq<Member>)
    requires DistinctKeys(ms)
    ensures StrictlySorted(SortByKey(NormalMembers(ms)))
    ensures DistinctKeys(SortByKey(NormalMembers(ms)))
    ensures forall m :: m in SortByKey(NormalMembers(ms)) <==>
              exists i :: 0 <= i < |ms| && m == Member(ms[i].key, Normal(ms[i].value))
  {
    var ns := NormalMembers(ms);
    NormalMembersDistinct(ms);
    SortByKeySorts(ns);
    SortedIsDistinct(SortByKey(ns));
    forall m ensures m in SortByKey(ns) <==> m in ns {
      assert m in SortByKey(ns) <==> m in multiset(SortByKey(ns));
    }
    forall i | 0 <= i < |ms| ensures Member(ms[i].key, Normal(ms[i].value)) in ns {
      assert ns[i] == Member(ms[i].key, Normal(ms[i].value));
    }
  }

  lemma SameFields(ms: seq<Member>, ns: seq<Member>)
    requires DistinctKeys(ms) && DistinctKeys(ns)
    requires forall m :: m in ns <==> exists i :: 0 <= i < |ms| && m == Member(ms[i].key, Normal(ms[i].value))
    requires forall i :: 0 <= i < |ms| ==> Meaning(Normal(ms[i].value)) == Meaning(ms[i].value)
    ensures Fields(ms) == Fields(ns)
  {
    FieldsKeys(ms);
    FieldsKeys(ns);
    forall k | k in Fields(ms) ensures k in Fields(ns) && Fields(ns)[k] == Fields(ms)[k] {
      var m :| m in ms && m.key == k;
      var i :| 0 <= i < |ms| && ms[i] == m;
      var n := Member(ms[i].key, Normal(ms[i].value));
      assert n in ns;
      var l :| 0 <= l < |ns| && ns[l] == n;
      FieldsAt(ms, i);
      FieldsAt(ns, l);
    }
    forall k | k in Fields(ns) ensures k in Fields(ms) {
      var n :| n in ns && n.key == k;
      var i :| 0 <= i < |ms| && n == Member(ms[i].key, Normal(ms[i].value));
      FieldsAt(ms, i);
    }
  }

  lemma {:induction false} NormalKeepsMeaning(j: Json)
    requires WellFormed(j)
    ensures Meaning(Normal(j)) == Meaning(j)
    decreases j
  {
    match j {
      case Arr(xs) =>
        forall i | 0 <= i < |xs| ensures Meaning(Normal(xs[i])) == Meaning(xs[i]) {
          NormalKeepsMeaning(xs[i]);
        }
      case Obj(ms) =>
        var ns := SortByKey(NormalMembers(ms));
        SortedMembers(ms);
        forall i | 0 <= i < |ms| ensures Meaning(Normal(ms[i].value)) == Meaning(ms[i].value) {
          NormalKeepsMeaning(ms[i].value);
        }
        SameFields(ms, ns);
      case _ =>
    }
  }

  /** The member of ns that stands for the i-th member of ms. */
  lemma Partner(ms: seq<Member>, ns: seq<Member>, i: nat) returns (k: nat)
    requires DistinctKeys(ms) && DistinctKeys(ns) && Fields(ms) == Fields(ns) && i < |ms|
    ensures k < |ns| && ns[k].key == ms[i].key && Meaning(ns[k].value) == Meaning(ms[i].value)
  {
    FieldsOfDistinct(ms);
    FieldsOfDistinct(ns);
    assert ms[i] in ms && ms[i].key in Fields(ns);
    k :| 0 <= k < |ns| && ns[k].key == ms[i].key;
    assert ns[k] in ns;
  }

  lemma {:induction false} SameMeaningSameNormal(a: Json, b: Json)
    requires WellFormed(a) && WellFormed(b) && Meaning(a) == Meaning(b)
    ensures Normal(a) == Normal(b)
    decreases a, 1
  {
    match a {
      case Arr(xs) =>
        var ys := b.items;
        assert |Meaning(a).items| == |xs| && |Meaning(b).items| == |ys|;
        forall i | 0 <= i < |xs| ensures Normal(xs[i]) == Normal(ys[i]) {
          assert Meaning(a).items[i] == Meaning(b).items[i];
          SameMeaningSameNormal(xs[i], ys[i]);
        }
      case Obj(ms) =>
        SameMeaningSameMembers(ms, b.members);
      case _ =>
    }
  }

  lemma {:induction false} SameMeaningSameMembers(ms: seq<Member>, ns: seq<Member>)
    requires WellFormed(Obj(ms)) && WellFormed(Obj(ns)) && Fields(ms) == Fields(ns)
    ensures SortByKey(NormalMembers(ms)) == SortByKey(NormalMembers(ns))
    decreases ms, 0
  {
    SortedMembers(ms);
    SortedMembers(ns);
    forall i | 0 <= i < |ms|
      ensures exists k :: 0 <= k < |ns| && ns[k].key == ms[i].key && Normal(ns[k].value) == Normal(ms[i].value)
    {
      var k := Partner(ms, ns, i);
      SameMeaningSameNormal(ms[i].value, ns[k].value);
    }
    forall k | 0 <= k < |ns|
      ensures exists i :: 0 <= i < |ms| && ms[i].key == ns[k].key && Normal(ms[i].value) == Normal(ns[k].value)
    {
      var i := Partner(ns, ms, k);
      SameMeaningSameNormal(ms[i].value, ns[k].value);
    }
    SortedUnique(SortByKey(NormalMembers(ms)), SortByKey(NormalMembers(ns)));
  }

  /** Two dicts print to the same canonical text exactly when they are equal as JSON values. */
  lemma CanonicalIffSameMeaning(a: Json, b: Json)
    requires WellFormed(a) && WellFormed(b)
    ensures Canonical(a) == Canonical(b) <==> Meaning(a) == Meaning(b)
  {
    if Canonical(a) == Canonical(b) {
      assert Canonical(a) + [] == Canonical(b) + [];
      PrintInjective(Normal(a), Normal(b), COMPACT, [], []);
      NormalKeepsMeaning(a);
      NormalKeepsMeaning(b);
    }
    if Meaning(a) == Meaning(b) {
      SameMeaningSameNormal(a, b);
    }
  }
}
