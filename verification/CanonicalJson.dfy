/** The canonical encoding behind every hash of the control protocol: object keys sorted at every depth, then
    printed as JSON. `rank` is the collation that sorting compares keys by, so two keys tie when it gives them
    the same number. Keys that are array indices come first, in numeric order, as JavaScript keeps them. */
module CanonicalJson {
  import opened Basics

  datatype Key = Index(n: nat) | Name(text: string)

  datatype Entry = Entry(key: Key, value: Json)

  // A number is the text it prints as; the index of an object is a decimal key.
  datatype Json = Null | Bool(b: bool) | Num(digits: string) | Str(text: string) | Arr(items: seq<Json>) | Obj(entries: seq<Entry>)

  predicate UniqueKeys(entries: seq<Entry>) {
    forall i, j :: 0 <= i < j < |entries| ==> entries[i].key != entries[j].key
  }

  // JavaScript's array indices; any other decimal text is an ordinary name.
  const INDEX_LIMIT := 4294967295

  ghost predicate WellFormedKey(k: Key) {
    match k
    case Index(n) => n < INDEX_LIMIT
    case Name(text) => forall n: nat :: n < INDEX_LIMIT ==> Decimal(n) != text
  }

  predicate NumberChar(c: char) {
    '0' <= c <= '9' || c == '+' || c == '-' || c == '.' || c == 'e'
  }

  predicate NumberText(s: string) {
    s != "" && forall i :: 0 <= i < |s| ==> NumberChar(s[i])
  }

  // Any value a program can hold: numbers print as number text, and an object holds each key once.
  ghost predicate WellFormed(v: Json) {
    match v
    case Num(digits) => NumberText(digits)
    case Arr(items) => forall i :: 0 <= i < |items| ==> WellFormed(items[i])
    case Obj(entries) =>
      UniqueKeys(entries) && forall i :: 0 <= i < |entries| ==> WellFormedKey(entries[i].key) && WellFormed(entries[i].value)
    case _ => true
  }

  // Equal but for the order of object keys, at every depth.
  predicate Same(v: Json, w: Json) {
    match (v, w)
    case (Arr(a), Arr(b)) => |a| == |b| && forall i :: 0 <= i < |a| ==> Same(a[i], b[i])
    case (Obj(a), Obj(b)) => |a| == |b| && forall i :: 0 <= i < |a| ==> Holds(b, a[i])
    case _ => v == w
  }

  // One of the entries is this one, up to the order of keys within its value.
  predicate Holds(entries: seq<Entry>, e: Entry)
    decreases e
  {
    exists j :: 0 <= j < |entries| && e.key == entries[j].key && Same(e.value, entries[j].value)
  }

  // ---- the canonical value ----

  predicate AtMost(rank: string -> real, a: Key, b: Key) {
    match (a, b)
    case (Index(m), Index(n)) => m <= n
    case (Index(_), Name(_)) => true
    case (Name(_), Index(_)) => false
    case (Name(s), Name(t)) => rank(s) <= rank(t)
  }

  // Two names the collation does not tell apart.
  predicate Tie(rank: string -> real, a: Key, b: Key) {
    a.Name? && b.Name? && a != b && rank(a.text) == rank(b.text)
  }

  predicate NoTies(rank: string -> real, entries: seq<Entry>) {
    forall i, j :: 0 <= i < |entries| && 0 <= j < |entries| ==> !Tie(rank, entries[i].key, entries[j].key)
  }

  // No object of the value, at any depth, holds two names that tie.
  predicate TieFree(rank: string -> real, v: Json) {
    match v
    case Arr(items) => forall i :: 0 <= i < |items| ==> TieFree(rank, items[i])
    case Obj(entries) => NoTies(rank, entries) && forall i :: 0 <= i < |entries| ==> TieFree(rank, entries[i].value)
    case _ => true
  }

  // A stable sort.
  function Insert(rank: string -> real, e: Entry, sorted: seq<Entry>): seq<Entry> {
    if sorted == [] then [e]
    else if AtMost(rank, e.key, sorted[0].key) then [e] + sorted
    else [sorted[0]] + Insert(rank, e, sorted[1..])
  }

  function Sort(rank: string -> real, entries: seq<Entry>): seq<Entry> {
    if entries == [] then [] else Insert(rank, entries[0], Sort(rank, entries[1..]))
  }

  function Canon(rank: string -> real, v: Json): Json
    decreases v
  {
    match v
    case Arr(items) => Arr(seq(|items|, i requires 0 <= i < |items| => Canon(rank, items[i])))
    case Obj(entries) => Obj(Sort(rank, seq(|entries|, i requires 0 <= i < |entries| => Entry(entries[i].key, Canon(rank, entries[i].value)))))
    case _ => v
  }

  lemma {:induction false} InsertMultiset(rank: string -> real, e: Entry, sorted: seq<Entry>)
    ensures multiset(Insert(rank, e, sorted)) == multiset(sorted) + multiset{e}
    ensures |Insert(rank, e, sorted)| == |sorted| + 1
  {
    if sorted != [] && !AtMost(rank, e.key, sorted[0].key) {
      InsertMultiset(rank, e, sorted[1..]);
      assert sorted == [sorted[0]] + sorted[1..];
    }
  }

  lemma {:induction false} SortMultiset(rank: string -> real, entries: seq<Entry>)
    ensures multiset(Sort(rank, entries)) == multiset(entries) && |Sort(rank, entries)| == |entries|
  {
    if entries != [] {
      SortMultiset(rank, entries[1..]);
      InsertMultiset(rank, entries[0], Sort(rank, entries[1..]));
      assert entries == [entries[0]] + entries[1..];
    }
  }

  predicate Ascending(rank: string -> real, entries: seq<Entry>) {
    forall i, j :: 0 <= i < j < |entries| ==> AtMost(rank, entries[i].key, entries[j].key)
  }

  lemma {:induction false} InsertAscending(rank: string -> real, e: Entry, sorted: seq<Entry>)
    requires Ascending(rank, sorted)
    ensures Ascending(rank, Insert(rank, e, sorted))
  {
    if sorted != [] && !AtMost(rank, e.key, sorted[0].key) {
      InsertAscending(rank, e, sorted[1..]);
      var rest := Insert(rank, e, sorted[1..]);
      InsertMultiset(rank, e, sorted[1..]);
      forall j | 0 <= j < |rest|
        ensures AtMost(rank, sorted[0].key, rest[j].key)
      {
        assert rest[j] in multiset(rest);
        if rest[j] != e {
          assert rest[j] in multiset(sorted[1..]);
          var k :| 0 <= k < |sorted[1..]| && sorted[1..][k] == rest[j];
          assert sorted[k + 1] == rest[j];
        }
      }
    }
  }

  lemma {:induction false} SortAscending(rank: string -> real, entries: seq<Entry>)
    ensures Ascending(rank, Sort(rank, entries))
  {
    if entries != [] {
      SortAscending(rank, entries[1..]);
      InsertAscending(rank, entries[0], Sort(rank, entries[1..]));
    }
  }

  // The least entry comes first in any ascending arrangement.
  lemma HeadsEqual(rank: string -> real, a: seq<Entry>, b: seq<Entry>)
    requires NoTies(rank, a) && Ascending(rank, a) && Ascending(rank, b)
    requires multiset(a) == multiset(b) && UniqueKeys(a) && a != []
    ensures b != [] && a[0] == b[0]
  {
    assert a[0] in multiset(b);
    var i :| 0 <= i < |b| && b[i] == a[0];
    assert b[0] in multiset(a);
    var j :| 0 <= j < |a| && a[j] == b[0];
    assert AtMost(rank, a[0].key, a[j].key) || j == 0;
    assert AtMost(rank, b[0].key, b[i].key) || i == 0;
  }

  lemma Tail(rank: string -> real, a: seq<Entry>)
    requires Ascending(rank, a) && a != []
    ensures Ascending(rank, a[1..]) && a == [a[0]] + a[1..]
    ensures multiset(a[1..]) == multiset(a) - multiset{a[0]}
    ensures UniqueKeys(a) && NoTies(rank, a) ==> UniqueKeys(a[1..]) && NoTies(rank, a[1..])
  {
    assert a == [a[0]] + a[1..];
  }

  // Two ascending arrangements of the same uniquely keyed entries are the same arrangement.
  lemma {:induction false} AscendingUnique(rank: string -> real, a: seq<Entry>, b: seq<Entry>)
    requires NoTies(rank, a) && Ascending(rank, a) && Ascending(rank, b)
    requires multiset(a) == multiset(b) && UniqueKeys(a)
    ensures a == b
  {
    if a == [] {
      assert |multiset(b)| == |b|;
    } else {
      HeadsEqual(rank, a, b);
      Tail(rank, a);
      Tail(rank, b);
      AscendingUnique(rank, a[1..], b[1..]);
    }
  }

  lemma SortUnique(rank: string -> real, a: seq<Entry>, b: seq<Entry>)
    requires NoTies(rank, a) && UniqueKeys(a) && multiset(a) == multiset(b)
    ensures Sort(rank, a) == Sort(rank, b)
  {
    SortMultiset(rank, a);
    SortMultiset(rank, b);
    SortAscending(rank, a);
    SortAscending(rank, b);
    UniqueInOrder(a, Sort(rank, a));
    TiesInOrder(rank, a, Sort(rank, a));
    AscendingUnique(rank, Sort(rank, a), Sort(rank, b));
  }

  lemma UniqueInOrder(a: seq<Entry>, b: seq<Entry>)
    requires UniqueKeys(a) && multiset(a) == multiset(b)
    ensures UniqueKeys(b)
  {
    forall i, j | 0 <= i < j < |b|
      ensures b[i].key != b[j].key
    {
      if b[i].key == b[j].key {
        assert b[i] in multiset(a) && b[j] in multiset(a);
        var k :| 0 <= k < |a| && a[k] == b[i];
        var m :| 0 <= m < |a| && a[m] == b[j];
        if b[i] == b[j] {
          TwiceCounted(b, i, j);
          OnceCounted(a, k);
        }
      }
    }
  }

  lemma TiesInOrder(rank: string -> real, a: seq<Entry>, b: seq<Entry>)
    requires NoTies(rank, a) && multiset(a) == multiset(b)
    ensures NoTies(rank, b)
  {
    forall i, j | 0 <= i < |b| && 0 <= j < |b|
      ensures !Tie(rank, b[i].key, b[j].key)
    {
      assert b[i] in multiset(a) && b[j] in multiset(a);
      var k :| 0 <= k < |a| && a[k] == b[i];
      var m :| 0 <= m < |a| && a[m] == b[j];
    }
  }

  lemma TwiceCounted(b: seq<Entry>, i: nat, j: nat)
    requires i < j < |b| && b[i] == b[j]
    ensures multiset(b)[b[i]] >= 2
  {
    assert b == b[..i + 1] + b[i + 1..];
    assert b[i] in b[..i + 1] by {
      assert b[..i + 1][i] == b[i];
    }
    assert b[j] in b[i + 1..] by {
      assert b[i + 1..][j - i - 1] == b[j];
    }
    assert multiset(b) == multiset(b[..i + 1]) + multiset(b[i + 1..]);
  }

  lemma {:induction false} OnceCounted(a: seq<Entry>, k: nat)
    requires UniqueKeys(a) && k < |a|
    ensures multiset(a)[a[k]] == 1
  {
    var front, back := a[..k], a[k + 1..];
    assert a == front + [a[k]] + back;
    assert a[k] !in front;
    assert a[k] !in back;
    assert multiset(a) == multiset(front) + multiset{a[k]} + multiset(back);
  }

  // ---- equal up to key order, and equal canonical values ----

  function CanonEntries(rank: string -> real, entries: seq<Entry>): (r: seq<Entry>)
    ensures |r| == |entries|
    ensures forall i :: 0 <= i < |entries| ==> r[i] == Entry(entries[i].key, Canon(rank, entries[i].value))
  {
    seq(|entries|, i requires 0 <= i < |entries| => Entry(entries[i].key, Canon(rank, entries[i].value)))
  }

  lemma CanonObj(rank: string -> real, entries: seq<Entry>)
    ensures Canon(rank, Obj(entries)) == Obj(Sort(rank, CanonEntries(rank, entries)))
  {
    var mapped := seq(|entries|, i requires 0 <= i < |entries| => Entry(entries[i].key, Canon(rank, entries[i].value)));
    assert mapped == CanonEntries(rank, entries);
  }

  // Two lists without repetition that hold the same elements hold them equally often.
  lemma SameMultiset(a: seq<Entry>, b: seq<Entry>)
    requires UniqueKeys(a) && UniqueKeys(b) && |a| == |b|
    requires forall i :: 0 <= i < |a| ==> a[i] in b
    ensures multiset(a) == multiset(b)
  {
    forall e
      ensures multiset(a)[e] <= multiset(b)[e]
    {
      if e in a {
        var i :| 0 <= i < |a| && a[i] == e;
        OnceCounted(a, i);
        assert a[i] in b;
      }
    }
    assert multiset(a) <= multiset(b);
    assert |multiset(a)| == |a| && |multiset(b)| == |b|;
    assert |multiset(b) - multiset(a)| == 0;
  }

  lemma {:induction false} SameGivesCanon(rank: string -> real, v: Json, w: Json)
    requires TieFree(rank, v) && WellFormed(v) && WellFormed(w) && Same(v, w)
    ensures Canon(rank, v) == Canon(rank, w)
    decreases v
  {
    match (v, w) {
      case (Arr(a), Arr(b)) =>
        forall i | 0 <= i < |a|
          ensures Canon(rank, a[i]) == Canon(rank, b[i])
        {
          SameGivesCanon(rank, a[i], b[i]);
        }
      case (Obj(a), Obj(b)) =>
        var ca, cb := CanonEntries(rank, a), CanonEntries(rank, b);
        forall i | 0 <= i < |a|
          ensures ca[i] in cb
        {
          assert Holds(b, a[i]);
          var j :| 0 <= j < |b| && a[i].key == b[j].key && Same(a[i].value, b[j].value);
          SameGivesCanon(rank, a[i].value, b[j].value);
          assert cb[j] == ca[i];
        }
        SameMultiset(ca, cb);
        assert NoTies(rank, ca);
        SortUnique(rank, ca, cb);
        CanonObj(rank, a);
        CanonObj(rank, b);
      case _ =>
    }
  }

  // Entries that sort to the same list pair off, key by key and value by value.
  lemma EntriesPair(rank: string -> real, a: seq<Entry>, b: seq<Entry>, i: nat) returns (j: nat)
    requires Sort(rank, CanonEntries(rank, a)) == Sort(rank, CanonEntries(rank, b)) && i < |a|
    ensures |a| == |b| && j < |b| && a[i].key == b[j].key && Canon(rank, a[i].value) == Canon(rank, b[j].value)
  {
    var ca, cb := CanonEntries(rank, a), CanonEntries(rank, b);
    SortMultiset(rank, ca);
    SortMultiset(rank, cb);
    assert ca[i] in multiset(cb);
    j :| 0 <= j < |cb| && cb[j] == ca[i];
  }

  lemma {:induction false} CanonGivesSame(rank: string -> real, v: Json, w: Json)
    requires Canon(rank, v) == Canon(rank, w)
    ensures Same(v, w)
    decreases v
  {
    if v.Arr? && w.Arr? {
      var ca, cb := Canon(rank, v).items, Canon(rank, w).items;
      forall i | 0 <= i < |v.items|
        ensures Same(v.items[i], w.items[i])
      {
        assert ca[i] == cb[i];
        CanonGivesSame(rank, v.items[i], w.items[i]);
      }
    } else if v.Obj? && w.Obj? {
      CanonObj(rank, v.entries);
      CanonObj(rank, w.entries);
      SortMultiset(rank, CanonEntries(rank, v.entries));
      SortMultiset(rank, CanonEntries(rank, w.entries));
      forall i | 0 <= i < |v.entries|
        ensures Holds(w.entries, v.entries[i])
      {
        var j := EntriesPair(rank, v.entries, w.entries, i);
        CanonGivesSame(rank, v.entries[i].value, w.entries[j].value);
      }
    }
  }

  // ---- printing ----

  function HexDigit(n: nat): char
    requires n < 16
  {
    if n < 10 then (48 + n) as char else (87 + n) as char
  }

  function EscapeChar(c: char): string {
    if c == '"' then "\\\""
    else if c == '\\' then "\\\\"
    else if c as int == 8 then "\\b"
    else if c as int == 9 then "\\t"
    else if c as int == 10 then "\\n"
    else if c as int == 12 then "\\f"
    else if c as int == 13 then "\\r"
    else if c as int < 32 then "\\u00" + [HexDigit(c as int / 16), HexDigit(c as int % 16)]
    else [c]
  }

  // The escaped characters and the closing quote.
  function Quoted(s: string): string {
    if s == "" then "\"" else EscapeChar(s[0]) + Quoted(s[1..])
  }

  function Decimal(n: nat): string {
    if n < 10 then [HexDigit(n)] else Decimal(n / 10) + [HexDigit(n % 10)]
  }

  function KeyText(k: Key): string {
    match k case Index(n) => Decimal(n) case Name(text) => text
  }

  function Print(v: Json): string
    decreases v
  {
    match v
    case Null => "null"
    case Bool(b) => if b then "true" else "false"
    case Num(digits) => digits
    case Str(text) => "\"" + Quoted(text)
    case Arr(items) => if items == [] then "[]" else "[" + Print(items[0]) + PrintItems(items[1..])
    case Obj(entries) => if entries == [] then "{}" else "{" + PrintEntry(entries[0]) + PrintEntries(entries[1..])
  }

  function PrintItems(items: seq<Json>): string
    decreases items
  {
    if items == [] then "]" else "," + Print(items[0]) + PrintItems(items[1..])
  }

  function PrintEntry(e: Entry): string
    decreases e
  {
    "\"" + Quoted(KeyText(e.key)) + ":" + Print(e.value)
  }

  function PrintEntries(entries: seq<Entry>): string
    decreases entries
  {
    if entries == [] then "}" else "," + PrintEntry(entries[0]) + PrintEntries(entries[1..])
  }

  // ---- reading back: no two values print to the same text ----

  lemma Cons(c: char, x: string, y: string)
    requires [c] + x == [c] + y
    ensures x == y
  {
    assert x == ([c] + x)[1..];
    assert y == ([c] + y)[1..];
  }

  lemma EscapeFirst(c: char)
    ensures EscapeChar(c) != "" && EscapeChar(c)[0] != '"'
    ensures EscapeChar(c)[0] == '\\' <==> EscapeChar(c) != [c]
  {
  }

  // The second character tells which escape it is, and for the long ones the last two tell the code.
  lemma EscapesDiffer(c: char, d: char, x: string, y: string)
    requires EscapeChar(c) != [c] && EscapeChar(d) != [d]
    requires EscapeChar(c) + x == EscapeChar(d) + y
    ensures c == d
  {
    var left, right := EscapeChar(c) + x, EscapeChar(d) + y;
    assert left[1] == EscapeChar(c)[1] && right[1] == EscapeChar(d)[1];
    if left[1] == 'u' {
      assert left[4] == EscapeChar(c)[4] && right[4] == EscapeChar(d)[4];
      assert left[5] == EscapeChar(c)[5] && right[5] == EscapeChar(d)[5];
    }
  }

  lemma EscapeUnique(c: char, d: char, x: string, y: string)
    requires EscapeChar(c) + x == EscapeChar(d) + y
    ensures c == d && x == y
  {
    var left, right := EscapeChar(c) + x, EscapeChar(d) + y;
    EscapeFirst(c);
    EscapeFirst(d);
    assert left[0] == EscapeChar(c)[0] && right[0] == EscapeChar(d)[0];
    if left[0] == '\\' {
      EscapesDiffer(c, d, x, y);
    }
    assert x == left[|EscapeChar(c)|..];
    assert y == right[|EscapeChar(d)|..];
  }

  lemma QuotedShape(s: string, x: string)
    ensures s == "" ==> Quoted(s) + x == ['"'] + x
    ensures s != "" ==> Quoted(s) + x == EscapeChar(s[0]) + (Quoted(s[1..]) + x)
    ensures Quoted(s) + x != "" && ((Quoted(s) + x)[0] == '"' <==> s == "")
  {
    if s != "" {
      EscapeFirst(s[0]);
    }
  }

  lemma {:induction false} QuotedUnique(s: string, t: string, x: string, y: string)
    requires Quoted(s) + x == Quoted(t) + y
    ensures s == t && x == y
  {
    QuotedShape(s, x);
    QuotedShape(t, y);
    if s == "" {
      Cons('"', x, y);
    } else {
      EscapeUnique(s[0], t[0], Quoted(s[1..]) + x, Quoted(t[1..]) + y);
      QuotedUnique(s[1..], t[1..], x, y);
    }
  }

  lemma {:induction false} DecimalUnique(m: nat, n: nat)
    requires Decimal(m) == Decimal(n)
    ensures m == n
  {
    if m >= 10 && n >= 10 {
      var front, back := Decimal(m / 10), Decimal(n / 10);
      assert Decimal(m)[|front|] == HexDigit(m % 10) && Decimal(n)[|back|] == HexDigit(n % 10);
      assert front == Decimal(m)[..|front|] && back == Decimal(n)[..|back|];
      DecimalUnique(m / 10, n / 10);
    } else {
      DecimalLength(m);
      DecimalLength(n);
    }
  }

  lemma {:induction false} DecimalLength(n: nat)
    ensures |Decimal(n)| == 1 <==> n < 10
    ensures |Decimal(n)| >= 1
  {
    if n >= 10 {
      DecimalLength(n / 10);
    }
  }

  lemma KeyTextUnique(a: Key, b: Key)
    requires WellFormedKey(a) && WellFormedKey(b) && KeyText(a) == KeyText(b)
    ensures a == b
  {
    if a.Index? && b.Index? {
      DecimalUnique(a.n, b.n);
    }
  }

  // What may follow a value inside a text.
  predicate Ends(r: string) {
    r == "" || r[0] == ',' || r[0] == ']' || r[0] == '}'
  }

  lemma NumberStops(a: string, r: string)
    requires (forall i :: 0 <= i < |a| ==> NumberChar(a[i])) && Ends(r)
    ensures Ends(a + r) <==> a == ""
  {
    if a == "" {
      assert a + r == r;
    } else {
      assert (a + r)[0] == a[0];
    }
  }

  lemma {:induction false} NumberUnique(a: string, b: string, r: string, s: string)
    requires (forall i :: 0 <= i < |a| ==> NumberChar(a[i])) && (forall i :: 0 <= i < |b| ==> NumberChar(b[i]))
    requires Ends(r) && Ends(s) && a + r == b + s
    ensures a == b && r == s
  {
    NumberStops(a, r);
    NumberStops(b, s);
    if a == "" {
      assert a + r == r && b + s == s;
    } else {
      assert (a + r)[0] == a[0] && (b + s)[0] == b[0];
      assert a + r == [a[0]] + (a[1..] + r) && b + s == [b[0]] + (b[1..] + s);
      Cons(a[0], a[1..] + r, b[1..] + s);
      NumberUnique(a[1..], b[1..], r, s);
    }
  }

  // How each text begins, and what follows.

  lemma ArrShape(a: seq<Json>, r: string)
    requires a != []
    ensures Print(Arr(a)) + r == ['['] + (Print(a[0]) + (PrintItems(a[1..]) + r))
    ensures Ends(PrintItems(a[1..]) + r)
  {
  }

  lemma ItemsShape(a: seq<Json>, r: string)
    ensures a == [] ==> PrintItems(a) + r == [']'] + r
    ensures a != [] ==> PrintItems(a) + r == [','] + (Print(a[0]) + (PrintItems(a[1..]) + r)) && Ends(PrintItems(a[1..]) + r)
    ensures PrintItems(a) + r != "" && (PrintItems(a) + r)[0] == if a == [] then ']' else ','
  {
  }

  lemma EntryShape(e: Entry, r: string)
    ensures PrintEntry(e) + r == ['"'] + (Quoted(KeyText(e.key)) + ([':'] + (Print(e.value) + r)))
  {
  }

  lemma ObjShape(a: seq<Entry>, r: string)
    requires a != []
    ensures Print(Obj(a)) + r == ['{'] + (PrintEntry(a[0]) + (PrintEntries(a[1..]) + r))
    ensures Ends(PrintEntries(a[1..]) + r)
  {
  }

  lemma EntriesShape(a: seq<Entry>, r: string)
    ensures a == [] ==> PrintEntries(a) + r == ['}'] + r
    ensures a != [] ==>
              PrintEntries(a) + r == [','] + (PrintEntry(a[0]) + (PrintEntries(a[1..]) + r)) && Ends(PrintEntries(a[1..]) + r)
    ensures PrintEntries(a) + r != "" && (PrintEntries(a) + r)[0] == if a == [] then '}' else ','
  {
  }

  // Which kind of value starts with a character.
  function Opening(v: Json): char {
    match v
    case Null => 'n'
    case Bool(b) => if b then 't' else 'f'
    case Num(digits) => if digits == "" then 'x' else digits[0]
    case Str(_) => '"'
    case Arr(_) => '['
    case Obj(_) => '{'
  }

  lemma FirstChar(v: Json, r: string)
    requires WellFormed(v)
    ensures Print(v) + r != "" && (Print(v) + r)[0] == Opening(v)
  {
  }

  lemma SameKind(v: Json, w: Json)
    requires WellFormed(v) && WellFormed(w) && Opening(v) == Opening(w)
    ensures v.Null? <==> w.Null?
    ensures v.Bool? <==> w.Bool?
    ensures v.Num? <==> w.Num?
    ensures v.Str? <==> w.Str?
    ensures v.Arr? <==> w.Arr?
    ensures v.Obj? <==> w.Obj?
    ensures v.Bool? ==> v == w
  {
    if v.Num? {
      assert NumberChar(v.digits[0]);
    }
    if w.Num? {
      assert NumberChar(w.digits[0]);
    }
  }

  lemma {:induction false} PrintUnique(v: Json, w: Json, r: string, s: string)
    requires WellFormed(v) && WellFormed(w) && Ends(r) && Ends(s)
    requires Print(v) + r == Print(w) + s
    ensures v == w && r == s
    decreases v, 1
  {
    FirstChar(v, r);
    FirstChar(w, s);
    SameKind(v, w);
    if v.Arr? {
      ArrUnique(v.items, w.items, r, s);
    } else if v.Obj? {
      ObjUnique(v.entries, w.entries, r, s);
    } else {
      AtomUnique(v, w, r, s);
    }
  }

  lemma AtomUnique(v: Json, w: Json, r: string, s: string)
    requires WellFormed(v) && WellFormed(w) && Ends(r) && Ends(s) && !v.Arr? && !v.Obj?
    requires (v.Null? && w.Null?) || (v.Bool? && v == w) || (v.Num? && w.Num?) || (v.Str? && w.Str?)
    requires Print(v) + r == Print(w) + s
    ensures v == w && r == s
  {
    match v {
      case Num(digits) => NumberUnique(digits, w.digits, r, s);
      case Str(text) => TextUnique(text, w.text, r, s);
      case _ => AfterSame(Print(v), r, s);
    }
  }

  lemma TextUnique(a: string, b: string, r: string, s: string)
    requires Print(Str(a)) + r == Print(Str(b)) + s
    ensures a == b && r == s
  {
    AfterFirst("\"", Quoted(a), r);
    AfterFirst("\"", Quoted(b), s);
    QuotedUnique(a, b, r, s);
  }

  lemma AfterFirst(p: string, x: string, r: string)
    ensures ((p + x) + r)[|p|..] == x + r
  {
  }

  lemma AfterSame(p: string, r: string, s: string)
    requires p + r == p + s
    ensures r == s
  {
    assert r == (p + r)[|p|..] && s == (p + s)[|p|..];
  }

  ghost predicate AllWellFormed(items: seq<Json>) {
    forall i :: 0 <= i < |items| ==> WellFormed(items[i])
  }

  lemma {:induction false} ArrUnique(a: seq<Json>, b: seq<Json>, r: string, s: string)
    requires AllWellFormed(a) && AllWellFormed(b) && Ends(r) && Ends(s)
    requires Print(Arr(a)) + r == Print(Arr(b)) + s
    ensures a == b && r == s
    decreases Arr(a), 0
  {
    if a != [] && b != [] {
      var ra, rb := PrintItems(a[1..]) + r, PrintItems(b[1..]) + s;
      ArrShape(a, r);
      ArrShape(b, s);
      Cons('[', Print(a[0]) + ra, Print(b[0]) + rb);
      PrintUnique(a[0], b[0], ra, rb);
      ItemsUnique(a[1..], b[1..], r, s);
    } else {
      EmptyArr(a, b, r, s);
    }
  }

  lemma ArrSecond(a: seq<Json>, r: string)
    requires AllWellFormed(a)
    ensures |Print(Arr(a)) + r| >= 2 && ((Print(Arr(a)) + r)[1] == ']' <==> a == [])
  {
    if a != [] {
      ArrShape(a, r);
      FirstChar(a[0], PrintItems(a[1..]) + r);
      assert (Print(Arr(a)) + r)[1] == Opening(a[0]);
      if a[0].Num? {
        assert NumberChar(a[0].digits[0]);
      }
    }
  }

  lemma EmptyArr(a: seq<Json>, b: seq<Json>, r: string, s: string)
    requires AllWellFormed(a) && AllWellFormed(b) && (a == [] || b == [])
    requires Print(Arr(a)) + r == Print(Arr(b)) + s
    ensures a == b && r == s
  {
    ArrSecond(a, r);
    ArrSecond(b, s);
    assert r == (Print(Arr(a)) + r)[2..];
    assert s == (Print(Arr(b)) + s)[2..];
  }

  lemma {:induction false} ItemsUnique(a: seq<Json>, b: seq<Json>, r: string, s: string)
    requires AllWellFormed(a) && AllWellFormed(b)
    requires Ends(r) && Ends(s) && PrintItems(a) + r == PrintItems(b) + s
    ensures a == b && r == s
    decreases a
  {
    ItemsShape(a, r);
    ItemsShape(b, s);
    if a == [] {
      Cons(']', r, s);
    } else {
      var ra, rb := PrintItems(a[1..]) + r, PrintItems(b[1..]) + s;
      Cons(',', Print(a[0]) + ra, Print(b[0]) + rb);
      PrintUnique(a[0], b[0], ra, rb);
      ItemsUnique(a[1..], b[1..], r, s);
    }
  }

  lemma {:induction false} EntryUnique(e: Entry, f: Entry, r: string, s: string)
    requires WellFormedKey(e.key) && WellFormedKey(f.key) && WellFormed(e.value) && WellFormed(f.value)
    requires Ends(r) && Ends(s) && PrintEntry(e) + r == PrintEntry(f) + s
    ensures e == f && r == s
    decreases e
  {
    var re, rf := Print(e.value) + r, Print(f.value) + s;
    EntryShape(e, r);
    EntryShape(f, s);
    Cons('"', Quoted(KeyText(e.key)) + ([':'] + re), Quoted(KeyText(f.key)) + ([':'] + rf));
    QuotedUnique(KeyText(e.key), KeyText(f.key), [':'] + re, [':'] + rf);
    KeyTextUnique(e.key, f.key);
    Cons(':', re, rf);
    PrintUnique(e.value, f.value, r, s);
  }

  ghost predicate EntriesWellFormed(entries: seq<Entry>) {
    forall i :: 0 <= i < |entries| ==> WellFormedKey(entries[i].key) && WellFormed(entries[i].value)
  }

  lemma {:induction false} ObjUnique(a: seq<Entry>, b: seq<Entry>, r: string, s: string)
    requires EntriesWellFormed(a) && EntriesWellFormed(b) && Ends(r) && Ends(s)
    requires Print(Obj(a)) + r == Print(Obj(b)) + s
    ensures a == b && r == s
    decreases Obj(a), 0
  {
    if a != [] && b != [] {
      var ra, rb := PrintEntries(a[1..]) + r, PrintEntries(b[1..]) + s;
      ObjShape(a, r);
      ObjShape(b, s);
      Cons('{', PrintEntry(a[0]) + ra, PrintEntry(b[0]) + rb);
      EntryUnique(a[0], b[0], ra, rb);
      EntriesUnique(a[1..], b[1..], r, s);
    } else {
      EmptyObj(a, b, r, s);
    }
  }

  lemma ObjSecond(a: seq<Entry>, r: string)
    ensures |Print(Obj(a)) + r| >= 2 && ((Print(Obj(a)) + r)[1] == '}' <==> a == [])
  {
    if a != [] {
      ObjShape(a, r);
      EntryShape(a[0], PrintEntries(a[1..]) + r);
    }
  }

  lemma EmptyObj(a: seq<Entry>, b: seq<Entry>, r: string, s: string)
    requires a == [] || b == []
    requires Print(Obj(a)) + r == Print(Obj(b)) + s
    ensures a == b && r == s
  {
    ObjSecond(a, r);
    ObjSecond(b, s);
    assert r == (Print(Obj(a)) + r)[2..];
    assert s == (Print(Obj(b)) + s)[2..];
  }

  lemma {:induction false} EntriesUnique(a: seq<Entry>, b: seq<Entry>, r: string, s: string)
    requires EntriesWellFormed(a) && EntriesWellFormed(b)
    requires Ends(r) && Ends(s) && PrintEntries(a) + r == PrintEntries(b) + s
    ensures a == b && r == s
    decreases a
  {
    EntriesShape(a, r);
    EntriesShape(b, s);
    if a == [] {
      Cons('}', r, s);
    } else {
      var ra, rb := PrintEntries(a[1..]) + r, PrintEntries(b[1..]) + s;
      Cons(',', PrintEntry(a[0]) + ra, PrintEntry(b[0]) + rb);
      EntryUnique(a[0], b[0], ra, rb);
      EntriesUnique(a[1..], b[1..], r, s);
    }
  }

  lemma {:induction false} CanonWellFormed(rank: string -> real, v: Json)
    requires WellFormed(v)
    ensures WellFormed(Canon(rank, v))
    decreases v
  {
    match v {
      case Arr(items) =>
        forall i | 0 <= i < |items|
          ensures WellFormed(Canon(rank, items[i]))
        {
          CanonWellFormed(rank, items[i]);
        }
      case Obj(entries) =>
        var mapped := CanonEntries(rank, entries);
        CanonObj(rank, entries);
        SortMultiset(rank, mapped);
        UniqueInOrder(mapped, Sort(rank, mapped));
        forall i | 0 <= i < |mapped|
          ensures WellFormedKey(mapped[i].key) && WellFormed(mapped[i].value)
        {
          CanonWellFormed(rank, entries[i].value);
        }
        var sorted := Sort(rank, mapped);
        forall i | 0 <= i < |sorted|
          ensures WellFormedKey(sorted[i].key) && WellFormed(sorted[i].value)
        {
          assert sorted[i] in multiset(mapped);
          var j :| 0 <= j < |mapped| && mapped[j] == sorted[i];
        }
      case _ =>
    }
  }

  // A value without ties has the same canonical text as another if and only if the two are equal up to the
  // order of object keys, at every depth.
  lemma CanonicalForm(rank: string -> real, v: Json, w: Json)
    requires TieFree(rank, v) && WellFormed(v) && WellFormed(w)
    ensures Print(Canon(rank, v)) == Print(Canon(rank, w)) <==> Same(v, w)
  {
    if Same(v, w) {
      SameGivesCanon(rank, v, w);
    }
    if Print(Canon(rank, v)) == Print(Canon(rank, w)) {
      TextDetermines(rank, v, w);
    }
  }

  // Whatever the collation, equal texts mean equal values up to key order.
  lemma TextDetermines(rank: string -> real, v: Json, w: Json)
    requires WellFormed(v) && WellFormed(w) && Print(Canon(rank, v)) == Print(Canon(rank, w))
    ensures Same(v, w)
  {
    SameText(rank, v, w);
    CanonGivesSame(rank, v, w);
  }

  lemma SameText(rank: string -> real, v: Json, w: Json)
    requires WellFormed(v) && WellFormed(w) && Print(Canon(rank, v)) == Print(Canon(rank, w))
    ensures Canon(rank, v) == Canon(rank, w)
  {
    CanonWellFormed(rank, v);
    CanonWellFormed(rank, w);
    PrintUnique(Canon(rank, v), Canon(rank, w), "", "");
  }

  // ---- what a tie does ----

  // Of two names that tie, a stable sort keeps the one first that came first.
  lemma {:induction false} InsertTied(rank: string -> real, x: Entry, y: Entry, sorted: seq<Entry>)
    requires Tie(rank, x.key, y.key)
    ensures Insert(rank, x, Insert(rank, y, sorted)) != Insert(rank, y, Insert(rank, x, sorted))
  {
    var xy, yx := Insert(rank, x, Insert(rank, y, sorted)), Insert(rank, y, Insert(rank, x, sorted));
    if sorted == [] || AtMost(rank, y.key, sorted[0].key) {
      assert xy[0] == x && yx[0] == y;
    } else {
      InsertTied(rank, x, y, sorted[1..]);
      assert xy[1..] == Insert(rank, x, Insert(rank, y, sorted[1..]));
      assert yx[1..] == Insert(rank, y, Insert(rank, x, sorted[1..]));
    }
  }

  lemma {:induction false} SameItself(v: Json)
    ensures Same(v, v)
    decreases v
  {
    if v.Arr? {
      forall i | 0 <= i < |v.items|
        ensures Same(v.items[i], v.items[i])
      {
        SameItself(v.items[i]);
      }
    } else if v.Obj? {
      forall i | 0 <= i < |v.entries|
        ensures Same(v.entries[i].value, v.entries[i].value)
      {
        SameItself(v.entries[i].value);
      }
      SamePairwise(v.entries, v.entries);
    }
  }

  lemma {:induction false} SamePairwise(a: seq<Entry>, b: seq<Entry>)
    requires |a| == |b| && forall i :: 0 <= i < |a| ==> a[i].key == b[i].key && Same(a[i].value, b[i].value)
    ensures Same(Obj(a), Obj(b))
  {
    forall i | 0 <= i < |a|
      ensures Holds(b, a[i])
    {
      assert a[i].key == b[i].key && Same(a[i].value, b[i].value);
    }
  }

  lemma {:induction false} Reordered(a: seq<Entry>, b: seq<Entry>)
    requires multiset(a) == multiset(b) && WellFormed(Obj(a))
    ensures WellFormed(Obj(b)) && Same(Obj(a), Obj(b))
  {
    UniqueInOrder(a, b);
    forall i | 0 <= i < |b|
      ensures WellFormedKey(b[i].key) && WellFormed(b[i].value)
    {
      assert b[i] in multiset(a);
      var j :| 0 <= j < |a| && a[j] == b[i];
    }
    assert |multiset(a)| == |a| && |multiset(b)| == |b|;
    forall i | 0 <= i < |a|
      ensures Holds(b, a[i])
    {
      assert a[i] in multiset(b);
      var j :| 0 <= j < |b| && b[j] == a[i];
      SameItself(a[i].value);
    }
  }

  // The same object with two of its entries in front, in one order.
  function InFront(x: Entry, y: Entry, rest: seq<Entry>): seq<Entry> {
    [x, y] + rest
  }

  lemma SortInFront(rank: string -> real, x: Entry, y: Entry, rest: seq<Entry>)
    ensures Canon(rank, Obj(InFront(x, y, rest))) ==
              Obj(Insert(rank, Entry(x.key, Canon(rank, x.value)),
                         Insert(rank, Entry(y.key, Canon(rank, y.value)), Sort(rank, CanonEntries(rank, rest)))))
  {
    var cx, cy, cr := Entry(x.key, Canon(rank, x.value)), Entry(y.key, Canon(rank, y.value)), CanonEntries(rank, rest);
    CanonObj(rank, InFront(x, y, rest));
    assert CanonEntries(rank, InFront(x, y, rest)) == [cx] + ([cy] + cr);
    assert ([cx] + ([cy] + cr))[1..] == [cy] + cr && ([cy] + cr)[1..] == cr;
  }

  // Two names of one object that tie: one of the two orders of them has another canonical value.
  lemma {:induction false} SwapApart(rank: string -> real, entries: seq<Entry>, i: nat, j: nat) returns (w: Json)
    requires WellFormed(Obj(entries)) && i < j < |entries| && Tie(rank, entries[i].key, entries[j].key)
    ensures WellFormed(w) && Same(Obj(entries), w) && Canon(rank, w) != Canon(rank, Obj(entries))
  {
    var x, y := entries[i], entries[j];
    var rest := entries[..i] + entries[i + 1..j] + entries[j + 1..];
    assert entries == entries[..i] + [x] + entries[i + 1..j] + [y] + entries[j + 1..];
    Reordered(entries, InFront(x, y, rest));
    Reordered(entries, InFront(y, x, rest));
    SortInFront(rank, x, y, rest);
    SortInFront(rank, y, x, rest);
    InsertTied(rank, Entry(x.key, Canon(rank, x.value)), Entry(y.key, Canon(rank, y.value)), Sort(rank, CanonEntries(rank, rest)));
    w := Obj(InFront(x, y, rest));
    if Canon(rank, w) == Canon(rank, Obj(entries)) {
      w := Obj(InFront(y, x, rest));
    }
  }

  // A value one of whose entries is replaced by another with another canonical value.
  lemma {:induction false} EntryApart(rank: string -> real, entries: seq<Entry>, i: nat, inner: Json) returns (w: Json)
    requires WellFormed(Obj(entries)) && i < |entries| && WellFormed(inner) && Same(entries[i].value, inner)
    requires Canon(rank, inner) != Canon(rank, entries[i].value)
    ensures WellFormed(w) && Same(Obj(entries), w) && Canon(rank, w) != Canon(rank, Obj(entries))
  {
    var changed := entries[i := Entry(entries[i].key, inner)];
    w := Obj(changed);
    forall k | 0 <= k < |entries|
      ensures entries[k].key == changed[k].key && Same(entries[k].value, changed[k].value)
    {
      SameItself(entries[k].value);
    }
    SamePairwise(entries, changed);
    CanonObj(rank, entries);
    CanonObj(rank, changed);
    if Canon(rank, w) == Canon(rank, Obj(entries)) {
      var j := EntriesPair(rank, entries, changed, i);
    }
  }

  lemma {:induction false} ItemApart(rank: string -> real, items: seq<Json>, i: nat, inner: Json) returns (w: Json)
    requires WellFormed(Arr(items)) && i < |items| && WellFormed(inner) && Same(items[i], inner)
    requires Canon(rank, inner) != Canon(rank, items[i])
    ensures WellFormed(w) && Same(Arr(items), w) && Canon(rank, w) != Canon(rank, Arr(items))
  {
    var changed := items[i := inner];
    w := Arr(changed);
    forall k | 0 <= k < |items|
      ensures Same(items[k], changed[k])
    {
      SameItself(items[k]);
    }
    assert Canon(rank, w).items[i] == Canon(rank, inner) && Canon(rank, Arr(items)).items[i] == Canon(rank, items[i]);
  }

  // Wherever in a value the tie sits, some reordering of the value has another canonical value.
  lemma {:induction false} TieApart(rank: string -> real, v: Json) returns (w: Json)
    requires WellFormed(v) && !TieFree(rank, v)
    ensures WellFormed(w) && Same(v, w) && Canon(rank, w) != Canon(rank, v)
    decreases v
  {
    if v.Arr? {
      var i :| 0 <= i < |v.items| && !TieFree(rank, v.items[i]);
      var inner := TieApart(rank, v.items[i]);
      w := ItemApart(rank, v.items, i, inner);
    } else if NoTies(rank, v.entries) {
      var i :| 0 <= i < |v.entries| && !TieFree(rank, v.entries[i].value);
      var inner := TieApart(rank, v.entries[i].value);
      w := EntryApart(rank, v.entries, i, inner);
    } else {
      var i, j :| 0 <= i < |v.entries| && 0 <= j < |v.entries| && Tie(rank, v.entries[i].key, v.entries[j].key);
      w := SwapApart(rank, v.entries, if i < j then i else j, if i < j then j else i);
    }
  }

  // Every reordering of a value gets its text.
  ghost predicate OrderFree(rank: string -> real, v: Json) {
    forall w :: WellFormed(w) && Same(v, w) ==> Print(Canon(rank, w)) == Print(Canon(rank, v))
  }

  // And that is so of exactly the values no object of which, at any depth, holds two names that tie.
  lemma OrderFreeExactly(rank: string -> real, v: Json)
    requires WellFormed(v)
    ensures OrderFree(rank, v) <==> TieFree(rank, v)
  {
    if TieFree(rank, v) {
      forall w | WellFormed(w) && Same(v, w)
        ensures Print(Canon(rank, w)) == Print(Canon(rank, v))
      {
        CanonicalForm(rank, v, w);
      }
    } else {
      var w := TieApart(rank, v);
      if OrderFree(rank, v) {
        SameText(rank, w, v);
      }
    }
  }
}
