/** Subscription and publication headers: printing, parsing, and the round trip. */
module Headers {
  import opened Subscriptions
  import opened Wire

  /** Malformed stands for what the source leaves undefined: reading a token that
    * is not there, or a number that does not fit. */
  datatype Parsed<T> = Rejected | Malformed | Done(value: T)

  datatype SubHeader = SubHeader(name: string, data: seq<Entry>)

  predicate InRange(x: int) { -0x8000_0000 <= x < 0x8000_0000 }

  // ---------------------------------------------------------------------------
  // Reading
  // ---------------------------------------------------------------------------

  /** Group i of a subscription's tokens is ignored. */
  predicate Skipped(v: seq<string>, i: nat)
    requires i < |v|
  {
    v[i] != "i" || (i + 2 < |v| && ParseOp(v[i + 2]).None?)
  }

  /** ... or it is a predicate. */
  predicate Readable(v: seq<string>, i: nat)
    requires i < |v|
  {
    i + 3 < |v| && ParseOp(v[i + 2]).Some? && InRange(Atoi(v[i + 3]))
  }

  function EntryAt(v: seq<string>, i: nat): Entry
    requires i < |v| && !Skipped(v, i) && Readable(v, i)
  {
    Entry(v[i + 1], Predicate(ParseOp(v[i + 2]).value, Atoi(v[i + 3])))
  }

  /** The predicates of the groups from i on, inserted into d. */
  function SubFrom(v: seq<string>, i: nat, d: seq<Entry>): Parsed<seq<Entry>>
    decreases |v| - i
  {
    if i >= |v| then Done(d)
    else if Skipped(v, i) then SubFrom(v, i + 4, d)
    else if !Readable(v, i) then Malformed
    else SubFrom(v, i + 4, Insert(d, EntryAt(v, i)))
  }

  function ParsedSub(v: seq<string>): Parsed<SubHeader> {
    if |v| >= 7 && v[2] == "S" then
      match SubFrom(v, 3, [])
      case Rejected => Rejected
      case Malformed => Malformed
      case Done(d) => Done(SubHeader(v[1], d))
    else Rejected
  }

  /** parse_sub */
  method ParseSub(v: seq<string>) returns (r: Parsed<SubHeader>)
    ensures r == ParsedSub(v)
    ensures r.Done? ==> Sorted(r.value.data)
  {
    if !(|v| >= 7 && v[2] == "S") { return Rejected; }
    var d: Multimap, i := [], 3;
    while i < |v|
      invariant 3 <= i && SubFrom(v, 3, []) == SubFrom(v, i, d)
    {
      if v[i] == "i" {
        if i + 2 >= |v| { return Malformed; }
        var op := ParseOp(v[i + 2]);
        if op.Some? {
          if i + 3 >= |v| || !InRange(Atoi(v[i + 3])) { return Malformed; }
          var e := Entry(v[i + 1], Predicate(op.value, Atoi(v[i + 3])));
          InsertSorted(d, e);
          d := Insert(d, e);
        }
      }
      i := i + 4;
    }
    return Done(SubHeader(v[1], d));
  }

  /** Group i of a publication's tokens is an attribute. */
  predicate Attribute(v: seq<string>, i: nat)
    requires i < |v|
  {
    i + 2 < |v| && InRange(Atoi(v[i + 2]))
  }

  function PubFrom(v: seq<string>, i: nat, e: Event): Parsed<Event>
    decreases |v| - i
  {
    if i >= |v| then Done(e)
    else if v[i] != "i" then PubFrom(v, i + 3, e)
    else if !Attribute(v, i) then Malformed
    else PubFrom(v, i + 3, e[v[i + 1] := Atoi(v[i + 2])])
  }

  function ParsedPub(v: seq<string>): Parsed<Event> {
    if |v| >= 6 && v[2] == "P" then PubFrom(v, 3, map[]) else Rejected
  }

  /** parse_pub */
  method ParsePub(v: seq<string>) returns (r: Parsed<Event>)
    ensures r == ParsedPub(v)
  {
    if !(|v| >= 6 && v[2] == "P") { return Rejected; }
    var e: Event, i := map[], 3;
    while i < |v|
      invariant 3 <= i && PubFrom(v, 3, map[]) == PubFrom(v, i, e)
    {
      if v[i] == "i" {
        if i + 2 >= |v| || !InRange(Atoi(v[i + 2])) { return Malformed; }
        e := e[v[i + 1] := Atoi(v[i + 2])];
      }
      i := i + 3;
    }
    return Done(e);
  }

  /** Groups of n tokens begin at i: one of them begins at j. */
  predicate Begins(i: nat, j: nat, n: nat)
    requires 0 < n
  {
    i <= j && (j - i) % n == 0
  }

  lemma BeginsNext(i: nat, j: nat, n: nat)
    requires n == 3 || n == 4
    ensures Begins(i, j, n) <==> i == j || Begins(i + n, j, n)
  {
    if n == 3 {
      assert i + 3 <= j ==> (j - i) % 3 == (j - (i + 3)) % 3;
    } else {
      assert i + 4 <= j ==> (j - i) % 4 == (j - (i + 4)) % 4;
    }
  }

  /** Reading stays within the tokens and the numbers fit, exactly if every group
    * is ignored or complete. */
  lemma {:induction false} SubDefined(v: seq<string>, i: nat, d: seq<Entry>)
    ensures SubFrom(v, i, d).Malformed? <==>
      exists j: nat | j < |v| :: Begins(i, j, 4) && !Skipped(v, j) && !Readable(v, j)
    ensures !SubFrom(v, i, d).Rejected?
    decreases |v| - i
  {
    forall j: nat ensures Begins(i, j, 4) <==> i == j || Begins(i + 4, j, 4) { BeginsNext(i, j, 4); }
    if i < |v| {
      if Skipped(v, i) {
        SubDefined(v, i + 4, d);
      } else if Readable(v, i) {
        SubDefined(v, i + 4, Insert(d, EntryAt(v, i)));
      }
      hide Skipped, Readable, EntryAt, Begins;
    } else {
      hide Skipped, Readable;
    }
  }

  /** The predicates of the groups from i on that are on one key, in order. */
  function OnKey(v: seq<string>, i: nat, k: Key): seq<Predicate>
    decreases |v| - i
  {
    if i >= |v| then []
    else (if !Skipped(v, i) && Readable(v, i) then Under(EntryAt(v, i), k) else []) + OnKey(v, i + 4, k)
  }

  /** What is read holds on every key, after what was there, the predicates of the
    * groups on that key, in the order and as often as they come; keys are sorted. */
  lemma {:induction false} SubRanges(v: seq<string>, i: nat, d: seq<Entry>, k: Key)
    requires Sorted(d) && SubFrom(v, i, d).Done?
    ensures Sorted(SubFrom(v, i, d).value) && Range(SubFrom(v, i, d).value, k) == Range(d, k) + OnKey(v, i, k)
    decreases |v| - i
  {
    hide *;
    SubStep(v, i, d, k);
    if i >= |v| {
    } else if Skipped(v, i) {
      SubRanges(v, i + 4, d, k);
    } else {
      var t := EntryAt(v, i);
      InsertSorted(d, t);
      InsertRange(d, t, k);
      SubRanges(v, i + 4, Insert(d, t), k);
      assert Range(d, k) + Under(t, k) + OnKey(v, i + 4, k) == Range(d, k) + (Under(t, k) + OnKey(v, i + 4, k));
    }
  }

  lemma SubStep(v: seq<string>, i: nat, d: seq<Entry>, k: Key)
    requires SubFrom(v, i, d).Done?
    ensures i >= |v| ==> SubFrom(v, i, d).value == d && OnKey(v, i, k) == []
    ensures i < |v| && Skipped(v, i) ==>
      SubFrom(v, i, d) == SubFrom(v, i + 4, d) && OnKey(v, i, k) == OnKey(v, i + 4, k)
    ensures i < |v| && !Skipped(v, i) ==>
      Readable(v, i) && SubFrom(v, i, d) == SubFrom(v, i + 4, Insert(d, EntryAt(v, i))) &&
      OnKey(v, i, k) == Under(EntryAt(v, i), k) + OnKey(v, i + 4, k)
  {
    hide Skipped, Readable, EntryAt, Insert;
  }

  lemma {:induction false} PubDefined(v: seq<string>, i: nat, e: Event)
    ensures PubFrom(v, i, e).Malformed? <==>
      exists j: nat | j < |v| :: Begins(i, j, 3) && v[j] == "i" && !Attribute(v, j)
    ensures !PubFrom(v, i, e).Rejected?
    decreases |v| - i
  {
    forall j: nat ensures Begins(i, j, 3) <==> i == j || Begins(i + 3, j, 3) { BeginsNext(i, j, 3); }
    if i < |v| {
      if v[i] != "i" {
        PubDefined(v, i + 3, e);
      } else if Attribute(v, i) {
        PubDefined(v, i + 3, e[v[i + 1] := Atoi(v[i + 2])]);
      }
      hide Attribute, Begins;
    } else {
      hide Attribute;
    }
  }

  /** The values of the groups from i on that are on one key, in order. */
  function ValuesOf(v: seq<string>, i: nat, k: Key): seq<Value>
    decreases |v| - i
  {
    if i >= |v| then []
    else (if v[i] == "i" && Attribute(v, i) && v[i + 1] == k then [Atoi(v[i + 2])] else []) + ValuesOf(v, i + 3, k)
  }

  /** What is read holds, on every key, the value of the last group on that key, or
    * what was there if there is none; ignored groups change nothing. */
  lemma {:induction false} PubValues(v: seq<string>, i: nat, e: Event, k: Key)
    requires PubFrom(v, i, e).Done?
    ensures var r, xs := PubFrom(v, i, e).value, ValuesOf(v, i, k);
      && (k in r <==> k in e || xs != [])
      && (k in r ==> r[k] == if xs == [] then e[k] else xs[|xs| - 1])
    decreases |v| - i
  {
    hide Atoi;
    if i < |v| {
      var more := if v[i] == "i" then e[v[i + 1] := Atoi(v[i + 2])] else e;
      PubValues(v, i + 3, more, k);
    }
  }

  // ---------------------------------------------------------------------------
  // Printing
  // ---------------------------------------------------------------------------

  /** The predicates a client can set: at most one per key, with a comparison the
    * library offers; keys and names are words. */
  predicate FromClient(d: seq<Entry>) {
    && (forall i, j | 0 <= i < j < |d| :: KeyLess(d[i].key, d[j].key))
    && (forall i | 0 <= i < |d| :: Word(d[i].key) && Printable(d[i].pred.op))
  }

  function SignText(o: Op): string
    requires Printable(o)
  {
    OpSign(o) + " "
  }

  function SubText(id: string, d: seq<Entry>): string
    requires forall i | 0 <= i < |d| :: Printable(d[i].pred.op)
  {
    if d == [] then "0 " + id + " S"
    else
      var t := d[|d| - 1];
      SubText(id, d[..|d| - 1]) + " i " + t.key + " " + SignText(t.pred.op) + Printed(t.pred.val)
  }

  /** Subscription::serialize, the header. */
  method PrintSub(id: string, d: seq<Entry>) returns (header: string)
    requires forall i | 0 <= i < |d| :: Printable(d[i].pred.op)
    ensures header == SubText(id, d)
  {
    hide *;
    header := "0 " + id + " S";
    NoGroups(id);
    var i := 0;
    while i < |d|
      invariant i <= |d| && header == SubText(id, d[..i])
    {
      MoreGroups(id, d, i);
      SignTexts(d[i].pred.op);
      header := header + " i " + d[i].key + " ";
      match d[i].pred.op {
        case Eq => header := header + "= ";
        case Lt => header := header + "< ";
        case Gt => header := header + "> ";
        case Le => header := header + "<= ";
        case Ge => header := header + ">= ";
      }
      header := header + Printed(d[i].pred.val);
      i := i + 1;
    }
    assert d[..i] == d;
  }

  lemma NoGroups(id: string)
    ensures SubText(id, []) == "0 " + id + " S"
  {}

  lemma MoreGroups(id: string, d: seq<Entry>, i: nat)
    requires i < |d| && forall j | 0 <= j < |d| :: Printable(d[j].pred.op)
    ensures SubText(id, d[..i + 1]) ==
      SubText(id, d[..i]) + " i " + d[i].key + " " + SignText(d[i].pred.op) + Printed(d[i].pred.val)
    ensures Printable(d[i].pred.op)
  {
    assert d[..i + 1][..i] == d[..i];
    hide Printed, SignText;
  }

  lemma SignTexts(o: Op)
    requires Printable(o)
    ensures o == Eq || o == Lt || o == Gt || o == Le || o == Ge
    ensures SignText(o) == match o case Eq => "= " case Lt => "< " case Gt => "> " case Le => "<= " case _ => ">= "
  {}

  function PubGroup(k: Key, x: Value): string { " i " + k + " " + Printed(x) }

  function PubText(e: seq<(Key, Value)>): string {
    if e == [] then "0 0 P" else PubText(e[..|e| - 1]) + PubGroup(e[|e| - 1].0, e[|e| - 1].1)
  }

  /** Publication::serialize, the header. */
  method PrintPub(e: seq<(Key, Value)>) returns (header: string)
    ensures header == PubText(e)
  {
    header := "0 0 P";
    var i := 0;
    while i < |e|
      invariant i <= |e| && header == PubText(e[..i])
    {
      header := header + " i " + e[i].0 + " " + Printed(e[i].1);
      assert e[..i + 1][..i] == e[..i];
      assert header == PubText(e[..i]) + PubGroup(e[i].0, e[i].1);
      i := i + 1;
    }
    assert e[..i] == e;
  }

  // ---------------------------------------------------------------------------
  // The round trip of subscriptions
  // ---------------------------------------------------------------------------

  /** The tokens of a subscription whose constants are written as in ts. */
  function SubTokens(d: seq<Entry>, ts: seq<string>): seq<string>
    requires |ts| == |d| && forall i | 0 <= i < |d| :: Signed(d[i].pred.op)
  {
    if d == [] then []
    else
      var k := |d| - 1;
      SubTokens(d[..k], ts[..k]) + ["i", d[k].key, OpSign(d[k].pred.op), ts[k]]
  }

  /** The printed constants. */
  function Constants(d: seq<Entry>): (ts: seq<string>)
    ensures |ts| == |d| && forall i | 0 <= i < |d| :: ts[i] == Printed(d[i].pred.val)
  {
    if d == [] then [] else Constants(d[..|d| - 1]) + [Printed(d[|d| - 1].pred.val)]
  }

  lemma {:induction false} SubTextWords(id: string, d: seq<Entry>)
    requires Word(id) && FromClient(d)
    ensures Words(SubText(id, d)) == ["0", id, "S"] + SubTokens(d, Constants(d))
  {
    hide Printed, Words, Word, KeyLess, OpSign;
    if d == [] {
      HeadWords("0", id, "S");
    } else {
      var k := |d| - 1;
      var t, h := d[k], SubText(id, d[..k]);
      SubTextWords(id, d[..k]);
      AtoiPrinted(t.pred.val);
      SignExact(OpSign(t.pred.op), t.pred.op);
      SubGroupWords(h, t.key, t.pred.op, Printed(t.pred.val));
      assert Constants(d)[..k] == Constants(d[..k]);
    }
  }

  lemma HeadWords(a: string, b: string, c: string)
    requires a == "0" && Word(b) && (c == "S" || c == "P")
    ensures Words(a + " " + b + " " + c) == [a, b, c] && "0 " + b + " S" == "0" + " " + b + " " + "S"
  {
    var ws := [a, b, c];
    assert Word(a) && Word(c);
    assert ws[..2] == [a, b] && ws[..2][..1] == [a];
    assert Spaced(ws[..2]) == a + " " + b by { assert Spaced([a]) == a; }
    assert Spaced(ws) == a + " " + b + " " + c;
    SplitSpaced(ws);
  }

  lemma SubGroupWords(h: string, key: string, o: Op, x: string)
    requires Word(key) && Printable(o) && Word(x) && Word(OpSign(o))
    ensures Words(h + " i " + key + " " + SignText(o) + x) == Words(h) + ["i", key, OpSign(o), x]
  {
    hide Words, Signed, OpSign;
    var a := h + " " + "i";
    var b := a + " " + key;
    var c := b + " " + OpSign(o);
    assert Word("i");
    AddWord(h, "i");
    AddWord(a, key);
    AddWord(b, OpSign(o));
    AddWord(c, x);
    assert h + " i " == a + " ";
    assert h + " i " + key + " " + SignText(o) + x == c + " " + x;
  }

  lemma {:induction false} GroupOf(d: seq<Entry>, ts: seq<string>, k: nat)
    requires k < |d| == |ts| && forall i | 0 <= i < |d| :: Signed(d[i].pred.op)
    ensures |SubTokens(d, ts)| == 4 * |d|
    ensures SubTokens(d, ts)[4 * k] == "i" && SubTokens(d, ts)[4 * k + 1] == d[k].key
    ensures SubTokens(d, ts)[4 * k + 2] == OpSign(d[k].pred.op) && SubTokens(d, ts)[4 * k + 3] == ts[k]
  {
    hide OpSign, Signed;
    var n := |d| - 1;
    if n == 0 {
      assert SubTokens(d[..0], ts[..0]) == [];
    } else {
      GroupOf(d[..n], ts[..n], if k < n then k else 0);
    }
  }

  lemma TailAt(v: seq<string>, w: seq<string>, i: nat)
    requires |v| >= 3 && v[3..] == w && i < |w|
    ensures 3 + i < |v| && v[3 + i] == w[i]
  {}

  /** The predicates in the order a subscription holds them. */
  function InsertAll(d: seq<Entry>): seq<Entry> {
    if d == [] then [] else Insert(InsertAll(d[..|d| - 1]), d[|d| - 1])
  }

  /** Inserting one by one sorts by key, and leaves the predicates of each key as they come. */
  lemma {:induction false} InsertAllRange(d: seq<Entry>, k: Key)
    ensures Sorted(InsertAll(d)) && Range(InsertAll(d), k) == Range(d, k)
  {
    if d != [] {
      var n := |d| - 1;
      InsertAllRange(d[..n], k);
      InsertSorted(InsertAll(d[..n]), d[n]);
      InsertRange(InsertAll(d[..n]), d[n], k);
      assert d == d[..n] + [d[n]];
      RangeAppend(d[..n], [d[n]], k);
      assert [d[n]][1..] == [];
    }
  }

  /** With growing keys it leaves the list as it is. */
  lemma {:induction false} InsertAllSame(d: seq<Entry>)
    requires forall i, j | 0 <= i < j < |d| :: KeyLess(d[i].key, d[j].key)
    ensures InsertAll(d) == d
  {
    if d != [] {
      var n := |d| - 1;
      InsertAllSame(d[..n]);
      forall x | x in d[..n] ensures !KeyLess(d[n].key, x.key) { KeyLessTotal(x.key, d[n].key); }
      InsertLast(d[..n], d[n]);
      assert d == d[..n] + [d[n]];
    }
  }

  lemma {:induction false} InsertLast(d: seq<Entry>, t: Entry)
    requires forall x | x in d :: !KeyLess(t.key, x.key)
    ensures Insert(d, t) == d + [t]
  {
    if d != [] { InsertLast(d[1..], t); }
  }

  /** Each text is one that atoi reads as the constant. */
  predicate Reads(d: seq<Entry>, ts: seq<string>) {
    |ts| == |d| && forall i | 0 <= i < |d| :: Signed(d[i].pred.op) && Atoi(ts[i]) == d[i].pred.val
  }

  /** From group k on, the rest of d is read. */
  lemma {:induction false} GroupsRead(v: seq<string>, d: seq<Entry>, ts: seq<string>, k: nat)
    requires Reads(d, ts) && k <= |d| && |v| >= 3 && v[3..] == SubTokens(d, ts)
    ensures SubFrom(v, 3 + 4 * k, InsertAll(d[..k])) == Done(InsertAll(d))
    decreases |d| - k
  {
    hide Signed, Atoi, OpSign, ParseOp, Insert;
    if k == |d| {
      SubTokensSize(d, ts);
      assert d[..k] == d;
    } else {
      GroupOf(d, ts, k);
      SignExact(OpSign(d[k].pred.op), d[k].pred.op);
      TailAt(v, SubTokens(d, ts), 4 * k);
      TailAt(v, SubTokens(d, ts), 4 * k + 1);
      TailAt(v, SubTokens(d, ts), 4 * k + 2);
      TailAt(v, SubTokens(d, ts), 4 * k + 3);
      assert d[..k + 1][..k] == d[..k];
      assert EntryAt(v, 3 + 4 * k) == d[k];
      GroupsRead(v, d, ts, k + 1);
    }
  }

  lemma {:induction false} SubTokensSize(d: seq<Entry>, ts: seq<string>)
    requires |ts| == |d| && forall i | 0 <= i < |d| :: Signed(d[i].pred.op)
    ensures |SubTokens(d, ts)| == 4 * |d|
  {
    if d != [] { SubTokensSize(d[..|d| - 1], ts[..|d| - 1]); }
  }

  /** Tokens of predicates are read as these, in any order and with any texts that
    * atoi reads as their constants, if there is any. */
  lemma SubTokensRead(a: string, id: string, d: seq<Entry>, ts: seq<string>)
    requires Reads(d, ts)
    ensures ParsedSub([a, id, "S"] + SubTokens(d, ts)) ==
      if d == [] then Rejected else Done(SubHeader(id, InsertAll(d)))
    ensures ParsedPub([a, id, "S"] + SubTokens(d, ts)) == Rejected
  {
    var v := [a, id, "S"] + SubTokens(d, ts);
    SubTokensSize(d, ts);
    hide Signed, Atoi, OpSign, SubTokens;
    assert v[3..] == SubTokens(d, ts) && v[1] == id && v[2] == "S";
    GroupsRead(v, d, ts, 0);
    assert d[..0] == [];
  }

  /** Constants written as integers, as in the workload files. */
  function Integers(d: seq<Entry>): (ts: seq<string>)
    ensures |ts| == |d| && forall i | 0 <= i < |d| :: ts[i] == Integer(d[i].pred.val)
  {
    if d == [] then [] else Integers(d[..|d| - 1]) + [Integer(d[|d| - 1].pred.val)]
  }

  /** A line of text with any blanks and tabs between its tokens, and integers as constants. */
  lemma IntegerSub(line: string, lead: string, gaps: seq<string>, a: string, id: string, d: seq<Entry>)
    requires forall i | 0 <= i < |d| :: Signed(d[i].pred.op)
    requires var ws := [a, id, "S"] + SubTokens(d, Integers(d));
      Layout(lead, ws, gaps) && line == lead + LaidOut(ws, gaps)
    ensures ParsedSub(Words(line)) == if d == [] then Rejected else Done(SubHeader(id, InsertAll(d)))
  {
    WordsExact(line, [a, id, "S"] + SubTokens(d, Integers(d)));
    forall i | 0 <= i < |d| ensures Atoi(Integers(d)[i]) == d[i].pred.val {
      AtoiInteger(d[i].pred.val, "");
      assert Integer(d[i].pred.val) + "" == Integer(d[i].pred.val);
    }
    hide Words, Layout, LaidOut, Signed, Atoi, Integers, SubTokens, ParsedSub, InsertAll;
    SubTokensRead(a, id, d, Integers(d));
  }

  /** What a client prints, the router reads back, if there is any predicate; it
    * is never taken for a publication. */
  lemma SubRoundTrip(id: string, d: seq<Entry>)
    requires Word(id) && FromClient(d)
    ensures ParsedSub(Words(SubText(id, d))) == if d == [] then Rejected else Done(SubHeader(id, d))
    ensures ParsedPub(Words(SubText(id, d))) == Rejected
  {
    SubTextWords(id, d);
    InsertAllSame(d);
    forall i | 0 <= i < |d| ensures Atoi(Constants(d)[i]) == d[i].pred.val { AtoiPrinted(d[i].pred.val); }
    hide Words, SubText, Word, KeyLess, Atoi, Constants, SubTokens, ParsedSub, ParsedPub, InsertAll;
    SubTokensRead("0", id, d, Constants(d));
  }

  // ---------------------------------------------------------------------------
  // The round trip of publications
  // ---------------------------------------------------------------------------

  /** The attributes of a publication in the order of its map: distinct words as keys. */
  predicate Attributes(e: seq<(Key, Value)>) {
    (forall i, j | 0 <= i < j < |e| :: e[i].0 != e[j].0) && forall i | 0 <= i < |e| :: Word(e[i].0)
  }

  function EventOf(e: seq<(Key, Value)>): Event {
    if e == [] then map[] else EventOf(e[..|e| - 1])[e[|e| - 1].0 := e[|e| - 1].1]
  }

  /** With distinct keys the map holds exactly the listed attributes. */
  lemma {:induction false} EventHolds(e: seq<(Key, Value)>, k: Key, x: Value)
    requires forall i, j | 0 <= i < j < |e| :: e[i].0 != e[j].0
    ensures (k in EventOf(e) && EventOf(e)[k] == x) <==> (k, x) in e
  {
    if e != [] {
      var n := |e| - 1;
      EventHolds(e[..n], k, x);
      assert e == e[..n] + [e[n]];
      if (k, x) in e[..n] {
        var i :| 0 <= i < n && e[i] == (k, x);
        assert e[i].0 != e[n].0;
      }
    }
  }

  /** In general it holds the last value of each key. */
  lemma {:induction false} EventLast(e: seq<(Key, Value)>, k: Key)
    ensures k in EventOf(e) <==> exists i | 0 <= i < |e| :: e[i].0 == k
    ensures k in EventOf(e) ==>
      exists i | 0 <= i < |e| :: e[i] == (k, EventOf(e)[k]) && forall j | i < j < |e| :: e[j].0 != k
  {
    if e != [] {
      var n := |e| - 1;
      EventLast(e[..n], k);
      if e[n].0 != k && k in EventOf(e) {
        var i :| 0 <= i < n && e[..n][i] == (k, EventOf(e)[k]) && forall j | i < j < n :: e[..n][j].0 != k;
        assert e[i] == (k, EventOf(e)[k]);
        forall j | i < j < |e| ensures e[j].0 != k { if j < n { assert e[..n][j] == e[j]; } }
      } else if e[n].0 == k {
        assert e[n] == (k, EventOf(e)[k]);
      }
      if i :| 0 <= i < |e| && e[i].0 == k { if i < n { assert e[..n][i].0 == k; } }
    }
  }

  /** The tokens of a publication whose values are written as in ts. */
  function PubTokens(e: seq<(Key, Value)>, ts: seq<string>): seq<string>
    requires |ts| == |e|
  {
    if e == [] then []
    else
      var k := |e| - 1;
      PubTokens(e[..k], ts[..k]) + ["i", e[k].0, ts[k]]
  }

  /** The printed values. */
  function Values(e: seq<(Key, Value)>): (ts: seq<string>)
    ensures |ts| == |e| && forall i | 0 <= i < |e| :: ts[i] == Printed(e[i].1)
  {
    if e == [] then [] else Values(e[..|e| - 1]) + [Printed(e[|e| - 1].1)]
  }

  lemma {:induction false} PubTextWords(e: seq<(Key, Value)>)
    requires Attributes(e)
    ensures Words(PubText(e)) == ["0", "0", "P"] + PubTokens(e, Values(e))
  {
    assert Word("0");
    hide Printed, Words, Word;
    if e == [] {
      HeadWords("0", "0", "P");
      assert "0 0 P" == "0" + " " + "0" + " " + "P";
    } else {
      var k := |e| - 1;
      var h := PubText(e[..k]);
      PubTextWords(e[..k]);
      AtoiPrinted(e[k].1);
      PubGroupWords(h, e[k].0, Printed(e[k].1));
      assert Values(e)[..k] == Values(e[..k]);
      assert PubText(e) == h + (" i " + e[k].0 + " " + Printed(e[k].1));
    }
  }

  lemma PubGroupWords(h: string, key: string, x: string)
    requires Word(key) && Word(x)
    ensures Words(h + (" i " + key + " " + x)) == Words(h) + ["i", key, x]
  {
    hide Words;
    var a := h + " " + "i";
    var b := a + " " + key;
    assert Word("i");
    AddWord(h, "i");
    AddWord(a, key);
    AddWord(b, x);
    assert h + (" i " + key + " " + x) == b + " " + x;
  }

  lemma {:induction false} AttributeOf(e: seq<(Key, Value)>, ts: seq<string>, k: nat)
    requires k < |e| == |ts|
    ensures |PubTokens(e, ts)| == 3 * |e|
    ensures PubTokens(e, ts)[3 * k] == "i" && PubTokens(e, ts)[3 * k + 1] == e[k].0
    ensures PubTokens(e, ts)[3 * k + 2] == ts[k]
  {
    var n := |e| - 1;
    if n == 0 {
      assert PubTokens(e[..0], ts[..0]) == [];
    } else {
      AttributeOf(e[..n], ts[..n], if k < n then k else 0);
    }
  }

  predicate ReadsValues(e: seq<(Key, Value)>, ts: seq<string>) {
    |ts| == |e| && forall i | 0 <= i < |e| :: Atoi(ts[i]) == e[i].1
  }

  lemma {:induction false} AttributesRead(v: seq<string>, e: seq<(Key, Value)>, ts: seq<string>, k: nat)
    requires ReadsValues(e, ts) && k <= |e| && |v| == 3 + 3 * |e| && v[3..] == PubTokens(e, ts)
    ensures PubFrom(v, 3 + 3 * k, EventOf(e[..k])) == Done(EventOf(e))
    decreases |e| - k
  {
    hide Atoi;
    if k == |e| {
      assert e[..k] == e;
    } else {
      AttributeOf(e, ts, k);
      TailAt(v, PubTokens(e, ts), 3 * k);
      TailAt(v, PubTokens(e, ts), 3 * k + 1);
      TailAt(v, PubTokens(e, ts), 3 * k + 2);
      assert e[..k + 1][..k] == e[..k];
      AttributesRead(v, e, ts, k + 1);
    }
  }

  /** Tokens of attributes are read as these, with any texts that atoi reads as their
    * values, if there is any; of a repeated key the last value counts. */
  lemma PubTokensRead(a: string, id: string, e: seq<(Key, Value)>, ts: seq<string>)
    requires ReadsValues(e, ts)
    ensures ParsedPub([a, id, "P"] + PubTokens(e, ts)) == if e == [] then Rejected else Done(EventOf(e))
    ensures ParsedSub([a, id, "P"] + PubTokens(e, ts)) == Rejected
  {
    var v := [a, id, "P"] + PubTokens(e, ts);
    if e != [] { AttributeOf(e, ts, 0); }
    assert v[3..] == PubTokens(e, ts) && v[2] == "P";
    hide PubTokens, Atoi;
    if e != [] { AttributesRead(v, e, ts, 0); }
    assert e[..0] == [];
  }

  /** Values written as integers. */
  function IntegerValues(e: seq<(Key, Value)>): (ts: seq<string>)
    ensures |ts| == |e| && forall i | 0 <= i < |e| :: ts[i] == Integer(e[i].1)
  {
    if e == [] then [] else IntegerValues(e[..|e| - 1]) + [Integer(e[|e| - 1].1)]
  }

  lemma IntegerPub(line: string, lead: string, gaps: seq<string>, a: string, id: string, e: seq<(Key, Value)>)
    requires var ws := [a, id, "P"] + PubTokens(e, IntegerValues(e));
      Layout(lead, ws, gaps) && line == lead + LaidOut(ws, gaps)
    ensures ParsedPub(Words(line)) == if e == [] then Rejected else Done(EventOf(e))
  {
    WordsExact(line, [a, id, "P"] + PubTokens(e, IntegerValues(e)));
    forall i | 0 <= i < |e| ensures Atoi(IntegerValues(e)[i]) == e[i].1 {
      AtoiInteger(e[i].1, "");
      assert Integer(e[i].1) + "" == Integer(e[i].1);
    }
    hide Words, Layout, LaidOut, Atoi, IntegerValues, PubTokens, ParsedPub, EventOf;
    PubTokensRead(a, id, e, IntegerValues(e));
  }

  lemma PubRoundTrip(e: seq<(Key, Value)>)
    requires Attributes(e)
    ensures ParsedPub(Words(PubText(e))) == if e == [] then Rejected else Done(EventOf(e))
    ensures ParsedSub(Words(PubText(e))) == Rejected
  {
    PubTextWords(e);
    forall i | 0 <= i < |e| ensures Atoi(Values(e)[i]) == e[i].1 { AtoiPrinted(e[i].1); }
    hide Words, PubText, Attributes, Atoi, Values, PubTokens, ParsedSub, ParsedPub;
    PubTokensRead("0", "0", e, Values(e));
  }
}
