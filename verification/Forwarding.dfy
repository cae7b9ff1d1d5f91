/** The two strings that carry a notification, and taking them apart again. */
module Forwarding {
  import opened Subscriptions
  import opened Wire

  /** What is sent for one recipient. */
  datatype Delivery = Delivery(to: string, body: string)

  /** OutOfRange stands for the exception of substr past the end of the hashes. */
  datatype Sending = Sent(all: seq<Delivery>) | OutOfRange

  const HASH_SIZE := 32

  // ---------------------------------------------------------------------------
  // Putting together
  // ---------------------------------------------------------------------------

  function NameList(r: seq<Subscription>): string {
    if r == [] then "" else NameList(r[..|r| - 1]) + (r[|r| - 1].name + " ")
  }

  function HashList(r: seq<Subscription>): string {
    if r == [] then "" else HashList(r[..|r| - 1]) + r[|r| - 1].hash
  }

  /** The loop of ecall_add_evt over the matches. */
  method BuildLists(r: seq<Subscription>) returns (matchlist: string, hashlist: string)
    ensures matchlist == NameList(r) && hashlist == HashList(r)
  {
    matchlist, hashlist := "", "";
    var i := 0;
    while i < |r|
      invariant i <= |r| && matchlist == NameList(r[..i]) && hashlist == HashList(r[..i])
    {
      assert r[..i + 1][..i] == r[..i];
      matchlist := matchlist + (r[i].name + " ");
      hashlist := hashlist + r[i].hash;
      i := i + 1;
    }
    assert r[..i] == r;
  }

  const NUL := '\0'

  /** What is left of a string passed as a C string: all before its first NUL. */
  function CString(s: string): (r: string)
    ensures r <= s && NUL !in r && (r == s || s[|r|] == NUL)
  {
    if s == "" || s[0] == NUL then "" else [s[0]] + CString(s[1..])
  }

  // ---------------------------------------------------------------------------
  // Taking apart
  // ---------------------------------------------------------------------------

  function Tokens(s: string): seq<string> { Pieces({' '}, s, "") }

  /** strtok with the single separator ' ': the next token from position i on. */
  method StrTok(s: string, from: nat) returns (p: Option<string>, next: nat)
    requires from <= |s|
    ensures next <= |s| && (p.Some? ==> from < next)
    ensures Tokens(s[from..]) == if p.None? then [] else [p.value] + Tokens(s[next..])
  {
    var i := from;
    while i < |s| && s[i] == ' '
      invariant from <= i <= |s| && Tokens(s[from..]) == Tokens(s[i..])
    {
      i := i + 1;
    }
    if i == |s| { return None, i; }
    var start := i;
    assert s[start..start] == "";
    while i < |s| && s[i] != ' '
      invariant start <= i <= |s| && Tokens(s[start..]) == Pieces({' '}, s[i..], s[start..i])
      invariant i == start ==> s[i] != ' '
    {
      assert s[start..i + 1] == s[start..i] + [s[i]];
      i := i + 1;
    }
    p := Some(s[start..i]);
    next := if i < |s| then i + 1 else i;
  }

  /** The i-th token is sent the i-th hash and the payload. */
  function Addressed(tokens: seq<string>, hash: string, payload: string, i: nat): Sending {
    if tokens == [] then Sent([])
    else if HASH_SIZE * i > |hash| then OutOfRange
    else
      var rest := Addressed(tokens[1..], hash, payload, i + 1);
      if rest.OutOfRange? then OutOfRange
      else Sent([Delivery(tokens[0], Piece(hash, HASH_SIZE * i) + payload)] + rest.all)
  }

  /** std::string::substr(at, 32) */
  function Piece(s: string, at: nat): (r: string)
    requires at <= |s|
    ensures r <= s[at..] && |r| <= HASH_SIZE && (|r| < HASH_SIZE ==> r == s[at..])
  {
    if at + HASH_SIZE <= |s| then s[at..at + HASH_SIZE] else s[at..]
  }

  /** PubSubCo::forward; the payload is what the table holds for the header. */
  method Forward(t: string, payload: string, hash: string) returns (r: Sending)
    ensures r == Addressed(Tokens(CString(t)), hash, payload, 0)
  {
    hide Addressed, Tokens, Pieces, CString, Joined, Piece;
    var buf := CString(t);
    var sent, i: nat := [], 0;
    var p, at := StrTok(buf, 0);
    assert buf[0..] == buf;
    ghost var left := if p.None? then [] else [p.value] + Tokens(buf[at..]);
    JoinedNone(Addressed(left, hash, payload, 0));
    while p.Some?
      invariant at <= |buf| && left == if p.None? then [] else [p.value] + Tokens(buf[at..])
      invariant Addressed(Tokens(buf), hash, payload, 0) == Joined(sent, Addressed(left, hash, payload, i))
      decreases p.Some?, |buf| - at
    {
      if HASH_SIZE * i > |hash| {
        AddressedStop(p.value, Tokens(buf[at..]), hash, payload, i);
        JoinedStop(sent);
        return OutOfRange;
      }
      AddressedStep(p.value, Tokens(buf[at..]), hash, payload, i);
      var d := Delivery(p.value, Piece(hash, HASH_SIZE * i) + payload);
      left := Tokens(buf[at..]);
      JoinedTwice(sent, d, Addressed(left, hash, payload, i + 1));
      sent := sent + [d];
      p, at := StrTok(buf, at);
      i := i + 1;
    }
    NoneAddressed(hash, payload, i);
    JoinedSent(sent, []);
    assert sent + [] == sent;
    return Sent(sent);
  }

  lemma JoinedNone(rest: Sending)
    ensures Joined([], rest) == rest
  {}

  lemma JoinedStop(sent: seq<Delivery>)
    ensures Joined(sent, OutOfRange) == OutOfRange
  {}

  lemma JoinedSent(sent: seq<Delivery>, rest: seq<Delivery>)
    ensures Joined(sent, Sent(rest)) == Sent(sent + rest)
  {}

  // ---------------------------------------------------------------------------
  // Taking apart what was put together
  // ---------------------------------------------------------------------------

  predicate Token(w: string) { w != "" && ' ' !in w }

  function Names(r: seq<Subscription>): (n: seq<string>)
    ensures |n| == |r| && forall i | 0 <= i < |r| :: n[i] == r[i].name
  {
    if r == [] then [] else Names(r[..|r| - 1]) + [r[|r| - 1].name]
  }

  lemma {:induction false} TokensOfNames(r: seq<Subscription>)
    requires forall s | s in r :: Token(s.name)
    ensures Tokens(NameList(r)) == Names(r)
  {
    if r != [] {
      var k := |r| - 1;
      var a, w := NameList(r[..k]), r[k].name;
      TokensOfNames(r[..k]);
      assert r[k] in r && Token(w);
      PiecesJoin({' '}, w, "", "");
      OnePiece({' '}, w, "");
      assert "" + w == w && w + " " + "" == w + " ";
      assert Tokens(w + " ") == [w];
      if k == 0 {
        assert a + (w + " ") == w + " ";
      } else {
        var b := NameList(r[..k][..k - 1]) + r[k - 1].name;
        assert a == b + " " && a == b + " " + "";
        PiecesJoin({' '}, b, "", "");
        PiecesJoin({' '}, b, w + " ", "");
        assert a + (w + " ") == b + " " + (w + " ");
      }
    }
  }

  lemma {:induction false} CStringWhole(s: string)
    ensures CString(s) == s <==> NUL !in s
    ensures NUL !in CString(s)
  {
    if s != "" { CStringWhole(s[1..]); }
  }

  lemma {:induction false} NamesWithin(r: seq<Subscription>, c: char)
    requires c != ' '
    ensures c in NameList(r) <==> exists s | s in r :: c in s.name
  {
    if r != [] {
      var k := |r| - 1;
      NamesWithin(r[..k], c);
      assert r == r[..k] + [r[k]];
    }
  }

  /** Every recipient with its own hash and the payload. */
  function Deliveries(r: seq<Subscription>, payload: string): (d: seq<Delivery>)
    ensures |d| == |r| && forall i | 0 <= i < |r| :: d[i] == Delivery(r[i].name, r[i].hash + payload)
  {
    if r == [] then [] else Deliveries(r[..|r| - 1], payload) + [Delivery(r[|r| - 1].name, r[|r| - 1].hash + payload)]
  }

  lemma {:induction false} HashAt(r: seq<Subscription>, i: nat)
    requires i <= |r| && forall s | s in r :: |s.hash| == HASH_SIZE
    ensures |HashList(r)| == HASH_SIZE * |r|
    ensures i < |r| ==> HashList(r)[HASH_SIZE * i..HASH_SIZE * i + HASH_SIZE] == r[i].hash
  {
    if r != [] {
      var k := |r| - 1;
      assert r[k] in r;
      HashAt(r[..k], if i < k then i else k);
      if i == k {
        assert HashList(r)[HASH_SIZE * k..] == r[k].hash;
      } else if i < k {
        var from, to := HASH_SIZE * i, HASH_SIZE * i + HASH_SIZE;
        assert HashList(r)[from..to] == HashList(r[..k])[from..to];
      }
    }
  }

  lemma {:induction false} AddressedPairs(r: seq<Subscription>, payload: string, i: nat)
    requires i <= |r| && forall s | s in r :: |s.hash| == HASH_SIZE
    ensures Addressed(Names(r)[i..], HashList(r), payload, i) == Sent(Deliveries(r, payload)[i..])
    decreases |r| - i
  {
    hide *;
    if i == |r| {
      NoneAddressed(HashList(r), payload, i);
      assert Names(r)[i..] == [] && Deliveries(r, payload)[i..] == [];
    } else {
      HashAt(r, i);
      PieceAt(r, i);
      AddressedPairs(r, payload, i + 1);
      assert Names(r)[i..] == [r[i].name] + Names(r)[i + 1..];
      AddressedStep(r[i].name, Names(r)[i + 1..], HashList(r), payload, i);
      JoinedSent([Deliveries(r, payload)[i]], Deliveries(r, payload)[i + 1..]);
      assert Deliveries(r, payload)[i..] == [Deliveries(r, payload)[i]] + Deliveries(r, payload)[i + 1..];
    }
  }

  lemma PieceAt(r: seq<Subscription>, i: nat)
    requires i < |r| && |HashList(r)| == HASH_SIZE * |r|
    ensures HASH_SIZE * i + HASH_SIZE <= |HashList(r)|
    ensures Piece(HashList(r), HASH_SIZE * i) == HashList(r)[HASH_SIZE * i..HASH_SIZE * i + HASH_SIZE]
  {
    hide HashList;
  }

  lemma NoneAddressed(hash: string, payload: string, i: nat)
    ensures Addressed([], hash, payload, i) == Sent([])
  {}

  lemma AddressedStep(w: string, rest: seq<string>, hash: string, payload: string, i: nat)
    requires HASH_SIZE * i <= |hash|
    ensures Addressed([w] + rest, hash, payload, i) ==
      Joined([Delivery(w, Piece(hash, HASH_SIZE * i) + payload)], Addressed(rest, hash, payload, i + 1))
  {
    assert ([w] + rest)[1..] == rest;
    hide Piece;
  }

  function Joined(sent: seq<Delivery>, rest: Sending): Sending {
    if rest.OutOfRange? then OutOfRange else Sent(sent + rest.all)
  }

  lemma JoinedTwice(a: seq<Delivery>, d: Delivery, rest: Sending)
    ensures Joined(a, Joined([d], rest)) == Joined(a + [d], rest)
  {
    if rest.Sent? { assert a + ([d] + rest.all) == a + [d] + rest.all; }
  }

  lemma AddressedStop(w: string, rest: seq<string>, hash: string, payload: string, i: nat)
    requires HASH_SIZE * i > |hash|
    ensures Addressed([w] + rest, hash, payload, i) == OutOfRange
  {}

  lemma {:induction false} AddressedTo(tokens: seq<string>, hash: string, payload: string, i: nat)
    requires Addressed(tokens, hash, payload, i).Sent?
    ensures var d := Addressed(tokens, hash, payload, i).all;
      |d| == |tokens| && forall j | 0 <= j < |d| :: d[j].to == tokens[j]
  {
    if tokens != [] { AddressedTo(tokens[1..], hash, payload, i + 1); }
  }

  /** Every recipient gets its own hash, exactly if no name holds a NUL. */
  lemma ForwardExact(r: seq<Subscription>, payload: string)
    requires forall s | s in r :: Token(s.name) && |s.hash| == HASH_SIZE
    ensures Addressed(Tokens(CString(NameList(r))), HashList(r), payload, 0) == Sent(Deliveries(r, payload)) <==>
      forall s | s in r :: NUL !in s.name
  {
    var l := NameList(r);
    CStringWhole(l);
    NamesWithin(r, NUL);
    if NUL !in l {
      TokensOfNames(r);
      AddressedPairs(r, payload, 0);
      assert Names(r)[0..] == Names(r) && Deliveries(r, payload)[0..] == Deliveries(r, payload);
    } else if Addressed(Tokens(CString(l)), HashList(r), payload, 0) == Sent(Deliveries(r, payload)) {
      SentClean(r, CString(l), HashList(r), payload);
    }
  }

  /** Names that come out of a string without NULs have none. */
  lemma SentClean(r: seq<Subscription>, s: string, hash: string, payload: string)
    requires NUL !in s && Addressed(Tokens(s), hash, payload, 0) == Sent(Deliveries(r, payload))
    ensures forall x | x in r :: NUL !in x.name
  {
    AddressedTo(Tokens(s), hash, payload, 0);
    PiecesWithin({' '}, s, "");
    hide Addressed, Pieces;
    forall x | x in r ensures NUL !in x.name {
      var i :| 0 <= i < |r| && r[i] == x;
      assert Deliveries(r, payload)[i].to == Tokens(s)[i];
      assert Tokens(s)[i] in Tokens(s);
    }
  }
}
