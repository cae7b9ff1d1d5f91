/** The router: one step per header, and whole runs. */
module Router {
  import opened Subscriptions
  import opened Containment
  import opened Diagram
  import opened Classes
  import opened Matching
  import opened Graph
  import opened Wire
  import opened Headers
  import opened Forwarding

  /** The cryptography is not part of this model: decryption may fail, and a hash is any 32 bytes. */
  datatype Secrets = Secrets(decrypt: string -> Option<string>, sha: string -> string)

  ghost predicate HashesOk(c: Secrets) { forall s :: |c.sha(s)| == 32 }

  /** What a header says. Bad: reading it is undefined. */
  datatype Reading = Nothing | NewSub(header: SubHeader) | NewPub(event: Event) | Bad

  function Read(c: Secrets, buff: string): Reading {
    if buff == "" || c.decrypt(buff).None? then Nothing
    else
      var v := Words(c.decrypt(buff).value);
      match ParsedSub(v)
      case Done(h) => NewSub(h)
      case Malformed => Bad
      case Rejected =>
        match ParsedPub(v)
        case Done(e) => NewPub(e)
        case Malformed => Bad
        case Rejected => Nothing
  }

  datatype Notice = Notice(matchlist: string, header: string, hashlist: string)

  datatype Outcome = Silent | Notify(notice: Notice) | Undefined

  /** A name read from a header is a word: the forwarder can tell it from its neighbours. */
  lemma NameIsToken(c: Secrets, buff: string)
    requires Read(c, buff).NewSub?
    ensures Token(Read(c, buff).header.name)
  {
    var s := c.decrypt(buff).value;
    var v := Words(s);
    WordsAreWords(s, "");
    hide SubFrom, PubFrom, Words;
    assert v[1] in v;
    assert Word(v[1]) && Blank(' ');
  }

  ghost predicate Wellnamed(l: seq<Subscription>) {
    forall s | s in l :: Token(s.name) && |s.hash| == HASH_SIZE
  }

  /** The graph of a router that only adds. */
  ghost predicate AddOnly(g: Graph)
    reads g, g.N
  {
    g.Valid() && Pristine(g.N, g.live) && Wellnamed(g.live)
  }

  lemma AddOnlyMeans(g: Graph)
    ensures AddOnly(g) <==> g.Valid() && Pristine(g.N, g.live) && Wellnamed(g.live)
  {}

  lemma NewGraph(g: Graph)
    requires g.Valid() && g.live == [] && g.N == {}
    ensures AddOnly(g)
  {}

  method StoreSub(g: Graph, h: SubHeader, hash: string)
    requires AddOnly(g) && h.data in g.U && Sorted(h.data) && Token(h.name) && |hash| == HASH_SIZE
    modifies g`nextId, g`size, g`N, g`live, g`nodes, g`roots, g`leaves
    modifies g.N`last, g.N`containers, g.N`containees, g.N`overriden, g.N`count
    ensures AddOnly(g) && fresh(g.N - old(g.N))
    ensures |g.live| == |old(g.live)| + 1 && g.live[..|old(g.live)|] == old(g.live)
    ensures var s := g.live[|old(g.live)|]; s.name == h.name && s.data == h.data && s.hash == hash
  {
    hide *;
    AddOnlyMeans(g);
    ghost var l := g.live;
    var s := new Subscription(h.name, hash, h.data);
    g.Add(s);
    WellnamedMore(l, s);
    AddOnlyMeans(g);
  }

  lemma WellnamedMore(l: seq<Subscription>, s: Subscription)
    requires Wellnamed(l) && Token(s.name) && |s.hash| == HASH_SIZE
    ensures Wellnamed(l + [s])
  {
    hide Token;
  }

  method Publish(g: Graph, e: Event, buff: string) returns (out: Outcome, ghost r: seq<Subscription>)
    requires AddOnly(g) && SoundOn(g.U)
    modifies g`nextId, g`pubs, g.N`last, g.N`tests, g.N`matches
    ensures AddOnly(g) && g.pubs == old(g.pubs) + 1
    ensures multiset(r) == multiset(Scan(g.live, e)) && Wellnamed(r)
    ensures out == if r == [] then Silent else Notify(Notice(CString(NameList(r)), buff, HashList(r)))
  {
    hide *;
    AddOnlyMeans(g);
    g.ValidParts();
    PristineFaithful(g.N, g.U, g.live);
    var matches, matched, tested;
    ghost var hits;
    matches, matched, tested, hits := g.Match(e, []);
    r := matches;
    assert matches[0..] == matches;
    WellnamedReport(g.live, e, r);
    AddOnlyMeans(g);
    if |matches| > 0 {
      var matchlist, hashlist := BuildLists(matches);
      out := Notify(Notice(CString(matchlist), buff, hashlist));
    } else {
      out := Silent;
    }
  }

  lemma WellnamedReport(l: seq<Subscription>, e: Event, r: seq<Subscription>)
    requires Wellnamed(l) && multiset(r) == multiset(Scan(l, e))
    ensures Wellnamed(r)
  {
    ScanWithin(l, e);
    hide Token, Scan;
    forall s | s in r ensures s in l { assert s in multiset(r); }
  }

  lemma {:induction false} ScanWithin(l: seq<Subscription>, e: Event)
    ensures forall s | s in Scan(l, e) :: s in l
  {
    if l != [] { ScanWithin(l[..|l| - 1], e); }
  }

  /** The two parsers, and what they make of a header together. */
  lemma ReadMeans(c: Secrets, buff: string)
    ensures buff == "" ==> Read(c, buff) == Nothing
    ensures buff != "" && c.decrypt(buff).None? ==> Read(c, buff) == Nothing
    ensures buff != "" && c.decrypt(buff).Some? ==>
      var v := Words(c.decrypt(buff).value); var sub, pub := ParsedSub(v), ParsedPub(v);
      Read(c, buff) ==
        (if sub.Malformed? || pub.Malformed? then Bad
         else if sub.Done? then NewSub(sub.value)
         else if pub.Done? then NewPub(pub.value)
         else Nothing)
  {
    if buff != "" && c.decrypt(buff).Some? {
      var v := Words(c.decrypt(buff).value);
      hide SubFrom, PubFrom, Words;
      if |v| >= 3 && v[2] == "S" { assert v[2] != "P"; }
    }
  }

  class Enclave {
    const c: Secrets
    /** The family the subscriptions come from. */
    ghost const U: iset<seq<Entry>>
    var g: Graph?
    var matchCount: nat

    ghost predicate Valid()
      reads this, g, Nodes()
    {
      HashesOk(c) && Preorder(U) && SoundOn(U) && (g != null ==> g.U == U && AddOnly(g))
    }

    ghost function Nodes(): set<Node>
      reads this, g
    {
      if g == null then {} else g.N
    }

    /** The subscriptions stored so far, in the order they came. */
    ghost function Live(): seq<Subscription>
      reads this, g
    {
      if g == null then [] else g.live
    }

    constructor (c: Secrets, ghost U: iset<seq<Entry>>)
      requires HashesOk(c) && Preorder(U) && SoundOn(U)
      ensures Valid() && this.c == c && this.U == U && Live() == [] && g == null && matchCount == 0
    {
      this.c, this.U := c, U;
      g, matchCount := null, 0;
    }

    /** ecall_add_evt */
    method AddEvent(buff: string) returns (out: Outcome, ghost r: seq<Subscription>)
      requires Valid()
      requires Read(c, buff).NewSub? ==> Read(c, buff).header.data in U
      modifies this, g, Nodes()
      ensures Valid() && fresh(Nodes() - old(Nodes()))
      ensures if old(g) == null then g != null ==> fresh(g) else g == old(g)
      ensures Read(c, buff) == Nothing ==> out == Silent && Live() == old(Live())
      ensures Read(c, buff) == Bad ==> out == Undefined && Live() == old(Live())
      ensures Read(c, buff).NewSub? ==>
        out == Silent && |Live()| == |old(Live())| + 1 && Live()[..|old(Live())|] == old(Live()) &&
        var s := Live()[|old(Live())|]; SubHeader(s.name, s.data) == Read(c, buff).header && s.hash == c.sha(buff)
      ensures Read(c, buff).NewPub? ==>
        Live() == old(Live()) && multiset(r) == multiset(Scan(Live(), Read(c, buff).event)) && Wellnamed(r)
      ensures Read(c, buff).NewPub? ==>
        out == if r == [] then Silent else Notify(Notice(CString(NameList(r)), buff, HashList(r)))
      ensures matchCount == old(matchCount) + if out.Notify? then 1 else 0
      ensures g != null ==> g.pubs == old(if g == null then 0 else g.pubs) + if Read(c, buff).NewPub? then 1 else 0
    {
      hide *;
      ReadMeans(c, buff);
      ValidParts();
      r := [];
      if buff == "" { return Silent, r; }
      var hash := c.sha(buff);
      var plain := c.decrypt(buff);
      if plain.None? { return Silent, r; }
      if g == null {
        g := new Graph(U);
        NewGraph(g);
      }
      var v := Split(plain.value);
      var sub := ParseSub(v);
      var pub := ParsePub(v);
      if sub.Malformed? || pub.Malformed? {
        ValidParts();
        return Undefined, r;
      }
      out := Silent;
      if sub.Done? {
        NameIsToken(c, buff);
        StoreSub(g, sub.value, hash);
      } else if pub.Done? {
        out, r := Publish(g, pub.value, buff);
        if out.Notify? { matchCount := matchCount + 1; }
      }
      ValidParts();
    }

    lemma ValidParts()
      ensures Valid() <==>
        && HashesOk(c) && Preorder(U) && SoundOn(U)
        && (g != null ==> g.U == U && AddOnly(g))
      ensures Live() == if g == null then [] else g.live
      ensures Nodes() == if g == null then {} else g.N
      ensures HashesOk(c) ==> forall s :: |c.sha(s)| == HASH_SIZE
    {}
  }
}
