/** The broker around the router: it keeps the payloads, forwards what the
  * router notifies, and over a whole run answers every publication exactly. */
module Broker {
  import opened Subscriptions
  import opened Containment
  import opened Completeness
  import opened Census
  import opened Matching
  import opened Wire
  import opened Headers
  import opened Forwarding
  import opened Router
  import opened Pruning
  import opened FilterReady
  import opened FilterExact
  import opened PreFilter

  /** What matters of a stored subscription. */
  datatype Stored = Stored(name: string, hash: string, data: seq<Entry>)

  function StoredOf(s: Subscription): Stored { Stored(s.name, s.hash, s.data) }

  /** The subscriptions among the messages, in order. A message is a header and a payload. */
  function SubsAfter(c: Secrets, msgs: seq<(string, string)>): seq<Stored> {
    if msgs == [] then []
    else SubsAfter(c, msgs[..|msgs| - 1]) + SubOf(c, msgs[|msgs| - 1].0)
  }

  function SubOf(c: Secrets, header: string): seq<Stored> {
    var r := Read(c, header);
    if r.NewSub? then [Stored(r.header.name, c.sha(header), r.header.data)] else []
  }

  /** Who is to be told of e: every subscription that accepts it. */
  function Recipients(l: seq<Stored>, e: Event, payload: string): seq<Delivery> {
    if l == [] then []
    else
      var s := l[|l| - 1];
      Recipients(l[..|l| - 1], e, payload) + (if Accepts(s.data, e) then [Delivery(s.name, s.hash + payload)] else [])
  }

  /** Exactly these deliveries are made, in some order. */
  predicate Right(answer: Sending, ds: seq<Delivery>) { answer.Sent? && multiset(answer.all) == multiset(ds) }

  /** No name is cut off by a NUL. */
  predicate Clean(ds: seq<Delivery>) { forall d | d in ds :: NUL !in d.to }

  /** The answer to one message when these subscriptions are stored. There is none
    * if reading the header is undefined. */
  predicate Told(c: Secrets, stored: seq<Stored>, header: string, payload: string, answer: Option<Sending>) {
    var r := Read(c, header);
    if r.Bad? then answer.None?
    else if r.NewPub? then
      var ds := Recipients(stored, r.event, payload);
      answer.Some? && (Right(answer.value, ds) <==> Clean(ds))
    else answer == Some(Sent([]))
  }

  /** The answer to one message after the messages before it. */
  predicate Answered(c: Secrets, before: seq<(string, string)>, msg: (string, string), answer: Sending) {
    Told(c, SubsAfter(c, before), msg.0, msg.1, Some(answer))
  }

  /** If the header is a subscription, it is one of the family. */
  ghost predicate Orderly(c: Secrets, U: iset<seq<Entry>>, header: string) {
    var r := Read(c, header);
    r.NewSub? ==> r.header.data in U
  }

  lemma {:induction false} ScanStored(l: seq<Subscription>, e: Event, payload: string, f: Subscription -> Delivery)
    requires forall s :: f(s) == Delivery(s.name, s.hash + payload)
    ensures Mapped(f, Scan(l, e)) == Recipients(Mapped(StoredOf, l), e, payload)
  {
    if l != [] {
      var k := |l| - 1;
      var x := l[k];
      ScanStored(l[..k], e, payload, f);
      assert Mapped(StoredOf, l)[..k] == Mapped(StoredOf, l[..k]);
      assert Scan(l, e) == Scan(l[..k], e) + (if Accepts(x.data, e) then [x] else []);
      hide Scan, Recipients, Accepts;
      assert Mapped(f, Scan(l[..k], e) + [x]) == Mapped(f, Scan(l[..k], e)) + [f(x)];
      assert Scan(l[..k], e) + [] == Scan(l[..k], e);
    }
  }

  /** In whatever order the router reports, the right recipients are told. */
  lemma ReportAnswers(l: seq<Subscription>, e: Event, payload: string, r: seq<Subscription>)
    requires multiset(r) == multiset(Scan(l, e))
    ensures multiset(Deliveries(r, payload)) == multiset(Recipients(Mapped(StoredOf, l), e, payload))
  {
    var f := (s: Subscription) => Delivery(s.name, s.hash + payload);
    ScanStored(l, e, payload, f);
    hide Scan, Recipients, Accepts;
    MapSame(f, r, Scan(l, e));
    assert Deliveries(r, payload) == Mapped(f, r);
  }

  lemma OrderlyMeans(c: Secrets, U: iset<seq<Entry>>, header: string)
    ensures Orderly(c, U, header) <==> (Read(c, header).NewSub? ==> Read(c, header).header.data in U)
  {
    hide Read;
  }

  /** What a step stores, in terms of values. */
  lemma LiveStored(c: Secrets, header: string, l: seq<Subscription>, m: seq<Subscription>)
    requires Read(c, header).NewSub? ==>
      |m| == |l| + 1 && m[..|l|] == l &&
      var s := m[|l|];
      SubHeader(s.name, s.data) == Read(c, header).header && s.hash == c.sha(header)
    requires !Read(c, header).NewSub? ==> m == l
    ensures Mapped(StoredOf, m) == Mapped(StoredOf, l) + SubOf(c, header)
  {
    hide Read, Mapped;
    if Read(c, header).NewSub? {
      assert m == l + [m[|l|]];
      assert Mapped(StoredOf, m)[..|l|] == Mapped(StoredOf, l);
    }
  }

  /** The forwarder reads each of the two strings as a C string once more; what it
    * then sends is right exactly if none of the names holds a NUL. */
  lemma PairsForwarded(r: seq<Subscription>, payload: string, answer: Sending, ds: seq<Delivery>)
    requires Wellnamed(r) && multiset(Deliveries(r, payload)) == multiset(ds)
    requires answer == Addressed(Tokens(CString(CString(NameList(r)))), HashList(r), payload, 0)
    ensures Right(answer, ds) <==> Clean(ds)
  {
    hide *;
    WellnamedMeans(r);
    CStringWhole(NameList(r));
    CStringWhole(CString(NameList(r)));
    ForwardExact(r, payload);
    var s := CString(NameList(r));
    SentNulFree(s, HashList(r), payload);
    PairsNamed(r, payload, ds);
    RightIf(answer, Deliveries(r, payload), ds);
  }

  /** What is sent goes to names without NULs. */
  lemma SentNulFree(s: string, hash: string, payload: string)
    requires NUL !in s
    ensures var a := Addressed(Tokens(s), hash, payload, 0); a.Sent? ==> Clean(a.all)
  {
    hide Addressed, Pieces;
    var a := Addressed(Tokens(s), hash, payload, 0);
    if a.Sent? {
      AddressedTo(Tokens(s), hash, payload, 0);
      PiecesWithin({' '}, s, "");
      forall d | d in a.all ensures NUL !in d.to {
        var j :| 0 <= j < |a.all| && a.all[j] == d;
        assert Tokens(s)[j] in Tokens(s);
      }
    }
  }

  lemma PairsNamed(r: seq<Subscription>, payload: string, ds: seq<Delivery>)
    requires multiset(Deliveries(r, payload)) == multiset(ds)
    ensures Clean(ds) <==> forall s | s in r :: NUL !in s.name
  {
    var p := Deliveries(r, payload);
    SameClean(p, ds);
    hide Deliveries;
    if Clean(p) {
      forall s | s in r ensures NUL !in s.name {
        var i :| 0 <= i < |r| && r[i] == s;
        assert p[i] in p;
      }
    }
  }

  lemma RightIf(answer: Sending, p: seq<Delivery>, ds: seq<Delivery>)
    requires multiset(p) == multiset(ds)
    requires answer.Sent? ==> Clean(answer.all)
    requires Clean(ds) ==> answer == Sent(p)
    ensures Right(answer, ds) <==> Clean(ds)
  {
    if Right(answer, ds) { SameClean(answer.all, ds); }
  }

  lemma SameClean(a: seq<Delivery>, b: seq<Delivery>)
    requires multiset(a) == multiset(b)
    ensures Clean(a) <==> Clean(b)
  {
    forall d | d in b ensures d in a { assert d in multiset(b); }
    forall d | d in a ensures d in b { assert d in multiset(a); }
  }

  lemma WellnamedMeans(r: seq<Subscription>)
    ensures Wellnamed(r) ==> forall s | s in r :: Token(s.name) && |s.hash| == HASH_SIZE
  {
    hide Token;
  }

  class PubSubCo {
    const enclave: Enclave
    var dataTable: map<string, string>

    constructor (enclave: Enclave)
      ensures this.enclave == enclave && dataTable == map[]
    {
      this.enclave, dataTable := enclave, map[];
    }

    /** What the enclave's graph holds, in the order it came. */
    ghost function Held(): seq<Stored>
      reads this, enclave, enclave.g
    {
      Mapped(StoredOf, enclave.Live())
    }

    /** PubSubCo::enclave_matching, with the notification it causes. No answer means
      * that reading the header is undefined. */
    method EnclaveMatching(header: string, payload: string) returns (answer: Option<Sending>)
      requires enclave.Valid() && Orderly(enclave.c, enclave.U, header)
      modifies this, enclave, enclave.g, enclave.Nodes()
      ensures enclave.Valid() && dataTable == old(dataTable)[header := payload]
      ensures fresh(enclave.Nodes() - old(enclave.Nodes()))
      ensures if old(enclave.g) == null then enclave.g != null ==> fresh(enclave.g) else enclave.g == old(enclave.g)
      ensures Held() == old(Held()) + SubOf(enclave.c, header)
      ensures Told(enclave.c, old(Held()), header, payload, answer)
    {
      hide *;
      HeldMeans();
      ghost var l := enclave.Live();
      dataTable := dataTable[header := payload];
      OrderlyMeans(enclave.c, enclave.U, header);
      var out;
      ghost var r;
      out, r := enclave.AddEvent(header);
      enclave.ValidParts();
      HeldMeans();
      LiveStored(enclave.c, header, l, enclave.Live());
      answer := Notified(out, dataTable, enclave.c, header, payload, l, r);
    }

    lemma HeldMeans()
      ensures Held() == Mapped(StoredOf, enclave.Live())
    {}
  }

  /** What is sent for the outcome of a step. */
  method Notified(out: Outcome, dataTable: map<string, string>, ghost c: Secrets, ghost header: string,
                  ghost payload: string,
                  ghost l: seq<Subscription>, ghost r: seq<Subscription>) returns (answer: Option<Sending>)
    requires header in dataTable && dataTable[header] == payload
    requires Read(c, header) == Bad ==> out == Undefined
    requires Read(c, header) == Nothing || Read(c, header).NewSub? ==> out == Silent
    requires Read(c, header).NewPub? ==> multiset(r) == multiset(Scan(l, Read(c, header).event)) && Wellnamed(r)
    requires Read(c, header).NewPub? ==>
      out == if r == [] then Silent else Notify(Notice(CString(NameList(r)), header, HashList(r)))
    ensures Told(c, Mapped(StoredOf, l), header, payload, answer)
  {
    hide *;
    ghost var stored := Mapped(StoredOf, l);
    match out {
      case Undefined =>
        answer := None;
        ToldNothing(c, stored, header, payload);
      case Silent =>
        answer := Some(Sent([]));
        if Read(c, header).NewPub? {
          NothingForwarded(payload);
          ReportTold(c, header, payload, l, r, Sent([]));
        } else {
          ToldSome(c, stored, header, payload, Sent([]));
        }
      case Notify(n) =>
        var sent := Forward(n.matchlist, dataTable[n.header], n.hashlist);
        answer := Some(sent);
        ReportTold(c, header, payload, l, r, sent);
    }
  }

  lemma ReportTold(c: Secrets, header: string, payload: string, l: seq<Subscription>, r: seq<Subscription>,
                   sent: Sending)
    requires Read(c, header).NewPub? && multiset(r) == multiset(Scan(l, Read(c, header).event)) && Wellnamed(r)
    requires sent == Addressed(Tokens(CString(CString(NameList(r)))), HashList(r), payload, 0)
    ensures Told(c, Mapped(StoredOf, l), header, payload, Some(sent))
  {
    hide *;
    var e, stored := Read(c, header).event, Mapped(StoredOf, l);
    ReportAnswers(l, e, payload, r);
    PairsForwarded(r, payload, sent, Recipients(stored, e, payload));
    ToldSome(c, stored, header, payload, sent);
  }

  lemma ToldNothing(c: Secrets, stored: seq<Stored>, header: string, payload: string)
    requires Read(c, header).Bad?
    ensures Told(c, stored, header, payload, None)
  {
    hide Read;
  }

  lemma ToldSome(c: Secrets, stored: seq<Stored>, header: string, payload: string, sent: Sending)
    requires !Read(c, header).Bad? && (!Read(c, header).NewPub? ==> sent == Sent([]))
    requires Read(c, header).NewPub? ==>
      var ds := Recipients(stored, Read(c, header).event, payload);
      Right(sent, ds) <==> Clean(ds)
    ensures Told(c, stored, header, payload, Some(sent))
  {
    hide Read, Recipients, Right, Clean;
  }

  lemma NothingForwarded(payload: string)
    ensures Addressed(Tokens(CString(CString(NameList([])))), HashList([]), payload, 0) == Sent([])
  {}

  /** Whole runs, up to the first header whose reading is undefined: whatever the
    * interleaving, every publication is answered with exactly the subscriptions
    * before it that accept it, each with its own hash, if and only if no name
    * among those holds a NUL. */
  method Run(p: PubSubCo, msgs: seq<(string, string)>) returns (answers: seq<Sending>)
    requires p.enclave.Valid() && p.enclave.g == null
    requires forall i | 0 <= i < |msgs| :: Orderly(p.enclave.c, p.enclave.U, msgs[i].0)
    modifies p, p.enclave
    ensures |answers| <= |msgs|
    ensures forall i | 0 <= i < |answers| :: Answered(p.enclave.c, msgs[..i], msgs[i], answers[i])
    ensures |answers| < |msgs| ==> Read(p.enclave.c, msgs[|answers|].0).Bad?
    ensures p.Held() == SubsAfter(p.enclave.c, msgs[..|answers|])
  {
    hide *;
    answers := [];
    RunStart(p);
    var i := 0;
    while i < |msgs|
      invariant i == |answers| <= |msgs| && p.enclave.Valid()
      invariant (p.enclave.g != null ==> fresh(p.enclave.g)) && forall n | n in p.enclave.Nodes() :: fresh(n)
      invariant p.Held() == SubsAfter(p.enclave.c, msgs[..i])
      invariant forall j | 0 <= j < i :: Answered(p.enclave.c, msgs[..j], msgs[j], answers[j])
    {
      ghost var N := p.enclave.Nodes();
      label L:
      var answer := p.EnclaveMatching(msgs[i].0, msgs[i].1);
      ToldMeans(p.enclave.c, SubsAfter(p.enclave.c, msgs[..i]), msgs[i].0, msgs[i].1, answer);
      if answer.None? {
        BadStores(p.enclave.c, msgs[i].0);
        assert SubsAfter(p.enclave.c, msgs[..i]) + [] == SubsAfter(p.enclave.c, msgs[..i]);
        return;
      }
      assert forall n | n in p.enclave.Nodes() - N :: fresh@L(n);
      assert forall n | n in p.enclave.Nodes() - N :: fresh(n);
      assert forall n | n in p.enclave.Nodes() :: n in N || n in p.enclave.Nodes() - N;
      StepAnswered(p.enclave.c, msgs, i, answer.value);
      answers := answers + [answer.value];
      i := i + 1;
    }
  }

  lemma BadStores(c: Secrets, header: string)
    requires Read(c, header).Bad?
    ensures SubOf(c, header) == []
  {
    hide Read;
  }

  lemma RunStart(p: PubSubCo)
    requires p.enclave.g == null
    ensures p.Held() == [] && p.enclave.Nodes() == {}
    ensures forall c, msgs: seq<(string, string)> :: SubsAfter(c, msgs[..0]) == []
  {}

  lemma ToldMeans(c: Secrets, stored: seq<Stored>, header: string, payload: string, answer: Option<Sending>)
    requires Told(c, stored, header, payload, answer)
    ensures answer.None? <==> Read(c, header).Bad?
  {
    hide Read, Recipients;
  }

  lemma StepAnswered(c: Secrets, msgs: seq<(string, string)>, i: nat, answer: Sending)
    requires i < |msgs| && Told(c, SubsAfter(c, msgs[..i]), msgs[i].0, msgs[i].1, Some(answer))
    ensures Answered(c, msgs[..i], msgs[i], answer)
    ensures SubsAfter(c, msgs[..i + 1]) == SubsAfter(c, msgs[..i]) + SubOf(c, msgs[i].0)
  {
    assert msgs[..i + 1][..i] == msgs[..i];
    hide Read, Told;
  }

  // ---------------------------------------------------------------------------
  // Runs of library clients
  // ---------------------------------------------------------------------------

  /** What clients of the library can subscribe to. */
  ghost const CLIENT: iset<seq<Entry>> := iset d | FromClient(d)

  lemma {:induction false} OnePredicate(d: seq<Entry>, k: Key)
    requires forall i, j | 0 <= i < j < |d| :: d[i].key != d[j].key
    ensures |Range(d, k)| <= 1
  {
    if d != [] {
      OnePredicate(d[1..], k);
      if d[0].key == k { RangeNone(d[1..], k); }
    }
  }

  /** With one predicate per key containment is a sound preorder, unconditionally. */
  lemma ClientsWellBehaved()
    ensures WellBehaved(CLIENT) && Preorder(CLIENT) && SoundOn(CLIENT)
    ensures forall d :: d in CLIENT ==> NoPair(d)
  {
    forall d | d in CLIENT ensures NoPair(d) && forall t | t in d :: t.pred.op.Supported() {
      ClientNoPair(d);
    }
    NoPairWellBehaved(CLIENT);
    WellBehavedSoundPreorder(CLIENT);
  }

  lemma ClientNoPair(d: seq<Entry>)
    requires FromClient(d)
    ensures NoPair(d) && forall t | t in d :: t.pred.op.Supported()
  {
    hide Word;
    forall i, j | 0 <= i < j < |d| ensures d[i].key != d[j].key { KeyLessTotal(d[i].key, d[j].key); }
    forall k ensures !(HasOp(Range(d, k), Ge) && HasOp(Range(d, k), Le)) {
      OnePredicate(d, k);
      OneOp(Range(d, k));
    }
  }

  /** Of client subscriptions a contained one is always found to be contained, over the reals. */
  lemma ClientsExact(a: seq<Entry>, b: seq<Entry>)
    requires b in CLIENT
    ensures Includes(a, b) <==> forall e: RealEvent :: AcceptsReal(b, e) ==> AcceptsReal(a, e)
  {
    ClientNoPair(b);
    assert Single(b) by {
      forall i, j | 0 <= i < j < |b| ensures b[i].key != b[j].key { KeyLessTotal(b[i].key, b[j].key); }
      forall k ensures |Range(b, k)| <= 1 { OnePredicate(b, k); }
    }
    IncludesExact(a, b);
  }

  lemma OneOp(ps: seq<Predicate>)
    requires |ps| <= 1
    ensures !(HasOp(ps, Ge) && HasOp(ps, Le))
  {
    if ps != [] { assert ps[1..] == []; }
  }

  datatype Request = Subscribe(id: string, data: seq<Entry>) | Publish(attributes: seq<(Key, Value)>)

  predicate Proper(q: Request) {
    match q
    case Subscribe(id, d) => Word(id) && NUL !in id && FromClient(d)
    case Publish(e) => Attributes(e)
  }

  function Text(q: Request): string
    requires Proper(q)
  {
    match q
    case Subscribe(id, d) => SubText(id, d)
    case Publish(e) => PubText(e)
  }

  /** Every header a client prints is orderly, whatever it is encrypted to, and says what the client meant. */
  lemma ClientOrderly(c: Secrets, q: Request, header: string)
    requires Proper(q) && header != "" && c.decrypt(header) == Some(Text(q))
    ensures Orderly(c, CLIENT, header) && Read(c, header) == Meant(q)
  {
    hide *;
    ReadMeans(c, header);
    ProperMeans(q);
    match q {
      case Subscribe(id, d) =>
        SubRoundTrip(id, d);
        InFamily(d);
      case Publish(e) =>
        PubRoundTrip(e);
    }
    OrderlyMeans(c, CLIENT, header);
  }

  function Meant(q: Request): Reading {
    match q
    case Subscribe(id, d) => if d == [] then Nothing else NewSub(SubHeader(id, d))
    case Publish(e) => if e == [] then Nothing else NewPub(EventOf(e))
  }

  lemma ProperMeans(q: Request)
    requires Proper(q)
    ensures match q
      case Subscribe(id, d) =>
        Word(id) && NUL !in id && FromClient(d) && Text(q) == SubText(id, d) &&
        Meant(q) == if d == [] then Nothing else NewSub(SubHeader(id, d))
      case Publish(e) =>
        Attributes(e) && Text(q) == PubText(e) && Meant(q) == if e == [] then Nothing else NewPub(EventOf(e))
  {}

  lemma InFamily(d: seq<Entry>)
    requires FromClient(d)
    ensures d in CLIENT
  {}

  /** A request and the header it is encrypted to. */
  predicate Sends(c: Secrets, q: Request, header: string) {
    Proper(q) && header != "" && c.decrypt(header) == Some(Text(q))
  }

  /** What has been subscribed to by the requests so far. */
  function Subscribed(c: Secrets, requests: seq<Request>, msgs: seq<(string, string)>): seq<Stored>
    requires |requests| == |msgs|
  {
    if msgs == [] then []
    else
      var k := |msgs| - 1;
      Subscribed(c, requests[..k], msgs[..k]) +
      match requests[k]
      case Subscribe(id, d) => if d == [] then [] else [Stored(id, c.sha(msgs[k].0), d)]
      case Publish(_) => []
  }

  /** Runs of library clients: every publication is answered with exactly the
    * subscriptions requested before it that accept it, each with its own hash. */
  method RunClients(p: PubSubCo, requests: seq<Request>, msgs: seq<(string, string)>) returns (answers: seq<Sending>)
    requires p.enclave.Valid() && p.enclave.g == null && p.enclave.U == CLIENT
    requires |requests| == |msgs| && forall i | 0 <= i < |msgs| :: Sends(p.enclave.c, requests[i], msgs[i].0)
    modifies p, p.enclave
    ensures |answers| == |msgs|
    ensures forall i | 0 <= i < |msgs| ::
      Satisfied(p.enclave.c, requests[..i], msgs[..i], requests[i], msgs[i].1, answers[i])
  {
    hide *;
    ghost var c := p.enclave.c;
    forall i | 0 <= i < |msgs| ensures Orderly(c, CLIENT, msgs[i].0) && !Read(c, msgs[i].0).Bad? {
      SendsMeans(c, requests[i], msgs[i].0);
    }
    answers := Run(p, msgs);
    forall i | 0 <= i < |msgs| ensures Satisfied(c, requests[..i], msgs[..i], requests[i], msgs[i].1, answers[i]) {
      SubscribedStored(c, requests[..i], msgs[..i]);
      SendsMeans(c, requests[i], msgs[i].0);
      AnsweredSatisfied(c, requests[..i], msgs[..i], requests[i], msgs[i], answers[i]);
    }
  }

  predicate Satisfied(c: Secrets, requests: seq<Request>, msgs: seq<(string, string)>, q: Request, payload: string,
                      answer: Sending)
    requires |requests| == |msgs|
  {
    if q.Publish? && q.attributes != []
    then Right(answer, Recipients(Subscribed(c, requests, msgs), EventOf(q.attributes), payload))
    else answer == Sent([])
  }

  lemma SendsMeans(c: Secrets, q: Request, header: string)
    requires Sends(c, q, header)
    ensures Orderly(c, CLIENT, header) && Read(c, header) == Meant(q) && !Read(c, header).Bad?
    ensures q.Subscribe? ==> NUL !in q.id
  {
    ClientOrderly(c, q, header);
    hide Read, Text, Orderly;
  }

  lemma {:induction false} SubscribedStored(c: Secrets, requests: seq<Request>, msgs: seq<(string, string)>)
    requires |requests| == |msgs| && forall i | 0 <= i < |msgs| :: Sends(c, requests[i], msgs[i].0)
    ensures Subscribed(c, requests, msgs) == SubsAfter(c, msgs)
    ensures forall s | s in SubsAfter(c, msgs) :: NUL !in s.name
  {
    if msgs != [] {
      var k := |msgs| - 1;
      SubscribedStored(c, requests[..k], msgs[..k]);
      SendsMeans(c, requests[k], msgs[k].0);
      hide Read, Sends, Orderly;
    }
  }

  lemma {:induction false} RecipientsClean(l: seq<Stored>, e: Event, payload: string)
    requires forall s | s in l :: NUL !in s.name
    ensures Clean(Recipients(l, e, payload))
  {
    hide Accepts;
    if l != [] { RecipientsClean(l[..|l| - 1], e, payload); }
  }

  lemma AnsweredSatisfied(c: Secrets, requests: seq<Request>, msgs: seq<(string, string)>, q: Request,
                          msg: (string, string), answer: Sending)
    requires |requests| == |msgs| && Subscribed(c, requests, msgs) == SubsAfter(c, msgs) && Read(c, msg.0) == Meant(q)
    requires (forall s | s in SubsAfter(c, msgs) :: NUL !in s.name) && Answered(c, msgs, msg, answer)
    ensures Satisfied(c, requests, msgs, q, msg.1, answer)
  {
    hide Read, Recipients, Right, Clean, SubsAfter, Subscribed;
    if Meant(q).NewPub? { RecipientsClean(SubsAfter(c, msgs), Meant(q).event, msg.1); }
  }

  /** Over a graph of client subscriptions the pre-filter, in every variant, reports
    * as many subscriptions as the scan, and as many of every class. */
  method FilterClients(filter: PreFilter, e: Event) returns (r: seq<Subscription>)
    requires filter.Valid() && filter.graph != null && filter.U == CLIENT && Level(filter.graph, filter.subs, filter.U)
    modifies filter`pubs
    ensures filter.Valid() && |r| == |Scan(filter.graph.live, e)|
    ensures forall x | x in filter.graph.live :: |Class(r, x)| == |Class(Scan(filter.graph.live, e), x)|
  {
    hide *;
    ClientsWellBehaved();
    var matched, tested;
    ghost var log, bits, tried;
    r, matched, tested, log, bits, tried := filter.Match(e);
    WholeReported(filter.graph.live, e, Positive(filter.variant), r);
  }

  lemma WholeReported(l: seq<Subscription>, e: Event, np: bool, r: seq<Subscription>)
    requires ClassesReported(l, e, np, r) && AllWhole(l, e, np)
    ensures forall x | x in l :: |Class(r, x)| == |Class(Scan(l, e), x)|
  {
    hide Class, Scan, Whole, Reports;
  }
}
