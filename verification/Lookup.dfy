/**
 The iterative lookups of the DHT example: a shortlist of contacts grows from whatever the
 queried peers answer, closest first, until nobody on it is left to ask. Peers may answer
 anything, differently each time, or not at all.
 */
module Lookup {
  import opened Bits
  import opened Util
  import opened Net

  const ID_SPACE: nat := 0x1_0000_0000_0000_0000

  /** A 64-bit key. */
  type NodeId = n: nat | n < ID_SPACE

  const K := 4

  datatype Contact = Contact(id: NodeId, addr: SocketAddr)

  /** A contact named in a reply; its address is text, and this is what it parses to. */
  datatype Named = Named(id: NodeId, addr: Option<SocketAddr>)

  /** What came of a query: nothing usable, more contacts, or the value itself. */
  datatype Answer<V> = Silent | Names(contacts: seq<Named>) | Value(value: V)

  datatype Query<V> = Query(contact: Contact, answer: Answer<V>)

  /** A change other tasks make to the routing table: a peer connects, or disconnects. */
  datatype Change = Join(contact: Contact) | Leave(id: NodeId)

  /** A query as the network decides it, with what other tasks do to the routing table until the
      answer is there, and then before each contact of the answer is taken in. */
  datatype Round<V> = Round(before: seq<Change>, answer: Answer<V>, between: nat -> seq<Change>)

  /** A distance between ids. All the lookups need of it is that it tells ids apart. */
  type Metric = (NodeId, NodeId) -> nat

  ghost predicate Separates(d: Metric) {
    forall a: NodeId, b: NodeId, t: NodeId :: d(a, t) == d(b, t) ==> a == b
  }

  function Distance(a: NodeId, b: NodeId): nat { Xor(a, b) }

  lemma DistanceTells(a: NodeId, b: NodeId, t: NodeId)
    ensures Distance(a, t) == Distance(b, t) ==> a == b
  {
    if Distance(a, t) == Distance(b, t) {
      XorCancels(a, b, t);
    }
  }

  lemma XorSeparates()
    ensures Separates(Distance)
  {
    var d: Metric := Distance;
    forall a: NodeId, b: NodeId, t: NodeId
      ensures d(a, t) == d(b, t) ==> a == b
    {
      DistanceTells(a, b, t);
    }
  }

  // ---- contact lists ----------------------------------------------------------------------

  function Ids(cs: seq<Contact>): set<NodeId> {
    set c | c in cs :: c.id
  }

  predicate Distinct(cs: seq<Contact>) {
    forall i, j :: 0 <= i < j < |cs| ==> cs[i].id != cs[j].id
  }

  /** Strictly nearer to `target` from one element to any later one. */
  predicate Ordered(cs: seq<Contact>, d: Metric, target: NodeId) {
    forall i, j :: 0 <= i < j < |cs| ==> d(cs[i].id, target) < d(cs[j].id, target)
  }

  predicate Sorted(cs: seq<Contact>, d: Metric, target: NodeId) {
    forall i, j :: 0 <= i < j < |cs| ==> d(cs[i].id, target) <= d(cs[j].id, target)
  }

  function Inserted(c: Contact, cs: seq<Contact>, d: Metric, target: NodeId): seq<Contact> {
    if cs == [] || d(c.id, target) <= d(cs[0].id, target) then [c] + cs
    else [cs[0]] + Inserted(c, cs[1..], d, target)
  }

  /** The stable sort by distance. */
  function SortedBy(cs: seq<Contact>, d: Metric, target: NodeId): seq<Contact> {
    if cs == [] then [] else Inserted(cs[0], SortedBy(cs[1..], d, target), d, target)
  }

  lemma {:induction false} InsertedKeeps(c: Contact, cs: seq<Contact>, d: Metric, target: NodeId)
    ensures multiset(Inserted(c, cs, d, target)) == multiset{c} + multiset(cs)
    ensures forall x :: x in Inserted(c, cs, d, target) ==> x == c || x in cs
  {
    if !(cs == [] || d(c.id, target) <= d(cs[0].id, target)) {
      InsertedKeeps(c, cs[1..], d, target);
      assert cs == [cs[0]] + cs[1..];
    }
  }

  lemma SortedCons(c: Contact, cs: seq<Contact>, d: Metric, target: NodeId)
    requires Sorted(cs, d, target) && forall x :: x in cs ==> d(c.id, target) <= d(x.id, target)
    ensures Sorted([c] + cs, d, target)
  {
  }

  lemma {:induction false} InsertedSorts(c: Contact, cs: seq<Contact>, d: Metric, target: NodeId)
    requires Sorted(cs, d, target)
    ensures Sorted(Inserted(c, cs, d, target), d, target)
  {
    if cs == [] || d(c.id, target) <= d(cs[0].id, target) {
      SortedCons(c, cs, d, target);
    } else {
      InsertedSorts(c, cs[1..], d, target);
      InsertedKeeps(c, cs[1..], d, target);
      SortedCons(cs[0], Inserted(c, cs[1..], d, target), d, target);
    }
  }

  lemma {:induction false} SortedBySorts(cs: seq<Contact>, d: Metric, target: NodeId)
    ensures multiset(SortedBy(cs, d, target)) == multiset(cs)
    ensures Sorted(SortedBy(cs, d, target), d, target)
  {
    if cs != [] {
      SortedBySorts(cs[1..], d, target);
      InsertedKeeps(cs[0], SortedBy(cs[1..], d, target), d, target);
      InsertedSorts(cs[0], SortedBy(cs[1..], d, target), d, target);
      assert cs == [cs[0]] + cs[1..];
    }
  }

  /** Rearranging keeps the ids and keeps them distinct. */
  lemma SameContacts(a: seq<Contact>, b: seq<Contact>)
    requires multiset(a) == multiset(b)
    ensures Ids(a) == Ids(b) && |a| == |b|
    ensures forall c :: c in a <==> c in b
  {
    assert |a| == |multiset(a)| == |multiset(b)| == |b|;
    assert forall c :: c in a <==> c in multiset(a);
    assert forall c :: c in b <==> c in multiset(b);
  }

  lemma IdsCons(c: Contact, cs: seq<Contact>)
    ensures Ids([c] + cs) == {c.id} + Ids(cs)
    ensures Distinct([c] + cs) <==> c.id !in Ids(cs) && Distinct(cs)
  {
    var all := [c] + cs;
    assert all[0] == c && forall i :: 0 <= i < |cs| ==> all[i + 1] == cs[i];
    assert forall x :: x in all <==> x == c || x in cs;
  }

  /** A list's ids are distinct exactly when there are as many of them as elements. */
  lemma {:induction false} DistinctByCount(cs: seq<Contact>)
    ensures |Ids(cs)| <= |cs|
    ensures Distinct(cs) <==> |Ids(cs)| == |cs|
  {
    if cs != [] {
      DistinctByCount(cs[1..]);
      IdsCons(cs[0], cs[1..]);
      assert cs == [cs[0]] + cs[1..];
      if cs[0].id in Ids(cs[1..]) {
        assert Ids(cs) == Ids(cs[1..]);
      }
    }
  }

  /** XOR distance to a point separates ids, so sorting distinct contacts orders them strictly. */
  lemma SortedByOrders(cs: seq<Contact>, d: Metric, target: NodeId)
    requires Distinct(cs) && Separates(d)
    ensures var sorted := SortedBy(cs, d, target);
      Ordered(sorted, d, target) && Distinct(sorted) && Ids(sorted) == Ids(cs) && |sorted| == |cs|
  {
    var sorted := SortedBy(cs, d, target);
    SortedBySorts(cs, d, target);
    SameContacts(sorted, cs);
    DistinctByCount(cs);
    DistinctByCount(sorted);
  }

  // ---- taking in contacts -----------------------------------------------------------------

  /** The list with one more contact, unless its id is the node's own or already there. */
  function Joined(self: NodeId, cs: seq<Contact>, c: Contact): seq<Contact> {
    if c.id == self || c.id in Ids(cs) then cs else cs + [c]
  }

  function AllJoined(self: NodeId, cs: seq<Contact>, joining: seq<Contact>): seq<Contact>
    decreases |joining|
  {
    if joining == [] then cs else Joined(self, AllJoined(self, cs, joining[..|joining| - 1]), joining[|joining| - 1])
  }

  /** The contacts of a reply whose addresses parse. */
  function Parsed(named: seq<Named>): seq<Contact>
    decreases |named|
  {
    if named == [] then [] else
      var last := named[|named| - 1];
      var rest := Parsed(named[..|named| - 1]);
      if last.addr.Some? then rest + [Contact(last.id, last.addr.value)] else rest
  }

  /** A list of distinct contacts, none of them the node itself. */
  predicate Contacts(self: NodeId, cs: seq<Contact>) {
    Distinct(cs) && self !in Ids(cs)
  }

  lemma JoinedOne(self: NodeId, cs: seq<Contact>, c: Contact)
    requires Contacts(self, cs)
    ensures Contacts(self, Joined(self, cs, c))
    ensures Ids(Joined(self, cs, c)) == Ids(cs) + ({c.id} - {self})
    ensures cs <= Joined(self, cs, c)
  {
    if c.id != self && c.id !in Ids(cs) {
      var all := cs + [c];
      assert forall x :: x in all <==> x in cs || x == c;
      assert forall i :: 0 <= i < |cs| ==> cs[i] in cs && cs[i].id in Ids(cs);
    }
  }

  /** Nobody is lost, nobody is listed twice, and exactly the ids that were named come in. */
  lemma {:induction false} AllJoinedIds(self: NodeId, cs: seq<Contact>, joining: seq<Contact>)
    requires Contacts(self, cs)
    ensures Contacts(self, AllJoined(self, cs, joining))
    ensures Ids(AllJoined(self, cs, joining)) == Ids(cs) + (Ids(joining) - {self})
    ensures cs <= AllJoined(self, cs, joining)
    decreases |joining|
  {
    if joining != [] {
      var init, last := joining[..|joining| - 1], joining[|joining| - 1];
      AllJoinedIds(self, cs, init);
      JoinedOne(self, AllJoined(self, cs, init), last);
      assert joining == init + [last];
      assert forall x :: x in joining <==> x in init || x == last;
      assert Ids(joining) == Ids(init) + {last.id};
    }
  }

  // ---- the nearest contacts ---------------------------------------------------------------

  function Truncated(cs: seq<Contact>, k: nat): seq<Contact> {
    if k < |cs| then cs[..k] else cs
  }

  function Nearest(cs: seq<Contact>, d: Metric, target: NodeId, k: nat): seq<Contact> {
    Truncated(SortedBy(cs, d, target), k)
  }

  lemma TruncatedNearest(cs: seq<Contact>, d: Metric, target: NodeId, k: nat)
    requires Ordered(cs, d, target)
    ensures var r := Truncated(cs, k);
      && Ordered(r, d, target)
      && (forall c :: c in r ==> c in cs)
      && (forall c, x :: c in cs && c !in r && x in r ==> d(x.id, target) < d(c.id, target))
  {
  }

  /** The `k` nearest are in strict order of distance, are as many as there can be, and are
      nearer than every contact left out. */
  lemma NearestAreNearest(self: NodeId, cs: seq<Contact>, d: Metric, target: NodeId, k: nat)
    requires Contacts(self, cs) && Separates(d)
    ensures var r := Nearest(cs, d, target, k);
      && Contacts(self, r) && Ordered(r, d, target)
      && |r| == (if k < |cs| then k else |cs|)
      && (forall c :: c in r ==> c in cs)
      && (forall c, x :: c in cs && c !in r && x in r ==> d(x.id, target) < d(c.id, target))
  {
    var sorted := SortedBy(cs, d, target);
    SortedBySorts(cs, d, target);
    SortedByOrders(cs, d, target);
    SameContacts(sorted, cs);
    TruncatedNearest(sorted, d, target, k);
  }

  // ---- what a lookup has asked ------------------------------------------------------------

  function AnswerIds<V>(self: NodeId, a: Answer<V>): set<NodeId> {
    if a.Names? then Ids(Parsed(a.contacts)) - {self} else {}
  }

  /** The ids a lookup knows: those it started from and those it was told of. */
  function Known<V>(self: NodeId, initial: set<NodeId>, trace: seq<Query<V>>): set<NodeId>
    decreases |trace|
  {
    if trace == [] then initial else
      Known(self, initial, trace[..|trace| - 1]) + AnswerIds(self, trace[|trace| - 1].answer)
  }

  function Asked<V>(trace: seq<Query<V>>): set<NodeId>
    decreases |trace|
  {
    if trace == [] then {} else Asked(trace[..|trace| - 1]) + {trace[|trace| - 1].contact.id}
  }

  /** `id` is known, has not been asked, and nobody like that is nearer. */
  ghost predicate IsNext<V>(self: NodeId, d: Metric, target: NodeId, initial: set<NodeId>, trace: seq<Query<V>>,
                            id: NodeId) {
    && id in Known(self, initial, trace) && id !in Asked(trace)
    && forall x :: x in Known(self, initial, trace) && x !in Asked(trace) ==> d(id, target) <= d(x, target)
  }

  /** Every query went to the nearest known id not asked before. */
  ghost predicate Greedy<V>(self: NodeId, d: Metric, target: NodeId, initial: set<NodeId>, trace: seq<Query<V>>)
    decreases |trace|
  {
    trace == [] || (
      var before := trace[..|trace| - 1];
      Greedy(self, d, target, initial, before)
          && IsNext(self, d, target, initial, before, trace[|trace| - 1].contact.id))
  }

  lemma Snoc<V>(self: NodeId, d: Metric, target: NodeId, initial: set<NodeId>, trace: seq<Query<V>>, q: Query<V>)
    ensures Known(self, initial, trace + [q]) == Known(self, initial, trace) + AnswerIds(self, q.answer)
    ensures Asked(trace + [q]) == Asked(trace) + {q.contact.id}
    ensures Greedy(self, d, target, initial, trace + [q])
      <==> Greedy(self, d, target, initial, trace) && IsNext(self, d, target, initial, trace, q.contact.id)
  {
    assert (trace + [q])[..|trace|] == trace;
  }

  /** The first contact of an ordered shortlist that was not asked is the next one. */
  lemma FirstIsNext<V>(self: NodeId, d: Metric, target: NodeId, initial: set<NodeId>, trace: seq<Query<V>>,
                       shortlist: seq<Contact>, i: nat)
    requires Ids(shortlist) == Known(self, initial, trace) && Ordered(shortlist, d, target) && i < |shortlist|
    requires forall j :: 0 <= j < i ==> shortlist[j].id in Asked(trace)
    requires shortlist[i].id !in Asked(trace)
    ensures IsNext(self, d, target, initial, trace, shortlist[i].id)
  {
    forall x | x in Known(self, initial, trace) && x !in Asked(trace)
      ensures d(shortlist[i].id, target) <= d(x, target)
    {
      var c :| c in shortlist && c.id == x;
      var j :| 0 <= j < |shortlist| && shortlist[j] == c;
      assert j >= i;
    }
    assert shortlist[i] in shortlist;
  }

  /** Where a lookup stands: the shortlist holds exactly the known ids, `queried` those asked. */
  ghost predicate Searching<V>(self: NodeId, d: Metric, target: NodeId, initial: set<NodeId>, trace: seq<Query<V>>,
                               queried: set<NodeId>, shortlist: seq<Contact>) {
    && Contacts(self, shortlist) && Ids(shortlist) == Known(self, initial, trace)
    && queried == Asked(trace) && Greedy(self, d, target, initial, trace)
    && (forall i :: 0 <= i < |trace| ==> trace[i].contact in shortlist)
  }

  lemma SortingKeeps<V>(self: NodeId, d: Metric, target: NodeId, initial: set<NodeId>, trace: seq<Query<V>>,
                        queried: set<NodeId>, shortlist: seq<Contact>)
    requires Searching(self, d, target, initial, trace, queried, shortlist) && Separates(d)
    ensures Searching(self, d, target, initial, trace, queried, SortedBy(shortlist, d, target))
    ensures Ordered(SortedBy(shortlist, d, target), d, target)
  {
    SortedBySorts(shortlist, d, target);
    SortedByOrders(shortlist, d, target);
    SameContacts(SortedBy(shortlist, d, target), shortlist);
  }

  function Absorbed<V>(self: NodeId, shortlist: seq<Contact>, a: Answer<V>): seq<Contact> {
    if a.Names? then AllJoined(self, shortlist, Parsed(a.contacts)) else shortlist
  }

  lemma AbsorbedKeeps<V>(self: NodeId, shortlist: seq<Contact>, a: Answer<V>)
    requires Contacts(self, shortlist)
    ensures var r := Absorbed(self, shortlist, a);
      Contacts(self, r) && Ids(r) == Ids(shortlist) + AnswerIds(self, a) && forall c :: c in shortlist ==> c in r
  {
    if a.Names? {
      AllJoinedIds(self, shortlist, Parsed(a.contacts));
    }
  }

  lemma QueryKeeps<V>(self: NodeId, d: Metric, target: NodeId, initial: set<NodeId>, trace: seq<Query<V>>,
                      queried: set<NodeId>, shortlist: seq<Contact>, i: nat, a: Answer<V>)
    requires Searching(self, d, target, initial, trace, queried, shortlist) && Ordered(shortlist, d, target)
    requires i < |shortlist| && shortlist[i].id !in queried
    requires forall j :: 0 <= j < i ==> shortlist[j].id in queried
    ensures Searching(self, d, target, initial, trace + [Query(shortlist[i], a)], queried + {shortlist[i].id},
                      Absorbed(self, shortlist, a))
  {
    FirstIsNext(self, d, target, initial, trace, shortlist, i);
    Snoc(self, d, target, initial, trace, Query(shortlist[i], a));
    AbsorbedKeeps(self, shortlist, a);
  }

  /** When nobody on the shortlist is left to ask, everyone known has been asked. */
  lemma {:induction false} AskedAreKnown<V>(self: NodeId, d: Metric, target: NodeId, initial: set<NodeId>,
                                            trace: seq<Query<V>>)
    requires Greedy(self, d, target, initial, trace)
    ensures Asked(trace) <= Known(self, initial, trace)
    decreases |trace|
  {
    if trace != [] {
      AskedAreKnown(self, d, target, initial, trace[..|trace| - 1]);
    }
  }

  /** The answers in the trace are the ones the network gave. */
  ghost predicate Answered<V>(net: (nat, Contact) -> Round<V>, trace: seq<Query<V>>) {
    forall i :: 0 <= i < |trace| ==> trace[i].answer == net(i, trace[i].contact).answer
  }

  // ---- the table's history -----------------------------------------------------------------

  /** The list without the contact of that id. */
  function Without(cs: seq<Contact>, id: NodeId): seq<Contact> {
    if cs == [] then [] else
      var rest := Without(cs[..|cs| - 1], id);
      if cs[|cs| - 1].id == id then rest else rest + [cs[|cs| - 1]]
  }

  function Changed(self: NodeId, cs: seq<Contact>, e: Change): seq<Contact> {
    match e
    case Join(c) => Joined(self, cs, c)
    case Leave(id) => Without(cs, id)
  }

  function Replayed(self: NodeId, cs: seq<Contact>, log: seq<Change>): seq<Contact>
    decreases |log|
  {
    if log == [] then cs else Changed(self, Replayed(self, cs, log[..|log| - 1]), log[|log| - 1])
  }

  /** The changes while an answer is taken in: each named contact joins after whatever comes between. */
  function Merged(named: seq<Named>, between: nat -> seq<Change>): seq<Change>
    decreases |named|
  {
    if named == [] then [] else
      var n := |named| - 1;
      Merged(named[..n], between) + between(n)
      + if named[n].addr.Some? then [Join(Contact(named[n].id, named[n].addr.value))] else []
  }

  function RoundLog<V>(round: Round<V>): seq<Change> {
    round.before + if round.answer.Names? then Merged(round.answer.contacts, round.between) else []
  }

  /** All changes to the table during a lookup, in order. */
  function History<V>(net: (nat, Contact) -> Round<V>, trace: seq<Query<V>>): seq<Change>
    decreases |trace|
  {
    if trace == [] then [] else
      var n := |trace| - 1;
      History(net, trace[..n]) + RoundLog(net(n, trace[n].contact))
  }

  lemma HistorySnoc<V>(net: (nat, Contact) -> Round<V>, trace: seq<Query<V>>, q: Query<V>)
    ensures History(net, trace + [q]) == History(net, trace) + RoundLog(net(|trace|, q.contact))
  {
    assert (trace + [q])[..|trace|] == trace;
  }

  lemma {:induction false} ReplayedConcat(self: NodeId, cs: seq<Contact>, a: seq<Change>, b: seq<Change>)
    ensures Replayed(self, cs, a + b) == Replayed(self, Replayed(self, cs, a), b)
    decreases |b|
  {
    if b == [] {
      assert a + b == a;
    } else {
      var n := |b| - 1;
      assert (a + b)[..|a| + n] == a + b[..n];
      ReplayedConcat(self, cs, a, b[..n]);
    }
  }

  lemma {:induction false} WithoutIds(self: NodeId, cs: seq<Contact>, id: NodeId)
    requires Contacts(self, cs)
    ensures Contacts(self, Without(cs, id)) && Ids(Without(cs, id)) == Ids(cs) - {id}
  {
    if cs != [] {
      var init, last := cs[..|cs| - 1], cs[|cs| - 1];
      assert cs == init + [last];
      assert forall x :: x in cs <==> x in init || x == last;
      assert Ids(cs) == Ids(init) + {last.id};
      assert last.id !in Ids(init);
      WithoutIds(self, init, id);
      if last.id != id {
        JoinedOne(self, Without(init, id), last);
      }
    }
  }

  lemma ChangedIds(self: NodeId, cs: seq<Contact>, e: Change)
    requires Contacts(self, cs)
    ensures Contacts(self, Changed(self, cs, e))
    ensures Ids(Changed(self, cs, e))
         == match e case Join(c) => Ids(cs) + ({c.id} - {self}) case Leave(id) => Ids(cs) - {id}
  {
    match e
    case Join(c) => JoinedOne(self, cs, c);
    case Leave(id) => WithoutIds(self, cs, id);
  }

  lemma JoinIsReplayed(self: NodeId, cs: seq<Contact>, c: Contact)
    ensures Replayed(self, cs, [Join(c)]) == Joined(self, cs, c)
  {
    assert [Join(c)][..0] == [];
  }

  /** From position `i` on, nobody with that id leaves. */
  predicate StaysFrom(log: seq<Change>, i: nat, id: NodeId)
    requires i <= |log|
  {
    forall j :: i <= j < |log| ==> log[j] != Leave(id)
  }

  predicate JoinsAt(log: seq<Change>, i: nat, id: NodeId)
    requires i < |log|
  {
    log[i].Join? && log[i].contact.id == id && StaysFrom(log, i, id)
  }

  /** Whom a table holds after a history: who was there or joined, and has not left since; the
      node itself never. */
  ghost predicate Present(self: NodeId, before: set<NodeId>, log: seq<Change>, id: NodeId) {
    || (id in before && StaysFrom(log, 0, id))
    || (id != self && exists i :: 0 <= i < |log| && JoinsAt(log, i, id))
  }

  lemma PresentSnoc(self: NodeId, before: set<NodeId>, log: seq<Change>, e: Change, id: NodeId)
    ensures Present(self, before, log + [e], id)
      <==> e != Leave(id) && (Present(self, before, log, id) || (id != self && e.Join? && e.contact.id == id))
  {
    var all := log + [e];
    assert forall i :: 0 <= i <= |log| ==> (StaysFrom(all, i, id) <==> StaysFrom(log, i, id) && e != Leave(id)) by {
      forall i | 0 <= i <= |log|
        ensures StaysFrom(all, i, id) <==> StaysFrom(log, i, id) && e != Leave(id)
      {
        assert all[|log|] == e && forall j :: 0 <= j < |log| ==> all[j] == log[j];
      }
    }
    assert forall i :: 0 <= i < |log| ==> (JoinsAt(all, i, id) <==> JoinsAt(log, i, id) && e != Leave(id));
    assert JoinsAt(all, |log|, id) <==> e.Join? && e.contact.id == id;
  }

  /** The table after a history holds exactly those; it stays a list of distinct other nodes. */
  lemma {:induction false} ReplayedIds(self: NodeId, cs: seq<Contact>, log: seq<Change>)
    requires Contacts(self, cs)
    ensures Contacts(self, Replayed(self, cs, log))
    ensures forall id :: id in Ids(Replayed(self, cs, log)) <==> Present(self, Ids(cs), log, id)
    decreases |log|
  {
    if log != [] {
      var init, e := log[..|log| - 1], log[|log| - 1];
      assert log == init + [e];
      ReplayedIds(self, cs, init);
      ChangedIds(self, Replayed(self, cs, init), e);
      forall id: NodeId
        ensures id in Ids(Replayed(self, cs, log)) <==> Present(self, Ids(cs), log, id)
      {
        PresentSnoc(self, Ids(cs), init, e, id);
        assert id in Ids(Replayed(self, cs, init)) <==> Present(self, Ids(cs), init, id);
      }
    }
  }

  predicate NoValue<V>(trace: seq<Query<V>>) {
    forall i :: 0 <= i < |trace| ==> !trace[i].answer.Value?
  }

  lemma AnsweredMore<V>(net: (nat, Contact) -> Round<V>, trace: seq<Query<V>>, contact: Contact)
    requires Answered(net, trace)
    ensures var a := net(|trace|, contact).answer;
      Answered(net, trace + [Query(contact, a)])
          && (NoValue(trace) && !a.Value? ==> NoValue(trace + [Query(contact, a)]))
  {
  }

  // ---- the node ---------------------------------------------------------------------------

  predicate IsKey(n: int) { 0 <= n < ID_SPACE }

  /** All ids there are. */
  ghost function Space(): set<NodeId> {
    set n: NodeId | 0 <= n < ID_SPACE && IsKey(n)
  }

  method FirstUnqueried(shortlist: seq<Contact>, queried: set<NodeId>) returns (i: nat)
    ensures i <= |shortlist|
    ensures forall j :: 0 <= j < i ==> shortlist[j].id in queried
    ensures i < |shortlist| ==> shortlist[i].id !in queried
  {
    i := 0;
    while i < |shortlist| && shortlist[i].id in queried
      invariant 0 <= i <= |shortlist|
      invariant forall j :: 0 <= j < i ==> shortlist[j].id in queried
    {
      i := i + 1;
    }
  }

  class DhtNode {
    const id: NodeId
    const distance: Metric
    var table: seq<Contact>

    constructor (id: NodeId)
      ensures Valid() && this.id == id && distance == Distance && table == []
    {
      this.id, distance, table := id, Distance, [];
      new;
      XorSeparates();
    }

    ghost predicate Valid()
      reads this
    {
      Contacts(id, table) && Separates(distance)
    }

    method AddContact(c: Contact)
      requires Valid()
      modifies this
      ensures Valid() && table == Joined(id, old(table), c)
    {
      JoinedOne(id, table, c);
      if c.id == id {
        return;
      }
      var i := 0;
      while i < |table|
        invariant 0 <= i <= |table|
        invariant forall j :: 0 <= j < i ==> table[j].id != c.id
        invariant table == old(table)
      {
        if table[i].id == c.id {
          assert table[i] in table;
          return;
        }
        i := i + 1;
      }
      table := table + [c];
    }

    method ClosestContacts(target: NodeId, k: nat) returns (r: seq<Contact>)
      requires Valid()
      ensures r == Nearest(table, distance, target, k)
      ensures Contacts(id, r) && Ordered(r, distance, target)
    {
      r := Truncated(SortedBy(table, distance, target), k);
      NearestAreNearest(id, table, distance, target, k);
    }

    /** `on_disconnect`: the peer leaves the table. */
    method RemoveContact(peer: NodeId)
      requires Valid()
      modifies this
      ensures Valid() && table == Without(old(table), peer)
    {
      WithoutIds(id, table, peer);
      var kept := [];
      var i := 0;
      while i < |table|
        invariant 0 <= i <= |table| && table == old(table)
        invariant kept == Without(table[..i], peer)
      {
        assert table[..i + 1][..i] == table[..i];
        if table[i].id != peer {
          kept := kept + [table[i]];
        }
        i := i + 1;
      }
      assert table[..i] == table;
      table := kept;
    }

    /** What other tasks do to the table at an await. */
    method Others(changes: seq<Change>)
      requires Valid()
      modifies this
      ensures Valid() && table == Replayed(id, old(table), changes)
    {
      var i := 0;
      while i < |changes|
        invariant 0 <= i <= |changes|
        invariant Valid() && table == Replayed(id, old(table), changes[..i])
      {
        assert changes[..i + 1][..i] == changes[..i];
        match changes[i] {
          case Join(c) => AddContact(c);
          case Leave(peer) => RemoveContact(peer);
        }
        i := i + 1;
      }
      assert changes[..i] == changes;
    }

    /** `absorb_contacts`: it takes the table's lock once per contact. */
    method AbsorbContacts(named: seq<Named>, between: nat -> seq<Change>,
                          shortlist: seq<Contact>) returns (r: seq<Contact>)
      requires Valid() && Contacts(id, shortlist)
      modifies this
      ensures Valid() && table == Replayed(id, old(table), Merged(named, between))
      ensures r == AllJoined(id, shortlist, Parsed(named))
    {
      r := shortlist;
      var i := 0;
      while i < |named|
        invariant 0 <= i <= |named|
        invariant Valid() && table == Replayed(id, old(table), Merged(named[..i], between))
        invariant r == AllJoined(id, shortlist, Parsed(named[..i]))
      {
        assert named[..i + 1][..i] == named[..i];
        ghost var log := Merged(named[..i], between);
        Others(between(i));
        ReplayedConcat(id, old(table), log, between(i));
        var n := named[i];
        if n.addr.Some? {
          var c := Contact(n.id, n.addr.value);
          ReplayedConcat(id, old(table), log + between(i), [Join(c)]);
          JoinIsReplayed(id, table, c);
          assert Parsed(named[..i + 1]) == Parsed(named[..i]) + [c];
          assert (Parsed(named[..i]) + [c])[..|Parsed(named[..i])|] == Parsed(named[..i]);
          AddContact(c);
          if n.id != id && n.id !in Ids(r) {
            r := r + [c];
          }
        } else {
          assert Merged(named[..i + 1], between) == log + between(i);
        }
        i := i + 1;
      }
      assert named[..i] == named;
    }

    /** One round: the query, and what it and the other tasks bring to the table and the shortlist. */
    method AskOne<V>(shortlist: seq<Contact>, round: Round<V>) returns (r: seq<Contact>)
      requires Valid() && Contacts(id, shortlist)
      modifies this
      ensures Valid() && table == Replayed(id, old(table), RoundLog(round))
      ensures r == Absorbed(id, shortlist, round.answer)
    {
      Others(round.before);
      r := shortlist;
      if round.answer.Names? {
        ReplayedConcat(id, old(table), round.before, Merged(round.answer.contacts, round.between));
        r := AbsorbContacts(round.answer.contacts, round.between, shortlist);
      } else {
        assert RoundLog(round) == round.before;
      }
    }

    /** `iterative_find_node`. It ends, having asked every id it ever learned of exactly once and
        nearest first, and returns the nearest contacts among all of them. */
    method IterativeFindNode<V>(target: NodeId, net: (nat, Contact) -> Round<V>)
      returns (r: seq<Contact>, ghost full: seq<Contact>, ghost trace: seq<Query<V>>)
      requires Valid()
      modifies this
      ensures Valid()
      ensures var initial := Ids(Nearest(old(table), distance, target, K));
        && Searching(id, distance, target, initial, trace, Ids(full), full)
        && Answered(net, trace)
      ensures table == Replayed(id, old(table), History(net, trace))
      ensures forall x :: x in Ids(table) <==> Present(id, Ids(old(table)), History(net, trace), x)
      ensures r == Nearest(full, distance, target, K)
    {
      var shortlist := ClosestContacts(target, K);
      ghost var initial := Ids(shortlist);
      var queried: set<NodeId> := {};
      trace := [];
      var round, done := 0, false;
      while !done
        invariant Valid() && round == |trace|
        invariant Searching(id, distance, target, initial, trace, queried, shortlist)
        invariant Answered(net, trace)
        invariant table == Replayed(id, old(table), History(net, trace))
        invariant done ==> forall c :: c in shortlist ==> c.id in queried
        decreases Space() - queried, !done
      {
        SortingKeeps(id, distance, target, initial, trace, queried, shortlist);
        shortlist := SortedBy(shortlist, distance, target);
        var i := FirstUnqueried(shortlist, queried);
        if i == |shortlist| {
          done := true;
        } else {
          var contact := shortlist[i];
          assert IsKey(contact.id);
          var reply := net(round, contact);
          QueryKeeps(id, distance, target, initial, trace, queried, shortlist, i, reply.answer);
          AnsweredMore(net, trace, contact);
          HistorySnoc(net, trace, Query(contact, reply.answer));
          ReplayedConcat(id, old(table), History(net, trace), RoundLog(reply));
          queried := queried + {contact.id};
          trace := trace + [Query(contact, reply.answer)];
          shortlist := AskOne(shortlist, reply);
          round := round + 1;
        }
      }
      full := shortlist;
      ReplayedIds(id, old(table), History(net, trace));
      assert queried == Ids(full) by { AskedAreKnown(id, distance, target, initial, trace); }
      r := Truncated(SortedBy(shortlist, distance, target), K);
    }

    /** `find_value`. It returns a value exactly when the last peer it asked had one; otherwise it
        has asked every id it ever learned of, and none had the value. */
    method FindValue<V>(key: NodeId, net: (nat, Contact) -> Round<V>)
      returns (r: Option<V>, ghost full: seq<Contact>, ghost trace: seq<Query<V>>)
      requires Valid()
      modifies this
      ensures Valid()
      ensures var initial := Ids(Nearest(old(table), distance, key, K));
        && Searching(id, distance, key, initial, trace, Asked(trace), full)
        && Answered(net, trace)
      ensures table == Replayed(id, old(table), History(net, trace))
      ensures forall x :: x in Ids(table) <==> Present(id, Ids(old(table)), History(net, trace), x)
      ensures r.Some? ==> trace != [] && trace[|trace| - 1].answer == Value(r.value)
      ensures r.None? ==> Asked(trace) == Ids(full) && NoValue(trace)
    {
      var shortlist := ClosestContacts(key, K);
      ghost var initial := Ids(shortlist);
      var queried: set<NodeId> := {};
      trace := [];
      var round, done := 0, false;
      while !done
        invariant Valid() && round == |trace|
        invariant Searching(id, distance, key, initial, trace, queried, shortlist)
        invariant Answered(net, trace)
        invariant table == Replayed(id, old(table), History(net, trace))
        invariant NoValue(trace)
        invariant done ==> forall c :: c in shortlist ==> c.id in queried
        decreases Space() - queried, !done
      {
        SortingKeeps(id, distance, key, initial, trace, queried, shortlist);
        shortlist := SortedBy(shortlist, distance, key);
        var i := FirstUnqueried(shortlist, queried);
        if i == |shortlist| {
          done := true;
        } else {
          var contact := shortlist[i];
          assert IsKey(contact.id);
          var reply := net(round, contact);
          QueryKeeps(id, distance, key, initial, trace, queried, shortlist, i, reply.answer);
          AnsweredMore(net, trace, contact);
          HistorySnoc(net, trace, Query(contact, reply.answer));
          ReplayedConcat(id, old(table), History(net, trace), RoundLog(reply));
          queried := queried + {contact.id};
          trace := trace + [Query(contact, reply.answer)];
          shortlist := AskOne(shortlist, reply);
          if reply.answer.Value? {
            ReplayedIds(id, old(table), History(net, trace));
            return Some(reply.answer.value), shortlist, trace;
          }
          round := round + 1;
        }
      }
      full := shortlist;
      ReplayedIds(id, old(table), History(net, trace));
      assert queried == Ids(full) by { AskedAreKnown(id, distance, key, initial, trace); }
      return None, full, trace;
    }
  }

  // ---- what an exhausted lookup has found -------------------------------------------------

  /** A set of ids that holds `initial` and, with each id, those a fixed answer function gives. */
  ghost predicate Closed<V>(self: NodeId, initial: set<NodeId>, answers: NodeId -> Answer<V>, ids: set<NodeId>) {
    initial <= ids && forall id :: id in ids ==> AnswerIds(self, answers(id)) <= ids
  }

  ghost predicate AnswersBy<V>(answers: NodeId -> Answer<V>, trace: seq<Query<V>>) {
    forall i :: 0 <= i < |trace| ==> trace[i].answer == answers(trace[i].contact.id)
  }

  /** Against peers that answer alike each time, a lookup knows no id that is not forced on it. */
  lemma {:induction false} KnownIsLeast<V>(self: NodeId, d: Metric, target: NodeId, initial: set<NodeId>,
                                           answers: NodeId -> Answer<V>, trace: seq<Query<V>>, ids: set<NodeId>)
    requires Greedy(self, d, target, initial, trace) && AnswersBy(answers, trace)
    requires Closed(self, initial, answers, ids)
    ensures Known(self, initial, trace) <= ids
    decreases |trace|
  {
    if trace != [] {
      KnownIsLeast(self, d, target, initial, answers, trace[..|trace| - 1], ids);
    }
  }

  lemma {:induction false} AnswersAreKnown<V>(self: NodeId, initial: set<NodeId>, answers: NodeId -> Answer<V>,
                                              trace: seq<Query<V>>, id: NodeId)
    requires AnswersBy(answers, trace) && id in Asked(trace)
    ensures AnswerIds(self, answers(id)) <= Known(self, initial, trace)
    decreases |trace|
  {
    var before, last := trace[..|trace| - 1], trace[|trace| - 1];
    if id != last.contact.id {
      AnswersAreKnown(self, initial, answers, before, id);
    }
  }

  lemma {:induction false} InitialIsKnown<V>(self: NodeId, initial: set<NodeId>, trace: seq<Query<V>>)
    ensures initial <= Known(self, initial, trace)
    decreases |trace|
  {
    if trace != [] {
      InitialIsKnown(self, initial, trace[..|trace| - 1]);
    }
  }

  /** An exhausted lookup has found the least closed set: all that can be reached, nothing else. */
  lemma FixpointReached<V>(self: NodeId, d: Metric, target: NodeId, initial: set<NodeId>, answers: NodeId -> Answer<V>,
                           trace: seq<Query<V>>, full: seq<Contact>)
    requires Searching(self, d, target, initial, trace, Ids(full), full) && AnswersBy(answers, trace)
    ensures Closed(self, initial, answers, Ids(full))
    ensures forall ids :: Closed(self, initial, answers, ids) ==> Ids(full) <= ids
  {
    InitialIsKnown(self, initial, trace);
    forall id | id in Ids(full)
      ensures AnswerIds(self, answers(id)) <= Ids(full)
    {
      AnswersAreKnown(self, initial, answers, trace, id);
    }
    forall ids | Closed(self, initial, answers, ids)
      ensures Ids(full) <= ids
    {
      KnownIsLeast(self, d, target, initial, answers, trace, ids);
    }
  }

  /** No id is asked twice. */
  lemma {:induction false} AskedOnce<V>(self: NodeId, d: Metric, target: NodeId, initial: set<NodeId>,
                                        trace: seq<Query<V>>)
    requires Greedy(self, d, target, initial, trace)
    ensures |Asked(trace)| == |trace|
    decreases |trace|
  {
    if trace != [] {
      AskedOnce(self, d, target, initial, trace[..|trace| - 1]);
    }
  }
}
