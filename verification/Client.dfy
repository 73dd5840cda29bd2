/**
 * The client's reply quorum (`client/client.go`).  Every `Response` call adds its response, then tests the
 * largest agreement, then perhaps reads the winner; other calls may come between these three steps.
 */
module ClientReplies {
  import opened Messages
  import opened Quorums

  datatype Response = Response(view: int, timestamp: int, clientId: string, replica: string, value: string)

  /** Who answered, by value. */
  type Collection = map<string, map<string, Response>>

  function Bucket(c: Collection, value: string): map<string, Response> {
    if value in c then c[value] else map[]
  }

  function AddTo(c: Collection, r: Response): Collection {
    c[r.value := Bucket(c, r.value)[r.replica := r]]
  }

  /** The size of the largest bucket. */
  ghost predicate IsSize(c: Collection, n: nat) {
    (forall v | v in c :: |c[v]| <= n) && (n == 0 || exists v :: v in c && |c[v]| == n)
  }

  /** Any response of any largest bucket: Go ranges over both maps in any order. */
  ghost predicate IsChoice(c: Collection, r: Response) {
    exists v, k :: v in c && k in c[v] && c[v][k] == r && forall u | u in c :: |c[u]| <= |c[v]|
  }

  ghost predicate IsEmpty(c: Collection) {
    forall v | v in c :: c[v] == map[]
  }

  // ---------- The objects ----------

  class ResponseCollection {
    var collection: Collection

    constructor ()
      ensures collection == map[]
    {
      collection := map[];
    }

    method AddResponse(r: Response)
      modifies this
      ensures collection == AddTo(old(collection), r)
    {
      if r.value !in collection {
        collection := collection[r.value := map[]];
      }
      collection := collection[r.value := collection[r.value][r.replica := r]];
    }

    method GetSize() returns (maxLen: nat)
      ensures IsSize(collection, maxLen)
    {
      maxLen := 0;
      var unseen := collection.Keys;
      while unseen != {}
        invariant unseen <= collection.Keys
        invariant forall v | v in collection && v !in unseen :: |collection[v]| <= maxLen
        invariant maxLen == 0 || exists v :: v in collection && |collection[v]| == maxLen
      {
        var v :| v in unseen;
        unseen := unseen - {v};
        if |collection[v]| > maxLen {
          maxLen := |collection[v]|;
        }
      }
    }

    method GetResponse() returns (response: Option<Response>)
      ensures response.None? <==> IsEmpty(collection)
      ensures response.Some? ==> IsChoice(collection, response.value)
    {
      var maxLen := 0;
      response := None;
      ghost var best := "";
      var unseen := collection.Keys;
      while unseen != {}
        invariant unseen <= collection.Keys
        invariant forall v | v in collection && v !in unseen :: |collection[v]| <= maxLen
        invariant response.None? ==> maxLen == 0
        invariant response.Some? ==> maxLen > 0 && best in collection && |collection[best]| == maxLen
        invariant response.Some? ==> exists k :: k in collection[best] && collection[best][k] == response.value
      {
        var v :| v in unseen;
        unseen := unseen - {v};
        if |collection[v]| > maxLen {
          maxLen := |collection[v]|;
          var k :| k in collection[v];
          response, best := Some(collection[v][k]), v;
        }
      }
    }
  }

  class Client {
    const f: nat
    var collectedResponse: map<int, ResponseCollection>

    ghost predicate Valid()
      reads this
    {
      forall t, u | t in collectedResponse && u in collectedResponse && t != u ::
        collectedResponse[t] != collectedResponse[u]
    }

    ghost function Books(): map<int, Collection>
      reads this, set t | t in collectedResponse :: collectedResponse[t]
    {
      map t | t in collectedResponse :: collectedResponse[t].collection
    }

    constructor (nodes: nat)
      ensures Valid() && Books() == map[] && f == MaxFaulty(nodes)
    {
      f, collectedResponse := MaxFaulty(nodes), map[];
    }

    /** The part under the mutex. */
    method CollectionOf(timestamp: int) returns (c: ResponseCollection)
      requires Valid()
      modifies this
      ensures Valid() && timestamp in collectedResponse && collectedResponse[timestamp] == c
      ensures c.collection == BookOf(old(Books()), timestamp)
      ensures Books() == old(Books())[timestamp := c.collection]
      ensures (timestamp in old(collectedResponse) && c == old(collectedResponse)[timestamp]) || fresh(c)
    {
      if timestamp !in collectedResponse {
        var created := new ResponseCollection();
        collectedResponse := collectedResponse[timestamp := created];
      }
      c := collectedResponse[timestamp];
    }

    /**
     * One `Response` call that no other call interrupts: it delivers exactly when F+1 replicas agree and no
     * more do.
     */
    method Response(r: Response) returns (delivered: Option<string>)
      requires Valid()
      modifies this, set t | t in collectedResponse :: collectedResponse[t]
      ensures Valid() && Books() == File(old(Books()), r)
      ensures delivered.Some? <==> IsSize(Books()[r.timestamp], f + 1)
      ensures delivered.Some? ==> exists x :: IsChoice(Books()[r.timestamp], x) && x.value == delivered.value
    {
      var c := FileResponse(r);
      delivered := Winner(c);
    }

    /** Only the collection of r's timestamp changes. */
    method AddAt(c: ResponseCollection, r: Response)
      requires Valid() && r.timestamp in collectedResponse && collectedResponse[r.timestamp] == c
      modifies c
      ensures Valid() && c.collection == AddTo(old(c.collection), r)
      ensures Books() == old(Books())[r.timestamp := c.collection]
    {
      c.AddResponse(r);
      assert forall t | t in collectedResponse && t != r.timestamp :: collectedResponse[t] != c;
    }

    method FileResponse(r: Response) returns (c: ResponseCollection)
      requires Valid()
      modifies this, set t | t in collectedResponse :: collectedResponse[t]
      ensures Valid() && Books() == File(old(Books()), r) && c.collection == Books()[r.timestamp]
    {
      c := CollectionOf(r.timestamp);
      ghost var books := Books();
      AddAt(c, r);
      assert Books() == books[r.timestamp := c.collection];
    }

    /** The test and the read. */
    method Winner(c: ResponseCollection) returns (delivered: Option<string>)
      ensures delivered.Some? <==> IsSize(c.collection, f + 1)
      ensures delivered.Some? ==> exists x :: IsChoice(c.collection, x) && x.value == delivered.value
    {
      delivered := None;
      var size := c.GetSize();
      if size == f + 1 {
        var x := c.GetResponse();
        delivered := Some(x.value.value);
      }
    }
  }

  function BookOf(books: map<int, Collection>, timestamp: int): Collection {
    if timestamp in books then books[timestamp] else map[]
  }

  /** A response filed under its timestamp. */
  function File(books: map<int, Collection>, r: Response): map<int, Collection> {
    books[r.timestamp := AddTo(BookOf(books, r.timestamp), r)]
  }

  // ---------- Any interleaving of the steps ----------

  datatype Step = Arrive(response: Response) | Test(timestamp: int) | Read(timestamp: int, choice: Response)

  /** `testing` and `reading` are the calls before their test and before their read. */
  datatype State = State(books: map<int, Collection>, testing: multiset<int>, reading: multiset<int>,
                         delivered: seq<Response>)

  const START := State(map[], multiset{}, multiset{}, [])

  ghost predicate Enabled(s: State, step: Step) {
    match step
    case Arrive(_) => true
    case Test(t) => t in s.testing
    case Read(t, x) => t in s.reading && IsChoice(BookOf(s.books, t), x)
  }

  ghost function Take(f: nat, s: State, step: Step): State {
    if !Enabled(s, step) then s else
    match step
    case Arrive(r) => s.(books := File(s.books, r), testing := s.testing + multiset{r.timestamp})
    case Test(t) =>
      var s' := s.(testing := s.testing - multiset{t});
      if IsSize(BookOf(s.books, t), f + 1) then s'.(reading := s.reading + multiset{t}) else s'
    case Read(t, x) => s.(reading := s.reading - multiset{t}, delivered := s.delivered + [x])
  }

  ghost function After(f: nat, run: seq<Step>): State {
    if run == [] then START else Take(f, After(f, run[..|run| - 1]), run[|run| - 1])
  }

  /** Whoever is not in `byz` answers timestamp t with `answer(t)`, under its own id. */
  ghost predicate Answers(byz: set<string>, answer: int -> string, r: Response) {
    r.replica in byz || r.value == answer(r.timestamp)
  }

  ghost predicate Right(byz: set<string>, answer: int -> string, t: int, v: string, k: string, r: Response) {
    r.replica == k && r.value == v && r.timestamp == t && (k in byz || v == answer(t))
  }

  ghost predicate FiledRight(byz: set<string>, answer: int -> string, t: int, c: Collection) {
    forall v, k | v in c && k in c[v] :: Right(byz, answer, t, v, k, c[v][k])
  }

  ghost predicate HasQuorum(f: nat, c: Collection) {
    exists v :: v in c && |c[v]| >= f + 1
  }

  ghost predicate StateOk(f: nat, byz: set<string>, answer: int -> string, s: State) {
    && (forall t | t in s.books :: FiledRight(byz, answer, t, s.books[t]))
    && (forall t | t in s.reading :: HasQuorum(f, BookOf(s.books, t)))
    && (forall x | x in s.delivered :: x.value == answer(x.timestamp))
  }

  lemma QuorumStays(f: nat, c: Collection, r: Response)
    requires HasQuorum(f, c)
    ensures HasQuorum(f, AddTo(c, r))
  {
    var v :| v in c && |c[v]| >= f + 1;
    BucketGrows(Bucket(c, r.value), r);
    assert v in AddTo(c, r);
  }

  lemma BucketGrows(b: map<string, Response>, r: Response)
    ensures |b| <= |b[r.replica := r]| <= |b| + 1
  {
    assert b[r.replica := r].Keys == b.Keys + {r.replica};
    SubsetCard(b.Keys, b[r.replica := r].Keys);
  }

  /** A bucket with more than f responders has a correct one among them. */
  lemma QuorumIsRight(f: nat, byz: set<string>, answer: int -> string, t: int, c: Collection, x: Response)
    requires |byz| <= f && FiledRight(byz, answer, t, c) && HasQuorum(f, c) && IsChoice(c, x)
    ensures x.timestamp == t && x.value == answer(t)
  {
    var v, k :| v in c && k in c[v] && c[v][k] == x && forall u | u in c :: |c[u]| <= |c[v]|;
    assert Right(byz, answer, t, v, k, x);
    var u :| u in c && |c[u]| >= f + 1;
    assert |c[v].Keys| > |byz|;
    SomeoneElse(c[v].Keys, byz);
    var k' :| k' in c[v].Keys && k' !in byz;
    assert Right(byz, answer, t, v, k', c[v][k']);
  }

  lemma SomeoneElse(a: set<string>, b: set<string>)
    requires |a| > |b|
    ensures exists k :: k in a && k !in b
  {
    if a <= b {
      SubsetCard(a, b);
    }
  }

  lemma FiledRightGrows(byz: set<string>, answer: int -> string, c: Collection, r: Response)
    requires FiledRight(byz, answer, r.timestamp, c) && Answers(byz, answer, r)
    ensures FiledRight(byz, answer, r.timestamp, AddTo(c, r))
  {
    var c' := AddTo(c, r);
    forall v, k | v in c' && k in c'[v] ensures Right(byz, answer, r.timestamp, v, k, c'[v][k]) {
      if v != r.value || k != r.replica {
        assert v in c && k in c[v];
      }
    }
  }

  lemma ArrivalOk(f: nat, byz: set<string>, answer: int -> string, s: State, r: Response)
    requires StateOk(f, byz, answer, s) && Answers(byz, answer, r)
    ensures StateOk(f, byz, answer, Take(f, s, Arrive(r)))
  {
    var book := BookOf(s.books, r.timestamp);
    assert FiledRight(byz, answer, r.timestamp, book);
    FiledRightGrows(byz, answer, book, r);
    if HasQuorum(f, book) {
      QuorumStays(f, book, r);
    }
  }

  lemma ReadOk(f: nat, byz: set<string>, answer: int -> string, s: State, t: int, x: Response)
    requires |byz| <= f && StateOk(f, byz, answer, s) && Enabled(s, Read(t, x))
    ensures StateOk(f, byz, answer, Take(f, s, Read(t, x)))
  {
    QuorumIsRight(f, byz, answer, t, BookOf(s.books, t), x);
  }

  lemma StepOk(f: nat, byz: set<string>, answer: int -> string, s: State, step: Step)
    requires |byz| <= f && StateOk(f, byz, answer, s)
    requires step.Arrive? ==> Answers(byz, answer, step.response)
    ensures StateOk(f, byz, answer, Take(f, s, step))
  {
    match step
    case Arrive(r) => ArrivalOk(f, byz, answer, s, r);
    case Test(t) =>
    case Read(t, x) =>
      if Enabled(s, step) {
        ReadOk(f, byz, answer, s, t, x);
      }
  }

  /**
   * With at most F faulty replicas, whatever they answer and however the calls interleave: every value
   * handed to the application is the one the correct replicas computed for that request.
   */
  lemma {:induction false} DeliveredValuesAreRight(f: nat, byz: set<string>, answer: int -> string, run: seq<Step>)
    requires |byz| <= f && forall step | step in run && step.Arrive? :: Answers(byz, answer, step.response)
    ensures StateOk(f, byz, answer, After(f, run))
    ensures forall x | x in After(f, run).delivered :: x.value == answer(x.timestamp)
  {
    if run != [] {
      DeliveredValuesAreRight(f, byz, answer, run[..|run| - 1]);
      StepOk(f, byz, answer, After(f, run[..|run| - 1]), run[|run| - 1]);
    }
  }

  // ---------- When is an answer delivered, and how often? ----------

  function Deliveries(delivered: seq<Response>, t: int): nat {
    if delivered == [] then 0
    else Deliveries(delivered[..|delivered| - 1], t) + if delivered[|delivered| - 1].timestamp == t then 1 else 0
  }

  /** How often a call for t was tested while the largest bucket had exactly F+1 responses. */
  ghost function QuorumTests(f: nat, run: seq<Step>, t: int): nat {
    if run == [] then 0
    else
      var before, s := QuorumTests(f, run[..|run| - 1], t), After(f, run[..|run| - 1]);
      if run[|run| - 1] == Test(t) && t in s.testing && IsSize(BookOf(s.books, t), f + 1) then before + 1 else before
  }

  ghost predicate FiledAt(t: int, c: Collection) {
    forall v, k | v in c && k in c[v] :: c[v][k].timestamp == t
  }

  ghost predicate AllFiled(books: map<int, Collection>) {
    forall t | t in books :: FiledAt(t, books[t])
  }

  lemma FileKeepsFiled(books: map<int, Collection>, r: Response)
    requires AllFiled(books)
    ensures AllFiled(File(books, r))
  {
    var c := BookOf(books, r.timestamp);
    forall v, k | v in AddTo(c, r) && k in AddTo(c, r)[v] ensures AddTo(c, r)[v][k].timestamp == r.timestamp {
      if v != r.value || k != r.replica {
        assert v in c && k in c[v];
      }
    }
  }

  lemma {:induction false} RunsAreFiled(f: nat, run: seq<Step>)
    ensures AllFiled(After(f, run).books)
  {
    if run != [] {
      RunsAreFiled(f, run[..|run| - 1]);
      var step := run[|run| - 1];
      if step.Arrive? {
        FileKeepsFiled(After(f, run[..|run| - 1]).books, step.response);
      }
    }
  }

  lemma ChoiceIsFiled(books: map<int, Collection>, t: int, x: Response)
    requires AllFiled(books) && IsChoice(BookOf(books, t), x)
    ensures x.timestamp == t
  {
  }

  lemma LastDelivery(delivered: seq<Response>, x: Response, t: int)
    ensures Deliveries(delivered + [x], t) == Deliveries(delivered, t) + if x.timestamp == t then 1 else 0
  {
    assert (delivered + [x])[..|delivered|] == delivered;
  }

  /** Whatever the interleaving: each such test delivers exactly one answer, now or when its read comes. */
  lemma {:induction false} EachQuorumTestDelivers(f: nat, run: seq<Step>, t: int)
    ensures Deliveries(After(f, run).delivered, t) + After(f, run).reading[t] == QuorumTests(f, run, t)
  {
    if run != [] {
      EachQuorumTestDelivers(f, run[..|run| - 1], t);
      var s, step := After(f, run[..|run| - 1]), run[|run| - 1];
      if step.Read? && Enabled(s, step) {
        RunsAreFiled(f, run[..|run| - 1]);
        ChoiceIsFiled(s.books, step.timestamp, step.choice);
        LastDelivery(s.delivered, step.choice, t);
      }
    }
  }

  lemma {:induction false} DeliveriesCount(delivered: seq<Response>, t: int)
    ensures Deliveries(delivered, t) > 0 <==> exists x :: x in delivered && x.timestamp == t
  {
    if delivered != [] {
      DeliveriesCount(delivered[..|delivered| - 1], t);
      assert delivered == delivered[..|delivered| - 1] + [delivered[|delivered| - 1]];
    }
  }

  ghost predicate IsAnswered(f: nat, run: seq<Step>, t: int) {
    exists x :: x in After(f, run).delivered && x.timestamp == t
  }

  /** With every call for t finished, t has been answered exactly if one was tested at exactly F+1 agreeing replicas. */
  lemma {:induction false} AnsweredIffTestedAtQuorum(f: nat, run: seq<Step>, t: int)
    requires After(f, run).reading[t] == 0
    ensures Deliveries(After(f, run).delivered, t) == QuorumTests(f, run, t)
    ensures IsAnswered(f, run, t) <==> QuorumTests(f, run, t) > 0
  {
    EachQuorumTestDelivers(f, run, t);
    DeliveriesCount(After(f, run).delivered, t);
  }

  // ---------- Calls that are tested before the next response is added ----------

  /** Every response is tested before the next is added, except perhaps the last one of the run. */
  ghost predicate Prompt(run: seq<Step>) {
    forall i | 0 <= i < |run| - 1 && run[i].Arrive? :: run[i + 1] == Test(run[i].response.timestamp)
  }

  ghost predicate Uninterrupted(run: seq<Step>) {
    Prompt(run) && (run != [] ==> !run[|run| - 1].Arrive?)
  }

  lemma FirstQuorumIsExact(f: nat, c: Collection, r: Response)
    requires !HasQuorum(f, c) && HasQuorum(f, AddTo(c, r))
    ensures IsSize(AddTo(c, r), f + 1)
  {
    BucketGrows(Bucket(c, r.value), r);
    assert forall v | v in c :: |c[v]| <= f;
  }

  /** The response just added completed the quorum and is still to be tested. */
  ghost predicate AboutToTest(f: nat, run: seq<Step>, t: int) {
    && run != [] && run[|run| - 1].Arrive? && run[|run| - 1].response.timestamp == t
    && t in After(f, run).testing && IsSize(BookOf(After(f, run).books, t), f + 1)
  }

  lemma PromptBefore(run: seq<Step>)
    requires Prompt(run) && run != []
    ensures var before := run[..|run| - 1];
            && Prompt(before)
            && (before != [] && before[|before| - 1].Arrive? ==>
                  run[|run| - 1] == Test(before[|before| - 1].response.timestamp))
  {
    var before := run[..|run| - 1];
    assert forall i | 0 <= i < |before| :: before[i] == run[i];
  }

  lemma ArrivalCompletes(f: nat, before: seq<Step>, r: Response, t: int)
    requires HasQuorum(f, BookOf(After(f, before + [Arrive(r)]).books, t))
    requires !HasQuorum(f, BookOf(After(f, before).books, t))
    ensures AboutToTest(f, before + [Arrive(r)], t)
  {
    assert (before + [Arrive(r)])[..|before|] == before;
    FirstQuorumIsExact(f, BookOf(After(f, before).books, r.timestamp), r);
  }

  lemma {:induction false} QuorumIsTested(f: nat, run: seq<Step>, t: int)
    requires Prompt(run) && HasQuorum(f, BookOf(After(f, run).books, t))
    ensures QuorumTests(f, run, t) > 0 || AboutToTest(f, run, t)
  {
    if run != [] {
      var before, step := run[..|run| - 1], run[|run| - 1];
      PromptBefore(run);
      assert run == before + [step];
      if HasQuorum(f, BookOf(After(f, before).books, t)) {
        QuorumIsTested(f, before, t);
      } else if step.Arrive? {
        ArrivalCompletes(f, before, step.response, t);
      }
    }
  }

  lemma {:induction false} TestedHasQuorum(f: nat, run: seq<Step>, t: int)
    requires QuorumTests(f, run, t) > 0
    ensures HasQuorum(f, BookOf(After(f, run).books, t))
  {
    var before, step := run[..|run| - 1], run[|run| - 1];
    if QuorumTests(f, before, t) > 0 {
      TestedHasQuorum(f, before, t);
      if step.Arrive? && step.response.timestamp == t {
        QuorumStays(f, BookOf(After(f, before).books, t), step.response);
      }
    }
  }

  /**
   * When every response is tested before the next one is added, a timestamp is answered exactly when F+1
   * replicas agree on a value for it.
   */
  lemma {:induction false} AnsweredIffQuorum(f: nat, run: seq<Step>, t: int)
    requires Uninterrupted(run) && After(f, run).reading[t] == 0
    ensures IsAnswered(f, run, t) <==> HasQuorum(f, BookOf(After(f, run).books, t))
  {
    AnsweredIffTestedAtQuorum(f, run, t);
    if QuorumTests(f, run, t) > 0 {
      TestedHasQuorum(f, run, t);
    }
    if HasQuorum(f, BookOf(After(f, run).books, t)) {
      QuorumIsTested(f, run, t);
    }
  }

  /** A response of replica `id` in the example below. */
  function Agreeing(id: string): Response {
    Response(0, 7, "c", id, "v")
  }

  /** Nobody has read yet; `ids` have answered, and `calls` of them are still to test. */
  ghost predicate Waiting(s: State, ids: set<string>, calls: nat) {
    && BookOf(s.books, 7).Keys == (if ids == {} then {} else {"v"}) && Bucket(BookOf(s.books, 7), "v").Keys == ids
    && (forall k | k in ids :: Bucket(BookOf(s.books, 7), "v")[k] == Agreeing(k))
    && s.testing[7] == calls && (forall t | t != 7 :: s.testing[t] == 0)
    && s.reading == multiset{} && s.delivered == []
  }

  lemma OneMore(f: nat, run: seq<Step>, ids: set<string>, calls: nat, id: string)
    requires Waiting(After(f, run), ids, calls)
    ensures Waiting(After(f, run + [Arrive(Agreeing(id))]), ids + {id}, calls + 1)
  {
    assert (run + [Arrive(Agreeing(id))])[..|run|] == run;
    var book := BookOf(After(f, run).books, 7);
    var bucket := Bucket(book, "v");
    assert bucket[id := Agreeing(id)].Keys == ids + {id};
    assert book["v" := bucket].Keys == {"v"};
  }

  lemma Missed(f: nat, run: seq<Step>, ids: set<string>, calls: nat)
    requires Waiting(After(f, run), ids, calls) && calls > 0 && |ids| != f + 1
    ensures Waiting(After(f, run + [Test(7)]), ids, calls - 1)
  {
    assert (run + [Test(7)])[..|run|] == run;
    var book := BookOf(After(f, run).books, 7);
    assert forall v | v in book :: |book[v].Keys| == |ids|;
  }

  /**
   * When two responses are added before either is tested, the equality test of both can miss the quorum:
   * here three replicas agree, one more than the two that F = 1 asks for, every call has finished, and
   * nothing was delivered.
   */
  lemma InterruptedCallsLoseTheAnswer(f: nat, a: string, b: string, c: string)
    requires f == 1 && a != b && a != c && b != c
    ensures var s := After(f, Interrupted(a, b, c));
            && HasQuorum(f, BookOf(s.books, 7))
            && (forall t :: s.testing[t] == 0) && s.reading == multiset{} && s.delivered == []
  {
    AllArrived(f, a, b, c);
    var run := First(a) + [Arrive(Agreeing(b))] + [Arrive(Agreeing(c))];
    Missed(f, run, {a, b, c}, 2);
    Missed(f, run + [Test(7)], {a, b, c}, 1);
    NothingTested(f, After(f, Interrupted(a, b, c)), {a, b, c});
  }

  lemma FirstTested(f: nat, a: string)
    requires f == 1
    ensures Waiting(After(f, First(a)), {a}, 0)
  {
    OneMore(f, [], {}, 0, a);
    assert {} + {a} == {a};
    Missed(f, [] + [Arrive(Agreeing(a))], {a}, 1);
  }

  lemma AllArrived(f: nat, a: string, b: string, c: string)
    requires f == 1
    ensures Waiting(After(f, First(a) + [Arrive(Agreeing(b))] + [Arrive(Agreeing(c))]), {a, b, c}, 2)
  {
    FirstTested(f, a);
    OneMore(f, First(a), {a}, 0, b);
    OneMore(f, First(a) + [Arrive(Agreeing(b))], {a} + {b}, 1, c);
    assert {a} + {b} + {c} == {a, b, c};
  }

  function First(a: string): seq<Step> {
    [] + [Arrive(Agreeing(a))] + [Test(7)]
  }

  function Interrupted(a: string, b: string, c: string): seq<Step> {
    First(a) + [Arrive(Agreeing(b))] + [Arrive(Agreeing(c))] + [Test(7)] + [Test(7)]
  }

  lemma NothingTested(f: nat, s: State, ids: set<string>)
    requires Waiting(s, ids, 0) && |ids| >= f + 1
    ensures (forall t :: s.testing[t] == 0) && HasQuorum(f, BookOf(s.books, 7))
  {
    assert "v" in BookOf(s.books, 7) && |BookOf(s.books, 7)["v"].Keys| >= f + 1;
  }

  // ---------- Delivered twice ----------

  /** The book of the example after a and b, and possibly c, have answered. */
  ghost predicate TwoAgree(c: Collection, a: string) {
    && "v" in c && |c["v"]| == 2 && a in c["v"] && c["v"][a] == Agreeing(a)
    && forall v | v in c :: |c[v]| <= 2
  }

  lemma TwoAgreeIsQuorum(c: Collection, a: string)
    requires TwoAgree(c, a)
    ensures IsSize(c, 2) && IsChoice(c, Agreeing(a))
  {
  }

  lemma OtherAnswerArrives(c: Collection, a: string, r: Response)
    requires TwoAgree(c, a) && r.value !in c
    ensures TwoAgree(AddTo(c, r), a)
  {
    assert AddTo(c, r)[r.value].Keys == {r.replica};
  }

  /** Two agree, `testing` calls have yet to test and `reading` to read, and `delivered` has been delivered. */
  ghost predicate Stands(s: State, a: string, testing: nat, reading: nat, delivered: seq<Response>) {
    TwoAgree(BookOf(s.books, 7), a) && s.testing[7] == testing && s.reading[7] == reading && s.delivered == delivered
  }

  lemma TestsAtQuorum(f: nat, run: seq<Step>, a: string, testing: nat, reading: nat)
    requires f == 1 && Stands(After(f, run), a, testing, reading, []) && testing > 0
    ensures Stands(After(f, run + [Test(7)]), a, testing - 1, reading + 1, [])
    ensures After(f, run + [Test(7)]).books == After(f, run).books
  {
    assert (run + [Test(7)])[..|run|] == run;
    TwoAgreeIsQuorum(BookOf(After(f, run).books, 7), a);
  }

  lemma ReadsIt(f: nat, run: seq<Step>, a: string, reading: nat, delivered: seq<Response>)
    requires Stands(After(f, run), a, 0, reading, delivered) && reading > 0
    ensures Stands(After(f, run + [Read(7, Agreeing(a))]), a, 0, reading - 1, delivered + [Agreeing(a)])
  {
    assert (run + [Read(7, Agreeing(a))])[..|run|] == run;
    TwoAgreeIsQuorum(BookOf(After(f, run).books, 7), a);
  }

  lemma TwoHaveArrived(f: nat, a: string, b: string)
    requires f == 1 && a != b
    ensures var s := After(f, First(a) + [Arrive(Agreeing(b))]);
            Stands(s, a, 1, 0, []) && "w" !in BookOf(s.books, 7)
  {
    FirstTested(f, a);
    OneMore(f, First(a), {a}, 0, b);
    var book := BookOf(After(f, First(a) + [Arrive(Agreeing(b))]).books, 7);
    assert {a} + {b} == {a, b};
    assert "v" in book && |book["v"].Keys| == 2;
  }

  lemma ThirdArrives(f: nat, run: seq<Step>, a: string, r: Response)
    requires Stands(After(f, run), a, 0, 1, []) && r.timestamp == 7 && r.value !in BookOf(After(f, run).books, 7)
    ensures Stands(After(f, run + [Arrive(r)]), a, 1, 1, [])
  {
    assert (run + [Arrive(r)])[..|run|] == run;
    OtherAnswerArrives(BookOf(After(f, run).books, 7), a, r);
  }

  /** a and b agree, c answers otherwise, and each response is tested before the next is added. */
  function Tested(a: string, b: string, c: string): seq<Step> {
    First(a) + [Arrive(Agreeing(b))] + [Test(7)] + [Arrive(Response(0, 7, "c", c, "w"))] + [Test(7)]
  }

  function Split(a: string, b: string, c: string): seq<Step> {
    Tested(a, b, c) + [Read(7, Agreeing(a))] + [Read(7, Agreeing(a))]
  }

  lemma BothTested(f: nat, a: string, b: string, c: string)
    requires f == 1 && a != b
    ensures Stands(After(f, Tested(a, b, c)), a, 0, 2, [])
  {
    var run, r := First(a) + [Arrive(Agreeing(b))], Response(0, 7, "c", c, "w");
    TwoHaveArrived(f, a, b);
    TestsAtQuorum(f, run, a, 1, 0);
    ThirdArrives(f, run + [Test(7)], a, r);
    TestsAtQuorum(f, run + [Test(7)] + [Arrive(r)], a, 1, 1);
  }

  /** The third answer's test finds the quorum again, and the value is delivered again; all calls have ended. */
  lemma {:induction false} SplitAnswersDeliverTwice(f: nat, a: string, b: string, c: string)
    requires f == 1 && a != b
    ensures var s := After(f, Split(a, b, c));
            && s.delivered == [Agreeing(a), Agreeing(a)] && Deliveries(s.delivered, 7) == 2
            && s.testing[7] == 0 && s.reading[7] == 0
  {
    BothTested(f, a, b, c);
    ReadsIt(f, Tested(a, b, c), a, 2, []);
    ReadsIt(f, Tested(a, b, c) + [Read(7, Agreeing(a))], a, 1, [] + [Agreeing(a)]);
    LastDelivery([], Agreeing(a), 7);
    LastDelivery([Agreeing(a)], Agreeing(a), 7);
  }
}
