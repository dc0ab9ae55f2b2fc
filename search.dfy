/**
 * The RediSearch adapter (RediSearch): a search index over product names, rebuilt from
 * the SQLite store by Init and fed one document at a time by AddProduct. The index is
 * a map from document key to the document's fields as text, the way the engine keeps
 * and returns them. The engine's answer to a query (its documents and its hit count)
 * is an input; Answers states when such an answer is the complete one.
 */
module Search {
  import opened Results
  import opened Strconv
  import opened Models
  import Tables
  import Sqlite

  /** The fields a product document returns: id, name and price, as text. */
  datatype Document = Document(id: string, name: string, price: string)

  datatype IndexError =
    | CreateIndexFailed
    | ScanFailed(cause: Sqlite.StoreError)
    | AddToSearcherFailed(inner: IndexError)
    | CreateDocFailed
    | SearchFailed
    | ConvertIdFailed
    | ConvertPriceFailed
      /** The panic of writing past the end of the result slice. */
    | ResultIndexOutOfRange

  /** Whether the engine's Drop and CreateIndex fail, and at which positions of the scan Index fails. */
  datatype EngineIo = EngineIo(dropFails: bool, createFails: bool, indexFails: set<nat>)

  /** The engine's answer to a query: the documents returned and the number of hits. */
  datatype Reply = Hits(docs: seq<Document>, total: nat) | EngineFailed

  /** product:<id> */
  function DocKey(id: nat): (k: string)
    ensures |k| > 8 && k[..8] == "product:"
    ensures id <= MaxInt ==> Atoi(k[8..]) == Some(id)
  {
    AtoiFormatInt(id);
    var k := "product:" + FormatInt(id);
    assert k[8..] == FormatInt(id);
    k
  }

  /** Distinct products have distinct document keys. */
  lemma DocKeyInjective(a: nat, b: nat)
    ensures DocKey(a) == DocKey(b) <==> a == b
  {
    assert DocKey(a)[8..] == FormatInt(a);
    assert DocKey(b)[8..] == FormatInt(b);
    if DocKey(a) == DocKey(b) {
      FormatIntInjective(a, b);
    }
  }

  /** The document AddProduct writes for p: the id and price in decimal, the name as is. */
  function Encode(p: Product): (d: Document)
    ensures d.name == p.name
    ensures p.id <= MaxInt ==> Atoi(d.id) == Some(p.id)
    ensures IsInt(p.price) ==> Atoi(d.price) == Some(p.price)
  {
    AtoiFormatInt(p.id);
    AtoiFormatInt(p.price);
    Document(FormatInt(p.id), p.name, FormatInt(p.price))
  }

  /** Go's uint(n) for a 64-bit int n. */
  function AsUint(n: int): (u: nat)
    requires IsInt(n)
    ensures u < 0x1_0000_0000_0000_0000
    ensures n >= 0 ==> u == n
    ensures n < 0 ==> u == n + 0x1_0000_0000_0000_0000
  {
    if n < 0 then n + 0x1_0000_0000_0000_0000 else n
  }

  /** One returned document back into a product: id and price parsed with Atoi, id first. */
  function Decode(d: Document): (r: Result<Product, IndexError>)
    ensures r == Err(ConvertIdFailed) <==> Atoi(d.id).None?
    ensures r == Err(ConvertPriceFailed) <==> Atoi(d.id).Some? && Atoi(d.price).None?
    ensures r.Ok? ==> r.value == Product(AsUint(Atoi(d.id).value), d.name, Atoi(d.price).value)
  {
    match Atoi(d.id)
    case None => Err(ConvertIdFailed)
    case Some(id) =>
      match Atoi(d.price)
      case None => Err(ConvertPriceFailed)
      case Some(price) => Ok(Product(AsUint(id), d.name, price))
  }

  /** Products whose id and price fit a 64-bit int, the ones the index can hand back. */
  predicate Representable(p: Product)
  {
    p.id <= MaxInt && IsInt(p.price)
  }

  /** The index gives back exactly the product it was given. */
  lemma DecodeEncode(p: Product)
    requires Representable(p)
    ensures Decode(Encode(p)) == Ok(p)
  {
    AtoiFormatInt(p.id);
    AtoiFormatInt(p.price);
  }

  /**
   * The documents of a reply decoded in order, room being the slots left in the result
   * slice: the first failure in document order wins, and a document with no slot left
   * is the out-of-range panic.
   */
  function DecodeHits(docs: seq<Document>, room: nat): (r: Result<seq<Product>, IndexError>)
    ensures r.Ok? ==> |r.value| == |docs| <= room
    ensures r.Err? ==> r.error in {ConvertIdFailed, ConvertPriceFailed, ResultIndexOutOfRange}
  {
    if docs == [] then Ok([])
    else match Decode(docs[0])
      case Err(e) => Err(e)
      case Ok(p) =>
        if room == 0 then Err(ResultIndexOutOfRange)
        else match DecodeHits(docs[1..], room - 1)
          case Err(e) => Err(e)
          case Ok(ps) => Ok([p] + ps)
  }

  /** A decoded reply holds, in order, the decoding of each of its documents. */
  lemma {:induction false} DecodeHitsEach(docs: seq<Document>, room: nat, i: nat)
    requires DecodeHits(docs, room).Ok? && i < |docs|
    ensures Decode(docs[i]) == Ok(DecodeHits(docs, room).value[i])
  {
    if i > 0 {
      DecodeHitsEach(docs[1..], room - 1, i - 1);
    }
  }

  /** The result slice: total slots, the first ones filled with the decoded hits, the rest nil. */
  function Slots(ps: seq<Product>, total: nat): (s: seq<Option<Product>>)
    requires |ps| <= total
    ensures |s| == total
    ensures forall i {:trigger s[i]} :: 0 <= i < total ==> s[i] == if i < |ps| then Some(ps[i]) else None
  {
    seq(total, i requires 0 <= i < total => if i < |ps| then Some(ps[i]) else None)
  }

  /** What SearchProducts returns for the engine's reply. */
  function SearchResult(reply: Reply): (r: Result<seq<Option<Product>>, IndexError>)
    ensures r == Err(SearchFailed) <==> reply.EngineFailed?
    ensures reply.Hits? && reply.total == 0 ==> r == Ok([])
    ensures r.Ok? ==> |r.value| == reply.total
    ensures r.Ok? && reply.total > 0 ==> forall i :: 0 <= i < reply.total ==> (r.value[i].Some? <==> i < |reply.docs|)
  {
    match reply
    case EngineFailed => Err(SearchFailed)
    case Hits(docs, total) =>
      if total == 0 then Ok([])
      else match DecodeHits(docs, total)
        case Err(e) => Err(e)
        case Ok(ps) => Ok(Slots(ps, total))
  }

  function Prepend(ps: seq<Product>, r: Result<seq<Product>, IndexError>): Result<seq<Product>, IndexError>
  {
    match r
    case Err(e) => Err(e)
    case Ok(qs) => Ok(ps + qs)
  }

  /** DecodeHits on the documents from position i on, when document i decodes and has a slot. */
  lemma DecodeHitsStep(docs: seq<Document>, i: nat, room: nat, p: Product)
    requires i < |docs| && room > 0 && Decode(docs[i]) == Ok(p)
    ensures DecodeHits(docs[i..], room) == Prepend([p], DecodeHits(docs[i + 1..], room - 1))
  {
    assert docs[i..][0] == docs[i] && docs[i..][1..] == docs[i + 1..];
  }

  /** DecodeHits on the documents from position i on, when document i does not decode. */
  lemma DecodeHitsStops(docs: seq<Document>, i: nat, room: nat)
    requires i < |docs| && Decode(docs[i]).Err?
    ensures DecodeHits(docs[i..], room) == Err(Decode(docs[i]).error)
  {
    assert docs[i..][0] == docs[i];
  }

  /** DecodeHits on the documents from position i on, when document i has no slot. */
  lemma DecodeHitsOverflows(docs: seq<Document>, i: nat)
    requires i < |docs| && Decode(docs[i]).Ok?
    ensures DecodeHits(docs[i..], 0) == Err(ResultIndexOutOfRange)
  {
    assert docs[i..][0] == docs[i];
  }

  /** A slice whose first slots hold ps and whose other slots are nil is Slots(ps, total). */
  lemma SlotsFilled(s: seq<Option<Product>>, ps: seq<Product>, total: nat)
    requires |ps| <= total == |s|
    requires forall j :: 0 <= j < |ps| ==> s[j] == Some(ps[j])
    requires forall j :: |ps| <= j < total ==> s[j] == None
    ensures s == Slots(ps, total)
  {
  }

  /** Filling the next slot of Slots(ps, total) gives Slots(ps + [p], total). */
  lemma SlotsNext(ps: seq<Product>, p: Product, total: nat)
    requires |ps| < total
    ensures Slots(ps + [p], total) == Slots(ps, total)[|ps| := Some(p)]
  {
    assert forall j :: 0 <= j < total ==> Slots(ps + [p], total)[j] == Slots(ps, total)[|ps| := Some(p)][j];
  }

  /** One more decoded document moves from the undecoded rest to the decoded prefix. */
  lemma DecodeHitsAdvance(docs: seq<Document>, total: nat, done: seq<Product>, i: nat, p: Product)
    requires i < |docs| && i < total && Decode(docs[i]) == Ok(p)
    requires DecodeHits(docs, total) == Prepend(done, DecodeHits(docs[i..], total - i))
    ensures DecodeHits(docs, total) == Prepend(done + [p], DecodeHits(docs[i + 1..], total - (i + 1)))
  {
    DecodeHitsStep(docs, i, total - i, p);
    PrependAppend(done, p, DecodeHits(docs[i + 1..], total - (i + 1)));
  }

  lemma PrependAppend(done: seq<Product>, p: Product, r: Result<seq<Product>, IndexError>)
    ensures Prepend(done, Prepend([p], r)) == Prepend(done + [p], r)
  {
    if r.Ok? {
      assert done + ([p] + r.value) == (done + [p]) + r.value;
    }
  }

  lemma PrependNothing(r: Result<seq<Product>, IndexError>)
    ensures Prepend([], r) == r
  {
    if r.Ok? {
      assert [] + r.value == r.value;
    }
  }

  /**
   * DecodeHits read by position, the way SearchProducts' loop walks the reply: the
   * documents from position i on, with room slots left.
   */
  function DecodeFrom(docs: seq<Document>, i: nat, room: nat): Result<seq<Product>, IndexError>
    requires i <= |docs|
    decreases |docs| - i
  {
    if i == |docs| then Ok([])
    else match Decode(docs[i])
      case Err(e) => Err(e)
      case Ok(p) =>
        if room == 0 then Err(ResultIndexOutOfRange)
        else match DecodeFrom(docs, i + 1, room - 1)
          case Err(e) => Err(e)
          case Ok(ps) => Ok([p] + ps)
  }

  /** Reading by position from i is reading the slice from i. */
  lemma {:induction false} DecodeFromSlice(docs: seq<Document>, i: nat, room: nat)
    requires i <= |docs|
    ensures DecodeFrom(docs, i, room) == DecodeHits(docs[i..], room)
    decreases |docs| - i
  {
    if i < |docs| {
      assert docs[i..][0] == docs[i] && docs[i..][1..] == docs[i + 1..];
      if room > 0 {
        DecodeFromSlice(docs, i + 1, room - 1);
      }
    }
  }

  /** After the loop every document is decoded, and the decoded prefix is the whole result. */
  lemma DecodeFromFinish(docs: seq<Document>, total: nat, done: seq<Product>)
    requires |docs| <= total
    requires DecodeFrom(docs, 0, total) == Prepend(done, DecodeFrom(docs, |docs|, total - |docs|))
    ensures DecodeHits(docs, total) == Ok(done)
  {
    DecodeFromSlice(docs, 0, total);
    assert docs[0..] == docs && done + [] == done;
  }

  /** A reply with no hit is an empty result, not an error, whatever documents it carries. */
  lemma NoHitsIsEmpty(docs: seq<Document>)
    ensures SearchResult(Hits(docs, 0)) == Ok([])
  {
  }

  /**
   * When the engine counts more hits than it returns documents, the slots past the
   * documents stay nil.
   */
  lemma ShortReplyLeavesNilSlots(docs: seq<Document>, total: nat)
    requires |docs| < total
    requires SearchResult(Hits(docs, total)).Ok?
    ensures |SearchResult(Hits(docs, total)).value| == total
    ensures SearchResult(Hits(docs, total)).value[|docs|] == None
  {
  }

  /** ASCII case folding, as the engine applies to indexed text and query terms. */
  function LowerChar(ch: char): (r: char)
    ensures !('A' <= r <= 'Z')
    ensures !('A' <= ch <= 'Z') ==> r == ch
    ensures 'A' <= ch <= 'Z' ==> 'a' <= r <= 'z' && r as int - 'a' as int == ch as int - 'A' as int
  {
    if 'A' <= ch <= 'Z' then ((ch as int) + 32) as char else ch
  }

  function Lower(s: string): (r: string)
    ensures |r| == |s|
    ensures forall i :: 0 <= i < |s| ==> r[i] == LowerChar(s[i])
  {
    seq(|s|, i requires 0 <= i < |s| => LowerChar(s[i]))
  }

  /** A folded name holds no ASCII capital. */
  lemma LowerHasNoCapitals(s: string)
    ensures forall i :: 0 <= i < |Lower(s)| ==> !('A' <= Lower(s)[i] <= 'Z')
  {
    forall i | 0 <= i < |Lower(s)|
      ensures !('A' <= Lower(s)[i] <= 'Z')
    {
      assert Lower(s)[i] == LowerChar(s[i]);
    }
  }

  /** Folding case twice is folding it once. */
  lemma LowerIdempotent(s: string)
    ensures Lower(Lower(s)) == Lower(s)
  {
    assert forall i :: 0 <= i < |s| ==> Lower(Lower(s))[i] == Lower(s)[i];
  }

  /** The query @name:<term>* matches a name that starts with term, ignoring case. */
  predicate Matches(name: string, term: string)
    ensures term <= name ==> Matches(name, term)
    ensures Matches(name, term) ==> |term| <= |name|
  {
    assert term <= name ==> forall i :: 0 <= i < |term| ==> Lower(term)[i] == Lower(name)[i];
    Lower(term) <= Lower(name)
  }

  /** Whether a name matches does not depend on the case of the name or of the term. */
  lemma MatchesIgnoresCase(name: string, term: string)
    ensures Matches(name, term) <==> Matches(Lower(name), Lower(term))
  {
    LowerIdempotent(name);
    LowerIdempotent(term);
  }

  /**
   * The complete answer of an index holding docs to the prefix query for term: the hit
   * count is the number of documents returned, each returned document is in the index
   * and matches, and each matching document of the index is returned.
   */
  ghost predicate Answers(docs: map<string, Document>, term: string, reply: Reply)
  {
    && reply.Hits?
    && reply.total == |reply.docs|
    && (forall d :: d in reply.docs ==> d in docs.Values && Matches(d.name, term))
    && (forall d :: d in docs.Values && Matches(d.name, term) ==> d in reply.docs)
  }

  /** The index after indexing ps in order, starting from an empty index: one key per indexed id. */
  function DocsOf(ps: seq<Product>): (docs: map<string, Document>)
    ensures forall p :: p in ps ==> DocKey(p.id) in docs
    ensures forall k :: k in docs ==> exists p :: p in ps && k == DocKey(p.id)
  {
    if ps == [] then map[]
    else
      var front, last := ps[..|ps| - 1], ps[|ps| - 1];
      assert ps == front + [last];
      DocsOf(front)[DocKey(last.id) := Encode(last)]
  }

  /** Indexing one more product writes its document over the index built so far. */
  lemma DocsOfNext(ps: seq<Product>, i: nat)
    requires i < |ps|
    ensures DocsOf(ps[..i + 1]) == DocsOf(ps[..i])[DocKey(ps[i].id) := Encode(ps[i])]
  {
    assert ps[..i + 1][..i] == ps[..i];
  }

  ghost predicate DistinctIds(ps: seq<Product>)
  {
    forall i, j :: 0 <= i < j < |ps| ==> ps[i].id != ps[j].id
  }

  /** After indexing distinct products, each product's key holds exactly that product's document. */
  lemma {:induction false} DocsOfIndexesEach(ps: seq<Product>, p: Product)
    requires DistinctIds(ps) && p in ps
    ensures DocKey(p.id) in DocsOf(ps) && DocsOf(ps)[DocKey(p.id)] == Encode(p)
  {
    var n := |ps| - 1;
    if ps[n] != p {
      var front := ps[..n];
      var i :| 0 <= i < |ps| && ps[i] == p;
      assert i != n && front[i] == p;
      assert DistinctIds(front);
      DocsOfIndexesEach(front, p);
      DocKeyInjective(p.id, ps[n].id);
    }
  }

  /** Every document in the index was written for one of the indexed products. */
  lemma {:induction false} DocsOfOnlyIndexed(ps: seq<Product>, d: Document)
    requires d in DocsOf(ps).Values
    ensures exists p :: p in ps && d == Encode(p)
  {
    var n := |ps| - 1;
    var key :| key in DocsOf(ps) && DocsOf(ps)[key] == d;
    if key != DocKey(ps[n].id) {
      var front := ps[..n];
      assert key in DocsOf(front) && DocsOf(front)[key] == d;
      DocsOfOnlyIndexed(front, d);
      var p :| p in front && d == Encode(p);
      assert p in ps;
    } else {
      assert d == Encode(ps[n]);
    }
  }

  /** A reply all of whose documents decode, with room for all of them, decodes each in place. */
  lemma {:induction false} DecodeHitsAll(docs: seq<Document>, room: nat)
    requires |docs| <= room
    requires forall i :: 0 <= i < |docs| ==> Decode(docs[i]).Ok?
    ensures DecodeHits(docs, room).Ok?
  {
    if docs != [] {
      assert forall i :: 0 <= i < |docs[1..]| ==> docs[1..][i] == docs[i + 1];
      DecodeHitsAll(docs[1..], room - 1);
    }
  }

  /**
   * Index fidelity: once distinct, representable products are indexed, the complete
   * answer to a query for term holds every one of them whose name starts with term.
   */
  lemma SearchFindsIndexed(ps: seq<Product>, p: Product, term: string, reply: Reply)
    requires DistinctIds(ps) && forall q :: q in ps ==> Representable(q)
    requires p in ps && Matches(p.name, term)
    requires Answers(DocsOf(ps), term, reply)
    ensures SearchResult(reply).Ok?
    ensures Some(p) in SearchResult(reply).value
  {
    var docs := reply.docs;
    DocsOfIndexesEach(ps, p);
    assert Encode(p) in DocsOf(ps).Values;
    assert Encode(p) in docs;
    forall i | 0 <= i < |docs| ensures Decode(docs[i]).Ok? {
      assert docs[i] in DocsOf(ps).Values;
      DocsOfOnlyIndexed(ps, docs[i]);
      var q :| q in ps && docs[i] == Encode(q);
      DecodeEncode(q);
    }
    DecodeHitsAll(docs, reply.total);
    var hits := DecodeHits(docs, reply.total).value;
    var j :| 0 <= j < |docs| && docs[j] == Encode(p);
    DecodeEncode(p);
    DecodeHitsEach(docs, reply.total, j);
    assert hits[j] == p;
    assert SearchResult(reply).value[j] == Some(p);
  }

  /**
   * After an Init that indexed the whole store, the complete answer to a query for
   * term holds every stored product whose name starts with term.
   */
  lemma SearchAfterInitFinds(ps: seq<Product>, next: nat, p: Product, term: string, reply: Reply)
    requires Tables.ProductIdsAssigned(ps, next) && forall q :: q in ps ==> Representable(q)
    requires p in ps && Matches(p.name, term)
    requires Answers(DocsOf(ps), term, reply)
    ensures SearchResult(reply).Ok? && Some(p) in SearchResult(reply).value
  {
    assert DistinctIds(ps);
    SearchFindsIndexed(ps, p, term, reply);
  }

  /** Each filled slot of a search result is the decoding of the document at its position. */
  lemma SearchResultDecodesEach(reply: Reply, i: nat)
    requires SearchResult(reply).Ok? && reply.Hits? && reply.total > 0 && i < |reply.docs|
    ensures SearchResult(reply).value[i].Some?
    ensures Decode(reply.docs[i]) == Ok(SearchResult(reply).value[i].value)
  {
    DecodeHitsEach(reply.docs, reply.total, i);
  }

  /**
   * Index soundness: a complete answer over indexed, representable products returns only
   * indexed products whose name starts with the term.
   */
  lemma SearchReturnsOnlyMatches(ps: seq<Product>, term: string, reply: Reply, q: Product)
    requires forall p :: p in ps ==> Representable(p)
    requires Answers(DocsOf(ps), term, reply)
    requires SearchResult(reply).Ok? && Some(q) in SearchResult(reply).value
    ensures q in ps && Matches(q.name, term)
  {
    var slots := SearchResult(reply).value;
    var j :| 0 <= j < |slots| && slots[j] == Some(q);
    assert reply.total > 0 && j < |reply.docs|;
    SearchResultDecodesEach(reply, j);
    var d := reply.docs[j];
    assert d in DocsOf(ps).Values && Matches(d.name, term);
    DocsOfOnlyIndexed(ps, d);
    var p :| p in ps && d == Encode(p);
    DecodeEncode(p);
  }

  /** The first position below n at which indexing fails, or n when none does. */
  function FirstFailure(fails: set<nat>, from: nat, n: nat): (k: nat)
    requires from <= n
    ensures from <= k <= n
    ensures k < n ==> k in fails
    ensures forall j :: from <= j < k ==> j !in fails
    decreases n - from
  {
    if from == n then n else if from in fails then from else FirstFailure(fails, from + 1, n)
  }

  /**
   * One turn of SearchProducts' loop: parse document i, failing on a bad field or when
   * slot i is past total; a success stores the product in slot i and moves it onto the
   * decoded prefix.
   */
  method FillSlot(res: array<Option<Product>>, docs: seq<Document>, total: nat, ghost done: seq<Product>, i: nat)
    returns (r: Result<Product, IndexError>)
    requires res.Length == total && i < |docs| && i <= total && |done| == i
    requires DecodeFrom(docs, 0, total) == Prepend(done, DecodeFrom(docs, i, total - i))
    requires res[..] == Slots(done, total)
    modifies res
    ensures r.Err? ==> DecodeFrom(docs, 0, total) == Err(r.error)
    ensures r.Ok? ==> i < total && Decode(docs[i]) == Ok(r.value)
    ensures r.Ok? ==> DecodeFrom(docs, 0, total) == Prepend(done + [r.value], DecodeFrom(docs, i + 1, total - (i + 1)))
    ensures res[..] == if r.Ok? then Slots(done + [r.value], total) else old(res[..])
  {
    r := Decode(docs[i]);
    if r.Err? {
      return;
    }
    if i >= total {
      return Err(ResultIndexOutOfRange);
    }
    PrependAppend(done, r.value, DecodeFrom(docs, i + 1, total - (i + 1)));
    SlotsNext(done, r.value, total);
    res[i] := Some(r.value);
  }

  /** The slice SearchProducts starts from: total nil slots. */
  method NilSlots(total: nat) returns (res: array<Option<Product>>)
    ensures fresh(res) && res[..] == Slots([], total)
  {
    res := new Option<Product>[total](_ => None);
    SlotsFilled(res[..], [], total);
  }

  /**
   * The loop of SearchProducts: a slice of total nil slots, then each returned document
   * parsed and stored in the next slot.
   */
  method CollectHits(docs: seq<Document>, total: nat) returns (r: Result<seq<Option<Product>>, IndexError>)
    ensures r == match DecodeHits(docs, total)
      case Err(e) => Err(e)
      case Ok(ps) => Ok(Slots(ps, total))
  {
    var res := NilSlots(total);
    ghost var done: seq<Product> := [];
    var i := 0;
    PrependNothing(DecodeFrom(docs, 0, total));
    while i < |docs|
      invariant 0 <= i <= |docs| && i <= total && |done| == i
      invariant DecodeFrom(docs, 0, total) == Prepend(done, DecodeFrom(docs, i, total - i))
      invariant res[..] == Slots(done, total)
    {
      var decoded := FillSlot(res, docs, total, done, i);
      if decoded.Err? {
        DecodeFromSlice(docs, 0, total);
        assert docs[0..] == docs;
        return Err(decoded.error);
      }
      done := done + [decoded.value];
      i := i + 1;
    }
    DecodeFromFinish(docs, total, done);
    r := Ok(res[..]);
  }

  class RediSearch {
    /** The engine's index: None when there is none, else its documents by key. */
    var index: Option<map<string, Document>>
    /** The store Init scans. */
    const storage: Sqlite.SQLiteDatabase
    /** Every term SearchProducts was called with, oldest first. */
    ghost var searches: seq<string>

    /** An adapter over the store, facing an engine that may already hold an index. */
    constructor (storage: Sqlite.SQLiteDatabase, existing: Option<map<string, Document>>)
      ensures this.storage == storage && index == existing && searches == []
    {
      this.storage := storage;
      index := existing;
      searches := [];
    }

    /**
     * Writes p's document under product:<id>. The engine's fault input decides the
     * outcome: a failed add leaves the index as it was; otherwise an existing index maps
     * DocKey(p.id) to Encode(p), and an absent index stays absent.
     */
    method AddProduct(p: Product, fails: bool) returns (r: Outcome<IndexError>)
      modifies this`index
      ensures r == if fails then Fail(CreateDocFailed) else Pass
      ensures index == if r.Pass? && old(index).Some? then Some(old(index).value[DocKey(p.id) := Encode(p)]) else old(index)
    {
      if fails {
        return Fail(CreateDocFailed);
      }
      if index.Some? {
        index := Some(index.value[DocKey(p.id) := Encode(p)]);
      }
      r := Pass;
    }

    /**
     * Drops the old index (ignoring whether that worked), creates an empty one, scans
     * every product of the store and indexes them in order, stopping at the first
     * failure.
     */
    method Init(engine: EngineIo, scanIo: Sqlite.Io) returns (r: Outcome<IndexError>)
      modifies this`index, storage`calls
      ensures var dropped := if engine.dropFails then old(index) else None;
        if engine.createFails || dropped.Some? then
          r == Fail(CreateIndexFailed) && index == dropped && storage.calls == old(storage.calls)
        else if scanIo.readFails then
          r == Fail(ScanFailed(Sqlite.StoreError(Sqlite.QueryProducts, Sqlite.ConnectionFailed)))
          && index == Some(map[]) && storage.calls == old(storage.calls) + [Sqlite.SearchProductsCall(None)]
        else
          var ps := storage.products;
          var k := FirstFailure(engine.indexFails, 0, |ps|);
          && storage.calls == old(storage.calls) + [Sqlite.SearchProductsCall(None)]
          && index == Some(DocsOf(ps[..k]))
          && r == if k < |ps| then Fail(AddToSearcherFailed(CreateDocFailed)) else Pass
    {
      if !engine.dropFails {
        index := None;
      }
      if engine.createFails || index.Some? {
        return Fail(CreateIndexFailed);
      }
      index := Some(map[]);
      var scanned := storage.SearchProducts(None, scanIo);
      if scanned.Err? {
        return Fail(ScanFailed(scanned.error));
      }
      r := IndexProducts(scanned.value, engine.indexFails);
    }

    /**
     * The loop of Init: indexes ps in order into the freshly created index, stopping at
     * the first position where indexing fails.
     */
    method IndexProducts(ps: seq<Product>, fails: set<nat>) returns (r: Outcome<IndexError>)
      requires index == Some(map[])
      modifies this`index
      ensures var k := FirstFailure(fails, 0, |ps|);
        && index == Some(DocsOf(ps[..k]))
        && r == if k < |ps| then Fail(AddToSearcherFailed(CreateDocFailed)) else Pass
    {
      var i := 0;
      assert ps[..0] == [];
      while i < |ps|
        invariant 0 <= i <= |ps|
        invariant index == Some(DocsOf(ps[..i]))
        invariant FirstFailure(fails, i, |ps|) == FirstFailure(fails, 0, |ps|)
      {
        var added := AddProduct(ps[i], i in fails);
        if added.Fail? {
          return Fail(AddToSearcherFailed(added.error));
        }
        DocsOfNext(ps, i);
        ghost var indexed := DocsOf(ps[..i + 1]);
        i := i + 1;
        assert index == Some(indexed);
      }
      assert ps[..i] == ps;
      r := Pass;
    }

    /**
     * Runs the prefix query @name:<name>* and turns the reply into products: no hit is an
     * empty result; otherwise a slice of `total` slots, one filled per returned document.
     */
    method SearchProducts(name: string, reply: Reply) returns (r: Result<seq<Option<Product>>, IndexError>)
      modifies this`searches
      ensures searches == old(searches) + [name]
      ensures r == SearchResult(reply)
    {
      searches := searches + [name];
      if reply.EngineFailed? {
        return Err(SearchFailed);
      }
      var docs, total := reply.docs, reply.total;
      if total == 0 {
        return Ok([]);
      }
      r := CollectHits(docs, total);
    }
  }
}
