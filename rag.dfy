/**
  The list logic of backend/app/services/ai/rag.py: packing search hits into
  a context string under a length budget (`get_context_for_query`), building
  the four parallel lists handed to the vector store (`add_documents`), and
  counting stored documents per category (`get_stats`). The embedding call
  and the vector store are parameters.
*/
module Rag {
  import opened Wrappers
  import opened JsonValue
  import Text
  import Decimal

  // ---------------------------------------------------------------------
  // get_context_for_query
  // ---------------------------------------------------------------------

  /** A search hit, as the packer reads it: its question and its answer. */
  datatype Hit = Hit(question: string, answer: string)

  /** The first part of every non-empty context. */
  const Header := "Informations pertinentes de la base de connaissances:\n"

  /** The text one hit contributes. */
  function Block(h: Hit): string {
    "\nQ: " + h.question + "\nR: " + h.answer + "\n"
  }

  /** The blocks of the hits, in search order. */
  function Blocks(hits: seq<Hit>): (bs: seq<string>)
    ensures |bs| == |hits|
  {
    if hits == [] then [] else Blocks(hits[..|hits| - 1]) + [Block(hits[|hits| - 1])]
  }

  /** Block `k` is the block of hit `k`. */
  lemma {:induction false} BlockAt(hits: seq<Hit>, k: nat)
    requires k < |hits|
    ensures Blocks(hits)[k] == Block(hits[k])
  {
    if k < |hits| - 1 {
      BlockAt(hits[..|hits| - 1], k);
    }
  }

  /** How many blocks, taken from index `i` of `bs` on, are added to `room`
      characters of free space before the first one that would overflow. */
  function Fitting(bs: seq<string>, i: nat, room: int): (n: nat)
    requires i <= |bs|
    ensures n <= |bs| - i
    decreases |bs| - i
  {
    if i == |bs| || |bs[i]| > room then 0 else 1 + Fitting(bs, i + 1, room - |bs[i]|)
  }

  /** How many hits `get_context_for_query` packs. */
  function Packed(hits: seq<Hit>, maxLength: int): (n: nat)
    ensures n <= |hits|
  {
    Fitting(Blocks(hits), 0, maxLength - |Header|)
  }

  /** What `get_context_for_query` returns for the search hits `hits`. */
  function Context(hits: seq<Hit>, maxLength: int): string {
    if hits == [] then "" else Text.Concat([Header] + Blocks(hits)[..Packed(hits, maxLength)])
  }

  /** The blocks counted by `Fitting` fit in the room together. */
  lemma {:induction false} FittingFits(bs: seq<string>, i: nat, room: int)
    requires i <= |bs|
    ensures var n := Fitting(bs, i, room); n > 0 ==> |Text.Concat(bs[i..i + n])| <= room
    decreases |bs| - i
  {
    var n := Fitting(bs, i, room);
    if n > 0 {
      FittingFits(bs, i + 1, room - |bs[i]|);
      assert bs[i..i + n] == [bs[i]] + bs[i + 1..i + n];
      Text.ConcatCons(bs[i], bs[i + 1..i + n]);
    }
  }

  /** Any longer run than the one `Fitting` counts overflows the room. */
  lemma {:induction false} FittingMaximal(bs: seq<string>, i: nat, room: int, k: nat)
    requires i <= |bs| && Fitting(bs, i, room) < k <= |bs| - i
    ensures |Text.Concat(bs[i..i + k])| > room
    decreases |bs| - i
  {
    assert bs[i..i + k] == [bs[i]] + bs[i + 1..i + k];
    Text.ConcatCons(bs[i], bs[i + 1..i + k]);
    if |bs[i]| <= room {
      FittingMaximal(bs, i + 1, room - |bs[i]|, k - 1);
    }
  }

  /** No hits, and only no hits, give the empty context. */
  lemma ContextEmpty(hits: seq<Hit>, maxLength: int)
    ensures Context(hits, maxLength) == "" <==> hits == []
  {
    if hits != [] {
      Text.ConcatCons(Header, Blocks(hits)[..Packed(hits, maxLength)]);
    }
  }

  /** The run `Fitting` counts from the front is the longest prefix of `bs`
      that fits in `room`: the next block overflows, and so does every longer
      prefix. */
  lemma LongestFittingPrefix(bs: seq<string>, room: int)
    ensures var n := Fitting(bs, 0, room);
      && (n > 0 ==> |Text.Concat(bs[..n])| <= room)
      && (n < |bs| ==> |Text.Concat(bs[..n])| + |bs[n]| > room)
      && (forall k :: n < k <= |bs| ==> |Text.Concat(bs[..k])| > room)
  {
    var n := Fitting(bs, 0, room);
    FittingFits(bs, 0, room);
    assert bs[0..n] == bs[..n];
    forall k | n < k <= |bs|
      ensures |Text.Concat(bs[..k])| > room
    {
      FittingMaximal(bs, 0, room, k);
      assert bs[0..k] == bs[..k];
    }
    if n < |bs| {
      assert bs[..n + 1] == bs[..n] + [bs[n]];
      Text.ConcatAppend(bs[..n], bs[n]);
    }
  }

  /** A non-empty context is the header and then the blocks of a prefix of
      the hits, in search order: the longest prefix whose total stays within
      `maxLength`, so packing stops at the first block that would overflow and
      nothing after it is ever added. */
  lemma ContextIsLongestFittingPrefix(hits: seq<Hit>, maxLength: int)
    requires hits != []
    ensures var n := Packed(hits, maxLength); var bs := Blocks(hits);
      && Context(hits, maxLength) == Header + Text.Concat(bs[..n])
      && (n > 0 ==> |Header| + |Text.Concat(bs[..n])| <= maxLength)
      && (n < |hits| ==> |Header| + |Text.Concat(bs[..n])| + |bs[n]| > maxLength)
      && (forall k :: n < k <= |hits| ==> |Header| + |Text.Concat(bs[..k])| > maxLength)
  {
    var bs := Blocks(hits);
    Text.ConcatCons(Header, bs[..Packed(hits, maxLength)]);
    LongestFittingPrefix(bs, maxLength - |Header|);
  }

  /** The context is never longer than the budget, or than the header alone
      when the budget is smaller than the header. */
  lemma ContextLength(hits: seq<Hit>, maxLength: int)
    ensures |Context(hits, maxLength)| <= if maxLength >= |Header| then maxLength else |Header|
  {
    if hits != [] {
      ContextIsLongestFittingPrefix(hits, maxLength);
    }
  }

  /** The context from the packed prefix, named as the loop names it. */
  lemma ContextOfPrefix(hits: seq<Hit>, maxLength: int, bs: seq<string>, n: nat)
    requires hits != [] && bs == Blocks(hits) && n == Packed(hits, maxLength)
    ensures Context(hits, maxLength) == Text.Concat([Header] + bs[..n])
  {
  }

  /** `get_context_for_query` after the search, on the hits it returned. */
  method GetContextForQuery(documents: seq<Hit>, maxContextLength: int) returns (context: string)
    ensures context == Context(documents, maxContextLength)
  {
    if |documents| == 0 {
      return "";
    }
    var parts := [Header];
    var currentLength := |parts[0]|;
    ghost var bs := Blocks(documents);
    ghost var n := Packed(documents, maxContextLength);
    var i: nat := 0;
    while i < |documents|
      invariant i <= |documents|
      invariant parts == [Header] + bs[..i]
      invariant n == i + Fitting(bs, i, maxContextLength - currentLength)
    {
      var docText := Block(documents[i]);
      BlockAt(documents, i);
      if currentLength + |docText| > maxContextLength {
        break;
      }
      assert bs[..i + 1] == bs[..i] + [docText];
      parts := parts + [docText];
      currentLength := currentLength + |docText|;
      i := i + 1;
    }
    ContextOfPrefix(documents, maxContextLength, bs, n);
    context := Text.Concat(parts);
  }


  // ---------------------------------------------------------------------
  // add_documents
  // ---------------------------------------------------------------------

  /** The four lists passed to the vector store, index for index. */
  datatype Batch<E> = Batch(ids: seq<string>, embeddings: seq<E>, texts: seq<string>, metadatas: seq<Json>)

  /** What a call of `add_documents` does: it raises (a document without a
      question or an answer), adds nothing (no embedding succeeded), or adds
      one batch. */
  datatype AddOutcome<E> = Raised | NothingAdded | Added(batch: Batch<E>)

  /** What is read from one document: the text to embed and the metadata. */
  datatype Prepared = Prepared(text: string, metadata: Json)

  /** The combined text and the metadata of one document, with the defaults
      for a missing category, source or type; `None` when reading its
      question or its answer raises. */
  function Prepare(doc: Json): (p: Option<Prepared>)
    ensures p.Some? <==> Subscript(doc, "question").Some? && Subscript(doc, "answer").Some?
  {
    match (Subscript(doc, "question"), Subscript(doc, "answer"))
    case (Some(q), Some(a)) =>
      Some(Prepared(
        "Question: " + PyStr(q) + "\nRéponse: " + PyStr(a),
        JObj([
          Member("question", q),
          Member("answer", a),
          Member("category", GetOr(doc, "category", JStr("general"))),
          Member("source", GetOr(doc, "source", JStr("unknown"))),
          Member("type", GetOr(doc, "type", JStr("faq")))])))
    case _ => None
  }

  /** The documents as read, index for index. */
  function Prepares(docs: seq<Json>): (ps: seq<Option<Prepared>>)
    ensures |ps| == |docs|
  {
    if docs == [] then [] else Prepares(docs[..|docs| - 1]) + [Prepare(docs[|docs| - 1])]
  }

  /** Entry `j` is document `j` as read. */
  lemma {:induction false} PrepareAt(docs: seq<Json>, j: nat)
    requires j < |docs|
    ensures Prepares(docs)[j] == Prepare(docs[j])
  {
    if j < |docs| - 1 {
      PrepareAt(docs[..|docs| - 1], j);
    }
  }

  /** The id of the document at index `i` of the input. */
  function DocId(i: nat): string {
    "doc_" + Decimal.NatToString(i)
  }

  /** Document `j` was read and its embedding succeeded. */
  predicate Embedded<E>(ps: seq<Option<Prepared>>, embed: (nat, string) -> Option<E>, j: nat)
    requires j < |ps|
  {
    ps[j].Some? && embed(j, ps[j].value.text).Some?
  }

  /** The lists after the first `n` documents, or `None` once one of them
      could not be read; `embed(i, text)` is the embedding call for document
      `i`, `None` when it raises. */
  function Assemble<E>(ps: seq<Option<Prepared>>, embed: (nat, string) -> Option<E>, n: nat): Option<Batch<E>>
    requires n <= |ps|
  {
    if n == 0 then Some(Batch([], [], [], []))
    else
      match Assemble(ps, embed, n - 1)
      case None => None
      case Some(b) =>
        match ps[n - 1]
        case None => None
        case Some(p) =>
          match embed(n - 1, p.text)
          case None => Some(b)
          case Some(e) => Some(Batch(b.ids + [DocId(n - 1)], b.embeddings + [e], b.texts + [p.text], b.metadatas + [p.metadata]))
  }

  /** What `add_documents` does with `docs`. */
  function AddResult<E>(docs: seq<Json>, embed: (nat, string) -> Option<E>): AddOutcome<E> {
    match Assemble(Prepares(docs), embed, |docs|)
    case None => Raised
    case Some(b) => if b.embeddings == [] then NothingAdded else Added(b)
  }

  /** The indices, in increasing order, of the first `n` documents whose
      embedding succeeded. */
  function Kept<E>(ps: seq<Option<Prepared>>, embed: (nat, string) -> Option<E>, n: nat): seq<nat>
    requires n <= |ps|
  {
    if n == 0 then []
    else Kept(ps, embed, n - 1) + (if Embedded(ps, embed, n - 1) then [n - 1] else [])
  }

  /** `Kept` holds exactly the indices below `n` that were embedded, in
      strictly increasing order. */
  lemma {:induction false} KeptExactly<E>(ps: seq<Option<Prepared>>, embed: (nat, string) -> Option<E>, n: nat)
    requires n <= |ps|
    ensures forall j: nat :: j in Kept(ps, embed, n) <==> j < n && Embedded(ps, embed, j)
    ensures forall a, b :: 0 <= a < b < |Kept(ps, embed, n)| ==> Kept(ps, embed, n)[a] < Kept(ps, embed, n)[b]
  {
    if n > 0 {
      var prev := Kept(ps, embed, n - 1);
      KeptExactly(ps, embed, n - 1);
      assert forall a :: 0 <= a < |prev| ==> prev[a] in prev;
    }
  }

  /** A read failure anywhere aborts the whole call, whatever comes after. */
  lemma {:induction false} AssembleRaisedStays<E>(ps: seq<Option<Prepared>>, embed: (nat, string) -> Option<E>, i: nat, n: nat)
    requires i <= n <= |ps|
    requires Assemble(ps, embed, i).None?
    ensures Assemble(ps, embed, n).None?
  {
    if i < n {
      AssembleRaisedStays(ps, embed, i, n - 1);
    }
  }

  /** The lists cannot be built exactly when some document could not be read. */
  lemma {:induction false} AssembleRaises<E>(ps: seq<Option<Prepared>>, embed: (nat, string) -> Option<E>, n: nat)
    requires n <= |ps|
    ensures Assemble(ps, embed, n).None? <==> None in ps[..n]
  {
    if n > 0 {
      AssembleRaises(ps, embed, n - 1);
      assert ps[..n] == ps[..n - 1] + [ps[n - 1]];
    }
  }

  /** The four lists stay equal in length, and entry `k` of each belongs to
      the `k`-th embedded document: its id is `doc_` and that document's
      index in the input, whatever embeddings failed before it. */
  lemma {:induction false} AssembleIndexed<E>(ps: seq<Option<Prepared>>, embed: (nat, string) -> Option<E>, n: nat)
    requires n <= |ps|
    requires Assemble(ps, embed, n).Some?
    ensures var b := Assemble(ps, embed, n).value; var ks := Kept(ps, embed, n);
      && |b.ids| == |ks| && |b.embeddings| == |ks| && |b.texts| == |ks| && |b.metadatas| == |ks|
      && forall k :: 0 <= k < |ks| ==>
           && ks[k] < n
           && ps[ks[k]].Some?
           && b.ids[k] == DocId(ks[k])
           && b.texts[k] == ps[ks[k]].value.text
           && embed(ks[k], b.texts[k]) == Some(b.embeddings[k])
           && b.metadatas[k] == ps[ks[k]].value.metadata
  {
    if n > 0 {
      AssembleIndexed(ps, embed, n - 1);
    }
  }

  /** The call raises exactly when some document lacks a question or an
      answer; otherwise the store is written exactly when an embedding
      succeeded, with the embedded documents in input order, the `k`-th of
      them under the id `doc_` and its index in the input. */
  lemma AddResultCases<E>(docs: seq<Json>, embed: (nat, string) -> Option<E>)
    ensures AddResult(docs, embed).Raised? <==> exists j :: 0 <= j < |docs| && Prepare(docs[j]).None?
    ensures AddResult(docs, embed).Added? <==>
      (forall j :: 0 <= j < |docs| ==> Prepare(docs[j]).Some?) && Kept(Prepares(docs), embed, |docs|) != []
    ensures AddResult(docs, embed).Added? ==>
      var b := AddResult(docs, embed).batch; var ks := Kept(Prepares(docs), embed, |docs|);
      && |b.ids| == |ks| && |b.embeddings| == |ks| && |b.texts| == |ks| && |b.metadatas| == |ks|
      && forall k :: 0 <= k < |ks| ==>
           && ks[k] < |docs|
           && b.ids[k] == DocId(ks[k])
           && Prepare(docs[ks[k]]) == Some(Prepared(b.texts[k], b.metadatas[k]))
           && embed(ks[k], b.texts[k]) == Some(b.embeddings[k])
  {
    var ps := Prepares(docs);
    AssembleRaises(ps, embed, |docs|);
    assert ps[..|docs|] == ps;
    forall j | 0 <= j < |docs|
      ensures ps[j] == Prepare(docs[j])
    {
      PrepareAt(docs, j);
    }
    if Assemble(ps, embed, |docs|).Some? {
      AssembleIndexed(ps, embed, |docs|);
    }
  }

  /** The ids of an added batch are pairwise distinct. */
  lemma AddedIdsDistinct<E>(docs: seq<Json>, embed: (nat, string) -> Option<E>)
    requires AddResult(docs, embed).Added?
    ensures var ids := AddResult(docs, embed).batch.ids;
      forall a, b :: 0 <= a < b < |ids| ==> ids[a] != ids[b]
  {
    var ps := Prepares(docs);
    var ids := AddResult(docs, embed).batch.ids;
    var ks := Kept(ps, embed, |docs|);
    AssembleIndexed(ps, embed, |docs|);
    KeptExactly(ps, embed, |docs|);
    forall a, b | 0 <= a < b < |ids|
      ensures ids[a] != ids[b]
    {
      if ids[a] == ids[b] {
        assert Decimal.NatToString(ks[a]) == ids[a][4..];
        assert Decimal.NatToString(ks[b]) == ids[b][4..];
        Decimal.NatToStringInjective(ks[a], ks[b]);
      }
    }
  }

  /** The outcome once every document has been read. */
  lemma AddResultOf<E>(docs: seq<Json>, embed: (nat, string) -> Option<E>, ps: seq<Option<Prepared>>, b: Batch<E>)
    requires ps == Prepares(docs) && Assemble(ps, embed, |docs|) == Some(b)
    ensures AddResult(docs, embed) == if b.embeddings == [] then NothingAdded else Added(b)
  {
  }

  /** The outcome once document `i` cannot be read. */
  lemma AddResultRaised<E>(docs: seq<Json>, embed: (nat, string) -> Option<E>, ps: seq<Option<Prepared>>, i: nat)
    requires ps == Prepares(docs) && i < |docs| && ps[i].None?
    requires Assemble(ps, embed, i).Some?
    ensures AddResult(docs, embed) == Raised
  {
    AssembleRaisedStays(ps, embed, i + 1, |docs|);
  }

  /** `add_documents`, up to the call that writes the store. */
  method AddDocuments<E>(documents: seq<Json>, embed: (nat, string) -> Option<E>) returns (outcome: AddOutcome<E>)
    ensures outcome == AddResult(documents, embed)
  {
    ghost var ps := Prepares(documents);
    var ids: seq<string> := [];
    var embeddings: seq<E> := [];
    var metadatas: seq<Json> := [];
    var documentsText: seq<string> := [];
    var i: nat := 0;
    while i < |documents|
      invariant i <= |documents|
      invariant Assemble(ps, embed, i) == Some(Batch(ids, embeddings, documentsText, metadatas))
    {
      var prepared := Prepare(documents[i]);
      PrepareAt(documents, i);
      if prepared.None? {
        AddResultRaised(documents, embed, ps, i);
        return Raised;
      }
      var combinedText := prepared.value.text;
      var embedding := embed(i, combinedText);
      if embedding.Some? {
        ids := ids + [DocId(i)];
        embeddings := embeddings + [embedding.value];
        documentsText := documentsText + [combinedText];
        metadatas := metadatas + [prepared.value.metadata];
      }
      i := i + 1;
    }
    AddResultOf(documents, embed, ps, Batch(ids, embeddings, documentsText, metadatas));
    if embeddings != [] {
      outcome := Added(Batch(ids, embeddings, documentsText, metadatas));
    } else {
      outcome := NothingAdded;
    }
  }

  // ---------------------------------------------------------------------
  // get_stats
  // ---------------------------------------------------------------------

  /** One entry of the `categories` dict. */
  datatype Count = Count(category: Json, count: nat)

  /** `metadata.get('category', 'unknown')`. */
  function CategoryOf(metadata: seq<Member>): Json {
    GetOr(JObj(metadata), "category", JStr("unknown"))
  }

  /** `categories[cat] = categories.get(cat, 0) + 1`: an existing entry
      keeps its place, a new one goes last. */
  function Bump(t: seq<Count>, cat: Json): seq<Count> {
    if t == [] then [Count(cat, 1)]
    else if t[0].category == cat then [Count(cat, t[0].count + 1)] + t[1..]
    else [t[0]] + Bump(t[1..], cat)
  }

  /** The dict after counting `cats` in order. */
  function Tally(cats: seq<Json>): seq<Count> {
    if cats == [] then [] else Bump(Tally(cats[..|cats| - 1]), cats[|cats| - 1])
  }

  /** `categories.get(cat, 0)`. */
  function CountOf(t: seq<Count>, cat: Json): nat {
    if t == [] then 0 else if t[0].category == cat then t[0].count else CountOf(t[1..], cat)
  }

  /** `cat in categories`. */
  predicate HasCategory(t: seq<Count>, cat: Json) {
    t != [] && (t[0].category == cat || HasCategory(t[1..], cat))
  }

  /** No category has two entries. */
  predicate DistinctCategories(t: seq<Count>) {
    t == [] || (!HasCategory(t[1..], t[0].category) && DistinctCategories(t[1..]))
  }

  /** The sum of the counts. */
  function Total(t: seq<Count>): nat {
    if t == [] then 0 else t[0].count + Total(t[1..])
  }

  /** Counting one more `cat` adds one to its count and to the total, and
      gives it an entry if it had none. */
  lemma {:induction false} BumpCounts(t: seq<Count>, cat: Json)
    ensures Total(Bump(t, cat)) == Total(t) + 1
    ensures forall c :: CountOf(Bump(t, cat), c) == CountOf(t, c) + (if c == cat then 1 else 0)
    ensures forall c :: HasCategory(Bump(t, cat), c) <==> c == cat || HasCategory(t, c)
    ensures DistinctCategories(t) ==> DistinctCategories(Bump(t, cat))
  {
    if t != [] && t[0].category != cat {
      BumpCounts(t[1..], cat);
      assert Bump(t, cat)[1..] == Bump(t[1..], cat);
    }
  }

  /** Counting a list of categories: each count is the number of times the
      category occurs, the counts sum to the length of the list, and the dict
      has one entry per category that occurs, and no other. */
  lemma {:induction false} TallyCounts(cats: seq<Json>)
    ensures Total(Tally(cats)) == |cats|
    ensures forall c :: CountOf(Tally(cats), c) == multiset(cats)[c]
    ensures forall c :: HasCategory(Tally(cats), c) <==> c in cats
    ensures DistinctCategories(Tally(cats))
  {
    if cats != [] {
      var init := cats[..|cats| - 1];
      var last := cats[|cats| - 1];
      TallyCounts(init);
      BumpCounts(Tally(init), last);
      assert cats == init + [last];
      assert multiset(cats) == multiset(init) + multiset{last};
    }
  }

  /** The dict `get_stats` returns. */
  datatype Stats = Stats(totalDocuments: nat, categories: seq<Count>, collectionName: string)

  /** The category of every stored document, in store order. */
  function Categories(metadatas: seq<seq<Member>>): (cats: seq<Json>)
    ensures |cats| == |metadatas|
  {
    if metadatas == [] then [] else Categories(metadatas[..|metadatas| - 1]) + [CategoryOf(metadatas[|metadatas| - 1])]
  }

  /** Entry `k` is the category of stored document `k`. */
  lemma {:induction false} CategoryAt(metadatas: seq<seq<Member>>, k: nat)
    requires k < |metadatas|
    ensures Categories(metadatas)[k] == CategoryOf(metadatas[k])
  {
    if k < |metadatas| - 1 {
      CategoryAt(metadatas[..|metadatas| - 1], k);
    }
  }

  /** `get_stats`, given the store's `count()` and the metadatas that its
      `get()` returns. */
  function StatsOf(count: nat, metadatas: seq<seq<Member>>, collectionName: string): Stats {
    Stats(count, if count > 0 then Tally(Categories(metadatas)) else [], collectionName)
  }

  /** On a non-empty store the counts sum to the number of metadata entries
      (to `total_documents` when the store's count agrees with `get()`), and
      each category, "unknown" for an entry without one, is counted as often
      as it occurs, under one entry; an empty store has no categories. */
  lemma StatsCounts(count: nat, metadatas: seq<seq<Member>>, collectionName: string)
    ensures var s := StatsOf(count, metadatas, collectionName);
      && s.totalDocuments == count
      && s.collectionName == collectionName
      && (count == 0 ==> s.categories == [])
      && (count > 0 ==> Total(s.categories) == |metadatas|)
      && (count == |metadatas| ==> Total(s.categories) == s.totalDocuments)
      && (count > 0 ==> forall c :: CountOf(s.categories, c) == multiset(Categories(metadatas))[c])
      && (count > 0 ==> forall c :: HasCategory(s.categories, c) <==> c in Categories(metadatas))
      && DistinctCategories(s.categories)
  {
    TallyCounts(Categories(metadatas));
  }

  /** `get_stats`. */
  method GetStats(count: nat, metadatas: seq<seq<Member>>, collectionName: string) returns (stats: Stats)
    ensures stats == StatsOf(count, metadatas, collectionName)
  {
    var categories: seq<Count> := [];
    if count > 0 {
      ghost var cats := Categories(metadatas);
      var i: nat := 0;
      while i < |metadatas|
        invariant i <= |metadatas|
        invariant categories == Tally(cats[..i])
      {
        var cat := CategoryOf(metadatas[i]);
        CategoryAt(metadatas, i);
        assert cats[..i + 1][..i] == cats[..i];
        categories := Bump(categories, cat);
        i := i + 1;
      }
      assert cats[..i] == cats;
    }
    stats := Stats(count, categories, collectionName);
  }
}
