/** `_parse_results`: the hit records of one search-result document. */
module PageFilter {
  import opened Outcomes
  import opened Sequences
  import opened Values

  /** A candidate record is a JSON object, passed through unchanged when it is a hit. */
  type Candidate = map<string, Val>

  /** A response document, with the four fields the core reads. `messages` is `None` when
      the key is absent or null; otherwise it holds the groups of candidate records. */
  datatype Doc = Doc(
    messages: Option<seq<seq<Candidate>>>,
    totalResults: Option<nat>,
    analyticsId: Val,
    retryAfter: Val)

  /** `c.get('hit', None) is not None`. */
  predicate IsHit(c: Candidate)
  {
    Get(c, "hit") != VNone
  }

  /** The hits among the candidates of one group, in position order. */
  function GroupHits(g: seq<Candidate>): (r: seq<Candidate>)
  {
    if g == [] then []
    else (if IsHit(g[0]) then [g[0]] else []) + GroupHits(g[1..])
  }

  /** The records `_parse_results(jsn)` yields: group by group, hits only. */
  function ParseResults(doc: Doc): (r: seq<Candidate>)
  {
    match doc.messages
    case None => []
    case Some(groups) => ConcatMap(GroupHits, groups)
  }

  /** A missing or null `messages` field yields nothing. */
  lemma {:induction false} NoMessagesNoHits(doc: Doc)
    requires doc.messages.None?
    ensures ParseResults(doc) == []
  {
  }

  lemma {:induction false} GroupHitsAppend(g: seq<Candidate>, h: seq<Candidate>)
    ensures GroupHits(g + h) == GroupHits(g) + GroupHits(h)
  {
    if g == [] {
      assert g + h == h;
    } else {
      var head := if IsHit(g[0]) then [g[0]] else [];
      assert (g + h)[0] == g[0];
      assert (g + h)[1..] == g[1..] + h;
      assert GroupHits(g + h) == head + GroupHits(g[1..] + h);
      GroupHitsAppend(g[1..], h);
      assert GroupHits(g) == head + GroupHits(g[1..]);
      AppendAssoc(head, GroupHits(g[1..]), GroupHits(h));
    }
  }

  /** Exactly the hits: a candidate is yielded iff it occurs in some group and is a hit. */
  lemma {:induction false} GroupHitsMembers(g: seq<Candidate>, c: Candidate)
    ensures c in GroupHits(g) <==> c in g && IsHit(c)
  {
    if g != [] {
      GroupHitsMembers(g[1..], c);
      assert g == [g[0]] + g[1..];
    }
  }

  /** Each hit keeps its multiplicity and nothing else survives. */
  lemma {:induction false} GroupHitsCount(g: seq<Candidate>, c: Candidate)
    ensures multiset(GroupHits(g))[c] == if IsHit(c) then multiset(g)[c] else 0
  {
    if g != [] {
      var head := if IsHit(g[0]) then [g[0]] else [];
      GroupHitsCount(g[1..], c);
      assert GroupHits(g) == head + GroupHits(g[1..]);
      CountAppend(head, GroupHits(g[1..]), c);
      CountCons(g, c);
      assert multiset(head)[c] == if IsHit(c) && g[0] == c then 1 else 0;
    }
  }

  /** The nesting into groups does not matter: the result is the hits of all candidates,
      ordered by group and then by position within the group. */
  lemma {:induction false} GroupHitsFlatten(groups: seq<seq<Candidate>>)
    ensures ConcatMap(GroupHits, groups) == GroupHits(Flatten(groups))
  {
    if groups != [] {
      GroupHitsFlatten(groups[1..]);
      GroupHitsAppend(groups[0], Flatten(groups[1..]));
    }
  }

  /** `_parse_results` in terms of the flattened candidate list: a candidate is yielded
      iff it is a hit, each as often as it occurs, in document order. */
  lemma {:induction false} ParseResultsSpec(doc: Doc, groups: seq<seq<Candidate>>)
    requires doc.messages == Some(groups)
    ensures ParseResults(doc) == GroupHits(Flatten(groups))
    ensures forall c :: c in ParseResults(doc) <==> c in Flatten(groups) && IsHit(c)
    ensures forall c :: multiset(ParseResults(doc))[c] == if IsHit(c) then multiset(Flatten(groups))[c] else 0
  {
    GroupHitsFlatten(groups);
    forall c ensures c in GroupHits(Flatten(groups)) <==> c in Flatten(groups) && IsHit(c) {
      GroupHitsMembers(Flatten(groups), c);
    }
    forall c ensures multiset(GroupHits(Flatten(groups)))[c] == if IsHit(c) then multiset(Flatten(groups))[c] else 0 {
      GroupHitsCount(Flatten(groups), c);
    }
  }

  /** Filtering is idempotent: a document holding only the records already yielded
      yields the same records again. */
  lemma {:induction false} IdempotentFilter(doc: Doc)
    ensures ParseResults(doc.(messages := Some([ParseResults(doc)]))) == ParseResults(doc)
  {
    var r := ParseResults(doc);
    if doc.messages.Some? {
      ParseResultsSpec(doc, doc.messages.value);
    }
    HitsAreFixed(r);
    var again := doc.(messages := Some([r]));
    assert ParseResults(again) == ConcatMap(GroupHits, [r]);
    assert ConcatMap(GroupHits, [r]) == GroupHits(r) + ConcatMap(GroupHits, []);
  }

  lemma {:induction false} HitsAreFixed(g: seq<Candidate>)
    requires forall c :: c in g ==> IsHit(c)
    ensures GroupHits(g) == g
  {
    if g != [] {
      assert g[0] in g;
      assert forall c :: c in g[1..] ==> c in g;
      HitsAreFixed(g[1..]);
    }
  }
}
