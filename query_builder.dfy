/** `parse_url`: the request target of a search, as a base path and an ordered list of
    query parameters. Percent-encoding of the pairs is not modelled. */
module QueryBuilder {
  import opened Sequences
  import opened Values

  /** `/guilds/{id}/messages/search?` or `/channels/{id}/messages/search?`. */
  datatype BasePath = GuildPath(guild: Val) | ChannelPath(channel: Val)

  /** The request target: the base path followed by the encoded parameter pairs. */
  datatype Target = Target(base: BasePath, pairs: seq<(string, Val)>)

  /** The `_all` table: keyword argument and query parameter name, in iteration order. */
  const SearchKeys: seq<(string, string)> := [
    ("channel", "channel_id"),
    ("content", "content"),
    ("user", "author_id"),
    ("nsfw", "include_nsfw"),
    ("mentions", "mentions"),
    ("min", "min_id"),
    ("max", "max_id"),
    ("has", "has")
  ]

  /** The pairs one keyword argument contributes: one per element of a list or tuple,
      none for `None`, otherwise one pair holding the value or its `.id`. */
  function Expand(param: string, v: Val): (r: seq<(string, Val)>)
  {
    match v
    case VList(xs) => seq(|xs|, i requires 0 <= i < |xs| => (param, xs[i]))
    case VTuple(xs) => seq(|xs|, i requires 0 <= i < |xs| => (param, xs[i]))
    case VNone => []
    case _ => [(param, IdOf(v))]
  }

  /** The pairs for the whole keyword-argument dictionary, key after key of `_all`. */
  function QueryPairs(kwargs: map<string, Val>): (r: seq<(string, Val)>)
  {
    ConcatMap((k: (string, string)) => Expand(k.1, Get(kwargs, k.0)), SearchKeys)
  }

  /** The target `parse_url` builds from the keyword arguments: guild wins over channel. */
  function BuildTarget(kwargs: map<string, Val>): (t: Target)
  {
    var guild := Get(kwargs, "guild");
    Target(if guild != VNone then GuildPath(IdOf(guild)) else ChannelPath(IdOf(Get(kwargs, "channel"))),
           QueryPairs(kwargs))
  }

  /** `parse_url(**kwargs)`, appending pair after pair to `data`. */
  method ParseUrl(kwargs: map<string, Val>) returns (t: Target)
    ensures Get(kwargs, "guild") != VNone ==> t.base == GuildPath(IdOf(Get(kwargs, "guild")))
    ensures Get(kwargs, "guild") == VNone ==> t.base == ChannelPath(IdOf(Get(kwargs, "channel")))
    ensures t.pairs == QueryPairs(kwargs)
    ensures t == BuildTarget(kwargs)
  {
    var guild := Get(kwargs, "guild");
    var channel := Get(kwargs, "channel");
    var base := if guild != VNone then GuildPath(IdOf(guild)) else ChannelPath(IdOf(channel));
    var f := (k: (string, string)) => Expand(k.1, Get(kwargs, k.0));
    var data: seq<(string, Val)> := [];
    for i := 0 to |SearchKeys|
      invariant data == ConcatMap(f, SearchKeys[..i])
    {
      var (k, v) := SearchKeys[i];
      ConcatMapSnoc(f, SearchKeys, i);
      data := AppendParam(data, v, Get(kwargs, k));
    }
    assert SearchKeys[..|SearchKeys|] == SearchKeys;
    t := Target(base, data);
  }

  /** The body of the loop over `_all` for one key: a list or tuple appends one pair per
      element, `None` appends nothing, any other value appends one pair. */
  method AppendParam(data: seq<(string, Val)>, param: string, r: Val) returns (out: seq<(string, Val)>)
    ensures out == data + Expand(param, r)
  {
    out := data;
    if r.VList? || r.VTuple? {
      for j := 0 to |r.items|
        invariant out == data + Expand(param, r)[..j]
      {
        out := out + [(param, r.items[j])];
        assert Expand(param, r)[..j + 1] == Expand(param, r)[..j] + [(param, r.items[j])];
      }
      assert Expand(param, r)[..|r.items|] == Expand(param, r);
    } else if r != VNone {
      out := out + [(param, IdOf(r))];
    }
  }

  /** The pairs follow the fixed key order channel, content, user, nsfw, mentions, min,
      max, has, each key contributing its own expansion. */
  lemma {:induction false} QueryPairsKeyOrder(kwargs: map<string, Val>)
    ensures QueryPairs(kwargs) ==
      Expand("channel_id", Get(kwargs, "channel")) +
      Expand("content", Get(kwargs, "content")) +
      Expand("author_id", Get(kwargs, "user")) +
      Expand("include_nsfw", Get(kwargs, "nsfw")) +
      Expand("mentions", Get(kwargs, "mentions")) +
      Expand("min_id", Get(kwargs, "min")) +
      Expand("max_id", Get(kwargs, "max")) +
      Expand("has", Get(kwargs, "has"))
  {
    var f := (k: (string, string)) => Expand(k.1, Get(kwargs, k.0));
    ConcatMapOfEight(f, SearchKeys);
  }

  /** What one keyword argument contributes: every pair is named by its parameter; a list
      or tuple gives back its elements, in order and unconverted; `None` gives nothing;
      any other value gives exactly one pair, holding its `.id` when it has one. */
  lemma {:induction false} ExpandPairs(param: string, v: Val)
    ensures forall p :: p in Expand(param, v) ==> p.0 == param
    ensures (v.VList? || v.VTuple?) ==>
      |Expand(param, v)| == |v.items| && forall i :: 0 <= i < |v.items| ==> Expand(param, v)[i].1 == v.items[i]
    ensures v == VNone ==> Expand(param, v) == []
    ensures !(v.VList? || v.VTuple? || v.VNone?) ==> Expand(param, v) == [(param, IdOf(v))]
    ensures v.VObj? ==> Expand(param, v) == [(param, v.id)]
  {
  }
}
