/** Baggage members as the otel library hands them over: the parsing of the
    W3C Baggage header is library code, and only its result is modelled. */
module Baggage {

  /** A baggage list member: its key and its (already decoded) value. */
  datatype Member = Member(key: string, value: string)

  /** The outcome of baggage.Parse: an error, or the members in the order
      Baggage.Members returns them. */
  datatype Parsed = ParseError | Parsed(members: seq<Member>)

  datatype Option<T> = None | Some(value: T)
}

/** x/k6: labels for every k6 member of the baggage already in the context. */
module K6Labels {
  import opened GoStrings
  import opened Baggage

  const K6Prefix: string := "k6."

  /** The label key of a kept member: every "." replaced by "_". */
  function LabelKey(key: string): (l: string)
    ensures |l| == |key| && '.' !in l
  {
    ReplaceChar(key, '.', '_')
  }

  /** Whether baggageToLabels turns m into a label. */
  predicate IsK6Member(m: Member)
  {
    HasPrefix(m.key, K6Prefix) && m.value != ""
  }

  /** The flat key, value, key, value, ... list baggageToLabels hands to
      pyroscope.Labels, as a left fold over the members. */
  function K6Pairs(members: seq<Member>): (pairs: seq<string>)
    ensures |pairs| % 2 == 0 && |pairs| <= 2 * |members|
  {
    if members == [] then []
    else
      var m := members[|members| - 1];
      K6Pairs(members[..|members| - 1]) + (if IsK6Member(m) then [LabelKey(m.key), m.value] else [])
  }

  /** baggageToLabels: the loop with its two skip rules. */
  method BaggageToLabels(members: seq<Member>) returns (labelPairs: seq<string>)
    ensures labelPairs == K6Pairs(members)
  {
    labelPairs := [];
    for i := 0 to |members|
      invariant labelPairs == K6Pairs(members[..i])
    {
      var m := members[i];
      assert members[..i + 1][..i] == members[..i];
      if !HasPrefix(m.key, K6Prefix) {
        continue;
      }
      if m.value == "" {
        continue;
      }
      var key := ReplaceChar(m.key, '.', '_');
      labelPairs := labelPairs + [key, m.value];
    }
    assert members[..|members|] == members;
  }

  /** The pair list of a concatenation is the concatenation of the pair lists:
      labels come out in member order. */
  lemma {:induction false} K6PairsAppend(a: seq<Member>, b: seq<Member>)
    ensures K6Pairs(a + b) == K6Pairs(a) + K6Pairs(b)
  {
    if b == [] {
      assert a + b == a;
    } else {
      assert (a + b)[..|a + b| - 1] == a + b[..|b| - 1];
      K6PairsAppend(a, b[..|b| - 1]);
    }
  }

  /** One member alone: a label exactly when its key has the "k6." prefix and
      its value is not empty, with the dots of the key replaced and the value
      kept. */
  lemma K6PairsSingle(m: Member)
    ensures K6Pairs([m]) == if IsK6Member(m) then [LabelKey(m.key), m.value] else []
  {
    assert [m][..0] == [];
  }

  /** Every label key has the "k6_" prefix and no dot, and every value is not
      empty. */
  lemma {:induction false} K6PairsShape(members: seq<Member>)
    ensures forall i :: 0 <= i < |K6Pairs(members)| / 2 ==>
      HasPrefix(K6Pairs(members)[2 * i], "k6_") && '.' !in K6Pairs(members)[2 * i]
      && K6Pairs(members)[2 * i + 1] != ""
  {
    if members != [] {
      var init := members[..|members| - 1];
      var m := members[|members| - 1];
      K6PairsShape(init);
      var p := K6Pairs(init);
      var r := K6Pairs(members);
      if IsK6Member(m) {
        assert r == p + [LabelKey(m.key), m.value];
        var l := LabelKey(m.key);
        assert l[..3] == "k6_" by {
          assert m.key[..3] == "k6.";
          assert forall j :: 0 <= j < 3 ==> l[j] == "k6_"[j];
        }
        forall i | 0 <= i < |r| / 2
          ensures HasPrefix(r[2 * i], "k6_") && '.' !in r[2 * i] && r[2 * i + 1] != ""
        {
          if i < |p| / 2 {
            assert r[2 * i] == p[2 * i] && r[2 * i + 1] == p[2 * i + 1];
          } else {
            assert 2 * i == |p|;
          }
        }
      } else {
        assert r == p;
      }
    }
  }

  /** getBaggageLabelsFromContext: nil for an empty baggage, the k6 labels
      otherwise (possibly none). */
  function GetBaggageLabelsFromContext(b: seq<Member>): (r: Option<seq<string>>)
    ensures r.None? <==> |b| == 0
    ensures r.Some? ==> r.value == K6Pairs(b)
  {
    if |b| == 0 then None else Some(K6Pairs(b))
  }

  /** The part of an http.Request that setBaggageContextFromHeader reads and
      replaces: its Baggage header and the baggage in its context. */
  datatype Request = Request(baggageHeader: string, contextBaggage: Option<seq<Member>>)

  /** setBaggageContextFromHeader, with baggage.Parse as the parameter parse.
      The request is returned unchanged with false for an empty header and for
      a header that does not parse; otherwise its context carries the parsed
      baggage. */
  function SetBaggageContextFromHeader(r: Request, parse: string -> Parsed): (res: (Request, bool))
    ensures !res.1 <==> r.baggageHeader == "" || parse(r.baggageHeader).ParseError?
    ensures !res.1 ==> res.0 == r
    ensures res.1 ==> res.0 == r.(contextBaggage := Some(parse(r.baggageHeader).members))
  {
    if r.baggageHeader == "" then (r, false)
    else
      var b := parse(r.baggageHeader);
      if b.ParseError? then (r, false)
      else (r.(contextBaggage := Some(b.members)), true)
  }
}

/** contrib/k6: labels from the Baggage header of a request, with
    configurable key filters and key transforms. */
module K6Contrib {
  import opened GoStrings
  import opened Baggage
  import K6Labels

  type FilterFunc = string -> bool
  type TransformFunc = string -> string

  datatype BaggageConfig = BaggageConfig(filters: seq<FilterFunc>, transforms: seq<TransformFunc>)

  /** A BaggageOption: what it appends to the configuration. */
  datatype BaggageOption = WithFilters(fs: seq<FilterFunc>) | WithTransforms(ts: seq<TransformFunc>)

  /** Running an option on a configuration: WithFilters and WithTransforms
      append their functions to the configured ones, keeping them. */
  function Apply(opt: BaggageOption, config: BaggageConfig): (r: BaggageConfig)
    ensures opt.WithFilters? ==> r.filters == config.filters + opt.fs && r.transforms == config.transforms
    ensures opt.WithTransforms? ==> r.transforms == config.transforms + opt.ts && r.filters == config.filters
  {
    match opt
    case WithFilters(fs) => config.(filters := config.filters + fs)
    case WithTransforms(ts) => config.(transforms := config.transforms + ts)
  }

  /** The configuration after running opts, in order, on an empty one. */
  function Configure(opts: seq<BaggageOption>): BaggageConfig
  {
    if opts == [] then BaggageConfig([], [])
    else Apply(opts[|opts| - 1], Configure(opts[..|opts| - 1]))
  }

  /** The filters and transforms of all options, in option order. */
  function AllFilters(opts: seq<BaggageOption>): seq<FilterFunc>
  {
    if opts == [] then [] else (match opts[0] case WithFilters(fs) => fs case _ => []) + AllFilters(opts[1..])
  }

  function AllTransforms(opts: seq<BaggageOption>): seq<TransformFunc>
  {
    if opts == [] then [] else (match opts[0] case WithTransforms(ts) => ts case _ => []) + AllTransforms(opts[1..])
  }

  lemma {:induction false} AllAppend(a: seq<BaggageOption>, o: BaggageOption)
    ensures AllFilters(a + [o]) == AllFilters(a) + AllFilters([o])
    ensures AllTransforms(a + [o]) == AllTransforms(a) + AllTransforms([o])
  {
    if a != [] {
      assert (a + [o])[1..] == a[1..] + [o];
      AllAppend(a[1..], o);
    }
  }

  /** Options accumulate: the final configuration holds every option's
      filters and transforms, in the order the options came. */
  lemma {:induction false} ConfigureAccumulates(opts: seq<BaggageOption>)
    ensures Configure(opts).filters == AllFilters(opts)
    ensures Configure(opts).transforms == AllTransforms(opts)
  {
    if opts != [] {
      var init := opts[..|opts| - 1];
      ConfigureAccumulates(init);
      AllAppend(init, opts[|opts| - 1]);
      assert opts == init + [opts[|opts| - 1]];
    }
  }

  /** The option loop of LabelsFromBaggageHandler, on an empty configuration. */
  method LabelsFromBaggageHandler(opts: seq<BaggageOption>) returns (cfg: BaggageConfig)
    ensures cfg == Configure(opts)
    ensures cfg.filters == AllFilters(opts) && cfg.transforms == AllTransforms(opts)
  {
    cfg := BaggageConfig([], []);
    for i := 0 to |opts|
      invariant cfg == Configure(opts[..i])
    {
      assert opts[..i + 1][..i] == opts[..i];
      match opts[i]
      case WithFilters(fs) => cfg := cfg.(filters := cfg.filters + fs);
      case WithTransforms(ts) => cfg := cfg.(transforms := cfg.transforms + ts);
    }
    assert opts[..|opts|] == opts;
    ConfigureAccumulates(opts);
  }

  /** Whether every filter accepts the key. */
  predicate AllAccept(filters: seq<FilterFunc>, key: string)
  {
    forall i :: 0 <= i < |filters| ==> filters[i](key)
  }

  /** The transforms applied to the key one after the other, in list order. */
  function Transform(transforms: seq<TransformFunc>, key: string): string
  {
    if transforms == [] then key
    else transforms[|transforms| - 1](Transform(transforms[..|transforms| - 1], key))
  }

  predicate Kept(m: Member, filters: seq<FilterFunc>)
  {
    m.value != "" && AllAccept(filters, m.key)
  }

  /** The flat key, value, ... list getBaggageLabels builds, as a left fold
      over the members. */
  function Pairs(members: seq<Member>, filters: seq<FilterFunc>, transforms: seq<TransformFunc>): (pairs: seq<string>)
    ensures |pairs| % 2 == 0 && |pairs| <= 2 * |members|
  {
    if members == [] then []
    else
      var m := members[|members| - 1];
      Pairs(members[..|members| - 1], filters, transforms)
        + (if Kept(m, filters) then [Transform(transforms, m.key), m.value] else [])
  }

  /** getBaggageLabels, with the result of baggage.Parse on the request's
      Baggage header as the parameter parsed: nil for a parse error, otherwise
      the pairs of the members that have a value and pass every filter, with
      their keys transformed. */
  method GetBaggageLabels(parsed: Parsed, filters: seq<FilterFunc>, transforms: seq<TransformFunc>)
    returns (labels: Option<seq<string>>)
    ensures parsed.ParseError? <==> labels.None?
    ensures parsed.Parsed? ==> labels == Some(Pairs(parsed.members, filters, transforms))
  {
    if parsed.ParseError? {
      return None;
    }
    var members := parsed.members;
    var pairs: seq<string> := [];
    for i := 0 to |members|
      invariant pairs == Pairs(members[..i], filters, transforms)
    {
      var m := members[i];
      assert members[..i + 1][..i] == members[..i];
      if |m.value| == 0 {
        continue;
      }
      var accepted := true;
      for j := 0 to |filters|
        invariant accepted <==> AllAccept(filters[..j], m.key)
      {
        if !filters[j](m.key) {
          accepted := false;
          break;
        }
      }
      if !accepted {
        continue;
      }
      assert filters[..|filters|] == filters;
      var key := m.key;
      for j := 0 to |transforms|
        invariant key == Transform(transforms[..j], m.key)
      {
        assert transforms[..j + 1][..j] == transforms[..j];
        key := transforms[j](key);
      }
      assert transforms[..|transforms|] == transforms;
      pairs := pairs + [key, m.value];
    }
    assert members[..|members|] == members;
    return Some(pairs);
  }

  lemma {:induction false} PairsAppend(a: seq<Member>, b: seq<Member>, filters: seq<FilterFunc>, transforms: seq<TransformFunc>)
    ensures Pairs(a + b, filters, transforms) == Pairs(a, filters, transforms) + Pairs(b, filters, transforms)
  {
    if b == [] {
      assert a + b == a;
    } else {
      assert (a + b)[..|a + b| - 1] == a + b[..|b| - 1];
      PairsAppend(a, b[..|b| - 1], filters, transforms);
    }
  }

  /** One member alone: skipped when its value is empty or a filter rejects
      its key; otherwise its transformed key and unchanged value. Together
      with PairsAppend this gives the pairs in member order. */
  lemma PairsSingle(m: Member, filters: seq<FilterFunc>, transforms: seq<TransformFunc>)
    ensures Pairs([m], filters, transforms) ==
      if m.value != "" && AllAccept(filters, m.key) then [Transform(transforms, m.key), m.value] else []
  {
    assert [m][..0] == [];
  }

  /** The predefined options: a "k6." prefix filter and a transform that
      replaces every "." by "_". */
  function K6Options(): (opts: seq<BaggageOption>)
    ensures |opts| == 2
  {
    [WithFilters([(key: string) => HasPrefix(key, K6Labels.K6Prefix)]),
     WithTransforms([(key: string) => ReplaceChar(key, '.', '_')])]
  }

  /** Configured with K6Options, getBaggageLabels produces exactly the labels
      baggageToLabels of x/k6 produces. */
  lemma {:induction false} K6OptionsMatchBaggageToLabels(members: seq<Member>)
    ensures Pairs(members, Configure(K6Options()).filters, Configure(K6Options()).transforms)
      == K6Labels.K6Pairs(members)
  {
    var cfg := Configure(K6Options());
    ConfigureAccumulates(K6Options());
    assert cfg.filters == [(key: string) => HasPrefix(key, K6Labels.K6Prefix)];
    assert cfg.transforms == [(key: string) => ReplaceChar(key, '.', '_')];
    if members != [] {
      var init := members[..|members| - 1];
      var m := members[|members| - 1];
      K6OptionsMatchBaggageToLabels(init);
      assert cfg.filters[0](m.key) == HasPrefix(m.key, K6Labels.K6Prefix);
      assert AllAccept(cfg.filters, m.key) == HasPrefix(m.key, K6Labels.K6Prefix);
      assert Transform(cfg.transforms, m.key) == K6Labels.LabelKey(m.key) by {
        assert cfg.transforms[..0] == [];
      }
    }
  }
}
