/**
 * The controllers' query dictionaries and their rendering. A
 * `Dictionary<string, string?>` filled with the indexer is an
 * insertion-ordered sequence of key/value pairs with distinct keys;
 * `ToQueryString` keeps the pairs whose value is non-empty, escapes key and
 * value, joins the `key=value` pieces with `&` and puts `?` in front.
 */
module QueryString {
  import opened Wrappers
  import opened Text
  import opened UriEscape

  type Query = seq<(string, string)>

  function Keys(q: Query): (ks: seq<string>)
    ensures |ks| == |q|
    ensures forall i :: 0 <= i < |q| ==> ks[i] == q[i].0
  {
    seq(|q|, i requires 0 <= i < |q| => q[i].0)
  }

  predicate DistinctKeys(q: Query) {
    forall i, j :: 0 <= i < j < |q| ==> q[i].0 != q[j].0
  }

  /** `query[k] = v`: overwrite the value of an existing key in place, or append a new key at the end. */
  function Put(q: Query, k: string, v: string): (r: Query)
    ensures k !in Keys(q) ==> r == q + [(k, v)]
  {
    if q == [] then [(k, v)]
    else if q[0].0 == k then [(k, v)] + q[1..]
    else
      assert Keys(q) == [q[0].0] + Keys(q[1..]);
      [q[0]] + Put(q[1..], k, v)
  }

  /** An existing key keeps its place and takes the new value; every other pair is unchanged. */
  lemma {:induction false} PutOverwrites(q: Query, k: string, v: string, i: nat)
    requires i < |q| && q[i].0 == k
    requires forall j :: 0 <= j < i ==> q[j].0 != k
    ensures Put(q, k, v) == q[i := (k, v)]
    decreases i
  {
    if i > 0 {
      PutOverwrites(q[1..], k, v, i - 1);
      assert q[i := (k, v)] == [q[0]] + q[1..][i - 1 := (k, v)];
    }
  }

  /** The first position holding a key that is present. */
  lemma FirstIndexOfKey(q: Query, k: string) returns (i: nat)
    requires k in Keys(q)
    ensures i < |q| && q[i].0 == k
    ensures forall j :: 0 <= j < i ==> q[j].0 != k
  {
    i := 0;
    while q[i].0 != k
      invariant i < |q|
      invariant forall j :: 0 <= j < i ==> q[j].0 != k
      invariant k in Keys(q[i..])
      decreases |q| - i
    {
      assert Keys(q[i..]) == [q[i].0] + Keys(q[i + 1..]);
      i := i + 1;
    }
  }

  /** A dictionary never holds a key twice: `Put` keeps the keys distinct. */
  lemma PutKeepsDistinctKeys(q: Query, k: string, v: string)
    requires DistinctKeys(q)
    ensures DistinctKeys(Put(q, k, v))
    ensures k in Keys(q) ==> Keys(Put(q, k, v)) == Keys(q)
  {
    if k in Keys(q) {
      var i := FirstIndexOfKey(q, k);
      PutOverwrites(q, k, v, i);
      assert Keys(Put(q, k, v)) == Keys(q);
    }
  }

  /** The `Where(kv => !string.IsNullOrEmpty(kv.Value))` filter. */
  function NonEmptyPairs(q: Query): (r: Query)
    ensures forall i :: 0 <= i < |r| ==> r[i].1 != ""
    ensures forall p :: p in r ==> p in q
    ensures forall i :: 0 <= i < |q| && q[i].1 != "" ==> q[i] in r
    ensures |r| <= |q|
    ensures NoEmptyValue(q) ==> r == q
  {
    if q == [] then []
    else if q[0].1 == "" then NonEmptyPairs(q[1..])
    else [q[0]] + NonEmptyPairs(q[1..])
  }

  /** The filter keeps the dictionary's order: filtering a concatenation concatenates the filtered parts. */
  lemma {:induction false} NonEmptyPairsConcat(a: Query, b: Query)
    ensures NonEmptyPairs(a + b) == NonEmptyPairs(a) + NonEmptyPairs(b)
    decreases |a|
  {
    if a == [] {
      assert a + b == b;
    } else {
      assert (a + b)[0] == a[0];
      assert (a + b)[1..] == a[1..] + b;
      NonEmptyPairsConcat(a[1..], b);
    }
  }

  /** A dictionary whose values are all empty filters to nothing. */
  lemma {:induction false} AllEmptyFiltersToNothing(q: Query)
    requires forall i :: 0 <= i < |q| ==> q[i].1 == ""
    ensures NonEmptyPairs(q) == []
    decreases |q|
  {
    if q != [] {
      AllEmptyFiltersToNothing(q[1..]);
    }
  }

  /** `$"{Uri.EscapeDataString(kv.Key)}={Uri.EscapeDataString(kv.Value!)}"`. */
  function FormatPair(p: (string, string)): string {
    EscapeDataString(p.0) + "=" + EscapeDataString(p.1)
  }

  function FormatPairs(q: Query): (pieces: seq<string>)
    ensures |pieces| == |q|
    ensures forall i :: 0 <= i < |q| ==> pieces[i] == FormatPair(q[i])
  {
    seq(|q|, i requires 0 <= i < |q| => FormatPair(q[i]))
  }

  /** The `ToQueryString` helper of the albums, playlists, search and tracks controllers. */
  function ToQueryString(q: Query): (r: string)
    ensures r == "" <==> NonEmptyPairs(q) == []
    ensures r != "" ==> r[0] == '?'
  {
    var pieces := FormatPairs(NonEmptyPairs(q));
    if pieces == [] then "" else "?" + Join(pieces, '&')
  }

  /** One `key=value` piece read back. */
  function ParsePair(piece: string): Option<(string, string)> {
    var fields := Split(piece, '=');
    if |fields| != 2 then None
    else
      var k :- UnescapeStrict(fields[0]);
      var v :- UnescapeStrict(fields[1]);
      Some((k, v))
  }

  function ParsePairs(pieces: seq<string>): Option<Query>
    decreases |pieces|
  {
    if pieces == [] then Some([])
    else
      var p :- ParsePair(pieces[0]);
      var rest :- ParsePairs(pieces[1..]);
      Some([p] + rest)
  }

  /** What a server reads back from a query string: no parameters for "", otherwise the `&`-separated pairs after `?`. */
  function ParseQuery(qs: string): Option<Query> {
    if qs == "" then Some([])
    else if qs[0] != '?' then None
    else ParsePairs(Split(qs[1..], '&'))
  }

  lemma FormatPairHasNoAmpersand(p: (string, string))
    ensures '&' !in FormatPair(p)
  {
    EscapeHasNoDelimiters(p.0);
    EscapeHasNoDelimiters(p.1);
  }

  /** A query string never holds `#`, so no part of it is taken for a fragment. */
  lemma QueryStringHasNoHash(q: Query)
    ensures '#' !in ToQueryString(q)
  {
    var pieces := FormatPairs(NonEmptyPairs(q));
    forall i | 0 <= i < |pieces| ensures '#' !in pieces[i] {
      EscapeHasNoDelimiters(NonEmptyPairs(q)[i].0);
      EscapeHasNoDelimiters(NonEmptyPairs(q)[i].1);
    }
    if pieces != [] {
      JoinAvoids(pieces, '&', '#');
    }
  }

  lemma ParseFormattedPair(p: (string, string))
    ensures ParsePair(FormatPair(p)) == Some(p)
  {
    EscapeHasNoDelimiters(p.0);
    EscapeHasNoDelimiters(p.1);
    SplitAtFirstSeparator(EscapeDataString(p.0), '=', EscapeDataString(p.1));
    SplitWithoutSeparator(EscapeDataString(p.1), '=');
    EscapeRoundTrip(p.0);
    EscapeRoundTrip(p.1);
  }

  lemma {:induction false} ParseFormattedPairs(q: Query)
    ensures ParsePairs(FormatPairs(q)) == Some(q)
    decreases |q|
  {
    if q != [] {
      ParseFormattedPair(q[0]);
      assert FormatPairs(q)[1..] == FormatPairs(q[1..]);
      ParseFormattedPairs(q[1..]);
      assert [q[0]] + q[1..] == q;
    }
  }

  /** The query string reads back as exactly the non-empty pairs, in dictionary order. */
  lemma QueryRoundTrip(q: Query)
    ensures ParseQuery(ToQueryString(q)) == Some(NonEmptyPairs(q))
  {
    var ps := NonEmptyPairs(q);
    var pieces := FormatPairs(ps);
    if pieces != [] {
      forall i | 0 <= i < |pieces| ensures '&' !in pieces[i] {
        FormatPairHasNoAmpersand(ps[i]);
      }
      SplitJoin(pieces, '&');
      assert ToQueryString(q)[1..] == Join(pieces, '&');
      ParseFormattedPairs(ps);
    }
  }

  /** The first two pairs lead the query string when both of their values are non-empty. */
  lemma QueryStringStartsWithTwo(q: Query)
    requires |q| >= 2 && q[0].1 != "" && q[1].1 != ""
    ensures var lead := "?" + FormatPair(q[0]) + "&" + FormatPair(q[1]);
      |ToQueryString(q)| >= |lead| && ToQueryString(q)[..|lead|] == lead
  {
    LeadingPairsKept(q);
    var pieces := FormatPairs(NonEmptyPairs(q));
    var inner := pieces[0] + ['&'] + pieces[1];
    JoinStartsWithTwo(pieces, '&');
    assert ToQueryString(q) == "?" + Join(pieces, '&');
    PrefixAfterConcat("?", Join(pieces, '&'), inner);
    ConcatAssoc("?", FormatPair(q[0]) + ['&'], FormatPair(q[1]));
    ConcatAssoc("?", FormatPair(q[0]), ['&']);
  }

  /** Both leading pairs survive the non-empty filter when their values are non-empty. */
  lemma LeadingPairsKept(q: Query)
    requires |q| >= 2 && q[0].1 != "" && q[1].1 != ""
    ensures |NonEmptyPairs(q)| >= 2 && NonEmptyPairs(q)[0] == q[0] && NonEmptyPairs(q)[1] == q[1]
  {
    var tail := q[1..];
    assert tail[0] == q[1];
    assert NonEmptyPairs(tail) == [q[1]] + NonEmptyPairs(tail[1..]);
    assert NonEmptyPairs(q) == [q[0]] + NonEmptyPairs(tail);
  }

  /** After any path prefix, the first two pairs of the dictionary lead the query string. */
  lemma PathStartsWithTwo(prefix: string, q: Query)
    requires |q| >= 2 && q[0].1 != "" && q[1].1 != ""
    ensures var lead := prefix + ("?" + FormatPair(q[0]) + "&" + FormatPair(q[1]));
      |lead| <= |prefix + ToQueryString(q)| && (prefix + ToQueryString(q))[..|lead|] == lead
  {
    QueryStringStartsWithTwo(q);
    PrefixAfterConcat(prefix, ToQueryString(q), "?" + FormatPair(q[0]) + "&" + FormatPair(q[1]));
  }

  // Optional parameters as the controllers add them.

  /** No value of the dictionary is empty, so the non-empty filter keeps every pair. */
  predicate NoEmptyValue(q: Query) {
    forall i :: 0 <= i < |q| ==> q[i].1 != ""
  }

  lemma NoEmptyValueConcat(a: Query, b: Query)
    requires NoEmptyValue(a) && NoEmptyValue(b)
    ensures NoEmptyValue(a + b)
  {
  }

  /** `if (!string.IsNullOrWhiteSpace(v)) query[k] = v`, as a reference definition. */
  function TextParam(k: string, v: Option<string>): (q: Query)
    ensures NoEmptyValue(q)
    ensures q == [] <==> IsNullOrWhiteSpace(v)
    ensures q != [] ==> q == [(k, v.value)]
  {
    if IsNullOrWhiteSpace(v) then []
    else
      NotBlankIsNotEmpty(v);
      [(k, v.value)]
  }

  /** `if (v.HasValue) query[k] = v.Value.ToString()`, as a reference definition. */
  function IntParam(k: string, v: Option<Int32>): (q: Query)
    ensures NoEmptyValue(q)
    ensures q == [] <==> v.None?
    ensures q != [] ==> q == [(k, IntToString(v.value))]
  {
    if v.Some? then [(k, IntToString(v.value))] else []
  }

  /** `if (!string.IsNullOrEmpty(v)) query[k] = v`, as a reference definition. */
  function NonEmptyParam(k: string, v: Option<string>): (q: Query)
    ensures NoEmptyValue(q)
    ensures q == [] <==> IsNullOrEmpty(v)
    ensures q != [] ==> q == [(k, v.value)]
  {
    if IsNullOrEmpty(v) then [] else [(k, v.value)]
  }

  /** `if (!string.IsNullOrWhiteSpace(v)) query[k] = v;` for a key not yet present. */
  method AddIfNotBlank(q: Query, k: string, v: Option<string>) returns (r: Query)
    requires k !in Keys(q)
    ensures r == q + TextParam(k, v)
    ensures NoEmptyValue(q) ==> NoEmptyValue(r)
  {
    r := q;
    if !IsNullOrWhiteSpace(v) {
      r := Put(r, k, v.value);
    }
  }

  /** `if (v.HasValue) query[k] = v.Value.ToString();` for a key not yet present. */
  method AddIfHasValue(q: Query, k: string, v: Option<Int32>) returns (r: Query)
    requires k !in Keys(q)
    ensures r == q + IntParam(k, v)
    ensures NoEmptyValue(q) ==> NoEmptyValue(r)
  {
    r := q;
    if v.Some? {
      r := Put(r, k, IntToString(v.value));
    }
  }

  /** `if (!string.IsNullOrEmpty(v)) query[k] = v;` for a key not yet present. */
  method AddIfNotEmpty(q: Query, k: string, v: Option<string>) returns (r: Query)
    requires k !in Keys(q)
    ensures r == q + NonEmptyParam(k, v)
    ensures NoEmptyValue(q) ==> NoEmptyValue(r)
  {
    r := q;
    if !IsNullOrEmpty(v) {
      r := Put(r, k, v.value);
    }
  }

  /** A one-pair query string is `?`, the escaped key, `=` and the escaped value. */
  lemma SinglePairQueryString(k: string, v: string)
    requires v != ""
    ensures ToQueryString([(k, v)]) == "?" + EscapeDataString(k) + "=" + EscapeDataString(v)
  {
    assert NonEmptyPairs([(k, v)]) == [(k, v)];
  }

  /** The one-pair query string of a `market` value: the key goes out literally, the value escaped. */
  lemma MarketQueryString(v: string)
    requires v != ""
    ensures ToQueryString([("market", v)]) == "?market=" + EscapeDataString(v)
  {
    EscapeKeepsUnreserved("market");
    SinglePairLiteralKey("market", v);
    MarketLead();
  }

  lemma MarketLead()
    ensures "?" + "market" + "=" == "?market="
  {
  }

  /** A key that escaping leaves alone goes out literally. */
  lemma SinglePairLiteralKey(k: string, v: string)
    requires v != "" && EscapeDataString(k) == k
    ensures ToQueryString([(k, v)]) == "?" + k + "=" + EscapeDataString(v)
  {
    SinglePairQueryString(k, v);
  }

  /** A key outside the known set of keys is absent. */
  lemma KeyAbsent(q: Query, k: string, known: seq<string>)
    requires forall i :: 0 <= i < |q| ==> q[i].0 in known
    requires k !in known
    ensures k !in Keys(q)
  {
  }
}
