/**
 Content-coding negotiation (src/compress.rs) and the search for a precompressed file (src/files.rs).
 Weights are counted in thousandths: a qvalue has at most three decimals, and distinct ones stay distinct
 and ordered as the floats they are read into.
 */
module Negotiation {
  import opened Util
  import opened Splitting

  datatype Encoding = Brotli | Gzip

  function Parse(token: string): Option<Encoding> {
    if token == "br" then Some(Brotli)
    else if token == "gzip" || token == "x-gzip" then Some(Gzip)
    else None
  }

  // ----- Text -----

  predicate Blank(c: char) {
    c == ' ' || c == '\t'
  }

  function Trim(s: string): string {
    if s == "" then ""
    else if Blank(s[0]) then Trim(s[1..])
    else if Blank(s[|s| - 1]) then Trim(s[..|s| - 1])
    else s
  }

  function Lower(s: string): string {
    seq(|s|, i requires 0 <= i < |s| => if 'A' <= s[i] <= 'Z' then (s[i] as int + 32) as char else s[i])
  }

  /** The text before and after the first `c`. */
  function SplitOnce(s: string, c: char): (r: Option<(string, string)>)
    ensures r.Some? ==> s == r.value.0 + [c] + r.value.1 && c !in r.value.0
    ensures r.None? <==> c !in s
  {
    if s == "" then None
    else if s[0] == c then Some(("", s[1..]))
    else
      var rest := SplitOnce(s[1..], c);
      if rest.None? then None else Some(([s[0]] + rest.value.0, rest.value.1))
  }

  // ----- Weights -----

  const WHOLE: nat := 1000

  predicate Digits(s: string) {
    forall i :: 0 <= i < |s| ==> '0' <= s[i] <= '9'
  }

  function Thousandths(fraction: string): (n: nat)
    requires |fraction| <= 3 && Digits(fraction)
    ensures n < WHOLE
  {
    var digit := (i: int) =>
      if 0 <= i < |fraction| && '0' <= fraction[i] <= '9' then fraction[i] as int - '0' as int else 0;
    100 * digit(0) + 10 * digit(1) + digit(2)
  }

  /** Section 12.4.2 of RFC 9110: 0 to 1, at most three decimals. */
  function QValue(text: string): Option<nat> {
    var split := SplitOnce(text, '.');
    if split.None? then (if text == "0" then Some(0) else if text == "1" then Some(WHOLE) else None)
    else
      var (whole, fraction) := split.value;
      if |fraction| > 3 || !Digits(fraction) then None
      else if whole == "0" then Some(Thousandths(fraction))
      else if whole == "1" && Thousandths(fraction) == 0 then Some(WHOLE)
      else None
  }

  function Digit(n: nat): char
    requires n < 10
  {
    ('0' as int + n) as char
  }

  /** A weight written out to its three decimals. */
  function Decimal(weight: nat): string
    requires weight <= WHOLE
  {
    [Digit(weight / 1000), '.', Digit(weight / 100 % 10), Digit(weight / 10 % 10), Digit(weight % 10)]
  }

  lemma {:induction false} SplitOnceAt(a: string, b: string, c: char)
    requires c !in a
    ensures SplitOnce(a + [c] + b, c) == Some((a, b))
  {
    if a == "" {
      assert a + [c] + b == [c] + b && ([c] + b)[1..] == b;
    } else {
      assert a == [a[0]] + a[1..];
      assert (a + [c] + b)[1..] == a[1..] + [c] + b;
      SplitOnceAt(a[1..], b, c);
    }
  }

  lemma DecimalsOf(weight: nat)
    requires weight <= WHOLE
    ensures 1000 * (weight / 1000) + 100 * (weight / 100 % 10) + 10 * (weight / 10 % 10) + weight % 10 == weight
  {
    var tens := weight / 10;
    var hundreds := tens / 10;
    assert tens / 10 == weight / 100 && hundreds / 10 == weight / 1000;
    assert weight == 10 * tens + weight % 10 && tens == 10 * hundreds + tens % 10;
    assert hundreds == 10 * (hundreds / 10) + hundreds % 10;
  }

  /** Every weight from 0 to 1 can be written and is read back as itself. */
  lemma QValueReadsDecimals(weight: nat)
    requires weight <= WHOLE
    ensures QValue(Decimal(weight)) == Some(weight)
  {
    var whole := [Digit(weight / 1000)];
    var fraction := [Digit(weight / 100 % 10), Digit(weight / 10 % 10), Digit(weight % 10)];
    assert Decimal(weight) == whole + ['.'] + fraction;
    SplitOnceAt(whole, fraction, '.');
    DecimalsOf(weight);
    assert Digits(fraction) && Thousandths(fraction) == weight - 1000 * (weight / 1000);
    assert whole == if weight == WHOLE then "1" else "0";
  }

  lemma QValueIsAWeight(text: string)
    ensures QValue(text).Some? ==> QValue(text).value <= WHOLE
  {
  }

  // ----- The header -----

  datatype Entry = Entry(token: string, weight: nat)

  /** The weight after the parameters of an item: the last `q` counts, well formed or not. */
  function LastWeight(params: seq<string>, weight: Option<nat>): Option<nat>
  {
    if params == [] then weight
    else
      var split := SplitOnce(params[0], '=');
      LastWeight(params[1..],
        if split.Some? && Lower(Trim(split.value.0)) == "q" then QValue(Trim(split.value.1)) else weight)
  }

  /** An item of the header, unless it is empty or its weight is malformed. */
  function ItemEntry(item: string): Option<Entry> {
    var parts := Split(item, ';');
    var token, weight := Lower(Trim(parts[0])), LastWeight(parts[1..], Some(WHOLE));
    if token == "" || weight.None? then None else Some(Entry(token, weight.value))
  }

  function Entries(items: seq<string>): seq<Entry> {
    if items == [] then []
    else
      var entry := ItemEntry(items[|items| - 1]);
      Entries(items[..|items| - 1]) + if entry.Some? then [entry.value] else []
  }

  /** The weight of the last `*`. */
  function Star(entries: seq<Entry>): Option<nat> {
    if entries == [] then None
    else
      var last := entries[|entries| - 1];
      if last.token == "*" then Some(last.weight) else Star(entries[..|entries| - 1])
  }

  predicate Denotes(entry: Entry, e: Encoding) {
    entry.token != "*" && Parse(entry.token) == Some(e)
  }

  /** The largest weight given to `e` by name. */
  function Named(entries: seq<Entry>, e: Encoding): (r: Option<nat>)
    ensures r.None? <==> forall i :: 0 <= i < |entries| ==> !Denotes(entries[i], e)
    ensures r.Some? ==> exists i :: 0 <= i < |entries| && Denotes(entries[i], e) && entries[i].weight == r.value
    ensures r.Some? ==> forall i :: 0 <= i < |entries| && Denotes(entries[i], e) ==> entries[i].weight <= r.value
  {
    if entries == [] then None
    else
      var last, rest := entries[|entries| - 1], Named(entries[..|entries| - 1], e);
      if !Denotes(last, e) then rest else Larger(rest, last.weight)
  }

  /** What the client thinks of `e`: its weight by name, else that of `*`, else not acceptable. */
  function WeightIn(entries: seq<Entry>, e: Encoding): nat {
    var named, star := Named(entries, e), Star(entries);
    if named.Some? then named.value else if star.Some? then star.value else 0
  }

  function ClientWeight(accept: string, e: Encoding): nat {
    WeightIn(Entries(Split(accept, ',')), e)
  }

  // ----- A header written out is read back -----

  /** A coding's name as RFC 9110 writes one, in lower case. */
  predicate Token(s: string) {
    s != "" && Trim(s) == s && Lower(s) == s && ',' !in s && ';' !in s
  }

  function Item(entry: Entry): string
    requires entry.weight <= WHOLE
  {
    entry.token + [';'] + ("q" + ['='] + Decimal(entry.weight))
  }

  function Items(entries: seq<Entry>): (items: seq<string>)
    requires forall i :: 0 <= i < |entries| ==> entries[i].weight <= WHOLE
    ensures |items| == |entries| && forall i :: 0 <= i < |items| ==> items[i] == Item(entries[i])
  {
    seq(|entries|, i requires 0 <= i < |entries| => Item(entries[i]))
  }

  lemma DecimalIsPlain(weight: nat)
    requires weight <= WHOLE
    ensures Trim(Decimal(weight)) == Decimal(weight) && ',' !in Decimal(weight) && ';' !in Decimal(weight)
  {
  }

  lemma ParamIsRead(weight: nat)
    requires weight <= WHOLE
    ensures var param := "q" + ['='] + Decimal(weight);
      ',' !in param && ';' !in param && LastWeight([param], Some(WHOLE)) == Some(weight)
  {
    var param := "q" + ['='] + Decimal(weight);
    DecimalIsPlain(weight);
    QValueReadsDecimals(weight);
    SplitOnceAt("q", Decimal(weight), '=');
    assert Trim("q") == "q" && Lower("q") == "q" && [param][1..] == [];
    assert LastWeight([param], Some(WHOLE)) == LastWeight([], Some(weight));
  }

  lemma ItemIsRead(entry: Entry)
    requires Token(entry.token) && entry.weight <= WHOLE
    ensures ItemEntry(Item(entry)) == Some(entry) && ',' !in Item(entry)
  {
    var param := "q" + ['='] + Decimal(entry.weight);
    ParamIsRead(entry.weight);
    SplitFirst(entry.token, param, ';');
    SplitFirst(param, [], ';');
    assert [entry.token, param][1..] == [param];
  }

  lemma {:induction false} ItemsAreRead(entries: seq<Entry>)
    requires forall i :: 0 <= i < |entries| ==> Token(entries[i].token) && entries[i].weight <= WHOLE
    ensures Entries(Items(entries)) == entries && NowhereIn(',', Items(entries))
  {
    if entries != [] {
      var front, last := entries[..|entries| - 1], entries[|entries| - 1];
      ItemsAreRead(front);
      assert Items(entries)[..|front|] == Items(front);
      ItemIsRead(last);
      assert entries == front + [last];
    }
  }

  /** A header that lists codings with their weights is read as exactly that list. */
  lemma HeaderIsRead(entries: seq<Entry>, e: Encoding)
    requires entries != []
    requires forall i :: 0 <= i < |entries| ==> Token(entries[i].token) && entries[i].weight <= WHOLE
    ensures ClientWeight(Join(Items(entries), ','), e) == WeightIn(entries, e)
  {
    ItemsAreRead(entries);
    JoinSplits(Items(entries), ',');
  }

  // ----- The choice -----

  function Index(s: seq<Encoding>, e: Encoding): nat {
    if s == [] || s[0] == e then 0 else 1 + Index(s[1..], e)
  }

  lemma {:induction false} IndexFinds(s: seq<Encoding>, e: Encoding)
    ensures e in s <==> Index(s, e) < |s|
    ensures e in s ==> s[Index(s, e)] == e
    ensures forall i :: 0 <= i < |s| && i < Index(s, e) ==> s[i] != e
  {
    if s != [] && s[0] != e {
      IndexFinds(s[1..], e);
    }
  }

  /** `a` goes before `b`: by the client's weights `w`, then by the server's order. */
  predicate Before(w: Encoding -> nat, prefer: seq<Encoding>, a: Encoding, b: Encoding) {
    w(a) > w(b) || (w(a) == w(b) && Index(prefer, a) < Index(prefer, b))
  }

  predicate Acceptable(w: Encoding -> nat, prefer: seq<Encoding>, e: Encoding) {
    e in prefer && w(e) > 0
  }

  /** The first-preferred of the acceptable codings of the largest weight, if there is any. */
  ghost predicate Best(w: Encoding -> nat, prefer: seq<Encoding>, r: Option<Encoding>) {
    match r
    case Some(e) =>
      && Acceptable(w, prefer, e)
      && forall o :: Acceptable(w, prefer, o) && o != e ==> Before(w, prefer, e, o)
    case None => forall e :: !Acceptable(w, prefer, e)
  }

  lemma BestIsUnique(w: Encoding -> nat, prefer: seq<Encoding>, a: Option<Encoding>, b: Option<Encoding>)
    requires Best(w, prefer, a) && Best(w, prefer, b)
    ensures a == b
  {
    if a.Some? && b.Some? {
      assert a != b ==> Before(w, prefer, a.value, b.value);
    }
  }

  /** The client's weights, as a function of the coding. */
  function Weights(accept: string): Encoding -> nat {
    e => ClientWeight(accept, e)
  }

  lemma EntryAppended(entries: seq<Entry>, entry: Entry)
    ensures Star(entries + [entry]) == if entry.token == "*" then Some(entry.weight) else Star(entries)
    ensures forall e ::
      Named(entries + [entry], e)
      == if Denotes(entry, e) then Larger(Named(entries, e), entry.weight) else Named(entries, e)
  {
    assert (entries + [entry])[..|entries|] == entries;
  }

  function Larger(a: Option<nat>, b: nat): Option<nat> {
    if a.Some? && a.value > b then a else Some(b)
  }

  lemma PairAppended(weights: seq<(Encoding, nat)>, pair: (Encoding, nat))
    ensures forall e ::
      Among(weights + [pair], e) == if pair.0 == e then Larger(Among(weights, e), pair.1) else Among(weights, e)
  {
    assert (weights + [pair])[..|weights|] == weights;
  }

  /** The largest weight of `e` in a list of pairs. */
  function Among(weights: seq<(Encoding, nat)>, e: Encoding): Option<nat> {
    if weights == [] then None
    else
      var last, rest := weights[|weights| - 1], Among(weights[..|weights| - 1], e);
      if last.0 != e then rest else Larger(rest, last.1)
  }

  function WeightAmong(star: Option<nat>, weights: seq<(Encoding, nat)>, e: Encoding): nat {
    var named := Among(weights, e);
    if named.Some? then named.value else if star.Some? then star.value else 0
  }

  /** Both loops of the source over the header: the items, and each item's parameters. */
  method ReadHeader(accept: string) returns (star: Option<nat>, weights: seq<(Encoding, nat)>)
    ensures forall e :: WeightAmong(star, weights, e) == ClientWeight(accept, e)
  {
    star, weights := None, [];
    var items := Split(accept, ',');
    ghost var entries: seq<Entry> := [];
    for k := 0 to |items|
      invariant entries == Entries(items[..k])
      invariant star == Star(entries)
      invariant forall e :: Among(weights, e) == Named(entries, e)
    {
      assert items[..k + 1][..k] == items[..k] && items[..k + 1][k] == items[k];
      var parts := Split(items[k], ';');
      var token := Lower(Trim(parts[0]));
      if token == "" {
        continue;
      }
      var weight := ReadWeight(parts[1..]);
      if weight.None? {
        continue;
      }
      ghost var entry := Entry(token, weight.value);
      EntryAppended(entries, entry);
      entries := entries + [entry];
      if token == "*" {
        star := weight;
      } else if Parse(token).Some? {
        PairAppended(weights, (Parse(token).value, weight.value));
        weights := weights + [(Parse(token).value, weight.value)];
      }
    }
    assert items[..|items|] == items;
  }

  method ReadWeight(params: seq<string>) returns (weight: Option<nat>)
    ensures weight == LastWeight(params, Some(WHOLE))
  {
    weight := Some(WHOLE);
    for j := 0 to |params|
      invariant LastWeight(params[j..], weight) == LastWeight(params, Some(WHOLE))
    {
      assert params[j..][1..] == params[j + 1..];
      var split := SplitOnce(params[j], '=');
      if split.Some? && Lower(Trim(split.value.0)) == "q" {
        weight := QValue(Trim(split.value.1));
      }
    }
  }

  /** `best` is the first of the largest positive weight among the first `k`. */
  ghost predicate FirstLargest(w: Encoding -> nat, prefer: seq<Encoding>, k: nat, best: Option<Encoding>)
    requires k <= |prefer|
  {
    match best
    case None => forall i :: 0 <= i < k ==> w(prefer[i]) == 0
    case Some(e) =>
      && w(e) > 0
      && (forall i :: 0 <= i < k ==> w(prefer[i]) <= w(e))
      && exists j :: 0 <= j < k && prefer[j] == e && forall i :: 0 <= i < j ==> w(prefer[i]) < w(e)
  }

  lemma FirstLargestGrows(w: Encoding -> nat, prefer: seq<Encoding>, k: nat, best: Option<Encoding>)
    requires k < |prefer| && FirstLargest(w, prefer, k, best)
    ensures var weight := w(prefer[k]);
      FirstLargest(w, prefer, k + 1,
                   if weight > 0 && (best.None? || weight > w(best.value)) then Some(prefer[k]) else best)
  {
  }

  /** The largest weight the client gives, the server's order deciding between equals. */
  method Negotiate(accept: string, prefer: seq<Encoding>) returns (r: Option<Encoding>)
    ensures Best(Weights(accept), prefer, r)
  {
    var star, weights := ReadHeader(accept);
    ghost var w := Weights(accept);
    assert forall e :: WeightAmong(star, weights, e) == w(e);
    var best, most := None, 0;
    for k := 0 to |prefer|
      invariant FirstLargest(w, prefer, k, best) && (best.Some? ==> most == w(best.value))
    {
      FirstLargestGrows(w, prefer, k, best);
      var weight := WeightAmong(star, weights, prefer[k]);
      if weight > 0 && (best.None? || weight > most) {
        best, most := Some(prefer[k]), weight;
      }
    }
    FirstIsBest(w, prefer, best);
    r := best;
  }

  lemma FirstIsBest(w: Encoding -> nat, prefer: seq<Encoding>, best: Option<Encoding>)
    requires FirstLargest(w, prefer, |prefer|, best)
    ensures Best(w, prefer, best)
  {
    forall o
      ensures o in prefer ==> Index(prefer, o) < |prefer| && prefer[Index(prefer, o)] == o
    {
      IndexFinds(prefer, o);
    }
    if best.Some? {
      IndexFinds(prefer, best.value);
      forall o | Acceptable(w, prefer, o) && o != best.value
        ensures Before(w, prefer, best.value, o)
      {
        IndexFinds(prefer, o);
      }
    }
  }
}
