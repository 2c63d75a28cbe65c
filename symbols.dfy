/**
 * The two symbol filters: the list of tradable USDT pairs built from the
 * exchange's symbol table, and the case-insensitive search over that list
 * that shows at most thirty matches.
 */
module Symbols {

  /** One entry of the exchange's symbol table, with the fields the filter reads. */
  datatype SymbolInfo = SymbolInfo(symbol: string, status: string)

  /** Most matches the search list shows. */
  const MaxListed: nat := 30

  /** Order-preserving filter, as `Array.prototype.filter`. */
  function Filter<T>(xs: seq<T>, keep: T -> bool): (r: seq<T>)
    ensures |r| <= |xs|
    ensures forall x :: x in r ==> x in xs && keep(x)
  {
    if xs == [] then []
    else (if keep(xs[0]) then [xs[0]] else []) + Filter(xs[1..], keep)
  }

  /** Filtering a concatenation filters each part and keeps their order. */
  lemma {:induction false} FilterAppend<T>(a: seq<T>, b: seq<T>, keep: T -> bool)
    ensures Filter(a + b, keep) == Filter(a, keep) + Filter(b, keep)
  {
    if a == [] {
      assert a + b == b;
    } else {
      assert (a + b)[1..] == a[1..] + b;
      FilterAppend(a[1..], b, keep);
    }
  }

  /** Every kept element of the input survives the filter. */
  lemma {:induction false} FilterKeeps<T>(xs: seq<T>, keep: T -> bool, x: T)
    requires x in xs && keep(x)
    ensures x in Filter(xs, keep)
  {
    if xs[0] != x {
      FilterKeeps(xs[1..], keep, x);
    }
  }

  /** A filter that keeps everything is the identity. */
  lemma {:induction false} FilterAll<T>(xs: seq<T>, keep: T -> bool)
    requires forall x :: x in xs ==> keep(x)
    ensures Filter(xs, keep) == xs
  {
    if xs != [] {
      FilterAll(xs[1..], keep);
    }
  }

  /** Filters with predicates that agree on every element agree. */
  lemma {:induction false} FilterSamePredicate<T>(xs: seq<T>, f: T -> bool, g: T -> bool)
    requires forall x :: x in xs ==> f(x) == g(x)
    ensures Filter(xs, f) == Filter(xs, g)
  {
    if xs != [] {
      FilterSamePredicate(xs[1..], f, g);
    }
  }

  /** `sub` occurs in `s` starting at position `i`. */
  predicate OccursAt(s: string, sub: string, i: int) {
    0 <= i && i + |sub| <= |s| && s[i..i + |sub|] == sub
  }

  /** `String.prototype.includes`, scanning from the left. */
  function Includes(s: string, sub: string): (b: bool)
    ensures b <==> exists i :: OccursAt(s, sub, i)
  {
    if |sub| > |s| then false
    else if s[..|sub|] == sub then
      assert OccursAt(s, sub, 0);
      true
    else
      var b := Includes(s[1..], sub);
      assert b ==> exists i :: OccursAt(s, sub, i) by {
        if b {
          var i :| OccursAt(s[1..], sub, i);
          assert s[i + 1..i + 1 + |sub|] == s[1..][i..i + |sub|];
          assert OccursAt(s, sub, i + 1);
        }
      }
      assert (exists i :: OccursAt(s, sub, i)) ==> b by {
        if exists i :: OccursAt(s, sub, i) {
          var i :| OccursAt(s, sub, i);
          assert i != 0;
          assert s[1..][i - 1..i - 1 + |sub|] == s[i..i + |sub|];
          assert OccursAt(s[1..], sub, i - 1);
        }
      }
      b
  }

  /** `String.prototype.endsWith`. */
  predicate EndsWith(s: string, suffix: string)
    ensures EndsWith(s, suffix) <==>
      |suffix| <= |s| && forall i :: 0 <= i < |suffix| ==> s[|s| - |suffix| + i] == suffix[i]
  {
    |suffix| <= |s| && s[|s| - |suffix|..] == suffix
  }

  /** The condition of the tradable-pair filter. */
  predicate IsTradable(info: SymbolInfo)
    ensures IsTradable(info) <==>
      && EndsWith(info.symbol, "USDT")
      && info.status == "TRADING"
      && (forall i :: !OccursAt(info.symbol, "UP", i))
      && (forall i :: !OccursAt(info.symbol, "DOWN", i))
  {
    EndsWith(info.symbol, "USDT") && info.status == "TRADING" &&
    !Includes(info.symbol, "UP") && !Includes(info.symbol, "DOWN")
  }

  function Names(infos: seq<SymbolInfo>): (r: seq<string>)
    ensures |r| == |infos| && forall i :: 0 <= i < |infos| ==> r[i] == infos[i].symbol
  {
    seq(|infos|, i requires 0 <= i < |infos| => infos[i].symbol)
  }

  /** The tradable USDT pairs, in the order of the symbol table. */
  function TradablePairs(infos: seq<SymbolInfo>): (r: seq<string>)
    ensures |r| <= |infos|
    ensures forall i :: 0 <= i < |r| ==>
      EndsWith(r[i], "USDT") && !Includes(r[i], "UP") && !Includes(r[i], "DOWN")
  {
    var kept := Filter(infos, IsTradable);
    assert forall i :: 0 <= i < |kept| ==> IsTradable(kept[i]) by {
      forall i | 0 <= i < |kept| ensures IsTradable(kept[i]) {
        assert kept[i] in kept;
      }
    }
    Names(kept)
  }

  /** A symbol is listed exactly when some tradable entry carries it. */
  lemma TradablePairsMembership(infos: seq<SymbolInfo>, name: string)
    ensures name in TradablePairs(infos) <==>
      exists i :: 0 <= i < |infos| && IsTradable(infos[i]) && infos[i].symbol == name
  {
    var kept := Filter(infos, IsTradable);
    if name in TradablePairs(infos) {
      var j :| 0 <= j < |kept| && kept[j].symbol == name;
      assert kept[j] in infos;
    }
    if exists i :: 0 <= i < |infos| && IsTradable(infos[i]) && infos[i].symbol == name {
      var i :| 0 <= i < |infos| && IsTradable(infos[i]) && infos[i].symbol == name;
      FilterKeeps(infos, IsTradable, infos[i]);
      var j :| 0 <= j < |kept| && kept[j] == infos[i];
      assert TradablePairs(infos)[j] == name;
    }
  }

  /** The list keeps the table's order: a split table gives the two lists
      one after the other. */
  lemma TradablePairsAppend(a: seq<SymbolInfo>, b: seq<SymbolInfo>)
    ensures TradablePairs(a + b) == TradablePairs(a) + TradablePairs(b)
  {
    FilterAppend(a, b, IsTradable);
  }

  /** ASCII lower-casing of one character. */
  function LowerChar(c: char): (d: char)
    ensures 'A' <= c <= 'Z' ==> d as int == c as int + 32
    ensures !('A' <= c <= 'Z') ==> d == c
    ensures !('A' <= d <= 'Z')
  {
    if 'A' <= c <= 'Z' then (c as int + 32) as char else c
  }

  /** ASCII lower-casing of a string. */
  function ToLower(s: string): (r: string)
    ensures |r| == |s| && forall i :: 0 <= i < |s| ==> r[i] == LowerChar(s[i])
  {
    seq(|s|, i requires 0 <= i < |s| => LowerChar(s[i]))
  }

  /** Lower-casing twice is lower-casing once. */
  lemma ToLowerIdempotent(s: string)
    ensures ToLower(ToLower(s)) == ToLower(s)
  {
    assert forall i :: 0 <= i < |s| ==> ToLower(ToLower(s))[i] == ToLower(s)[i];
  }

  /** The search-match condition for one symbol. */
  predicate Matches(filter: string, sym: string) {
    Includes(ToLower(sym), ToLower(filter))
  }

  function Take<T>(xs: seq<T>, n: nat): (r: seq<T>)
    ensures |r| <= n && |r| <= |xs| && r == xs[..|r|]
    ensures |r| == if |xs| <= n then |xs| else n
  {
    if |xs| <= n then xs else xs[..n]
  }

  /** The search list: the first thirty symbols whose lower-case form
      contains the lower-case filter, in list order. */
  function SearchPairs(all: seq<string>, filter: string): (r: seq<string>)
    ensures |r| <= MaxListed && |r| <= |all|
    ensures forall x :: x in r ==> x in all && Includes(ToLower(x), ToLower(filter))
  {
    Take(Filter(all, (sym: string) => Matches(filter, sym)), MaxListed)
  }

  /** The list for a split input is the first thirty of the two lists one
      after the other: matches are taken in list order. */
  lemma SearchPairsAppend(a: seq<string>, b: seq<string>, filter: string)
    ensures SearchPairs(a + b, filter) == Take(SearchPairs(a, filter) + SearchPairs(b, filter), MaxListed)
  {
    var keep := (sym: string) => Matches(filter, sym);
    FilterAppend(a, b, keep);
    var fa, fb := Filter(a, keep), Filter(b, keep);
    if |fa| > MaxListed {
      assert (fa + fb)[..MaxListed] == fa[..MaxListed] == (fa[..MaxListed] + Take(fb, MaxListed))[..MaxListed];
    } else {
      assert Take(fb, MaxListed) == fb[..|Take(fb, MaxListed)|];
      assert (fa + fb)[..|Take(fa + fb, MaxListed)|] == (fa + Take(fb, MaxListed))[..|Take(fa + fb, MaxListed)|];
    }
  }

  /** Once thirty matches have been found, later symbols are never shown. */
  lemma FirstThirty(a: seq<string>, b: seq<string>, filter: string)
    requires |Filter(a, (sym: string) => Matches(filter, sym))| >= MaxListed
    ensures SearchPairs(a + b, filter) == SearchPairs(a, filter)
  {
    var keep := (sym: string) => Matches(filter, sym);
    FilterAppend(a, b, keep);
    assert (Filter(a, keep) + Filter(b, keep))[..MaxListed] == Filter(a, keep)[..MaxListed];
  }

  /** A one-symbol list shows that symbol exactly when it matches. */
  lemma SearchSingleton(x: string, filter: string)
    ensures SearchPairs([x], filter) == if Matches(filter, x) then [x] else []
  {
    if Matches(filter, x) {
      SearchShowsEveryMatch([x], filter, x);
    }
  }

  /** The search ignores the case of the filter. */
  lemma SearchIgnoresFilterCase(all: seq<string>, filter: string)
    ensures SearchPairs(all, ToLower(filter)) == SearchPairs(all, filter)
  {
    ToLowerIdempotent(filter);
    FilterSamePredicate(all, (sym: string) => Matches(ToLower(filter), sym), (sym: string) => Matches(filter, sym));
  }

  /** A matching symbol is shown unless the list is already full. */
  lemma SearchShowsEveryMatch(all: seq<string>, filter: string, sym: string)
    requires sym in all && Matches(filter, sym)
    ensures sym in SearchPairs(all, filter) || |SearchPairs(all, filter)| == MaxListed
  {
    FilterKeeps(all, (s: string) => Matches(filter, s), sym);
  }

  /** An empty filter matches everything: the list shows the first thirty
      symbols. */
  lemma SearchEmptyFilter(all: seq<string>)
    ensures SearchPairs(all, "") == Take(all, MaxListed)
  {
    var keep := (s: string) => Matches("", s);
    forall x | x in all ensures keep(x) {
      assert OccursAt(ToLower(x), ToLower(""), 0);
    }
    FilterAll(all, keep);
  }
}
