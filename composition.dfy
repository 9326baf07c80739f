/** The composition-pattern compiler: `process_composition_query` in
    src/structdbrest/query.py. A pattern such as "Al2Cu" or "*Cu" is scanned
    into (element, quantity) pairs by the regular expression
    `([A-Z][a-z]?)[-]?([0-9%])?|\*` (applied with `findall`), the pairs are
    stably sorted by element, and the query string and the number of atom
    types are assembled from them. */
module Composition {

  predicate IsUpper(c: char) { 'A' <= c <= 'Z' }
  predicate IsLower(c: char) { 'a' <= c <= 'z' }
  predicate IsQuantity(c: char) { '0' <= c <= '9' || c == '%' }

  /** One match of the pattern: its two groups. A bare `*` matches with both
      groups unmatched, which `findall` reports as ("", ""). */
  datatype Pair = Pair(el: string, quant: string)

  /** What a single match can look like. */
  predicate WellFormedPair(p: Pair) {
    || (p.el == "" && p.quant == "")
    || (&& 1 <= |p.el| <= 2 && IsUpper(p.el[0]) && (|p.el| == 2 ==> IsLower(p.el[1]))
        && (p.quant == "" || (|p.quant| == 1 && IsQuantity(p.quant[0]))))
  }

  /** The match of `([A-Z][a-z]?)[-]?([0-9%])?` at the start of s, which
      begins with an upper-case letter: the pair of groups and the length
      consumed. Each optional part is taken greedily. */
  function ElementMatch(s: string): (m: (Pair, nat))
    requires s != [] && IsUpper(s[0])
    ensures 1 <= m.1 <= |s| && WellFormedPair(m.0) && m.0.el != ""
    ensures forall i :: 1 <= i < m.1 ==> !IsUpper(s[i]) && s[i] != '*'
  {
    var e := if |s| > 1 && IsLower(s[1]) then 2 else 1;
    var q := if |s| > e && s[e] == '-' then e + 1 else e;
    var end := if |s| > q && IsQuantity(s[q]) then q + 1 else q;
    (Pair(s[..e], s[q..end]), end)
  }

  /** `findall` of the pattern over s, as a scanner: an upper-case letter
      starts an element match, '*' is a match on its own, and any other
      character is skipped. */
  function FindAll(s: string): (r: seq<Pair>)
    decreases |s|
  {
    if s == [] then []
    else if s[0] == '*' then [Pair("", "")] + FindAll(s[1..])
    else if IsUpper(s[0]) then
      var (p, n) := ElementMatch(s);
      [p] + FindAll(s[n..])
    else FindAll(s[1..])
  }

  /** Number of upper-case letters in s. */
  function UpperCount(s: string): nat {
    if s == [] then 0 else (if IsUpper(s[0]) then 1 else 0) + UpperCount(s[1..])
  }

  /** Skipping a prefix without upper-case letters keeps the count. */
  lemma {:induction false} UpperCountSkip(s: string, k: nat)
    requires k <= |s|
    requires forall i :: 0 <= i < k ==> !IsUpper(s[i])
    ensures UpperCount(s) == UpperCount(s[k..])
  {
    if k > 0 {
      assert s[1..][k - 1..] == s[k..];
      UpperCountSkip(s[1..], k - 1);
    }
  }

  /** The query item of one element pair: "El-q", the quantity defaulting to "1". */
  function ItemText(p: Pair): string {
    p.el + "-" + (if p.quant == "" then "1" else p.quant)
  }

  /** The items of the element pairs, in order; wildcard pairs give none. */
  function ElementItems(ps: seq<Pair>): seq<string> {
    if ps == [] then []
    else (if ps[0].el != "" then [ItemText(ps[0])] else []) + ElementItems(ps[1..])
  }

  predicate HasWildcard(ps: seq<Pair>) {
    exists i :: 0 <= i < |ps| && ps[i].el == ""
  }

  lemma {:induction false} ElementItemsAppend(a: seq<Pair>, b: seq<Pair>)
    ensures ElementItems(a + b) == ElementItems(a) + ElementItems(b)
  {
    if a == [] {
      assert a + b == b;
    } else {
      assert (a + b)[0] == a[0] && (a + b)[1..] == a[1..] + b;
      ElementItemsAppend(a[1..], b);
    }
  }

  lemma {:induction false} FindAllWellFormed(s: string)
    ensures forall p :: p in FindAll(s) ==> WellFormedPair(p)
    decreases |s|
  {
    if s == [] {
    } else if s[0] == '*' {
      FindAllWellFormed(s[1..]);
    } else if IsUpper(s[0]) {
      FindAllWellFormed(s[ElementMatch(s).1..]);
    } else {
      FindAllWellFormed(s[1..]);
    }
  }

  /** There is one element match per upper-case letter of the input. */
  lemma {:induction false} FindAllElementCount(s: string)
    ensures |ElementItems(FindAll(s))| == UpperCount(s)
    decreases |s|
  {
    if s == [] {
    } else if s[0] == '*' {
      FindAllElementCount(s[1..]);
      ElementItemsAppend([Pair("", "")], FindAll(s[1..]));
    } else if IsUpper(s[0]) {
      var (p, n) := ElementMatch(s);
      FindAllElementCount(s[n..]);
      ElementItemsAppend([p], FindAll(s[n..]));
      UpperCountSkip(s[1..], n - 1);
      assert s[1..][n - 1..] == s[n..];
    } else {
      FindAllElementCount(s[1..]);
    }
  }

  lemma HasWildcardCons(p: Pair, r: seq<Pair>)
    ensures HasWildcard([p] + r) <==> p.el == "" || HasWildcard(r)
  {
    if HasWildcard(r) {
      var i :| 0 <= i < |r| && r[i].el == "";
      assert ([p] + r)[i + 1] == r[i];
    }
    assert ([p] + r)[0] == p;
    if HasWildcard([p] + r) {
      var i :| 0 <= i < |[p] + r| && ([p] + r)[i].el == "";
      if i > 0 {
        assert r[i - 1].el == "";
      }
    }
  }

  lemma StarSkip(s: string, n: nat)
    requires n <= |s|
    requires forall i :: 0 <= i < n ==> s[i] != '*'
    ensures '*' in s <==> '*' in s[n..]
  {
    if '*' in s {
      var j :| 0 <= j < |s| && s[j] == '*';
      assert s[n..][j - n] == '*';
    }
  }

  /** There is a wildcard match exactly when the input holds a '*'. */
  lemma {:induction false} FindAllWildcard(s: string)
    ensures HasWildcard(FindAll(s)) <==> '*' in s
    decreases |s|
  {
    if s == [] {
    } else if s[0] == '*' {
      FindAllWildcard(s[1..]);
      HasWildcardCons(Pair("", ""), FindAll(s[1..]));
    } else if IsUpper(s[0]) {
      var (p, n) := ElementMatch(s);
      FindAllWildcard(s[n..]);
      HasWildcardCons(p, FindAll(s[n..]));
      StarSkip(s, n);
    } else {
      FindAllWildcard(s[1..]);
      StarSkip(s, 1);
    }
  }

  /** Python's `<=` on strings: lexicographic by code point. */
  predicate KeyLe(a: string, b: string) {
    a == [] || (b != [] && (a[0] < b[0] || (a[0] == b[0] && KeyLe(a[1..], b[1..]))))
  }

  lemma {:induction false} KeyLeTotal(a: string, b: string)
    ensures KeyLe(a, b) || KeyLe(b, a)
  {
    if a != [] && b != [] && a[0] == b[0] {
      KeyLeTotal(a[1..], b[1..]);
    }
  }

  lemma {:induction false} KeyLeReflexive(a: string)
    ensures KeyLe(a, a)
  {
    if a != [] {
      KeyLeReflexive(a[1..]);
    }
  }

  lemma {:induction false} KeyLeAntisymmetric(a: string, b: string)
    requires KeyLe(a, b) && KeyLe(b, a)
    ensures a == b
  {
    if a != [] {
      KeyLeAntisymmetric(a[1..], b[1..]);
      assert a == [a[0]] + a[1..] && b == [b[0]] + b[1..];
    }
  }

  lemma {:induction false} KeyLeTransitive(a: string, b: string, c: string)
    requires KeyLe(a, b) && KeyLe(b, c)
    ensures KeyLe(a, c)
  {
    if a != [] && a[0] == b[0] && b[0] == c[0] {
      KeyLeTransitive(a[1..], b[1..], c[1..]);
    }
  }

  predicate Sorted(ps: seq<Pair>) {
    forall i :: 0 <= i < |ps| - 1 ==> KeyLe(ps[i].el, ps[i + 1].el)
  }

  /** The pairs with element k, in their order. */
  function WithKey(ps: seq<Pair>, k: string): seq<Pair> {
    if ps == [] then []
    else (if ps[0].el == k then [ps[0]] else []) + WithKey(ps[1..], k)
  }

  /** Insert p before the first pair whose element is not smaller. */
  function Insert(p: Pair, t: seq<Pair>): (r: seq<Pair>)
    ensures multiset(r) == multiset{p} + multiset(t)
    ensures Sorted(t) ==> Sorted(r)
    ensures r != [] && (r[0] == p || (t != [] && r[0] == t[0]))
  {
    if t == [] then [p]
    else if KeyLe(p.el, t[0].el) then [p] + t
    else
      KeyLeTotal(p.el, t[0].el);
      assert t == [t[0]] + t[1..];
      [t[0]] + Insert(p, t[1..])
  }

  lemma {:induction false} InsertWithKey(p: Pair, t: seq<Pair>, k: string)
    ensures WithKey(Insert(p, t), k) == if p.el == k then [p] + WithKey(t, k) else WithKey(t, k)
  {
    if t == [] {
    } else if KeyLe(p.el, t[0].el) {
      assert ([p] + t)[1..] == t;
    } else {
      KeyLeReflexive(p.el);
      assert t[0].el != p.el;
      InsertWithKey(p, t[1..], k);
      assert ([t[0]] + Insert(p, t[1..]))[1..] == Insert(p, t[1..]);
    }
  }

  /** Python's `sorted(pairs, key=lambda d: d[0])`: the result is ordered by
      element and is a permutation of the input. */
  function SortByElement(ps: seq<Pair>): (r: seq<Pair>)
    ensures Sorted(r)
    ensures multiset(r) == multiset(ps)
  {
    if ps == [] then []
    else
      assert ps == [ps[0]] + ps[1..];
      Insert(ps[0], SortByElement(ps[1..]))
  }

  /** The sort is stable: the pairs with any one element keep their
      relative order. */
  lemma {:induction false} SortIsStable(ps: seq<Pair>, k: string)
    ensures WithKey(SortByElement(ps), k) == WithKey(ps, k)
  {
    if ps != [] {
      SortIsStable(ps[1..], k);
      InsertWithKey(ps[0], SortByElement(ps[1..]), k);
    }
  }

  /** Wildcard pairs come first after sorting. */
  lemma {:induction false} WildcardsFirst(ps: seq<Pair>, j: nat)
    requires Sorted(ps) && j < |ps| && ps[j].el == ""
    ensures forall i :: 0 <= i < j ==> ps[i].el == ""
  {
    if j > 0 {
      assert KeyLe(ps[j - 1].el, ps[j].el);
      WildcardsFirst(ps, j - 1);
    }
  }

  lemma {:induction false} InsertElementCount(p: Pair, t: seq<Pair>)
    ensures |ElementItems(Insert(p, t))| == |ElementItems([p])| + |ElementItems(t)|
  {
    if t == [] {
    } else if KeyLe(p.el, t[0].el) {
      ElementItemsAppend([p], t);
    } else {
      InsertElementCount(p, t[1..]);
      ElementItemsAppend([t[0]], Insert(p, t[1..]));
      ElementItemsAppend([t[0]], t[1..]);
      ElementItemsAppend([p], t[1..]);
      assert [t[0]] + t[1..] == t;
    }
  }

  lemma SortKeepsMembers(ps: seq<Pair>)
    ensures forall p :: p in SortByElement(ps) <==> p in ps
  {
    var r := SortByElement(ps);
    forall p ensures p in r <==> p in ps {
      assert p in r <==> p in multiset(r);
      assert p in ps <==> p in multiset(ps);
    }
  }

  /** Sorting neither adds nor drops wildcards. */
  lemma SortKeepsWildcard(ps: seq<Pair>)
    ensures HasWildcard(SortByElement(ps)) <==> HasWildcard(ps)
  {
    var r := SortByElement(ps);
    SortKeepsMembers(ps);
    if HasWildcard(r) {
      var i :| 0 <= i < |r| && r[i].el == "";
      assert r[i] in ps;
    }
    if HasWildcard(ps) {
      var i :| 0 <= i < |ps| && ps[i].el == "";
      assert ps[i] in r;
    }
  }

  /** Sorting neither adds nor drops element pairs. */
  lemma {:induction false} SortKeepsElementCount(ps: seq<Pair>)
    ensures |ElementItems(SortByElement(ps))| == |ElementItems(ps)|
  {
    if ps != [] {
      SortKeepsElementCount(ps[1..]);
      InsertElementCount(ps[0], SortByElement(ps[1..]));
      ElementItemsAppend([ps[0]], ps[1..]);
      assert [ps[0]] + ps[1..] == ps;
    }
  }

  /** `sep.join(items)`. */
  function Join(sep: string, items: seq<string>): (r: string)
    ensures items == [] ==> r == []
    ensures items != [] ==> |items[0]| <= |r| && r[..|items[0]|] == items[0]
  {
    if items == [] then ""
    else if |items| == 1 then items[0]
    else items[0] + sep + Join(sep, items[1..])
  }

  /** Two items are joined by one separator. */
  lemma JoinPair(sep: string, a: string, b: string)
    ensures Join(sep, [a, b]) == a + sep + b
  {
    assert [a, b][1..] == [b];
  }

  /** Python's `s.replace("%%", "%")`: a single left-to-right pass over
      non-overlapping occurrences. */
  function CollapsePercent(s: string): (r: string)
    ensures |r| <= |s|
  {
    if |s| >= 2 && s[0] == '%' && s[1] == '%' then "%" + CollapsePercent(s[2..])
    else if s == [] then []
    else [s[0]] + CollapsePercent(s[1..])
  }

  predicate NoDoublePercent(s: string) {
    forall i :: 0 <= i < |s| - 1 ==> !(s[i] == '%' && s[i + 1] == '%')
  }

  lemma {:induction false} CollapseWithoutDouble(s: string)
    requires NoDoublePercent(s)
    ensures CollapsePercent(s) == s
  {
    if s != [] {
      assert NoDoublePercent(s[1..]) by {
        forall i | 0 <= i < |s[1..]| - 1 ensures !(s[1..][i] == '%' && s[1..][i + 1] == '%') {
          assert s[1..][i] == s[i + 1] && s[1..][i + 1] == s[i + 2];
        }
      }
      CollapseWithoutDouble(s[1..]);
    }
  }

  /** The pass can be split where no "%%" straddles the cut. */
  lemma {:induction false} CollapseSplit(a: string, b: string)
    requires a == [] || a[|a| - 1] != '%' || b == [] || b[0] != '%'
    ensures CollapsePercent(a + b) == CollapsePercent(a) + CollapsePercent(b)
    decreases |a|, 1
  {
    if a == [] {
      assert a + b == b;
    } else if |a| >= 2 && a[0] == '%' && a[1] == '%' {
      CollapseSplitDouble(a, b);
    } else {
      CollapseSplitSingle(a, b);
    }
  }

  /** CollapseSplit when a starts with "%%". */
  lemma {:induction false} CollapseSplitDouble(a: string, b: string)
    requires |a| >= 2 && a[0] == '%' && a[1] == '%'
    requires a[|a| - 1] != '%' || b == [] || b[0] != '%'
    ensures CollapsePercent(a + b) == CollapsePercent(a) + CollapsePercent(b)
    decreases |a|, 0
  {
    assert (a + b)[2..] == a[2..] + b;
    CollapseSplit(a[2..], b);
  }

  /** CollapseSplit when a does not start with "%%". */
  lemma {:induction false} CollapseSplitSingle(a: string, b: string)
    requires a != [] && !(|a| >= 2 && a[0] == '%' && a[1] == '%')
    requires a[|a| - 1] != '%' || b == [] || b[0] != '%'
    ensures CollapsePercent(a + b) == CollapsePercent(a) + CollapsePercent(b)
    decreases |a|, 0
  {
    if |a| == 1 {
      assert (a + b)[1..] == b;
    } else {
      assert (a + b)[1..] == a[1..] + b;
      CollapseSplit(a[1..], b);
    }
  }

  lemma NoDoubleConcat(a: string, b: string)
    requires NoDoublePercent(a) && NoDoublePercent(b)
    requires a == [] || b == [] || a[|a| - 1] != '%' || b[0] != '%'
    ensures NoDoublePercent(a + b)
  {
    forall i | 0 <= i < |a + b| - 1 ensures !((a + b)[i] == '%' && (a + b)[i + 1] == '%') {
      if i < |a| - 1 {
        assert (a + b)[i] == a[i] && (a + b)[i + 1] == a[i + 1];
      } else if i == |a| - 1 {
        assert (a + b)[i] == a[|a| - 1] && (a + b)[i + 1] == b[0];
      } else {
        assert (a + b)[i] == b[i - |a|] && (a + b)[i + 1] == b[i - |a| + 1];
      }
    }
  }

  /** A query item: an element symbol and '-' (no '%'), then one character. */
  predicate WellFormedItem(t: string) {
    |t| >= 2 && IsUpper(t[0]) && forall i :: 0 <= i < |t| - 1 ==> t[i] != '%'
  }

  lemma ItemsWellFormed(ps: seq<Pair>)
    requires forall p :: p in ps ==> WellFormedPair(p)
    ensures forall t :: t in ElementItems(ps) ==> WellFormedItem(t)
  {
    if ps != [] {
      assert ps[0] in ps;
      assert forall p :: p in ps[1..] ==> p in ps;
      ItemsWellFormed(ps[1..]);
      ElementItemsAppend([ps[0]], ps[1..]);
      assert [ps[0]] + ps[1..] == ps;
    }
  }

  lemma {:induction false} SpaceJoinNoDouble(items: seq<string>)
    requires forall t :: t in items ==> WellFormedItem(t)
    ensures NoDoublePercent(Join(" ", items))
  {
    if |items| > 1 {
      SpaceJoinNoDouble(items[1..]);
      var head := items[0];
      assert head in items;
      NoDoubleConcat(head, " ");
      NoDoubleConcat(head + " ", Join(" ", items[1..]));
    } else if |items| == 1 {
      assert items[0] in items;
    }
  }

  /** One item followed by its '%' separator, after the pass. */
  lemma ItemThenPercent(t: string)
    requires WellFormedItem(t)
    ensures var r := CollapsePercent(t + "%");
      |r| >= 2 && r[0] == t[0] && r[|r| - 1] == '%' && NoDoublePercent(r)
  {
    var init := t[..|t| - 1];
    var c := t[|t| - 1];
    assert t + "%" == init + [c, '%'];
    CollapseSplit(init, [c, '%']);
    assert NoDoublePercent(init);
    CollapseWithoutDouble(init);
    var tail := CollapsePercent([c, '%']);
    assert tail == if c == '%' then "%" else [c, '%'];
    assert NoDoublePercent(tail);
    NoDoubleConcat(init, tail);
  }

  /** `"%".join(items) + "%"` after the pass: starts with the first
      element's letter, ends with '%', and holds no "%%". */
  lemma {:induction false} PercentJoinShape(items: seq<string>)
    requires items != []
    requires forall t :: t in items ==> WellFormedItem(t)
    ensures var r := CollapsePercent(Join("%", items) + "%");
      |r| >= 2 && IsUpper(r[0]) && r[|r| - 1] == '%' && NoDoublePercent(r)
  {
    assert items[0] in items;
    ItemThenPercent(items[0]);
    if |items| > 1 {
      var rest := Join("%", items[1..]) + "%";
      PercentJoinShape(items[1..]);
      assert items[1] in items;
      assert Join("%", items) + "%" == (items[0] + "%") + rest;
      assert rest[0] == items[1][0];
      CollapseSplit(items[0] + "%", rest);
      NoDoubleConcat(CollapsePercent(items[0] + "%"), CollapsePercent(rest));
    }
  }

  /** The wildcard query `"%" + "%".join(items) + "%"` after the pass. */
  lemma WildcardQueryShape(items: seq<string>)
    requires forall t :: t in items ==> WellFormedItem(t)
    ensures var r := CollapsePercent("%" + Join("%", items) + "%");
      |r| >= 1 && r[0] == '%' && r[|r| - 1] == '%' && NoDoublePercent(r)
  {
    if items != [] {
      var rest := Join("%", items) + "%";
      PercentJoinShape(items);
      assert items[0] in items;
      assert "%" + Join("%", items) + "%" == "%" + rest;
      CollapseSplit("%", rest);
      NoDoubleConcat("%", CollapsePercent(rest));
    } else {
      assert "%" + Join("%", items) + "%" == "%%";
    }
  }

  /** The (query, number of atom types) that `process_composition_query`
      returns for c. */
  function Compiled(c: string): (r: (string, int))
    ensures r.1 >= -1
    ensures r.1 == -1 <==> (c == "%" || '*' in c)
  {
    if c == "%" then ("%", -1)
    else
      FindAllWildcard(c);
      SortKeepsWildcard(FindAll(c));
      var pairs := SortByElement(FindAll(c));
      var items := ElementItems(pairs);
      if !HasWildcard(pairs) then (CollapsePercent(Join(" ", items)), |items|)
      else (CollapsePercent("%" + Join("%", items) + "%"), -1)
  }

  /** `process_composition_query`: the bare "%" first, then the scan, the
      sort, the loop over the pairs and the final replacement. */
  method CompileQuery(c: string) returns (query: string, atomTypes: int)
    ensures (query, atomTypes) == Compiled(c)
  {
    if c == "%" {
      return "%", -1;
    }
    var pairs := SortByElement(FindAll(c));
    var items, wildcard;
    items, atomTypes, wildcard := CollectItems(pairs);
    if !wildcard {
      query := Join(" ", items);
    } else {
      atomTypes := -1;
      query := "%" + Join("%", items) + "%";
    }
    query := CollapsePercent(query);
  }

  /** The loop over the sorted pairs: an item and a count per element
      pair, and a flag for a wildcard pair. */
  method CollectItems(pairs: seq<Pair>) returns (items: seq<string>, count: int, wildcard: bool)
    ensures items == ElementItems(pairs) && count == |items|
    ensures wildcard <==> HasWildcard(pairs)
  {
    items := [];
    wildcard := false;
    count := 0;
    for i := 0 to |pairs|
      invariant items == ElementItems(pairs[..i])
      invariant count == |items|
      invariant wildcard <==> HasWildcard(pairs[..i])
    {
      var el, quant := pairs[i].el, pairs[i].quant;
      if quant == "" {
        quant := "1";
      }
      ElementItemsAppend(pairs[..i], [pairs[i]]);
      assert pairs[..i + 1] == pairs[..i] + [pairs[i]];
      if el != "" {
        items := items + [el + "-" + quant];
        count := count + 1;
      } else {
        assert pairs[..i + 1][i].el == "";
        wildcard := true;
      }
    }
    assert pairs[..|pairs|] == pairs;
  }

  /** With a '*' in the pattern (other than the bare "%"), the number of
      atom types is -1, and the query is the items of the element-sorted
      pairs joined by '%', wrapped in '%', with no "%%" left. */
  lemma WildcardPattern(c: string)
    requires c != "%" && '*' in c
    ensures var (query, atomTypes) := Compiled(c);
      atomTypes == -1 && |query| >= 1 && query[0] == '%' && query[|query| - 1] == '%'
      && NoDoublePercent(query)
      && query == CollapsePercent("%" + Join("%", ElementItems(SortByElement(FindAll(c)))) + "%")
      && Sorted(SortByElement(FindAll(c)))
  {
    var pairs := SortByElement(FindAll(c));
    FindAllWellFormed(c);
    FindAllWildcard(c);
    FindAllElementCount(c);
    SortKeepsWildcard(FindAll(c));
    SortKeepsElementCount(FindAll(c));
    SortKeepsMembers(FindAll(c));
    ItemsWellFormed(pairs);
    WildcardQueryShape(ElementItems(pairs));
  }

  /** Without a '*', the number of atom types is the number of element
      tokens (one per upper-case letter, repeats included), and the query is
      the items of the element-sorted pairs joined by spaces. */
  lemma PlainPattern(c: string)
    requires c != "%" && '*' !in c
    ensures var pairs := SortByElement(FindAll(c));
      && Compiled(c).1 == |ElementItems(FindAll(c))| == UpperCount(c)
      && Compiled(c).0 == Join(" ", ElementItems(pairs))
      && Sorted(pairs)
  {
    var pairs := SortByElement(FindAll(c));
    FindAllWellFormed(c);
    FindAllWildcard(c);
    FindAllElementCount(c);
    SortKeepsWildcard(FindAll(c));
    SortKeepsElementCount(FindAll(c));
    SortKeepsMembers(FindAll(c));
    ItemsWellFormed(pairs);
    SpaceJoinNoDouble(ElementItems(pairs));
    CollapseWithoutDouble(Join(" ", ElementItems(pairs)));
  }
}
