/** The grouping step of `getCategoryRows`: products are grouped into rows by
    their free-text category label, in the order each label is first seen,
    and each row gets an id derived from its label. */
module CategoryRows {
  import opened Sequences
  import opened Text
  import opened InvestmentTypes

  // ---------------------------------------------------------------------
  // Row ids: `toLowerCase()` then `replace(/\s+/g, '-')`

  /** The whitespace at the front of `s`, dropped. */
  function DropWhitespace(s: string): (r: string)
    ensures |r| <= |s| && r == s[|s| - |r|..]
    ensures r == [] || !IsWhitespace(r[0])
    ensures forall k :: 0 <= k < |s| - |r| ==> IsWhitespace(s[k])
  {
    if s == [] || !IsWhitespace(s[0]) then s else DropWhitespace(s[1..])
  }

  /** `s.replace(/\s+/g, '-')`: every maximal run of whitespace becomes one '-'. */
  function CollapseWhitespace(s: string): (r: string)
    ensures |r| <= |s|
    ensures forall k :: 0 <= k < |r| ==> !IsWhitespace(r[k])
    ensures forall k :: 0 <= k < |r| ==> r[k] == '-' || r[k] in s
  {
    if s == [] then []
    else if IsWhitespace(s[0]) then
      var rest := DropWhitespace(s);
      assert |rest| < |s|;
      var r := "-" + CollapseWhitespace(rest);
      assert forall k :: 1 <= k < |r| ==> r[k] == '-' || r[k] in s by {
        forall k | 1 <= k < |r| && r[k] != '-' ensures r[k] in s {
          var m :| 0 <= m < |rest| && rest[m] == r[k];
          assert s[|s| - |rest| + m] == rest[m];
        }
      }
      r
    else [s[0]] + CollapseWhitespace(s[1..])
  }

  /** The id of the row for category label `l`. */
  function Slug(l: string): (id: string)
    ensures |id| <= |l|
    ensures forall k :: 0 <= k < |id| ==> !IsWhitespace(id[k]) && !('A' <= id[k] <= 'Z')
  {
    var lower := ToLower(l);
    var id := CollapseWhitespace(lower);
    assert forall k :: 0 <= k < |id| ==> !('A' <= id[k] <= 'Z') by {
      forall k | 0 <= k < |id| && id[k] != '-' ensures !('A' <= id[k] <= 'Z') {
        var m :| 0 <= m < |lower| && lower[m] == id[k];
      }
    }
    id
  }

  /** Without whitespace, the id is the lower-cased label. */
  lemma {:induction false} CollapseWithoutWhitespace(s: string)
    requires forall k :: 0 <= k < |s| ==> !IsWhitespace(s[k])
    ensures CollapseWhitespace(s) == s
  {
    if s != [] {
      CollapseWithoutWhitespace(s[1..]);
      assert s == [s[0]] + s[1..];
    }
  }

  lemma SlugOfWord(w: string)
    requires forall k :: 0 <= k < |w| ==> !IsWhitespace(w[k])
    ensures Slug(w) == ToLower(w)
  {
    CollapseWithoutWhitespace(ToLower(w));
  }

  /** An id is its own id. */
  lemma SlugIdempotent(l: string)
    ensures Slug(Slug(l)) == Slug(l)
  {
    var id := Slug(l);
    assert ToLower(id) == id;
    SlugOfWord(id);
  }

  lemma {:induction false} CollapseOfWords(w: string, run: string, rest: string)
    requires forall k :: 0 <= k < |w| ==> !IsWhitespace(w[k])
    requires |run| > 0 && forall k :: 0 <= k < |run| ==> IsWhitespace(run[k])
    requires rest == [] || !IsWhitespace(rest[0])
    ensures CollapseWhitespace(w + run + rest) == w + "-" + CollapseWhitespace(rest)
    decreases |w|
  {
    if w == [] {
      assert w + run + rest == run + rest;
      CollapseRun(run, rest);
    } else {
      var t := w[1..] + run + rest;
      CollapseOfWords(w[1..], run, rest);
      Regroup(w, run, rest);
      Regroup(w, "-", CollapseWhitespace(rest));
      CollapseWord(w[0], t);
    }
  }

  lemma Regroup(w: string, x: string, y: string)
    requires w != []
    ensures w + x + y == [w[0]] + (w[1..] + x + y)
  {
  }

  /** A character other than whitespace is kept as it is. */
  lemma CollapseWord(c: char, t: string)
    requires !IsWhitespace(c)
    ensures CollapseWhitespace([c] + t) == [c] + CollapseWhitespace(t)
  {
    assert ([c] + t)[1..] == t;
  }

  /** A run of whitespace before a word becomes one '-'. */
  lemma CollapseRun(run: string, rest: string)
    requires |run| > 0 && forall k :: 0 <= k < |run| ==> IsWhitespace(run[k])
    requires rest == [] || !IsWhitespace(rest[0])
    ensures CollapseWhitespace(run + rest) == "-" + CollapseWhitespace(rest)
  {
    DropRun(run, rest);
    assert (run + rest)[0] == run[0];
  }

  /** A word followed by a run of whitespace: the word lower-cased, one '-',
      and the id of the rest. */
  lemma SlugOfWords(w: string, run: string, rest: string)
    requires forall k :: 0 <= k < |w| ==> !IsWhitespace(w[k])
    requires |run| > 0 && forall k :: 0 <= k < |run| ==> IsWhitespace(run[k])
    requires rest == [] || !IsWhitespace(rest[0])
    ensures Slug(w + run + rest) == ToLower(w) + "-" + Slug(rest)
  {
    assert ToLower(w + run + rest) == ToLower(w) + ToLower(run) + ToLower(rest);
    CollapseOfWords(ToLower(w), ToLower(run), ToLower(rest));
  }

  lemma {:induction false} DropRun(run: string, rest: string)
    requires forall k :: 0 <= k < |run| ==> IsWhitespace(run[k])
    requires rest == [] || !IsWhitespace(rest[0])
    ensures DropWhitespace(run + rest) == rest
  {
    AppendParts(run, rest);
    if run != [] {
      DropRun(run[1..], rest);
    }
  }

  // ---------------------------------------------------------------------
  // Rows

  /** The product carries the category label `l`. */
  function HasLabel(l: string): InvestmentProduct -> bool
  {
    (p: InvestmentProduct) => p.category == l
  }

  /** The keys of the `Map` built by `getCategoryRows`: the distinct category
      labels of `ps`, in the order each is first seen. */
  function Labels(ps: seq<InvestmentProduct>): (r: seq<string>)
    ensures Distinct(r)
    ensures forall l :: l in r <==> exists k :: 0 <= k < |ps| && ps[k].category == l
    decreases |ps|
  {
    if ps == [] then []
    else
      var init := Labels(ps[..|ps| - 1]);
      var l := ps[|ps| - 1].category;
      assert forall k :: 0 <= k < |ps| - 1 ==> ps[..|ps| - 1][k] == ps[k];
      if l in init then init else init + [l]
  }

  /** The products of `ps` labelled `l`, in their order in `ps`. */
  function OfLabel(ps: seq<InvestmentProduct>, l: string): seq<InvestmentProduct>
  {
    Filter(ps, HasLabel(l))
  }

  /** The row for label `l`. */
  function RowOf(ps: seq<InvestmentProduct>, l: string): CategoryRow
  {
    CategoryRow(Slug(l), l, OfLabel(ps, l))
  }

  /** The rows `getCategoryRows` returns for the products `ps`: one per label,
      in first-seen order. */
  function RowsOf(ps: seq<InvestmentProduct>): (rows: seq<CategoryRow>)
    ensures |rows| == |Labels(ps)|
    ensures forall i :: 0 <= i < |rows| ==> rows[i] == RowOf(ps, Labels(ps)[i])
  {
    var labels := Labels(ps);
    seq(|labels|, i requires 0 <= i < |labels| => RowOf(ps, labels[i]))
  }

  /** The `forEach` of `getCategoryRows`: a `Map` from label to products,
      filled in catalog order; `keys` is its insertion order. */
  method CollectGroups(products: seq<InvestmentProduct>)
    returns (keys: seq<string>, groups: map<string, seq<InvestmentProduct>>)
    ensures keys == Labels(products)
    ensures forall l :: l in groups <==> l in keys
    ensures forall l :: l in groups ==> groups[l] == OfLabel(products, l)
  {
    keys, groups := [], map[];
    for i := 0 to |products|
      invariant keys == Labels(products[..i])
      invariant forall l :: l in groups <==> l in keys
      invariant forall l :: l in groups ==> groups[l] == OfLabel(products[..i], l)
    {
      var p := products[i];
      LabelsOfLonger(products, i);
      ghost var before := groups;
      if p.category !in groups {
        keys := keys + [p.category];
        groups := groups[p.category := []];
      }
      groups := groups[p.category := groups[p.category] + [p]];
      forall l | l in groups ensures groups[l] == OfLabel(products[..i + 1], l) {
        OfLabelOfLonger(products, i, l);
        if l != p.category {
          assert groups[l] == before[l];
        } else if l !in before {
          OfLabelUnseen(products[..i], l);
          assert groups[l] == [p];
        } else {
          assert groups[l] == before[l] + [p];
        }
      }
    }
    assert products[..|products|] == products;
  }

  /** The grouping step of `getCategoryRows`: the map's entries, in key order,
      as rows. */
  method GroupIntoRows(products: seq<InvestmentProduct>) returns (rows: seq<CategoryRow>)
    ensures rows == RowsOf(products)
  {
    var keys, groups := CollectGroups(products);
    ghost var spec := RowsOf(products);
    rows := [];
    for i := 0 to |keys|
      invariant rows == spec[..i]
    {
      var row := CategoryRow(Slug(keys[i]), keys[i], groups[keys[i]]);
      assert row == spec[i];
      PrefixSnoc(spec, i);
      rows := rows + [row];
    }
    WholePrefix(spec);
  }

  lemma LabelsOfLonger(ps: seq<InvestmentProduct>, i: nat)
    requires i < |ps|
    ensures Labels(ps[..i + 1])
         == if ps[i].category in Labels(ps[..i]) then Labels(ps[..i]) else Labels(ps[..i]) + [ps[i].category]
  {
    assert ps[..i + 1][..i] == ps[..i];
  }

  /** A label no product carries has no products. */
  lemma OfLabelUnseen(ps: seq<InvestmentProduct>, l: string)
    requires l !in Labels(ps)
    ensures OfLabel(ps, l) == []
  {
    forall k | 0 <= k < |ps| ensures !HasLabel(l)(ps[k]) {
      assert ps[k].category in Labels(ps);
    }
    FilterNone(ps, HasLabel(l));
  }

  lemma OfLabelOfLonger(ps: seq<InvestmentProduct>, i: nat, l: string)
    requires i < |ps|
    ensures OfLabel(ps[..i + 1], l) == OfLabel(ps[..i], l) + (if ps[i].category == l then [ps[i]] else [])
  {
    assert ps[..i + 1] == ps[..i] + [ps[i]];
    FilterAppend(ps[..i], [ps[i]], HasLabel(l));
  }

  // ---------------------------------------------------------------------
  // What the rows promise

  /** The products of the rows, row after row. */
  function Flatten(rows: seq<CategoryRow>): seq<InvestmentProduct>
  {
    if rows == [] then [] else Flatten(rows[..|rows| - 1]) + rows[|rows| - 1].products
  }

  /** The product carries one of the labels `ls`. */
  function InLabels(ls: seq<string>): InvestmentProduct -> bool
  {
    (p: InvestmentProduct) => p.category in ls
  }

  lemma {:induction false} FlattenPrefix(ps: seq<InvestmentProduct>, n: nat)
    requires n <= |Labels(ps)|
    ensures multiset(Flatten(RowsOf(ps)[..n])) == multiset(Filter(ps, InLabels(Labels(ps)[..n])))
  {
    var rows, labels := RowsOf(ps), Labels(ps);
    if n == 0 {
      assert rows[..0] == [];
      FilterNone(ps, InLabels(labels[..0]));
    } else {
      FlattenPrefix(ps, n - 1);
      var l := labels[n - 1];
      PrefixOfPrefix(rows, n);
      assert rows[n - 1].products == OfLabel(ps, l);
      assert Flatten(rows[..n]) == Flatten(rows[..n - 1]) + OfLabel(ps, l);
      LabelsApart(ps, labels, n);
      FilterUnion(ps, HasLabel(l), InLabels(labels[..n - 1]), InLabels(labels[..n]));
    }
  }

  lemma LabelsApart(ps: seq<InvestmentProduct>, labels: seq<string>, n: nat)
    requires Distinct(labels) && 0 < n <= |labels|
    ensures forall i :: 0 <= i < |ps| ==>
      (InLabels(labels[..n])(ps[i]) <==> HasLabel(labels[n - 1])(ps[i]) || InLabels(labels[..n - 1])(ps[i]))
    ensures forall i :: 0 <= i < |ps| ==> !(HasLabel(labels[n - 1])(ps[i]) && InLabels(labels[..n - 1])(ps[i]))
  {
    forall i | 0 <= i < |ps|
      ensures InLabels(labels[..n])(ps[i]) <==> HasLabel(labels[n - 1])(ps[i]) || InLabels(labels[..n - 1])(ps[i])
      ensures !(HasLabel(labels[n - 1])(ps[i]) && InLabels(labels[..n - 1])(ps[i]))
    {
      LastLabelApart(labels, n, ps[i].category);
    }
  }

  lemma LastLabelApart(labels: seq<string>, n: nat, c: string)
    requires Distinct(labels) && 0 < n <= |labels|
    ensures c in labels[..n] <==> c == labels[n - 1] || c in labels[..n - 1]
    ensures !(c == labels[n - 1] && c in labels[..n - 1])
  {
    assert labels[..n] == labels[..n - 1] + [labels[n - 1]];
    if c in labels[..n - 1] {
      var m :| 0 <= m < n - 1 && labels[..n - 1][m] == c;
      assert labels[m] != labels[n - 1];
    }
  }

  /** The rows partition the products: each product lands in exactly as many
      row places as it has occurrences. */
  lemma RowsPartition(ps: seq<InvestmentProduct>)
    ensures multiset(Flatten(RowsOf(ps))) == multiset(ps)
  {
    var rows, labels := RowsOf(ps), Labels(ps);
    FlattenPrefix(ps, |labels|);
    assert rows[..|labels|] == rows && labels[..|labels|] == labels;
    forall i | 0 <= i < |ps| ensures InLabels(labels)(ps[i]) {
      assert ps[i].category in labels;
    }
    FilterAll(ps, InLabels(labels));
  }

  /** One row per label: titles are distinct, each row's id is derived from its
      title, and the row holds exactly the products with that label, in their
      order, so it is never empty. */
  lemma RowsByLabel(ps: seq<InvestmentProduct>, i: nat)
    requires i < |RowsOf(ps)|
    ensures var row := RowsOf(ps)[i];
      && row.id == Slug(row.title)
      && (exists k :: 0 <= k < |ps| && ps[k].category == row.title)
      && row.products != []
      && (forall k :: 0 <= k < |row.products| ==> row.products[k].category == row.title)
      && (forall k :: 0 <= k < |ps| && ps[k].category == row.title ==> ps[k] in row.products)
      && IsSubsequence(row.products, ps)
    ensures forall j :: 0 <= j < |RowsOf(ps)| && j != i ==> RowsOf(ps)[j].title != RowsOf(ps)[i].title
  {
    var l := Labels(ps)[i];
    var row := RowsOf(ps)[i];
    assert l in Labels(ps);
    var k :| 0 <= k < |ps| && ps[k].category == l;
    assert ps[k] in row.products;
    FilterIsSubsequence(ps, HasLabel(l));
  }

  /** A product in a row is one of the products, with the row's label. */
  lemma RowProductIn(ps: seq<InvestmentProduct>, i: nat, k: nat)
    requires i < |RowsOf(ps)| && k < |RowsOf(ps)[i].products|
    ensures RowsOf(ps)[i].products[k] in ps
    ensures RowsOf(ps)[i].products[k].category == RowsOf(ps)[i].title
  {
    var row := RowsOf(ps)[i];
    assert row.products == Filter(ps, HasLabel(row.title));
    assert HasLabel(row.title)(row.products[k]);
  }

  /** Every product's label has a row. */
  lemma EveryLabelHasRow(ps: seq<InvestmentProduct>, k: nat)
    requires k < |ps|
    ensures exists i :: 0 <= i < |RowsOf(ps)| && RowsOf(ps)[i].title == ps[k].category
  {
    assert ps[k].category in Labels(ps);
    var i :| 0 <= i < |Labels(ps)| && Labels(ps)[i] == ps[k].category;
    assert RowsOf(ps)[i].title == ps[k].category;
  }

  /** No products, no rows; some product, some row. */
  lemma RowsEmptyIff(ps: seq<InvestmentProduct>)
    ensures RowsOf(ps) == [] <==> ps == []
  {
    if ps != [] {
      EveryLabelHasRow(ps, 0);
    }
  }

  /** Rows appear in the order their labels are first seen: before any
      product of a later row there is a product of each earlier row. */
  lemma {:induction false} LabelsFirstSeen(ps: seq<InvestmentProduct>, a: nat, b: nat, k: nat)
    requires a < b < |Labels(ps)| && k < |ps| && ps[k].category == Labels(ps)[b]
    ensures exists m :: 0 <= m < k && ps[m].category == Labels(ps)[a]
    decreases |ps|
  {
    var init := ps[..|ps| - 1];
    var labels, before := Labels(ps), Labels(init);
    assert forall j :: 0 <= j < |init| ==> init[j] == ps[j];
    if b < |before| {
      assert labels[a] == before[a] && labels[b] == before[b];
      if k == |ps| - 1 {
        var k' :| 0 <= k' < |init| && init[k'].category == before[b];
        LabelsFirstSeen(init, a, b, k');
      } else {
        LabelsFirstSeen(init, a, b, k);
      }
      var m :| 0 <= m < k && init[m].category == before[a];
    } else {
      assert labels == before + [ps[|ps| - 1].category];
      assert labels[a] in before;
      var m :| 0 <= m < |init| && init[m].category == labels[a];
    }
  }
}
