/**
 * The settlement run: every uploaded file is analysed, each result that is a
 * dictionary of buckets is credited key by key into one running summary
 * (files that produced a message are skipped), and the summary is laid out as
 * a two-row report (과세, 면세) whose 합계 column adds up the three payment
 * columns of its row.
 */
module Settlement {
  import opened Wrappers
  import opened Tax
  import opened Marketplace

  // ---------------------------------------------------------------- result keys

  const TaxableName: string := "과세"
  const ExemptName: string := "면세"

  function CategoryName(c: Category): string {
    match c
    case Taxable => TaxableName
    case Exempt => ExemptName
  }

  /** The short payment names the adapters write after the underscore. */
  function PaymentKey(p: Payment): string {
    match p
    case Card => "신용"
    case Cash => "현금"
    case Other => "기타"
  }

  /** `typ_map`: short payment name to payment type; any other name fails the lookup. */
  function PaymentOf(typ: string): Option<Payment> {
    if typ == "신용" then Some(Card)
    else if typ == "현금" then Some(Cash)
    else if typ == "기타" then Some(Other)
    else None
  }

  /** The key an adapter's dictionary uses for one bucket, such as `과세_신용`. */
  function Key(c: Category, p: Payment): string {
    CategoryName(c) + "_" + PaymentKey(p)
  }

  /** An adapter's result dictionary as `items()` yields it, in insertion order. */
  function Items(b: Buckets): seq<(string, int)> {
    [(Key(Taxable, Card), b.taxableCard)] + [(Key(Taxable, Cash), b.taxableCash)] + [(Key(Taxable, Other), b.taxableOther)]
    + [(Key(Exempt, Card), b.exemptCard)] + [(Key(Exempt, Cash), b.exemptCash)] + [(Key(Exempt, Other), b.exemptOther)]
  }

  /** The position of the first `c` in `s`, if any. */
  function IndexOf(s: string, c: char): (r: Option<nat>)
    ensures r.Some? ==> r.value < |s|
  {
    if s == [] then None
    else if s[0] == c then Some(0)
    else match IndexOf(s[1..], c)
      case None => None
      case Some(i) => Some(i + 1)
  }

  lemma {:induction false} IndexOfSpec(s: string, c: char)
    ensures IndexOf(s, c).None? <==> c !in s
    ensures IndexOf(s, c).Some? ==> s[IndexOf(s, c).value] == c && c !in s[..IndexOf(s, c).value]
  {
    if s != [] && s[0] != c {
      IndexOfSpec(s[1..], c);
      assert s == [s[0]] + s[1..];
      if IndexOf(s[1..], c).Some? {
        var i := IndexOf(s[1..], c).value;
        assert s[..i + 1] == [s[0]] + s[1..][..i];
      }
    }
  }

  /** In `a + [c] + b` with no `c` in `a`, the first `c` is the one after `a`. */
  lemma {:induction false} IndexOfAfter(a: string, c: char, b: string)
    requires c !in a
    ensures IndexOf(a + [c] + b, c) == Some(|a|)
  {
    if a != [] {
      assert (a + [c] + b)[1..] == a[1..] + [c] + b;
      IndexOfAfter(a[1..], c, b);
    }
  }

  /**
   * Where the aggregation loop credits a result key: `k.split('_')` must give
   * exactly two parts, the category is taxable when the first part is exactly
   * `과세` and exempt for anything else, and the second part goes through
   * `typ_map`.  None stands for the exception the loop would raise.
   */
  function Route(key: string): Option<(Category, Payment)> {
    match IndexOf(key, '_')
    case None => None
    case Some(i) =>
      var cat, typ := key[..i], key[i + 1..];
      if '_' in typ then None
      else match PaymentOf(typ)
        case None => None
        case Some(p) => Some((if cat == TaxableName then Taxable else Exempt, p))
  }

  /** Helper: a key made of two underscore-free parts splits back into them. */
  lemma RouteParts(cat: string, typ: string)
    requires '_' !in cat && '_' !in typ
    ensures Route(cat + "_" + typ) ==
      match PaymentOf(typ)
      case None => None
      case Some(p) => Some((if cat == TaxableName then Taxable else Exempt, p))
  {
    var key := cat + "_" + typ;
    IndexOfAfter(cat, '_', typ);
    assert key[..|cat|] == cat;
    assert key[|cat| + 1..] == typ;
  }

  /** Every key an adapter writes is credited to its own bucket. */
  lemma RouteKey(c: Category, p: Payment)
    ensures Route(Key(c, p)) == Some((c, p))
  {
    RouteParts(CategoryName(c), PaymentKey(p));
  }

  /** A first part other than exactly `과세` is credited to the exempt side. */
  lemma RouteOtherCategoryIsExempt(cat: string, typ: string)
    requires '_' !in cat && '_' !in typ && cat != TaxableName && PaymentOf(typ).Some?
    ensures Route(cat + "_" + typ) == Some((Exempt, PaymentOf(typ).value))
  {
    RouteParts(cat, typ);
  }

  /** A key without exactly one underscore, or with an unknown payment name, is not credited anywhere. */
  lemma RouteRejects(key: string)
    ensures '_' !in key ==> Route(key).None?
    ensures (exists i, j :: 0 <= i < j < |key| && key[i] == '_' && key[j] == '_') ==> Route(key).None?
    ensures Route(key).Some? ==> exists i :: 0 <= i < |key| && key[i] == '_' && PaymentOf(key[i + 1..]).Some?
  {
    IndexOfSpec(key, '_');
    if i, j :| 0 <= i < j < |key| && key[i] == '_' && key[j] == '_' {
      var k := IndexOf(key, '_').value;
      assert key[k + 1..][j - k - 1] == '_';
    }
  }

  /**
   * What crediting the items one after another adds up to; None when the loop
   * would raise on one of them.
   */
  function Credited(items: seq<(string, int)>): Option<Buckets> {
    if items == [] then Some(Zero)
    else
      var last := items[|items| - 1];
      match Credited(items[..|items| - 1])
      case None => None
      case Some(sum) =>
        match Route(last.0)
        case None => None
        case Some(cp) => Some(sum.Plus(Unit(cp.0, cp.1, last.1)))
  }

  /** Helper: crediting one more item adds its unit amount. */
  lemma CreditedStep(items: seq<(string, int)>, key: string, v: int)
    requires Credited(items).Some? && Route(key).Some?
    ensures Credited(items + [(key, v)]) == Some(Credited(items).value.Plus(Unit(Route(key).value.0, Route(key).value.1, v)))
  {
    assert (items + [(key, v)])[..|items|] == items;
  }

  /** Helper: crediting an adapter's key adds the amount to that key's own bucket. */
  lemma CreditedKey(items: seq<(string, int)>, c: Category, p: Payment, v: int)
    requires Credited(items).Some?
    ensures Credited(items + [(Key(c, p), v)]) == Some(Credited(items).value.Plus(Unit(c, p, v)))
  {
    RouteKey(c, p);
    CreditedStep(items, Key(c, p), v);
  }

  /** When crediting all items succeeds, every prefix succeeds and every key names a bucket. */
  lemma {:induction false} CreditedPrefix(items: seq<(string, int)>, i: nat)
    requires Credited(items).Some? && i < |items|
    ensures Credited(items[..i]).Some? && Route(items[i].0).Some?
    decreases |items|
  {
    var n := |items| - 1;
    if i < n {
      assert items[..n][..i] == items[..i];
      CreditedPrefix(items[..n], i);
    } else {
      assert items[..i] == items[..n];
    }
  }

  /** Every item of a result dictionary names a bucket. */
  lemma ItemRoutes(b: Buckets, i: nat)
    requires i < |Items(b)|
    ensures Route(Items(b)[i].0).Some?
  {
    var c := if i < 3 then Taxable else Exempt;
    var p := if i % 3 == 0 then Card else if i % 3 == 1 then Cash else Other;
    assert Items(b)[i].0 == Key(c, p);
    RouteKey(c, p);
  }

  /** Crediting the six items of a result dictionary adds exactly that result, bucket for bucket. */
  lemma ItemsCredited(b: Buckets)
    ensures Credited(Items(b)) == Some(b)
  {
    var i0: seq<(string, int)> := [];
    CreditedKey(i0, Taxable, Card, b.taxableCard);
    var i1 := [(Key(Taxable, Card), b.taxableCard)];
    assert i0 + i1 == i1;
    assert Credited(i1) == Some(Buckets(b.taxableCard, 0, 0, 0, 0, 0));
    CreditedKey(i1, Taxable, Cash, b.taxableCash);
    var i2 := i1 + [(Key(Taxable, Cash), b.taxableCash)];
    assert Credited(i2) == Some(Buckets(b.taxableCard, b.taxableCash, 0, 0, 0, 0));
    CreditedKey(i2, Taxable, Other, b.taxableOther);
    var i3 := i2 + [(Key(Taxable, Other), b.taxableOther)];
    assert Credited(i3) == Some(Buckets(b.taxableCard, b.taxableCash, b.taxableOther, 0, 0, 0));
    CreditedKey(i3, Exempt, Card, b.exemptCard);
    var i4 := i3 + [(Key(Exempt, Card), b.exemptCard)];
    assert Credited(i4) == Some(Buckets(b.taxableCard, b.taxableCash, b.taxableOther, b.exemptCard, 0, 0));
    CreditedKey(i4, Exempt, Cash, b.exemptCash);
    var i5 := i4 + [(Key(Exempt, Cash), b.exemptCash)];
    assert Credited(i5) == Some(Buckets(b.taxableCard, b.taxableCash, b.taxableOther, b.exemptCard, b.exemptCash, 0));
    CreditedKey(i5, Exempt, Other, b.exemptOther);
    var i6 := i5 + [(Key(Exempt, Other), b.exemptOther)];
    assert i6 == Items(b);
  }

  // ---------------------------------------------------------------- the fold

  /** What one file adds to the settlement: its buckets, or nothing when it produced a message. */
  function Contribution(r: FileResult): Buckets {
    match r
    case Summary(b) => b
    case Message(_) => Zero
  }

  /** The settlement of the files, taken in upload order. */
  function Total(files: seq<Upload>): Buckets {
    if files == [] then Zero
    else Total(files[..|files| - 1]).Plus(Contribution(Analyze(files[|files| - 1])))
  }

  /** Helper: settling one more file adds its contribution. */
  lemma TotalStep(files: seq<Upload>, i: nat)
    requires i < |files|
    ensures Total(files[..i + 1]) == Total(files[..i]).Plus(Contribution(Analyze(files[i])))
  {
    assert files[..i + 1][..i] == files[..i];
  }

  lemma PrefixSnoc<T>(s: seq<T>, i: nat)
    requires i < |s|
    ensures s[..i] + [s[i]] == s[..i + 1]
  {
  }

  lemma SplitAt<T>(s: seq<T>, j: nat)
    requires j < |s|
    ensures s == (s[..j] + [s[j]]) + s[j + 1..]
  {
  }

  /** Helper: settling a single file gives its contribution. */
  lemma TotalSingle(f: Upload)
    ensures Total([f]) == Contribution(Analyze(f))
  {
    assert [f][..0] == [];
    PlusZero(Contribution(Analyze(f)));
  }

  /** Settling two batches of files one after the other adds their settlements. */
  lemma {:induction false} TotalAppend(a: seq<Upload>, b: seq<Upload>)
    ensures Total(a + b) == Total(a).Plus(Total(b))
  {
    if b == [] {
      assert a + b == a;
      PlusZero(Total(a));
    } else {
      var front := b[..|b| - 1];
      assert (a + b)[..|a + b| - 1] == a + front;
      TotalAppend(a, front);
      PlusAssociates(Total(a), Total(front), Contribution(Analyze(b[|b| - 1])));
    }
  }

  /** A file that produced a message changes nothing, wherever it was uploaded. */
  lemma TotalSkipsMessages(a: seq<Upload>, f: Upload, b: seq<Upload>)
    requires Analyze(f).Message?
    ensures Total(a + [f] + b) == Total(a + b)
  {
    TotalAppend(a + [f], b);
    TotalAppend(a, [f]);
    assert [f][..0] == [];
    PlusZero(Total(a));
    TotalAppend(a, b);
  }

  /** Helper: taking the same file out of two permutations of each other leaves permutations. */
  lemma RemoveMatching(a: seq<Upload>, b: seq<Upload>, j: nat)
    requires multiset(a) == multiset(b) && |a| > 0 && j < |b| && b[j] == a[|a| - 1]
    ensures multiset(a[..|a| - 1]) == multiset(b[..j] + b[j + 1..])
  {
    var n := |a| - 1;
    assert a == a[..n] + [a[n]];
    assert b == b[..j] + [b[j]] + b[j + 1..];
    assert multiset(a) == multiset(a[..n]) + multiset([a[n]]);
    assert multiset(b) == multiset(b[..j]) + multiset([b[j]]) + multiset(b[j + 1..]);
    assert multiset(b[..j] + b[j + 1..]) == multiset(b[..j]) + multiset(b[j + 1..]);
    assert multiset(a[..n]) == multiset(a) - multiset([a[n]]);
  }

  /** Helper: a file anywhere in the batch contributes the same as if it were uploaded last. */
  lemma TotalMoveToEnd(b: seq<Upload>, j: nat)
    requires j < |b|
    ensures Total(b) == Total(b[..j] + b[j + 1..]).Plus(Contribution(Analyze(b[j])))
  {
    var x, front, back := b[j], b[..j], b[j + 1..];
    SplitAt(b, j);
    TotalAppend(front + [x], back);
    TotalAppend(front, [x]);
    TotalSingle(x);
    TotalAppend(front, back);
    PlusSwap(Total(front), Total([x]), Total(back));
  }

  /** The order in which the files were uploaded does not matter. */
  lemma {:induction false} TotalPermutation(a: seq<Upload>, b: seq<Upload>)
    requires multiset(a) == multiset(b)
    ensures Total(a) == Total(b)
    decreases |a|
  {
    if a == [] {
      assert |b| == |multiset(b)| == 0;
    } else {
      var n := |a| - 1;
      assert a[n] in multiset(b);
      var j :| 0 <= j < |b| && b[j] == a[n];
      RemoveMatching(a, b, j);
      TotalPermutation(a[..n], b[..j] + b[j + 1..]);
      TotalMoveToEnd(b, j);
    }
  }

  // ---------------------------------------------------------------- running summary

  /** `final_summary`: category, then payment type, to the amount credited so far. */
  class FinalSummary {
    var cells: map<Category, map<Payment, int>>

    ghost predicate Valid()
      reads this
    {
      Taxable in cells && Exempt in cells &&
      Card in cells[Taxable] && Cash in cells[Taxable] && Other in cells[Taxable] &&
      Card in cells[Exempt] && Cash in cells[Exempt] && Other in cells[Exempt]
    }

    /** The six buckets the summary holds. */
    function Value(): Buckets
      reads this
      requires Valid()
    {
      Buckets(cells[Taxable][Card], cells[Taxable][Cash], cells[Taxable][Other],
              cells[Exempt][Card], cells[Exempt][Cash], cells[Exempt][Other])
    }

    /** Every bucket starts at 0. */
    constructor ()
      ensures Valid() && Value() == Zero
    {
      cells := map[Taxable := map[Card := 0, Cash := 0, Other := 0],
                   Exempt := map[Card := 0, Cash := 0, Other := 0]];
    }

    /** `final_summary[cat][typ_map[typ]] += v` for one result key. */
    method Credit(key: string, v: int)
      requires Valid() && Route(key).Some?
      modifies this
      ensures Valid()
      ensures Value() == old(Value()).Plus(Unit(Route(key).value.0, Route(key).value.1, v))
    {
      var cp := Route(key).value;
      var c, p := cp.0, cp.1;
      cells := cells[c := cells[c][p := cells[c][p] + v]];
      Extensional(Value(), old(Value()).Plus(Unit(c, p, v)));
    }

    /**
     * The inner loop: credit every item, in order.  The caller guarantees
     * that every key names a bucket, since the loop would raise otherwise.
     */
    method AddItems(items: seq<(string, int)>)
      requires Valid() && Credited(items).Some?
      modifies this
      ensures Valid() && Value() == old(Value()).Plus(Credited(items).value)
    {
      PlusZero(Value());
      var i := 0;
      while i < |items|
        invariant 0 <= i <= |items|
        invariant Valid()
        invariant Credited(items[..i]).Some?
        invariant Value() == old(Value()).Plus(Credited(items[..i]).value)
      {
        var (k, v) := items[i];
        CreditedPrefix(items, i);
        Credit(k, v);
        PrefixSnoc(items, i);
        CreditedStep(items[..i], k, v);
        PlusAssociates(old(Value()), Credited(items[..i]).value, Unit(Route(k).value.0, Route(k).value.1, v));
        i := i + 1;
      }
      assert items[..|items|] == items;
    }

    /** Crediting a result dictionary adds that result. */
    method AddSummary(b: Buckets)
      requires Valid()
      modifies this
      ensures Valid() && Value() == old(Value()).Plus(b)
    {
      ItemsCredited(b);
      AddItems(Items(b));
    }

    /** One pass of the outer loop: analyse the file and credit its result if it is a dictionary. */
    method AddFile(f: Upload)
      requires Valid()
      modifies this
      ensures Valid() && Value() == old(Value()).Plus(Contribution(Analyze(f)))
    {
      var res := Analyze(f);
      if res.Summary? {
        AddSummary(res.buckets);
      } else {
        PlusZero(Value());
      }
    }
  }

  // ---------------------------------------------------------------- report

  /** One report row: the three payment columns and their 합계. */
  datatype ReportRow = ReportRow(card: int, cash: int, other: int, total: int)

  /** The report: the 과세 row and the 면세 row. */
  datatype Report = Report(taxable: ReportRow, exempt: ReportRow)

  function Row(b: Buckets, c: Category): (r: ReportRow)
    ensures r.card == b.At(c, Card) && r.cash == b.At(c, Cash) && r.other == b.At(c, Other)
    ensures r.total == r.card + r.cash + r.other
  {
    ReportRow(b.At(c, Card), b.At(c, Cash), b.At(c, Other), b.CategoryTotal(c))
  }

  /** The summary transposed into rows, with 합계 appended to each row. */
  function ReportOf(b: Buckets): Report {
    Report(Row(b, Taxable), Row(b, Exempt))
  }

  /** The report's 합계 for a category, for a batch of files, is the sum of the batches' 합계. */
  lemma ReportTotalAdditive(a: seq<Upload>, b: seq<Upload>, c: Category)
    ensures Row(Total(a + b), c).total == Row(Total(a), c).total + Row(Total(b), c).total
  {
    TotalAppend(a, b);
  }

  /**
   * The whole run: start from an empty summary, credit each file's result
   * dictionary and skip each message, then build the report.
   */
  method Settle(files: seq<Upload>) returns (report: Report)
    ensures report == ReportOf(Total(files))
  {
    var summary := new FinalSummary();
    var i := 0;
    while i < |files|
      invariant 0 <= i <= |files|
      invariant summary.Valid() && summary.Value() == Total(files[..i])
    {
      summary.AddFile(files[i]);
      TotalStep(files, i);
      i := i + 1;
    }
    assert files[..|files|] == files;
    report := ReportOf(summary.Value());
  }
}
